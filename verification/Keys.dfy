/** Idempotency keys: the names of the operations that write under a key, and the strings they write under. */
module Keys {

  /** What an idempotency key stands for. Invoices, payments and brokers are numbered; a period is a month number. */
  datatype KeyName =
    | DisbursementKey(invoiceId: nat)
    | ReserveHoldKey(invoiceId: nat)
    | FundingCreditKey(invoiceId: nat)
    | ReserveReleaseKey(invoiceId: nat)
    | SettlementCreditKey(invoiceId: nat)
    | ChargebackKey(invoiceId: nat)
    | ChargebackCreditKey(invoiceId: nat)
    | WriteOffKey(invoiceId: nat)
    | ReceiptKey(paymentId: nat)
    | AccrualKey(invoiceId: nat, month: int)
    | FeeInvoiceKey(brokerId: nat, month: int)

  /** How operations are given their key strings: the controller defaults, or any other assignment. */
  type KeyScheme = KeyName -> string

  ghost predicate Injective(ks: KeyScheme) {
    forall a, b :: ks(a) == ks(b) ==> a == b
  }

  /** The keys fund derives from the one it is called with. */
  datatype FundKeys = FundKeys(disbursement: string, reserveHold: string, credit: string)

  function FundKeysOf(idempotencyKey: string): FundKeys {
    FundKeys(idempotencyKey + ":disbursement", idempotencyKey + ":reserve-hold", idempotencyKey + ":credit-limit")
  }

  /** A ledger key and a change log key, for settle and chargeback. */
  datatype KeyPair = KeyPair(entry: string, credit: string)

  function SettleKeysOf(idempotencyKey: string): KeyPair {
    KeyPair(idempotencyKey + ":reserve-release", idempotencyKey + ":credit-limit-restore")
  }

  function ChargebackKeysOf(idempotencyKey: string): KeyPair {
    KeyPair(idempotencyKey + ":chargeback", idempotencyKey + ":credit-limit-restore")
  }

  function WriteOffKeyOf(idempotencyKey: string): string {
    idempotencyKey + ":write-off"
  }

  // ---- The default strings

  /** Decimal digits of n, padded with zeros to at least the given width. */
  function Pad(n: nat, width: nat): string
    decreases n, width
  {
    if n == 0 && width == 0 then ""
    else if n == 0 then Pad(0, width - 1) + "0"
    else Pad(n / 10, if width == 0 then 0 else width - 1) + [Digit(n % 10)]
  }

  function Digit(d: nat): char
    requires d < 10
  {
    "0123456789"[d]
  }

  /** Years as toISOString writes them: four digits, or a sign and six digits outside 0 to 9999. */
  function YearString(year: int): string {
    if 0 <= year <= 9999 then Pad(year, 4) else if year < 0 then "-" + Pad(-year, 6) else "+" + Pad(year, 6)
  }

  const MIDNIGHT := "-01T00:00:00.000Z"

  /** The ISO string of a month's first instant. */
  function IsoMonth(month: int): string {
    YearString(month / 12) + "-" + Pad(month % 12 + 1, 2) + MIDNIGHT
  }

  /** Fixed text before the id. */
  function Prefix(name: KeyName): string {
    match name
    case DisbursementKey(_) => "fund:"
    case ReserveHoldKey(_) => "fund:"
    case FundingCreditKey(_) => "fund:"
    case ReserveReleaseKey(_) => "settle:"
    case SettlementCreditKey(_) => "settle:"
    case ChargebackKey(_) => "chargeback:"
    case ChargebackCreditKey(_) => "chargeback:"
    case WriteOffKey(_) => "write-off:"
    case ReceiptKey(_) => "payment-receipt:"
    case AccrualKey(_, _) => "fee-accrual:"
    case FeeInvoiceKey(_, _) => "fee-invoice:"
  }

  /** Text after the id. */
  function Suffix(name: KeyName): string {
    match name
    case DisbursementKey(_) => ":disbursement"
    case ReserveHoldKey(_) => ":reserve-hold"
    case FundingCreditKey(_) => ":credit-limit"
    case ReserveReleaseKey(_) => ":reserve-release"
    case SettlementCreditKey(_) => ":credit-limit-restore"
    case ChargebackKey(_) => ":chargeback"
    case ChargebackCreditKey(_) => ":credit-limit-restore"
    case WriteOffKey(_) => ":write-off"
    case ReceiptKey(_) => ""
    case AccrualKey(_, m) => ":" + IsoMonth(m)
    case FeeInvoiceKey(_, m) => ":" + IsoMonth(m)
  }

  function IdOf(name: KeyName): nat {
    match name
    case ReceiptKey(p) => p
    case FeeInvoiceKey(b, _) => b
    case _ => name.invoiceId
  }

  /** The key string of an operation when no idempotency-key header is sent; uuid gives each row number its id. */
  function DefaultKey(uuid: nat -> string, name: KeyName): string {
    Prefix(name) + uuid(IdOf(name)) + Suffix(name)
  }

  function DefaultKeys(uuid: nat -> string): KeyScheme {
    (name: KeyName) => DefaultKey(uuid, name)
  }

  // ---- The default strings never collide

  /** Which of the eleven families a key string belongs to, read off its characters. */
  function Family(s: string): int {
    if |s| < 7 then 0
    else
      match s[0]
      case 'f' =>
        if s[1] == 'e' then (if s[4] == 'a' then 10 else 11)
        else if s[|s| - 1] == 'd' then 2
        else if s[|s| - 2] == 'n' then 1
        else 3
      case 's' => if s[|s| - 3] == 'a' then 4 else 5
      case 'c' => if s[|s| - 1] == 'k' then 6 else 7
      case 'w' => 8
      case _ => 9
  }

  function FamilyOfName(name: KeyName): int {
    match name
    case DisbursementKey(_) => 1
    case ReserveHoldKey(_) => 2
    case FundingCreditKey(_) => 3
    case ReserveReleaseKey(_) => 4
    case SettlementCreditKey(_) => 5
    case ChargebackKey(_) => 6
    case ChargebackCreditKey(_) => 7
    case WriteOffKey(_) => 8
    case ReceiptKey(_) => 9
    case AccrualKey(_, _) => 10
    case FeeInvoiceKey(_, _) => 11
  }

  lemma Ends(p: string, u: string, s: string, i: nat, j: nat)
    ensures i < |p| ==> (p + u + s)[i] == p[i]
    ensures 1 <= j <= |s| ==> (p + u + s)[|p + u + s| - j] == s[|s| - j]
  {
  }

  lemma FamilyRecovered(uuid: nat -> string, name: KeyName)
    ensures Family(DefaultKey(uuid, name)) == FamilyOfName(name)
  {
    if name.AccrualKey? || name.FeeInvoiceKey? {
      FeeFamilies(uuid(IdOf(name)), Suffix(name));
    } else if name.DisbursementKey? || name.ReserveHoldKey? || name.FundingCreditKey? {
      FundFamilies(uuid(IdOf(name)));
    } else {
      OtherFamilies(uuid(IdOf(name)));
    }
  }

  lemma FeeFamilies(u: string, s: string)
    ensures Family("fee-accrual:" + u + s) == 10 && Family("fee-invoice:" + u + s) == 11
  {
    Ends("fee-accrual:", u, s, 0, 0);
    Ends("fee-accrual:", u, s, 1, 0);
    Ends("fee-accrual:", u, s, 4, 0);
    Ends("fee-invoice:", u, s, 0, 0);
    Ends("fee-invoice:", u, s, 1, 0);
    Ends("fee-invoice:", u, s, 4, 0);
  }

  lemma FundFamilies(u: string)
    ensures Family("fund:" + u + ":disbursement") == 1
    ensures Family("fund:" + u + ":reserve-hold") == 2
    ensures Family("fund:" + u + ":credit-limit") == 3
  {
    Ends("fund:", u, ":disbursement", 0, 1);
    Ends("fund:", u, ":disbursement", 1, 2);
    Ends("fund:", u, ":reserve-hold", 0, 1);
    Ends("fund:", u, ":reserve-hold", 1, 2);
    Ends("fund:", u, ":credit-limit", 0, 1);
    Ends("fund:", u, ":credit-limit", 1, 2);
  }

  lemma OtherFamilies(u: string)
    ensures Family("settle:" + u + ":reserve-release") == 4
    ensures Family("settle:" + u + ":credit-limit-restore") == 5
    ensures Family("chargeback:" + u + ":chargeback") == 6
    ensures Family("chargeback:" + u + ":credit-limit-restore") == 7
    ensures Family("write-off:" + u + ":write-off") == 8
    ensures Family("payment-receipt:" + u + "") == 9
  {
    Ends("settle:", u, ":reserve-release", 0, 3);
    Ends("settle:", u, ":credit-limit-restore", 0, 3);
    Ends("chargeback:", u, ":chargeback", 0, 1);
    Ends("chargeback:", u, ":credit-limit-restore", 0, 1);
    Ends("write-off:", u, ":write-off", 0, 1);
    Ends("payment-receipt:", u, "", 0, 1);
  }

  function Value(digits: string): int {
    if digits == "" then 0 else 10 * Value(digits[..|digits| - 1]) + (digits[|digits| - 1] as int - '0' as int)
  }

  predicate AllDigits(s: string) {
    forall j :: 0 <= j < |s| ==> '0' <= s[j] <= '9'
  }

  lemma DigitAppended(s: string, d: nat)
    requires d < 10 && AllDigits(s)
    ensures Value(s + [Digit(d)]) == 10 * Value(s) + d && AllDigits(s + [Digit(d)])
  {
    assert (s + [Digit(d)])[..|s|] == s;
  }

  /** Reading the digits back gives the number, and four digits suffice for four-digit numbers. */
  lemma {:induction false} PadRoundTrip(n: nat, width: nat)
    ensures Value(Pad(n, width)) == n && AllDigits(Pad(n, width)) && width <= |Pad(n, width)|
    decreases n, width
  {
    if n == 0 && width == 0 {
    } else if n == 0 {
      PadRoundTrip(0, width - 1);
      assert Pad(n, width) == Pad(0, width - 1) + [Digit(0)];
      DigitAppended(Pad(0, width - 1), 0);
    } else {
      var narrower := if width == 0 then 0 else width - 1;
      PadRoundTrip(n / 10, narrower);
      DigitAppended(Pad(n / 10, narrower), n % 10);
    }
  }

  lemma PadTwo(n: nat)
    requires n < 100
    ensures |Pad(n, 2)| == 2
  {
    var t := n / 10;
    assert Pad(t / 10, 0) == "";
    assert |Pad(t, 1)| == 1;
  }

  lemma YearStringReadsBack(a: int, b: int)
    requires YearString(a) == YearString(b)
    ensures a == b
  {
    PadRoundTrip(if a < 0 then -a else a, if 0 <= a <= 9999 then 4 else 6);
    PadRoundTrip(if b < 0 then -b else b, if 0 <= b <= 9999 then 4 else 6);
    var ya, yb := YearString(a), YearString(b);
    if 0 <= a <= 9999 {
      assert '0' <= ya[0] <= '9';
    } else {
      assert ya[1..] == Pad(if a < 0 then -a else a, 6);
    }
    if 0 <= b <= 9999 {
      assert '0' <= yb[0] <= '9';
    } else {
      assert yb[1..] == Pad(if b < 0 then -b else b, 6);
    }
  }

  lemma YearHasNoColon(year: int)
    ensures ':' !in YearString(year)
  {
    PadRoundTrip(if year < 0 then -year else year, if 0 <= year <= 9999 then 4 else 6);
  }

  lemma ColonInside(u: string, x: string, v: string, y: string)
    requires u + ":" + x == v + ":" + y && |x| < |y|
    ensures ':' in y
  {
    assert (u + ":" + x)[|u|] == ':';
    assert (v + ":" + y)[|u|] == y[|u| - |v| - 1];
  }

  /** The last colon splits a string in one way only. */
  lemma LastColon(u: string, x: string, v: string, y: string)
    requires u + ":" + x == v + ":" + y
    requires ':' !in x && ':' !in y
    ensures u == v && x == y
  {
    if |x| < |y| {
      ColonInside(u, x, v, y);
    } else if |y| < |x| {
      ColonInside(v, y, u, x);
    } else {
      CutEnd(u + ":", x, v + ":", y);
      CutEnd(u, ":", v, ":");
    }
  }

  lemma CutEnd(a: string, x: string, b: string, y: string)
    requires a + x == b + y && |x| == |y|
    ensures a == b && x == y
  {
    assert a == (a + x)[..|a|] && b == (b + y)[..|b|];
    assert x == (a + x)[|a|..] && y == (b + y)[|b|..];
  }

  lemma CutFront(p: string, a: string, b: string)
    requires p + a == p + b
    ensures a == b
  {
    assert a == (p + a)[|p|..] && b == (p + b)[|p|..];
  }

  lemma Regroup(u: string, y: string, d: string, z: string)
    ensures u + (":" + (y + "-" + d + z)) == (u + ":" + y) + ("-" + d + z)
  {
  }

  /** An id and a period written as id:period can be told apart whatever characters the id holds. */
  lemma PeriodSuffixReadsBack(u: string, m: int, v: string, n: int)
    requires u + (":" + IsoMonth(m)) == v + (":" + IsoMonth(n))
    ensures u == v && m == n
  {
    var mm, nn := Pad(m % 12 + 1, 2), Pad(n % 12 + 1, 2);
    var ym, yn := YearString(m / 12), YearString(n / 12);
    var z := MIDNIGHT;
    Regroup(u, ym, mm, z);
    Regroup(v, yn, nn, z);
    TailsReadBack(u, ym, m % 12 + 1, v, yn, n % 12 + 1, z);
    YearHasNoColon(m / 12);
    YearHasNoColon(n / 12);
    LastColon(u, ym, v, yn);
    YearStringReadsBack(m / 12, n / 12);
  }

  lemma TailsReadBack(u: string, ym: string, a: nat, v: string, yn: string, b: nat, z: string)
    requires a < 100 && b < 100
    requires (u + ":" + ym) + ("-" + Pad(a, 2) + z) == (v + ":" + yn) + ("-" + Pad(b, 2) + z)
    ensures u + ":" + ym == v + ":" + yn && a == b
  {
    PadTwo(a);
    PadTwo(b);
    PadRoundTrip(a, 2);
    PadRoundTrip(b, 2);
    CutEnd(u + ":" + ym, "-" + Pad(a, 2) + z, v + ":" + yn, "-" + Pad(b, 2) + z);
    CutEnd("-" + Pad(a, 2), z, "-" + Pad(b, 2), z);
    CutFront("-", Pad(a, 2), Pad(b, 2));
  }

  lemma SameParts(p: string, u: string, s: string, v: string, t: string)
    requires p + u + s == p + v + t
    ensures u + s == v + t
    ensures |s| == |t| ==> u == v
  {
    assert p + u + s == p + (u + s) && p + v + t == p + (v + t);
    CutFront(p, u + s, v + t);
    if |s| == |t| {
      CutEnd(u, s, v, t);
    }
  }

  lemma SameFamilySameName(uuid: nat -> string, a: KeyName, b: KeyName)
    requires FamilyOfName(a) == FamilyOfName(b)
    requires Prefix(a) + uuid(IdOf(a)) + Suffix(a) == Prefix(a) + uuid(IdOf(b)) + Suffix(b)
    ensures uuid(IdOf(a)) == uuid(IdOf(b))
    ensures a.AccrualKey? || a.FeeInvoiceKey? ==> a.month == b.month
  {
    var u, v := uuid(IdOf(a)), uuid(IdOf(b));
    SameParts(Prefix(a), u, Suffix(a), v, Suffix(b));
    if a.AccrualKey? || a.FeeInvoiceKey? {
      PeriodSuffixReadsBack(u, a.month, v, b.month);
    }
  }

  lemma SameKeySameName(uuid: nat -> string, a: KeyName, b: KeyName)
    requires uuid(IdOf(a)) == uuid(IdOf(b)) ==> IdOf(a) == IdOf(b)
    requires DefaultKey(uuid, a) == DefaultKey(uuid, b)
    ensures a == b
  {
    FamilyRecovered(uuid, a);
    FamilyRecovered(uuid, b);
    SameFamilySameName(uuid, a, b);
  }

  /** When row numbers have distinct ids, the default keys of all families are pairwise different. */
  lemma DefaultKeysNeverCollide(uuid: nat -> string)
    requires forall i, j :: uuid(i) == uuid(j) ==> i == j
    ensures Injective(DefaultKeys(uuid))
  {
    forall a, b | DefaultKeys(uuid)(a) == DefaultKeys(uuid)(b) ensures a == b {
      SameKeySameName(uuid, a, b);
    }
  }

  /** The service's derived keys are the default ones when it is called with the controller's default key. */
  lemma ControllerDefaults(uuid: nat -> string, id: nat)
    ensures var ks := DefaultKeys(uuid);
            && FundKeysOf("fund:" + uuid(id))
               == FundKeys(ks(DisbursementKey(id)), ks(ReserveHoldKey(id)), ks(FundingCreditKey(id)))
            && SettleKeysOf("settle:" + uuid(id)) == KeyPair(ks(ReserveReleaseKey(id)), ks(SettlementCreditKey(id)))
            && ChargebackKeysOf("chargeback:" + uuid(id)) == KeyPair(ks(ChargebackKey(id)), ks(ChargebackCreditKey(id)))
            && WriteOffKeyOf("write-off:" + uuid(id)) == ks(WriteOffKey(id))
  {
  }

  lemma KnownDigits()
    ensures Pad(9, 2) == "09"
    ensures YearString(2026) == "2026"
  {
    assert Pad(0, 1) == "0";
    assert Pad(2, 1) == "2";
    assert Pad(20, 2) == "20";
    assert Pad(202, 3) == "202";
  }

  /** The period of September 2026 as it stands in keys. */
  lemma KnownPeriod(month: int)
    requires month == 2026 * 12 + 8
    ensures IsoMonth(month) == "2026" + "-" + "09" + "-01T00:00:00.000Z"
  {
    assert month / 12 == 2026 && month % 12 + 1 == 9;
    KnownDigits();
  }

  /** The default key strings in full. */
  lemma DefaultStrings(uuid: nat -> string, id: nat, month: int)
    ensures DefaultKey(uuid, DisbursementKey(id)) == "fund:" + uuid(id) + ":disbursement"
    ensures DefaultKey(uuid, ReserveHoldKey(id)) == "fund:" + uuid(id) + ":reserve-hold"
    ensures DefaultKey(uuid, FundingCreditKey(id)) == "fund:" + uuid(id) + ":credit-limit"
    ensures DefaultKey(uuid, ReserveReleaseKey(id)) == "settle:" + uuid(id) + ":reserve-release"
    ensures DefaultKey(uuid, SettlementCreditKey(id)) == "settle:" + uuid(id) + ":credit-limit-restore"
    ensures DefaultKey(uuid, ChargebackKey(id)) == "chargeback:" + uuid(id) + ":chargeback"
    ensures DefaultKey(uuid, ChargebackCreditKey(id)) == "chargeback:" + uuid(id) + ":credit-limit-restore"
    ensures DefaultKey(uuid, WriteOffKey(id)) == "write-off:" + uuid(id) + ":write-off"
    ensures DefaultKey(uuid, ReceiptKey(id)) == "payment-receipt:" + uuid(id)
    ensures DefaultKey(uuid, AccrualKey(id, month)) == "fee-accrual:" + uuid(id) + (":" + IsoMonth(month))
    ensures DefaultKey(uuid, FeeInvoiceKey(id, month)) == "fee-invoice:" + uuid(id) + (":" + IsoMonth(month))
  {
  }
}
