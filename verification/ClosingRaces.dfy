/** Settlements and chargebacks of one invoice that all pass their checks while it is FUNDED, and run their transactions
    after one another, each under the key its caller sent. */
module ClosingRaces {
  import opened Wrappers
  import opened Sums
  import opened StateMachine
  import opened Credit
  import opened Ledger
  import opened Keys
  import opened Schema
  import opened Engine
  import opened MoneyTrail
  import opened RetryKeys
  import Exposure
  import Invoices

  datatype Closing = SettleIt(key: string, now: int) | ChargeItBack(amount: nat, key: string, now: int)

  /** One transaction, for the invoice as its call read it. */
  function CloseOne(db: Db, id: nat, inv: Invoice, c: Closing): (db': Db)
    requires id < |db.invoices|
    ensures |db'.invoices| == |db.invoices|
  {
    var done := match c
      case SettleIt(key, now) => Invoices.SettleCommit(db, id, inv, SettleKeysOf(key), now)
      case ChargeItBack(amount, key, now) => Invoices.ChargeBackCommit(db, id, inv, amount, ChargebackKeysOf(key), now);
    match done
    case Ok(db') => db'
    case Err(_) => db
  }

  function CloseAll(db: Db, id: nat, inv: Invoice, closings: seq<Closing>): (db': Db)
    requires id < |db.invoices|
    ensures |db'.invoices| == |db.invoices|
  {
    if closings == [] then db
    else
      var n := |closings| - 1;
      CloseOne(CloseAll(db, id, inv, closings[..n]), id, inv, closings[n])
  }

  /** The transactions are those of settle and chargeback: run on the tables their call checked, they are the call. */
  lemma TransactionsOfCalls(db: Db, id: nat, c: Closing)
    requires id < |db.invoices|
    ensures c.SettleIt? && Invoices.Settle(db, id, SettleKeysOf(c.key), c.now).Ok? ==>
              Invoices.Settle(db, id, SettleKeysOf(c.key), c.now) == Ok(CloseOne(db, id, db.invoices[id], c))
    ensures c.ChargeItBack? && Invoices.ChargeBack(db, id, c.amount, ChargebackKeysOf(c.key), c.now).Ok? ==>
              Invoices.ChargeBack(db, id, c.amount, ChargebackKeysOf(c.key), c.now) == Ok(CloseOne(db, id, db.invoices[id], c))
  {
  }

  // ---- Restored exposure

  ghost function KeysOf(closings: seq<Closing>): set<string> {
    if closings == [] then {} else KeysOf(closings[..|closings| - 1]) + {closings[|closings| - 1].key}
  }

  /** The request keys under which an exposure was restored: settlements and chargebacks derive the same key from one. */
  ghost function RestoredUnder(t: CreditTables): iset<string> {
    iset key: string | LogHasKey(t.changeLog, SettleKeysOf(key).credit)
  }

  function DeltaBy(id: nat, inv: Invoice, c: Closing): DeltaRequest {
    if c.SettleIt? then Invoices.RestoreDelta(inv, id, InvoiceSettled, SettleKeysOf(c.key).credit)
    else Invoices.RestoreDelta(inv, id, ChargedBackInvoice, ChargebackKeysOf(c.key).credit)
  }

  /** The credit tables after the amount has been restored once for each of the keys under which it had not been. */
  ghost predicate Restored(t: CreditTables, t': CreditTables, inv: Invoice, keys: set<string>) {
    && inv.mcId in t'.limits
    && (forall m: nat :: m != inv.mcId ==> Used(t', m) == Used(t, m))
    && Used(t', inv.mcId) == Used(t, inv.mcId) - |Unseen(keys, RestoredUnder(t))| * inv.totalAmount
  }

  ghost predicate RestoreKeysAdded(t: CreditTables, t': CreditTables, keys: set<string>) {
    forall key :: key in RestoredUnder(t') <==> key in RestoredUnder(t) || key in keys
  }

  lemma RestoreKeysAfter(t: CreditTables, t': CreditTables, id: nat, inv: Invoice, keys: set<string>, c: Closing, key: string)
    requires inv.mcId in t'.limits && RestoreKeysAdded(t, t', keys)
    ensures key in RestoredUnder(ApplyDelta(t', DeltaBy(id, inv, c)).value) <==> key in RestoredUnder(t) || key in keys + {c.key}
  {
    Exposure.AppliedKeys(t', DeltaBy(id, inv, c), SettleKeysOf(key).credit);
    SamePrefix(c.key, key, ":credit-limit-restore");
  }

  lemma RestoresOnce(t: CreditTables, t': CreditTables, id: nat, inv: Invoice, keys: set<string>, c: Closing)
    requires Restored(t, t', inv, keys) && RestoreKeysAdded(t, t', keys)
    ensures ApplyDelta(t', DeltaBy(id, inv, c)).Ok?
    ensures Restored(t, ApplyDelta(t', DeltaBy(id, inv, c)).value, inv, keys + {c.key})
  {
    UnseenWithOne(keys, c.key, RestoredUnder(t));
    OneMoreTime(|Unseen(keys, RestoredUnder(t))|, inv.totalAmount);
    assert c.key in RestoredUnder(t') <==> LogHasKey(t'.changeLog, DeltaBy(id, inv, c).key);
  }

  function StatusBy(c: Closing): Status {
    if c.SettleIt? then Settled else ChargedBack
  }

  lemma WhatCloseDoes(db: Db, id: nat, inv: Invoice, c: Closing)
    requires id < |db.invoices| && inv.mcId in db.credit.limits
    ensures var db' := CloseOne(db, id, inv, c);
            && ApplyDelta(db.credit, DeltaBy(id, inv, c)) == Ok(db'.credit)
            && db'.invoices == db.invoices[id := db.invoices[id].(status := StatusBy(c))]
  {
  }

  /** The invoice has taken the status of the last transaction. */
  ghost predicate OnlyStatusMoved(invoices: seq<Invoice>, invoices': seq<Invoice>, id: nat, closings: seq<Closing>)
    requires id < |invoices|
  {
    if closings == [] then invoices' == invoices
    else invoices' == invoices[id := invoices[id].(status := StatusBy(closings[|closings| - 1]))]
  }

  lemma MovedAgain(invoices: seq<Invoice>, before: seq<Invoice>, after: seq<Invoice>, id: nat, closings: seq<Closing>)
    requires id < |invoices| == |before| && closings != []
    requires OnlyStatusMoved(invoices, before, id, closings[..|closings| - 1])
    requires after == before[id := before[id].(status := StatusBy(closings[|closings| - 1]))]
    ensures OnlyStatusMoved(invoices, after, id, closings)
  {
  }

  /** The exposure is restored once for each request key that was not used before, however many settlements and
      chargebacks there are, and the invoice takes the status of the last one. */
  lemma {:induction false} AllRestored(db: Db, id: nat, closings: seq<Closing>)
    requires id < |db.invoices| && db.invoices[id].mcId in db.credit.limits
    ensures var inv, db' := db.invoices[id], CloseAll(db, id, db.invoices[id], closings);
            && Restored(db.credit, db'.credit, inv, KeysOf(closings))
            && RestoreKeysAdded(db.credit, db'.credit, KeysOf(closings))
            && OnlyStatusMoved(db.invoices, db'.invoices, id, closings)
  {
    if closings == [] {
      AllUnseen({}, RestoredUnder(db.credit));
    } else {
      var n := |closings| - 1;
      var inv, before := db.invoices[id], CloseAll(db, id, db.invoices[id], closings[..n]);
      AllRestored(db, id, closings[..n]);
      RestoresOnce(db.credit, before.credit, id, inv, KeysOf(closings[..n]), closings[n]);
      WhatCloseDoes(before, id, inv, closings[n]);
      forall key ensures key in RestoredUnder(CloseOne(before, id, inv, closings[n]).credit) <==>
                         key in RestoredUnder(db.credit) || key in KeysOf(closings)
      {
        RestoreKeysAfter(db.credit, before.credit, id, inv, KeysOf(closings[..n]), closings[n], key);
      }
      MovedAgain(db.invoices, before.invoices, CloseOne(before, id, inv, closings[n]).invoices, id, closings);
    }
  }

  lemma CountersAfterClosings(db: Db, id: nat, closings: seq<Closing>, m: nat)
    requires Exposure.CountersAgree(db) && id < |db.invoices| && db.invoices[id].mcId in db.credit.limits
    requires db.invoices[id].status == Funded && closings != []
    ensures var inv, db' := db.invoices[id], CloseAll(db, id, db.invoices[id], closings);
            var times := |Unseen(KeysOf(closings), RestoredUnder(db.credit))|;
            Exposure.FundedTotal(db'.invoices, m) - Used(db'.credit, m)
            == (if m == inv.mcId then times * inv.totalAmount - inv.totalAmount else 0)
  {
    var db' := CloseAll(db, id, db.invoices[id], closings);
    AllRestored(db, id, closings);
    assert Used(db.credit, m) == Exposure.FundedTotal(db.invoices, m);
    Exposure.TotalAfterMove(db.invoices, id, db'.invoices[id], m);
  }

  /** Settlements and chargebacks of a FUNDED invoice that pass their checks together leave the counters at the funded
      totals if and only if exactly one of their request keys was not used before, or the invoice's amount is zero: each
      further new key restores the exposure once more, and without a new key it is not restored at all. */
  lemma RestoredOnceIffOneNewKey(db: Db, id: nat, closings: seq<Closing>)
    requires Exposure.CountersAgree(db) && Exposure.FundedHaveLimits(db)
    requires id < |db.invoices| && db.invoices[id].status == Funded && closings != []
    ensures var inv, db' := db.invoices[id], CloseAll(db, id, db.invoices[id], closings);
            var times := |Unseen(KeysOf(closings), RestoredUnder(db.credit))|;
            && Exposure.FundedTotal(db'.invoices, inv.mcId) - Used(db'.credit, inv.mcId) == times * inv.totalAmount - inv.totalAmount
            && (Exposure.CountersAgree(db') <==> times == 1 || inv.totalAmount == 0)
  {
    var inv, db' := db.invoices[id], CloseAll(db, id, db.invoices[id], closings);
    var times := |Unseen(KeysOf(closings), RestoredUnder(db.credit))|;
    forall m: nat ensures Exposure.FundedTotal(db'.invoices, m) - Used(db'.credit, m)
                       == (if m == inv.mcId then times * inv.totalAmount - inv.totalAmount else 0)
    {
      CountersAfterClosings(db, id, closings, m);
    }
    NotOnce(times, inv.totalAmount);
    if Exposure.CountersAgree(db') {
      assert Used(db'.credit, inv.mcId) == Exposure.FundedTotal(db'.invoices, inv.mcId);
    }
  }

  ghost predicate SameRequest(closings: seq<Closing>)
    requires closings != []
  {
    forall j :: 0 <= j < |closings| ==> closings[j].key == closings[0].key
  }

  lemma {:induction false} KeysAreUsed(closings: seq<Closing>)
    ensures forall j :: 0 <= j < |closings| ==> closings[j].key in KeysOf(closings)
    ensures forall key :: key in KeysOf(closings) ==> exists j :: 0 <= j < |closings| && closings[j].key == key
  {
    if closings != [] {
      var n := |closings| - 1;
      KeysAreUsed(closings[..n]);
      forall key | key in KeysOf(closings) ensures exists j :: 0 <= j < |closings| && closings[j].key == key {
        if key != closings[n].key {
          var j :| 0 <= j < n && closings[..n][j].key == key;
          assert closings[j].key == key;
        }
      }
    }
  }

  /** Under keys that were all unused that is: if and only if they all carry the same key, whatever kinds they are. */
  lemma RestoredOnceIffSameKey(db: Db, id: nat, closings: seq<Closing>)
    requires Exposure.CountersAgree(db) && Exposure.FundedHaveLimits(db)
    requires id < |db.invoices| && db.invoices[id].status == Funded && closings != []
    requires forall j :: 0 <= j < |closings| ==> closings[j].key !in RestoredUnder(db.credit)
    ensures var db' := CloseAll(db, id, db.invoices[id], closings);
            Exposure.CountersAgree(db') <==> SameRequest(closings) || db.invoices[id].totalAmount == 0
  {
    RestoredOnceIffOneNewKey(db, id, closings);
    KeysAreUsed(closings);
    AllUnseen(KeysOf(closings), RestoredUnder(db.credit));
    AllTheSame(KeysOf(closings), closings[0].key);
  }

  // ---- Under the default keys

  /** The key the controller makes up when no header is sent. */
  predicate HasDefaultKey(c: Closing, uuid: string) {
    c.key == (if c.SettleIt? then "settle:" + uuid else "chargeback:" + uuid)
  }

  predicate AnySettles(closings: seq<Closing>) {
    exists j :: 0 <= j < |closings| && closings[j].SettleIt?
  }

  predicate AnyChargesBack(closings: seq<Closing>) {
    exists j :: 0 <= j < |closings| && closings[j].ChargeItBack?
  }

  lemma SameRequestIffOneKind(closings: seq<Closing>, uuid: string)
    requires closings != [] && forall j :: 0 <= j < |closings| ==> HasDefaultKey(closings[j], uuid)
    ensures SameRequest(closings) <==> !(AnySettles(closings) && AnyChargesBack(closings))
  {
    assert ("settle:" + uuid)[0] == 's' && ("chargeback:" + uuid)[0] == 'c';
    if AnySettles(closings) && AnyChargesBack(closings) {
      var i :| 0 <= i < |closings| && closings[i].SettleIt?;
      var j :| 0 <= j < |closings| && closings[j].ChargeItBack?;
      assert closings[i].key != closings[j].key;
    }
  }

  /** Without headers it is a matter of their kinds: settlements alone and chargebacks alone restore the exposure once, a
      settlement and a chargeback together restore it twice. */
  lemma RestoredOnceIffOneKind(uuid: nat -> string, db: Db, id: nat, closings: seq<Closing>)
    requires Exposure.CreditOk(DefaultKeys(uuid), db) && id < |db.invoices| && db.invoices[id].status == Funded
    requires closings != [] && forall j :: 0 <= j < |closings| ==> HasDefaultKey(closings[j], uuid(id))
    ensures var db' := CloseAll(db, id, db.invoices[id], closings);
            Exposure.CountersAgree(db') <==>
            !(AnySettles(closings) && AnyChargesBack(closings)) || db.invoices[id].totalAmount == 0
  {
    var ks := DefaultKeys(uuid);
    ControllerDefaults(uuid, id);
    assert StatusOf(db, id) == Funded;
    assert !LogHasKey(db.credit.changeLog, ks(SettlementCreditKey(id))) && !LogHasKey(db.credit.changeLog, ks(ChargebackCreditKey(id)));
    forall j | 0 <= j < |closings| ensures closings[j].key !in RestoredUnder(db.credit) {
      assert HasDefaultKey(closings[j], uuid(id));
    }
    RestoredOnceIffSameKey(db, id, closings);
    SameRequestIffOneKind(closings, uuid(id));
  }

  // ---- Ledger entries

  /** The keys of the chargebacks among the closings, or of the settlements. */
  ghost function KeysOfKind(closings: seq<Closing>, charges: bool): set<string> {
    if closings == [] then {}
    else
      var n := |closings| - 1;
      KeysOfKind(closings[..n], charges) + if closings[n].ChargeItBack? == charges then {closings[n].key} else {}
  }

  function EntryKey(key: string, charges: bool): string {
    if charges then ChargebackKeysOf(key).entry else SettleKeysOf(key).entry
  }

  /** The request keys under which there is an entry of the kind. */
  ghost function EnteredUnder(ledger: seq<LedgerEntry>, charges: bool): iset<string> {
    iset key: string | HasKey(ledger, EntryKey(key, charges))
  }

  function KindOf(charges: bool): EntryType {
    if charges then ChargebackEntry else ReserveRelease
  }

  lemma EntryKeysApart(a: string, charges: bool, b: string, charges': bool)
    ensures EntryKey(a, charges) == EntryKey(b, charges') <==> a == b && charges == charges'
  {
    var x, y := EntryKey(a, charges), EntryKey(b, charges');
    assert x[|x| - 1] == (if charges then 'k' else 'e') && y[|y| - 1] == (if charges' then 'k' else 'e');
    SamePrefix(a, b, ":chargeback");
    SamePrefix(a, b, ":reserve-release");
  }

  function EntryBy(id: nat, inv: Invoice, c: Closing): LedgerEntry {
    match c
    case SettleIt(key, _) =>
      var released := if inv.reserveAmount.Some? then inv.reserveAmount.value else 0;
      Invoices.InvoiceEntry(ReserveRelease, released, inv, id, SettleKeysOf(key).entry)
    case ChargeItBack(amount, key, _) => Invoices.InvoiceEntry(ChargebackEntry, amount, inv, id, ChargebackKeysOf(key).entry)
  }

  lemma LedgerAfterClose(db: Db, id: nat, inv: Invoice, c: Closing)
    requires id < |db.invoices| && inv.mcId in db.credit.limits
    ensures CloseOne(db, id, inv, c).ledger == Record(db.ledger, EntryBy(id, inv, c))
  {
  }

  /** One entry of the kind for each of the keys under which there was none. */
  ghost predicate Entered(ledger: seq<LedgerEntry>, ledger': seq<LedgerEntry>, id: nat, keys: set<string>, charges: bool) {
    && |AmountsFor(ledger', KindOf(charges), id)|
       == |AmountsFor(ledger, KindOf(charges), id)| + |Unseen(keys, EnteredUnder(ledger, charges))|
    && forall key :: key in EnteredUnder(ledger', charges) <==> key in EnteredUnder(ledger, charges) || key in keys
  }

  lemma EntryAfterClose(ledger: seq<LedgerEntry>, before: seq<LedgerEntry>, id: nat, inv: Invoice, keys: set<string>, charges: bool,
                        c: Closing)
    requires Entered(ledger, before, id, keys, charges)
    ensures Entered(ledger, Record(before, EntryBy(id, inv, c)), id,
                    keys + if c.ChargeItBack? == charges then {c.key} else {}, charges)
  {
    var e, added := EntryBy(id, inv, c), if c.ChargeItBack? == charges then {c.key} else {};
    var after := Record(before, e);
    forall key ensures key in EnteredUnder(after, charges) <==> key in EnteredUnder(ledger, charges) || key in keys + added {
      RecordKeys(before, e, EntryKey(key, charges));
      EntryKeysApart(c.key, c.ChargeItBack?, key, charges);
    }
    AmountsAppend(before, e, KindOf(charges), id);
    if c.ChargeItBack? == charges {
      UnseenWithOne(keys, c.key, EnteredUnder(ledger, charges));
      assert c.key in EnteredUnder(before, charges) <==> HasKey(before, e.key);
    } else {
      assert keys + added == keys;
    }
  }

  /** Settlements release the reserve once for each of their request keys, and chargebacks enter the chargeback once for
      each of theirs, used ones apart. */
  lemma {:induction false} EntriesAdded(db: Db, id: nat, closings: seq<Closing>, charges: bool)
    requires id < |db.invoices| && db.invoices[id].mcId in db.credit.limits
    ensures Entered(db.ledger, CloseAll(db, id, db.invoices[id], closings).ledger, id, KeysOfKind(closings, charges), charges)
  {
    if closings == [] {
      AllUnseen({}, EnteredUnder(db.ledger, charges));
    } else {
      var n := |closings| - 1;
      var inv, before := db.invoices[id], CloseAll(db, id, db.invoices[id], closings[..n]);
      EntriesAdded(db, id, closings[..n], charges);
      AllRestored(db, id, closings[..n]);
      LedgerAfterClose(before, id, inv, closings[n]);
      EntryAfterClose(db.ledger, before.ledger, id, inv, KeysOfKind(closings[..n], charges), charges, closings[n]);
    }
  }

  // ---- Chargeback records

  function Charging(): Closing -> int {
    (c: Closing) => if c.ChargeItBack? then 1 else 0
  }

  function RecordOf(id: nat): Chargeback -> int {
    (c: Chargeback) => if c.invoiceId == id then 1 else 0
  }

  ghost predicate OnlyRecord(chargebacks: seq<Chargeback>, id: nat) {
    forall j, k :: 0 <= j < k < |chargebacks| ==> chargebacks[j].invoiceId != id || chargebacks[k].invoiceId != id
  }

  lemma RecordsAfterClose(db: Db, id: nat, inv: Invoice, c: Closing)
    requires id < |db.invoices| && inv.mcId in db.credit.limits
    ensures var db' := CloseOne(db, id, inv, c);
            && (c.SettleIt? ==> db'.chargebacks == db.chargebacks)
            && (c.ChargeItBack? ==> |db'.chargebacks| == |db.chargebacks| + 1 && db.chargebacks <= db'.chargebacks
                                    && db'.chargebacks[|db.chargebacks|].invoiceId == id)
  {
  }

  /** Every racing chargeback adds a record. */
  lemma {:induction false} RecordsAdded(db: Db, id: nat, closings: seq<Closing>)
    requires id < |db.invoices| && db.invoices[id].mcId in db.credit.limits
    ensures Sum(CloseAll(db, id, db.invoices[id], closings).chargebacks, RecordOf(id))
         == Sum(db.chargebacks, RecordOf(id)) + Sum(closings, Charging())
  {
    if closings != [] {
      var n := |closings| - 1;
      var inv, before := db.invoices[id], CloseAll(db, id, db.invoices[id], closings[..n]);
      RecordsAdded(db, id, closings[..n]);
      AllRestored(db, id, closings[..n]);
      RecordsAfterClose(before, id, inv, closings[n]);
      var after := CloseOne(before, id, inv, closings[n]);
      if closings[n].ChargeItBack? {
        assert after.chargebacks[..|before.chargebacks|] == before.chargebacks;
      }
    }
  }

  lemma {:induction false} CountedOnce(chargebacks: seq<Chargeback>, id: nat)
    ensures OnlyRecord(chargebacks, id) <==> Sum(chargebacks, RecordOf(id)) <= 1
  {
    if chargebacks != [] {
      var n := |chargebacks| - 1;
      CountedOnce(chargebacks[..n], id);
      SumNonNegative(chargebacks[..n], RecordOf(id));
      if chargebacks[n].invoiceId == id {
        if j :| 0 <= j < n && chargebacks[j].invoiceId == id {
          SumAtLeastTerm(chargebacks[..n], j, RecordOf(id));
        } else {
          SumOfZeros(chargebacks[..n], RecordOf(id));
          assert Sum(chargebacks, RecordOf(id)) == 1;
        }
      } else {
        assert OnlyRecord(chargebacks, id) ==> OnlyRecord(chargebacks[..n], id);
      }
    }
  }

  /** A FUNDED invoice without a record yet has as many afterwards as chargebacks have raced, and one more entry for each
      of their keys that was new. So its record is its only one if and only if at most one of them was a chargeback, and
      there is an entry for each record if and only if each chargeback had a new key of its own. */
  lemma OneRecordIffOneChargeback(ks: KeyScheme, db: Db, id: nat, closings: seq<Closing>)
    requires TrailsOk(ks, db) && Exposure.FundedHaveLimits(db)
    requires id < |db.invoices| && db.invoices[id].status == Funded
    ensures var db' := CloseAll(db, id, db.invoices[id], closings);
            var records, entries := Sum(db'.chargebacks, RecordOf(id)), |AmountsFor(db'.ledger, ChargebackEntry, id)|;
            && records == Sum(closings, Charging())
            && entries == |Unseen(KeysOfKind(closings, true), EnteredUnder(db.ledger, true))|
            && (OnlyRecord(db'.chargebacks, id) <==> Sum(closings, Charging()) <= 1)
            && (entries == records <==> OwnNewKeys(db.ledger, closings))
  {
    assert StatusOf(db, id) == Funded;
    assert FindFirst(db.chargebacks, ChargebackOf(id)).None?;
    SumOfZeros(db.chargebacks, RecordOf(id));
    RecordsAdded(db, id, closings);
    assert TrailOf(db.ledger, id) == ExpectedTrail(db, id) && |TrailOf(db.ledger, id).chargedBack| == 0;
    EntriesAdded(db, id, closings, true);
    CountedOnce(CloseAll(db, id, db.invoices[id], closings).chargebacks, id);
    EntryForEach(db.ledger, closings);
  }

  /** No chargeback's key was used before, by another chargeback among the closings or earlier. */
  ghost predicate OwnNewKeys(ledger: seq<LedgerEntry>, closings: seq<Closing>) {
    forall j :: 0 <= j < |closings| && closings[j].ChargeItBack? ==>
      && closings[j].key !in EnteredUnder(ledger, true)
      && forall i :: 0 <= i < j && closings[i].ChargeItBack? ==> closings[i].key != closings[j].key
  }

  lemma {:induction false} ChargeKeysAreUsed(closings: seq<Closing>, key: string)
    ensures key in KeysOfKind(closings, true) <==> exists j :: 0 <= j < |closings| && closings[j].ChargeItBack? && closings[j].key == key
  {
    if closings != [] {
      var n := |closings| - 1;
      ChargeKeysAreUsed(closings[..n], key);
      assert forall j :: 0 <= j < n ==> closings[..n][j] == closings[j];
    }
  }

  lemma OwnNewKeysOfLast(ledger: seq<LedgerEntry>, closings: seq<Closing>)
    requires closings != []
    ensures var n := |closings| - 1;
            OwnNewKeys(ledger, closings) <==>
            && OwnNewKeys(ledger, closings[..n])
            && (closings[n].ChargeItBack? ==>
                  closings[n].key !in EnteredUnder(ledger, true) && closings[n].key !in KeysOfKind(closings[..n], true))
  {
    var n := |closings| - 1;
    assert forall j :: 0 <= j < n ==> closings[..n][j] == closings[j];
    ChargeKeysAreUsed(closings[..n], closings[n].key);
  }

  lemma {:induction false} EntryForEach(ledger: seq<LedgerEntry>, closings: seq<Closing>)
    ensures |Unseen(KeysOfKind(closings, true), EnteredUnder(ledger, true))| <= Sum(closings, Charging())
    ensures |Unseen(KeysOfKind(closings, true), EnteredUnder(ledger, true))| == Sum(closings, Charging()) <==>
            OwnNewKeys(ledger, closings)
  {
    if closings == [] {
      AllUnseen({}, EnteredUnder(ledger, true));
    } else {
      var n := |closings| - 1;
      EntryForEach(ledger, closings[..n]);
      OwnNewKeysOfLast(ledger, closings);
      if closings[n].ChargeItBack? {
        UnseenWithOne(KeysOfKind(closings[..n], true), closings[n].key, EnteredUnder(ledger, true));
      } else {
        assert KeysOfKind(closings, true) == KeysOfKind(closings[..n], true);
      }
    }
  }
}
