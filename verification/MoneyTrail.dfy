/** The ledger entries of an invoice follow its status, one by one and amount by amount. */
module MoneyTrail {
  import opened Wrappers
  import opened Sums
  import opened StateMachine
  import opened Credit
  import opened Ledger
  import opened FeeCalculator
  import opened Keys
  import opened Schema
  import opened Engine
  import opened LedgerWrites
  import Invoices

  /** The amounts of an invoice's entries, by type. */
  datatype Trail = Trail(disbursed: seq<int>, held: seq<int>, released: seq<int>, chargedBack: seq<int>, writtenOff: seq<int>)

  function TrailOf(ledger: seq<LedgerEntry>, i: nat): Trail {
    Trail(AmountsFor(ledger, FundingDisbursement, i), AmountsFor(ledger, ReserveHold, i),
          AmountsFor(ledger, ReserveRelease, i), AmountsFor(ledger, ChargebackEntry, i),
          AmountsFor(ledger, WriteOffEntry, i))
  }

  function PlusEntry(t: Trail, e: LedgerEntry, i: nat): Trail {
    if e.invoiceId != Some(i) then t
    else
      match e.entryType
      case FundingDisbursement => t.(disbursed := t.disbursed + [e.amount])
      case ReserveHold => t.(held := t.held + [e.amount])
      case ReserveRelease => t.(released := t.released + [e.amount])
      case ChargebackEntry => t.(chargedBack := t.chargedBack + [e.amount])
      case WriteOffEntry => t.(writtenOff := t.writtenOff + [e.amount])
      case _ => t
  }

  lemma TrailAfterRecord(ledger: seq<LedgerEntry>, e: LedgerEntry, i: nat)
    ensures TrailOf(Record(ledger, e), i)
         == (if HasKey(ledger, e.key) then TrailOf(ledger, i) else PlusEntry(TrailOf(ledger, i), e, i))
  {
    AmountsAppend(ledger, e, FundingDisbursement, i);
    AmountsAppend(ledger, e, ReserveHold, i);
    AmountsAppend(ledger, e, ReserveRelease, i);
    AmountsAppend(ledger, e, ChargebackEntry, i);
    AmountsAppend(ledger, e, WriteOffEntry, i);
  }

  function One(present: bool): nat {
    if present then 1 else 0
  }

  /** Each operation's entry stands in the ledger once if its key was ever used, and not at all otherwise. */
  ghost predicate OncePerKey(ks: KeyScheme, ledger: seq<LedgerEntry>) {
    forall i: nat ::
      && |TrailOf(ledger, i).disbursed| == One(HasKey(ledger, ks(DisbursementKey(i))))
      && |TrailOf(ledger, i).held| == One(HasKey(ledger, ks(ReserveHoldKey(i))))
      && |TrailOf(ledger, i).released| == One(HasKey(ledger, ks(ReserveReleaseKey(i))))
      && |TrailOf(ledger, i).chargedBack| == One(HasKey(ledger, ks(ChargebackKey(i))))
      && |TrailOf(ledger, i).writtenOff| == One(HasKey(ledger, ks(WriteOffKey(i))))
  }

  lemma RecordKeepsOncePerKey(ks: KeyScheme, ledger: seq<LedgerEntry>, e: LedgerEntry, name: KeyName)
    requires Injective(ks) && OncePerKey(ks, ledger) && Fits(e, name) && e.key == ks(name)
    ensures OncePerKey(ks, Record(ledger, e))
  {
    var ledger' := Record(ledger, e);
    forall i: nat
      ensures |TrailOf(ledger', i).disbursed| == One(HasKey(ledger', ks(DisbursementKey(i))))
      ensures |TrailOf(ledger', i).held| == One(HasKey(ledger', ks(ReserveHoldKey(i))))
      ensures |TrailOf(ledger', i).released| == One(HasKey(ledger', ks(ReserveReleaseKey(i))))
      ensures |TrailOf(ledger', i).chargedBack| == One(HasKey(ledger', ks(ChargebackKey(i))))
      ensures |TrailOf(ledger', i).writtenOff| == One(HasKey(ledger', ks(WriteOffKey(i))))
    {
      OneTrailAfterRecord(ks, ledger, e, name, i);
    }
  }

  lemma OneTrailAfterRecord(ks: KeyScheme, ledger: seq<LedgerEntry>, e: LedgerEntry, name: KeyName, i: nat)
    requires Injective(ks) && OncePerKey(ks, ledger) && Fits(e, name) && e.key == ks(name)
    ensures var t, ledger' := TrailOf(Record(ledger, e), i), Record(ledger, e);
            && |t.disbursed| == One(HasKey(ledger', ks(DisbursementKey(i))))
            && |t.held| == One(HasKey(ledger', ks(ReserveHoldKey(i))))
            && |t.released| == One(HasKey(ledger', ks(ReserveReleaseKey(i))))
            && |t.chargedBack| == One(HasKey(ledger', ks(ChargebackKey(i))))
            && |t.writtenOff| == One(HasKey(ledger', ks(WriteOffKey(i))))
  {
    OnceAfterRecord(ks, ledger, e, name, FundingDisbursement, DisbursementKey(i), i);
    OnceAfterRecord(ks, ledger, e, name, ReserveHold, ReserveHoldKey(i), i);
    OnceAfterRecord(ks, ledger, e, name, ReserveRelease, ReserveReleaseKey(i), i);
    OnceAfterRecord(ks, ledger, e, name, ChargebackEntry, ChargebackKey(i), i);
    OnceAfterRecord(ks, ledger, e, name, WriteOffEntry, WriteOffKey(i), i);
  }

  /** Entries of one type about an invoice, when exactly the operation behind the asked key writes them. */
  lemma OnceAfterRecord(ks: KeyScheme, ledger: seq<LedgerEntry>, e: LedgerEntry, written: KeyName, kind: EntryType,
                        asked: KeyName, i: nat)
    requires Injective(ks) && e.key == ks(written)
    requires asked == written <==> e.entryType == kind && e.invoiceId == Some(i)
    requires |AmountsFor(ledger, kind, i)| == One(HasKey(ledger, ks(asked)))
    ensures |AmountsFor(Record(ledger, e), kind, i)| == One(HasKey(Record(ledger, e), ks(asked)))
  {
    RecordKeys(ledger, e, ks(asked));
    AmountsAppend(ledger, e, kind, i);
  }

  ghost predicate SameTrails(a: seq<LedgerEntry>, b: seq<LedgerEntry>) {
    forall i: nat :: TrailOf(a, i) == TrailOf(b, i)
  }

  lemma RecordOffTrail(ledger: seq<LedgerEntry>, e: LedgerEntry)
    requires OffTrail(e)
    ensures SameTrails(ledger, Record(ledger, e))
  {
    forall i: nat ensures TrailOf(ledger, i) == TrailOf(Record(ledger, e), i) {
      TrailAfterRecord(ledger, e, i);
    }
  }

  lemma {:induction false} WrittenKeepOncePerKey(ks: KeyScheme, ledger: seq<LedgerEntry>, written: seq<Written>)
    requires Injective(ks) && OncePerKey(ks, ledger)
    requires forall j :: 0 <= j < |written| ==> WellWritten(ks, written[j])
    ensures OncePerKey(ks, RecordWritten(ledger, written))
  {
    if written != [] {
      var n := |written| - 1;
      WrittenKeepOncePerKey(ks, ledger, written[..n]);
      RecordKeepsOncePerKey(ks, RecordWritten(ledger, written[..n]), written[n].entry, written[n].name);
    }
  }

  lemma OncePerKeyAfterStep(ks: KeyScheme, db: Db, c: Call)
    requires Injective(ks) && OncePerKey(ks, db.ledger)
    ensures OncePerKey(ks, Next(ks, db, c).ledger)
  {
    if Attempt(ks, db, c).Ok? {
      LedgerOfStep(ks, db, c);
      WrittenFit(ks, db, c.event);
      WrittenKeepOncePerKey(ks, db.ledger, WrittenBy(ks, db, c.event));
    }
  }

  // ---- The trail a status calls for

  function Expected(s: Status, advance: int, reserve: int, charged: int): Trail {
    Trail(if EverFunded(s) then [advance] else [],
          if EverFunded(s) then [reserve] else [],
          if s == Settled then [reserve] else [],
          if EverChargedBack(s) then [charged] else [],
          if s == WrittenOff then [charged] else [])
  }

  function AdvanceOf(db: Db, i: nat): int {
    if i < |db.invoices| then ValueOr0(db.invoices[i].advanceAmount) else 0
  }

  function ReserveOf(db: Db, i: nat): int {
    if i < |db.invoices| then ValueOr0(db.invoices[i].reserveAmount) else 0
  }

  function ExpectedTrail(db: Db, i: nat): Trail {
    Expected(StatusOf(db, i), AdvanceOf(db, i), ReserveOf(db, i), ChargebackAmount(db.chargebacks, i, 0))
  }

  ghost predicate TrailsMatch(db: Db) {
    forall i: nat :: TrailOf(db.ledger, i) == ExpectedTrail(db, i)
  }

  ghost predicate ChargebacksMatch(db: Db) {
    forall i: nat :: FindFirst(db.chargebacks, ChargebackOf(i)).Some? <==> EverChargedBack(StatusOf(db, i))
  }

  ghost predicate TermsPresent(db: Db) {
    forall i :: 0 <= i < |db.invoices| && EverFunded(db.invoices[i].status) ==>
      db.invoices[i].advanceAmount.Some? && db.invoices[i].reserveAmount.Some?
  }

  ghost predicate TrailsOk(ks: KeyScheme, db: Db) {
    OncePerKey(ks, db.ledger) && TrailsMatch(db) && ChargebacksMatch(db) && TermsPresent(db)
  }

  // ---- Steps keep the trails

  /** Nothing that ExpectedTrail looks at changes. */
  ghost predicate KeepsExpectations(db: Db, db': Db) {
    && (forall i: nat ::
          && (EverFunded(StatusOf(db', i)) <==> EverFunded(StatusOf(db, i)))
          && (StatusOf(db', i) == Settled <==> StatusOf(db, i) == Settled)
          && (EverChargedBack(StatusOf(db', i)) <==> EverChargedBack(StatusOf(db, i)))
          && (StatusOf(db', i) == WrittenOff <==> StatusOf(db, i) == WrittenOff))
    && |db.invoices| <= |db'.invoices|
    && (forall i :: 0 <= i < |db.invoices| ==>
          && db'.invoices[i].advanceAmount == db.invoices[i].advanceAmount
          && db'.invoices[i].reserveAmount == db.invoices[i].reserveAmount)
  }

  lemma TrailsOkQuiet(ks: KeyScheme, db: Db, db': Db)
    requires TrailsOk(ks, db) && KeepsExpectations(db, db') && db'.chargebacks == db.chargebacks
    requires OncePerKey(ks, db'.ledger) && SameTrails(db.ledger, db'.ledger)
    ensures TrailsOk(ks, db')
  {
    forall i: nat ensures TrailOf(db'.ledger, i) == ExpectedTrail(db', i) {
      assert TrailOf(db.ledger, i) == TrailOf(db'.ledger, i);
      assert TrailOf(db.ledger, i) == ExpectedTrail(db, i);
      assert EverFunded(StatusOf(db', i)) <==> EverFunded(StatusOf(db, i));
    }
    forall i | 0 <= i < |db'.invoices| && EverFunded(db'.invoices[i].status)
      ensures db'.invoices[i].advanceAmount.Some? && db'.invoices[i].reserveAmount.Some?
    {
      assert EverFunded(StatusOf(db', i));
      assert EverFunded(StatusOf(db, i));
    }
  }

  lemma StatusAfterMove(db: Db, db': Db, id: nat, from: Status, to: Status, now: int, i: nat)
    requires Moves(db, db', id, from, to, now)
    ensures StatusOf(db', i) == (if i == id then to else StatusOf(db, i))
    ensures i < |db.invoices| && i != id ==> db'.invoices[i] == db.invoices[i]
    ensures i != id ==> AdvanceOf(db', i) == AdvanceOf(db, i) && ReserveOf(db', i) == ReserveOf(db, i)
    ensures SameTerms(db, db', id) ==> AdvanceOf(db', i) == AdvanceOf(db, i) && ReserveOf(db', i) == ReserveOf(db, i)
  {
  }

  lemma MoveKeepsExpectations(db: Db, db': Db, id: nat, from: Status, to: Status, now: int)
    requires Moves(db, db', id, from, to, now) && SameTerms(db, db', id)
    requires to != Funded && to != Settled && to != ChargedBack && to != WrittenOff
    ensures KeepsExpectations(db, db')
  {
    forall i: nat ensures StatusOf(db', i) == (if i == id then to else StatusOf(db, i)) {
      StatusAfterMove(db, db', id, from, to, now, i);
    }
  }

  lemma UploadKeepsExpectations(db: Db, db': Db, now: int)
    requires Uploads(db, db', now)
    ensures KeepsExpectations(db, db')
  {
    forall i: nat ensures StatusOf(db', i) == (if i == |db.invoices| then Uploaded else StatusOf(db, i)) {
      assert i < |db.invoices| ==> db'.invoices[i] == db'.invoices[..|db.invoices|][i];
    }
    assert forall i :: 0 <= i < |db.invoices| ==> db'.invoices[i] == db'.invoices[..|db.invoices|][i];
  }

  lemma StayKeepsExpectations(db: Db, db': Db)
    requires StaysPut(db, db')
    ensures KeepsExpectations(db, db')
  {
    forall i: nat ensures StatusOf(db', i) == StatusOf(db, i) {
    }
  }

  lemma QuietStepKeepsExpectations(ks: KeyScheme, db: Db, c: Call)
    requires StartsWhereItSays(db, c.event) && Attempt(ks, db, c).Ok?
    requires !IsMoneyMove(c.event)
    ensures KeepsExpectations(db, Attempt(ks, db, c).value)
  {
    var db' := Attempt(ks, db, c).value;
    ShapeOfStep(ks, db, c);
    if IsMove(c.event) {
      MoveKeepsExpectations(db, db', c.event.id, EdgeOf(db, c.event).from, EdgeOf(db, c.event).to, c.now);
    } else if c.event.Create? {
      UploadKeepsExpectations(db, db', c.now);
    } else {
      StayKeepsExpectations(db, db');
    }
  }

  /** The terms and charged amount of the invoice after a move, together with one new entry for each part of its trail
      that the new status adds. */
  lemma TrailAfterMove(db: Db, db': Db, id: nat, from: Status, to: Status, now: int)
    requires TrailsMatch(db) && Moves(db, db', id, from, to, now)
    requires forall i: nat :: i != id ==> TrailOf(db'.ledger, i) == TrailOf(db.ledger, i)
    requires forall i: nat :: i != id ==> ChargebackAmount(db'.chargebacks, i, 0) == ChargebackAmount(db.chargebacks, i, 0)
    requires TrailOf(db'.ledger, id)
          == Expected(to, AdvanceOf(db', id), ReserveOf(db', id), ChargebackAmount(db'.chargebacks, id, 0))
    ensures TrailsMatch(db')
  {
    forall i: nat ensures TrailOf(db'.ledger, i) == ExpectedTrail(db', i) {
      StatusAfterMove(db, db', id, from, to, now, i);
      assert TrailOf(db.ledger, i) == ExpectedTrail(db, i);
    }
  }

  lemma ChargebacksAfterMove(db: Db, db': Db, id: nat, from: Status, to: Status, now: int)
    requires ChargebacksMatch(db) && Moves(db, db', id, from, to, now)
    requires forall i: nat :: i != id ==>
               (FindFirst(db'.chargebacks, ChargebackOf(i)).Some? <==> FindFirst(db.chargebacks, ChargebackOf(i)).Some?)
    requires FindFirst(db'.chargebacks, ChargebackOf(id)).Some? <==> EverChargedBack(to)
    ensures ChargebacksMatch(db')
  {
    forall i: nat ensures FindFirst(db'.chargebacks, ChargebackOf(i)).Some? <==> EverChargedBack(StatusOf(db', i)) {
      StatusAfterMove(db, db', id, from, to, now, i);
    }
  }

  lemma TermsAfterMove(db: Db, db': Db, id: nat, from: Status, to: Status, now: int)
    requires TermsPresent(db) && Moves(db, db', id, from, to, now)
    requires db'.invoices[id].advanceAmount.Some? && db'.invoices[id].reserveAmount.Some?
    ensures TermsPresent(db')
  {
  }

  /** The trail with one more entry of a key not used before. */
  lemma NewEntry(ledger: seq<LedgerEntry>, e: LedgerEntry, id: nat)
    requires !HasKey(ledger, e.key) && e.invoiceId == Some(id)
    ensures TrailOf(Record(ledger, e), id) == PlusEntry(TrailOf(ledger, id), e, id)
    ensures forall i: nat :: i != id ==> TrailOf(Record(ledger, e), i) == TrailOf(ledger, i)
  {
    TrailAfterRecord(ledger, e, id);
    forall i: nat ensures i != id ==> TrailOf(Record(ledger, e), i) == TrailOf(ledger, i) {
      TrailAfterRecord(ledger, e, i);
    }
  }

  lemma TwoNewEntries(ledger: seq<LedgerEntry>, d: LedgerEntry, h: LedgerEntry, id: nat)
    requires d.entryType == FundingDisbursement && h.entryType == ReserveHold
    requires d.invoiceId == Some(id) && h.invoiceId == Some(id)
    requires !HasKey(ledger, d.key) && !HasKey(ledger, h.key) && d.key != h.key
    requires TrailOf(ledger, id) == Trail([], [], [], [], [])
    ensures TrailOf(Record(Record(ledger, d), h), id) == Trail([d.amount], [h.amount], [], [], [])
    ensures forall i: nat :: i != id ==> TrailOf(Record(Record(ledger, d), h), i) == TrailOf(ledger, i)
  {
    RecordKeys(ledger, d, h.key);
    NewEntry(ledger, d, id);
    NewEntry(Record(ledger, d), h, id);
  }

  lemma FundEntries(ks: KeyScheme, ledger: seq<LedgerEntry>, c: Invoices.FundCall)
    requires OncePerKey(ks, ledger) && Injective(ks)
    requires TrailOf(ledger, c.id) == Trail([], [], [], [], [])
    ensures var ledger' := Record(Record(ledger, Invoices.DisbursementEntry(c, ks(DisbursementKey(c.id)))),
                                  Invoices.ReserveHoldEntry(c, ks(ReserveHoldKey(c.id))));
            && TrailOf(ledger', c.id) == Trail([c.advance], [c.reserve], [], [], [])
            && forall i: nat :: i != c.id ==> TrailOf(ledger', i) == TrailOf(ledger, i)
  {
    var d := Invoices.DisbursementEntry(c, ks(DisbursementKey(c.id)));
    var h := Invoices.ReserveHoldEntry(c, ks(ReserveHoldKey(c.id)));
    assert |TrailOf(ledger, c.id).disbursed| == 0 && |TrailOf(ledger, c.id).held| == 0;
    TwoNewEntries(ledger, d, h, c.id);
  }

  lemma FundTrail(ks: KeyScheme, db: Db, db': Db, c: Invoices.FundCall, now: int)
    requires TrailsOk(ks, db) && OncePerKey(ks, db'.ledger) && Injective(ks)
    requires Moves(db, db', c.id, ApprovedForFunding, Funded, now) && db'.chargebacks == db.chargebacks
    requires db'.invoices[c.id].advanceAmount == Some(c.advance) && db'.invoices[c.id].reserveAmount == Some(c.reserve)
    requires db'.ledger == Record(Record(db.ledger, Invoices.DisbursementEntry(c, ks(DisbursementKey(c.id)))),
                                  Invoices.ReserveHoldEntry(c, ks(ReserveHoldKey(c.id))))
    ensures TrailsOk(ks, db')
  {
    assert TrailOf(db.ledger, c.id) == ExpectedTrail(db, c.id);
    assert StatusOf(db, c.id) == ApprovedForFunding;
    FundEntries(ks, db.ledger, c);
    assert FindFirst(db.chargebacks, ChargebackOf(c.id)).None?;
    TrailAfterMove(db, db', c.id, ApprovedForFunding, Funded, now);
    ChargebacksAfterMove(db, db', c.id, ApprovedForFunding, Funded, now);
    TermsAfterMove(db, db', c.id, ApprovedForFunding, Funded, now);
  }

  lemma SettleTrail(ks: KeyScheme, db: Db, db': Db, id: nat, now: int)
    requires TrailsOk(ks, db) && OncePerKey(ks, db'.ledger)
    requires Moves(db, db', id, Funded, Settled, now) && SameTerms(db, db', id) && db'.chargebacks == db.chargebacks
    requires db'.ledger == Record(db.ledger, Invoices.InvoiceEntry(ReserveRelease, ReserveOf(db, id), db.invoices[id], id,
                                                                   ks(ReserveReleaseKey(id))))
    ensures TrailsOk(ks, db')
  {
    assert TrailOf(db.ledger, id) == ExpectedTrail(db, id);
    assert StatusOf(db, id) == Funded;
    assert |TrailOf(db.ledger, id).released| == 0;
    NewEntry(db.ledger, Invoices.InvoiceEntry(ReserveRelease, ReserveOf(db, id), db.invoices[id], id, ks(ReserveReleaseKey(id))), id);
    StatusAfterMove(db, db', id, Funded, Settled, now, id);
    TrailAfterMove(db, db', id, Funded, Settled, now);
    ChargebacksAfterMove(db, db', id, Funded, Settled, now);
    TermsAfterMove(db, db', id, Funded, Settled, now);
  }

  lemma FirstAfterAppend<T>(rows: seq<T>, x: T, p: T -> bool)
    ensures FindFirst(rows + [x], p)
         == (if FindFirst(rows, p).Some? then FindFirst(rows, p) else if p(x) then Some(|rows|) else None)
  {
    assert (rows + [x])[..|rows|] == rows;
  }

  lemma {:induction false} FirstAfterUpdate<T>(rows: seq<T>, k: nat, x: T, p: T -> bool)
    requires k < |rows| && p(rows[k]) == p(x)
    ensures FindFirst(rows[k := x], p) == FindFirst(rows, p)
  {
    var n := |rows| - 1;
    if k == n {
      assert rows[k := x][..n] == rows[..n];
    } else {
      assert rows[k := x][..n] == rows[..n][k := x];
      FirstAfterUpdate(rows[..n], k, x, p);
    }
  }

  lemma ChargebackTrail(ks: KeyScheme, db: Db, db': Db, id: nat, row: Chargeback, now: int)
    requires TrailsOk(ks, db) && OncePerKey(ks, db'.ledger)
    requires Moves(db, db', id, Funded, ChargedBack, now) && SameTerms(db, db', id)
    requires db'.chargebacks == db.chargebacks + [row] && row.invoiceId == id
    requires db'.ledger == Record(db.ledger, Invoices.InvoiceEntry(ChargebackEntry, row.amount, db.invoices[id], id,
                                                                   ks(ChargebackKey(id))))
    ensures TrailsOk(ks, db')
  {
    assert TrailOf(db.ledger, id) == ExpectedTrail(db, id);
    assert StatusOf(db, id) == Funded;
    assert |TrailOf(db.ledger, id).chargedBack| == 0;
    NewEntry(db.ledger, Invoices.InvoiceEntry(ChargebackEntry, row.amount, db.invoices[id], id, ks(ChargebackKey(id))), id);
    assert FindFirst(db.chargebacks, ChargebackOf(id)).None?;
    ChargebackAppended(db.chargebacks, row);
    StatusAfterMove(db, db', id, Funded, ChargedBack, now, id);
    TrailAfterMove(db, db', id, Funded, ChargedBack, now);
    ChargebacksAfterMove(db, db', id, Funded, ChargedBack, now);
    TermsAfterMove(db, db', id, Funded, ChargedBack, now);
  }

  lemma ChargebackAppended(chargebacks: seq<Chargeback>, row: Chargeback)
    requires FindFirst(chargebacks, ChargebackOf(row.invoiceId)).None?
    ensures FindFirst(chargebacks + [row], ChargebackOf(row.invoiceId)) == Some(|chargebacks|)
    ensures ChargebackAmount(chargebacks + [row], row.invoiceId, 0) == row.amount
    ensures forall i: nat :: i != row.invoiceId ==>
              FindFirst(chargebacks + [row], ChargebackOf(i)) == FindFirst(chargebacks, ChargebackOf(i))
    ensures forall i: nat :: i != row.invoiceId ==>
              ChargebackAmount(chargebacks + [row], i, 0) == ChargebackAmount(chargebacks, i, 0)
  {
    FirstAfterAppend(chargebacks, row, ChargebackOf(row.invoiceId));
    forall i: nat | i != row.invoiceId
      ensures FindFirst(chargebacks + [row], ChargebackOf(i)) == FindFirst(chargebacks, ChargebackOf(i))
      ensures ChargebackAmount(chargebacks + [row], i, 0) == ChargebackAmount(chargebacks, i, 0)
    {
      FirstAfterAppend(chargebacks, row, ChargebackOf(i));
    }
  }

  lemma ChargebackMarked(chargebacks: seq<Chargeback>, j: nat)
    requires j < |chargebacks|
    ensures var marked := chargebacks[j := chargebacks[j].(status := ChargebackWrittenOff)];
            forall i: nat ::
              && FindFirst(marked, ChargebackOf(i)) == FindFirst(chargebacks, ChargebackOf(i))
              && ChargebackAmount(marked, i, 0) == ChargebackAmount(chargebacks, i, 0)
  {
    var row := chargebacks[j].(status := ChargebackWrittenOff);
    var marked := chargebacks[j := row];
    forall i: nat
      ensures FindFirst(marked, ChargebackOf(i)) == FindFirst(chargebacks, ChargebackOf(i))
      ensures ChargebackAmount(marked, i, 0) == ChargebackAmount(chargebacks, i, 0)
    {
      FirstAfterUpdate(chargebacks, j, row, ChargebackOf(i));
    }
  }

  lemma WriteOffTrail(ks: KeyScheme, db: Db, db': Db, id: nat, j: nat, now: int)
    requires TrailsOk(ks, db) && OncePerKey(ks, db'.ledger)
    requires Moves(db, db', id, ChargedBack, WrittenOff, now) && SameTerms(db, db', id)
    requires FindFirst(db.chargebacks, ChargebackOf(id)) == Some(j)
    requires db'.chargebacks == db.chargebacks[j := db.chargebacks[j].(status := ChargebackWrittenOff)]
    requires db'.ledger == Record(db.ledger, Invoices.InvoiceEntry(WriteOffEntry, db.chargebacks[j].amount, db.invoices[id], id,
                                                                   ks(WriteOffKey(id))))
    ensures TrailsOk(ks, db')
  {
    assert TrailOf(db.ledger, id) == ExpectedTrail(db, id);
    assert StatusOf(db, id) == ChargedBack;
    assert |TrailOf(db.ledger, id).writtenOff| == 0;
    NewEntry(db.ledger, Invoices.InvoiceEntry(WriteOffEntry, db.chargebacks[j].amount, db.invoices[id], id, ks(WriteOffKey(id))), id);
    ChargebackMarked(db.chargebacks, j);
    StatusAfterMove(db, db', id, ChargedBack, WrittenOff, now, id);
    TrailAfterMove(db, db', id, ChargedBack, WrittenOff, now);
    ChargebacksAfterMove(db, db', id, ChargedBack, WrittenOff, now);
    TermsAfterMove(db, db', id, ChargedBack, WrittenOff, now);
  }

  lemma {:induction false} WrittenOffTrail(ledger: seq<LedgerEntry>, written: seq<Written>)
    requires forall j :: 0 <= j < |written| ==> OffTrail(written[j].entry)
    ensures SameTrails(ledger, RecordWritten(ledger, written))
  {
    if written != [] {
      var n := |written| - 1;
      WrittenOffTrail(ledger, written[..n]);
      RecordOffTrail(RecordWritten(ledger, written[..n]), written[n].entry);
    }
  }

  lemma TrailsAfterQuietStep(ks: KeyScheme, db: Db, c: Call)
    requires Injective(ks) && TrailsOk(ks, db) && StartsWhereItSays(db, c.event) && Attempt(ks, db, c).Ok?
    requires !IsMoneyMove(c.event)
    ensures TrailsOk(ks, Next(ks, db, c))
  {
    var db' := Next(ks, db, c);
    OncePerKeyAfterStep(ks, db, c);
    QuietStepKeepsExpectations(ks, db, c);
    QuietStepKeepsTrails(ks, db, c);
    FrameOfStep(ks, db, c);
    TrailsOkQuiet(ks, db, db');
  }

  lemma QuietStepKeepsTrails(ks: KeyScheme, db: Db, c: Call)
    requires Attempt(ks, db, c).Ok? && !IsMoneyMove(c.event)
    ensures SameTrails(db.ledger, Attempt(ks, db, c).value.ledger)
  {
    LedgerOfStep(ks, db, c);
    WrittenFit(ks, db, c.event);
    WrittenOffTrail(db.ledger, WrittenBy(ks, db, c.event));
  }

  lemma FundFacts(ks: KeyScheme, db: Db, c: Call)
    requires Attempt(ks, db, c).Ok? && c.event.Fund?
    ensures var db', id := Attempt(ks, db, c).value, c.event.id;
            && Moves(db, db', id, ApprovedForFunding, Funded, c.now) && db'.chargebacks == db.chargebacks
            && var f := Invoices.FundingTerms(db.invoices[id], id, c.event.advancePct);
            && db'.invoices[id].advanceAmount == Some(f.advance) && db'.invoices[id].reserveAmount == Some(f.reserve)
            && db'.ledger == Record(Record(db.ledger, Invoices.DisbursementEntry(f, ks(DisbursementKey(id)))),
                                    Invoices.ReserveHoldEntry(f, ks(ReserveHoldKey(id))))
  {
    ShapeOfStep(ks, db, c);
  }

  lemma FundStepTrails(ks: KeyScheme, db: Db, db': Db, c: Call)
    requires Injective(ks) && TrailsOk(ks, db) && OncePerKey(ks, db'.ledger) && Attempt(ks, db, c) == Ok(db') && c.event.Fund?
    ensures TrailsOk(ks, db')
  {
    var id := c.event.id;
    FundFacts(ks, db, c);
    FundTrail(ks, db, db', Invoices.FundingTerms(db.invoices[id], id, c.event.advancePct), c.now);
  }

  lemma SettleFacts(ks: KeyScheme, db: Db, c: Call)
    requires Attempt(ks, db, c).Ok? && c.event.Settle?
    ensures var db', id := Attempt(ks, db, c).value, c.event.id;
            && Moves(db, db', id, Funded, Settled, c.now) && SameTerms(db, db', id) && db'.chargebacks == db.chargebacks
            && db'.ledger == Record(db.ledger, Invoices.InvoiceEntry(ReserveRelease, ReserveOf(db, id), db.invoices[id], id,
                                                                     ks(ReserveReleaseKey(id))))
  {
    ShapeOfStep(ks, db, c);
  }

  lemma SettleStepTrails(ks: KeyScheme, db: Db, db': Db, c: Call)
    requires Injective(ks) && TrailsOk(ks, db) && OncePerKey(ks, db'.ledger) && Attempt(ks, db, c) == Ok(db') && c.event.Settle?
    ensures TrailsOk(ks, db')
  {
    var id := c.event.id;
    SettleFacts(ks, db, c);
    SettleTrail(ks, db, db', id, c.now);
  }

  lemma ChargeBackFacts(ks: KeyScheme, db: Db, c: Call)
    requires Attempt(ks, db, c).Ok? && c.event.ChargeBack?
    ensures var db', id := Attempt(ks, db, c).value, c.event.id;
            && Moves(db, db', id, Funded, ChargedBack, c.now) && SameTerms(db, db', id)
            && |db'.chargebacks| == |db.chargebacks| + 1
            && var row := db'.chargebacks[|db.chargebacks|];
            && db'.chargebacks == db.chargebacks + [row] && row.invoiceId == id
            && db'.ledger == Record(db.ledger, Invoices.InvoiceEntry(ChargebackEntry, row.amount, db.invoices[id], id,
                                                                     ks(ChargebackKey(id))))
  {
    ShapeOfStep(ks, db, c);
  }

  lemma ChargebackStepTrails(ks: KeyScheme, db: Db, db': Db, c: Call)
    requires Injective(ks) && TrailsOk(ks, db) && OncePerKey(ks, db'.ledger) && Attempt(ks, db, c) == Ok(db') && c.event.ChargeBack?
    ensures TrailsOk(ks, db')
  {
    var id := c.event.id;
    ChargeBackFacts(ks, db, c);
    ChargebackTrail(ks, db, db', id, db'.chargebacks[|db.chargebacks|], c.now);
  }

  lemma WriteOffFacts(ks: KeyScheme, db: Db, c: Call)
    requires Attempt(ks, db, c).Ok? && c.event.WriteOff?
    ensures var db', id := Attempt(ks, db, c).value, c.event.id;
            && Moves(db, db', id, ChargedBack, WrittenOff, c.now) && SameTerms(db, db', id)
            && match FindFirst(db.chargebacks, ChargebackOf(id))
               case None => true
               case Some(j) =>
                 && db'.chargebacks == db.chargebacks[j := db.chargebacks[j].(status := ChargebackWrittenOff)]
                 && db'.ledger == Record(db.ledger, Invoices.InvoiceEntry(WriteOffEntry, db.chargebacks[j].amount,
                                                                          db.invoices[id], id, ks(WriteOffKey(id))))
  {
    ShapeOfStep(ks, db, c);
  }

  lemma WriteOffStepTrails(ks: KeyScheme, db: Db, db': Db, c: Call)
    requires Injective(ks) && TrailsOk(ks, db) && OncePerKey(ks, db'.ledger) && Attempt(ks, db, c) == Ok(db') && c.event.WriteOff?
    ensures TrailsOk(ks, db')
  {
    var id := c.event.id;
    WriteOffFacts(ks, db, c);
    assert EverChargedBack(StatusOf(db, id));
    WriteOffTrail(ks, db, db', id, FindFirst(db.chargebacks, ChargebackOf(id)).value, c.now);
  }

  lemma TrailsAfterMoneyMove(ks: KeyScheme, db: Db, db': Db, c: Call)
    requires Injective(ks) && TrailsOk(ks, db) && OncePerKey(ks, db'.ledger)
    requires Attempt(ks, db, c) == Ok(db') && IsMoneyMove(c.event)
    ensures TrailsOk(ks, db')
  {
    match c.event {
      case Fund(_, _) => FundStepTrails(ks, db, db', c);
      case Settle(_) => SettleStepTrails(ks, db, db', c);
      case ChargeBack(_, _) => ChargebackStepTrails(ks, db, db', c);
      case WriteOff(_) => WriteOffStepTrails(ks, db, db', c);
    }
  }

  lemma TrailsAfterStep(ks: KeyScheme, db: Db, c: Call)
    requires Injective(ks) && TrailsOk(ks, db) && StartsWhereItSays(db, c.event)
    ensures TrailsOk(ks, Next(ks, db, c))
  {
    if Attempt(ks, db, c).Ok? {
      if IsMoneyMove(c.event) {
        OncePerKeyAfterStep(ks, db, c);
        TrailsAfterMoneyMove(ks, db, Next(ks, db, c), c);
      } else {
        TrailsAfterQuietStep(ks, db, c);
      }
    }
  }

  lemma {:induction false} TrailsOfRun(ks: KeyScheme, calls: seq<Call>)
    requires Injective(ks) && Orderly(ks, calls)
    ensures TrailsOk(ks, After(ks, calls))
  {
    if calls != [] {
      var n := |calls| - 1;
      TrailsOfRun(ks, calls[..n]);
      TrailsAfterStep(ks, After(ks, calls[..n]), calls[n]);
    }
  }

  /** In every reachable state an invoice has one disbursement and one reserve hold exactly when it was ever funded,
      one release exactly when settled and of the held amount, one chargeback exactly when charged back or written off,
      and one write-off exactly when written off and of the charged-back amount. */
  lemma LedgerLifeOfInvoice(ks: KeyScheme, calls: seq<Call>, id: nat)
    requires Injective(ks) && Orderly(ks, calls) && id < |After(ks, calls).invoices|
    ensures var db := After(ks, calls);
            var s := db.invoices[id].status;
            var t := TrailOf(db.ledger, id);
            && |t.disbursed| == |t.held| == One(EverFunded(s))
            && |t.released| == One(s == Settled) && (s == Settled ==> t.released == t.held)
            && |t.chargedBack| == One(EverChargedBack(s))
            && |t.writtenOff| == One(s == WrittenOff) && (s == WrittenOff ==> t.writtenOff == t.chargedBack)
            && (EverFunded(s) ==> db.invoices[id].advanceAmount == Some(t.disbursed[0])
                                  && db.invoices[id].reserveAmount == Some(t.held[0]))
  {
    TrailsOfRun(ks, calls);
    var db := After(ks, calls);
    assert TrailOf(db.ledger, id) == ExpectedTrail(db, id);
  }
}
