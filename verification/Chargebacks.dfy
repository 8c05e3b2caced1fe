/** Chargeback records agree with the ledger and with the status of their invoice. */
module Chargebacks {
  import opened Wrappers
  import opened Sums
  import opened StateMachine
  import opened Credit
  import opened Ledger
  import opened Keys
  import opened Schema
  import opened Engine
  import opened LedgerWrites
  import opened MoneyTrail
  import AppendOnly
  import Invoices

  // ---- The entry a record names

  /** The record names the ledger entry that was written for it. */
  ghost predicate PointsAtEntry(ledger: seq<LedgerEntry>, c: Chargeback) {
    && c.ledgerEntryId.Some? && c.ledgerEntryId.value < |ledger|
    && var e := ledger[c.ledgerEntryId.value];
    && e.entryType == ChargebackEntry && e.invoiceId == Some(c.invoiceId) && e.amount == c.amount
  }

  ghost predicate ChargebacksPoint(db: Db) {
    forall k :: 0 <= k < |db.chargebacks| ==> PointsAtEntry(db.ledger, db.chargebacks[k])
  }

  lemma NewChargebackPoints(ks: KeyScheme, db: Db, c: Call)
    requires TrailsOk(ks, db) && ChargebacksPoint(db) && Attempt(ks, db, c).Ok? && c.event.ChargeBack?
    ensures ChargebacksPoint(Attempt(ks, db, c).value)
  {
    var db', id := Attempt(ks, db, c).value, c.event.id;
    ChargeBackFacts(ks, db, c);
    assert TrailOf(db.ledger, id) == ExpectedTrail(db, id) && |TrailOf(db.ledger, id).chargedBack| == 0;
    assert !HasKey(db.ledger, ks(ChargebackKey(id)));
    NewRecord(ks, db, c);
  }

  lemma NewRecord(ks: KeyScheme, db: Db, c: Call)
    requires Attempt(ks, db, c).Ok? && c.event.ChargeBack? && !HasKey(db.ledger, ks(ChargebackKey(c.event.id)))
    requires ChargebacksPoint(db)
    ensures ChargebacksPoint(Attempt(ks, db, c).value)
  {
    var db', id := Attempt(ks, db, c).value, c.event.id;
    assert db'.ledger == db.ledger + [Invoices.InvoiceEntry(ChargebackEntry, c.event.amount, db.invoices[id], id, ks(ChargebackKey(id)))];
    assert db'.chargebacks == db.chargebacks + [Chargeback(id, c.event.amount, Completed, Some(|db.ledger|))];
  }

  lemma WriteOffKeepsPointing(ks: KeyScheme, db: Db, c: Call)
    requires ChargebacksPoint(db) && Attempt(ks, db, c).Ok? && c.event.WriteOff?
    ensures ChargebacksPoint(Attempt(ks, db, c).value)
  {
    var db' := Attempt(ks, db, c).value;
    AppendOnly.LedgerGrows(ks, db, c);
    forall k | 0 <= k < |db'.chargebacks| ensures PointsAtEntry(db'.ledger, db'.chargebacks[k]) {
      assert PointsAtEntry(db.ledger, db.chargebacks[k]);
    }
  }

  lemma OtherKeepsPointing(ks: KeyScheme, db: Db, c: Call)
    requires ChargebacksPoint(db) && Attempt(ks, db, c).Ok? && !c.event.ChargeBack? && !c.event.WriteOff?
    ensures ChargebacksPoint(Attempt(ks, db, c).value)
  {
    FrameOfStep(ks, db, c);
    AppendOnly.LedgerGrows(ks, db, c);
  }

  lemma PointingAfterStep(ks: KeyScheme, db: Db, c: Call)
    requires TrailsOk(ks, db) && ChargebacksPoint(db)
    ensures ChargebacksPoint(Next(ks, db, c))
  {
    if Attempt(ks, db, c).Ok? {
      if c.event.ChargeBack? {
        NewChargebackPoints(ks, db, c);
      } else if c.event.WriteOff? {
        WriteOffKeepsPointing(ks, db, c);
      } else {
        OtherKeepsPointing(ks, db, c);
      }
    }
  }

  // ---- The status a record has

  /** An invoice has one record at most, which is marked written off exactly when the invoice is. */
  ghost predicate RecordsFit(db: Db) {
    && (forall k :: 0 <= k < |db.chargebacks| ==>
          (db.chargebacks[k].status == ChargebackWrittenOff <==> StatusOf(db, db.chargebacks[k].invoiceId) == WrittenOff))
    && (forall j, k :: 0 <= j < k < |db.chargebacks| ==> db.chargebacks[j].invoiceId != db.chargebacks[k].invoiceId)
  }

  lemma NewRecordCompleted(ks: KeyScheme, db: Db, c: Call)
    requires Attempt(ks, db, c).Ok? && c.event.ChargeBack?
    ensures var rows := Attempt(ks, db, c).value.chargebacks;
            |rows| == |db.chargebacks| + 1 && rows[|db.chargebacks|].status == Completed
  {
  }

  lemma NoRecordWhileFunded(ks: KeyScheme, db: Db, id: nat)
    requires TrailsOk(ks, db) && StatusOf(db, id) == Funded
    ensures forall k :: 0 <= k < |db.chargebacks| ==> db.chargebacks[k].invoiceId != id
  {
    assert FindFirst(db.chargebacks, ChargebackOf(id)).None?;
  }

  lemma FitAfterChargeback(ks: KeyScheme, db: Db, c: Call)
    requires TrailsOk(ks, db) && RecordsFit(db) && Attempt(ks, db, c).Ok? && c.event.ChargeBack?
    ensures RecordsFit(Attempt(ks, db, c).value)
  {
    var db', id := Attempt(ks, db, c).value, c.event.id;
    ChargeBackFacts(ks, db, c);
    NewRecordCompleted(ks, db, c);
    NoRecordWhileFunded(ks, db, id);
    FitAfterNewRecord(db, db', id, c.now);
  }

  lemma FitAfterNewRecord(db: Db, db': Db, id: nat, now: int)
    requires RecordsFit(db) && Moves(db, db', id, Funded, ChargedBack, now)
    requires |db'.chargebacks| == |db.chargebacks| + 1 && db.chargebacks <= db'.chargebacks
    requires db'.chargebacks[|db.chargebacks|].invoiceId == id && db'.chargebacks[|db.chargebacks|].status == Completed
    requires forall k :: 0 <= k < |db.chargebacks| ==> db.chargebacks[k].invoiceId != id
    ensures RecordsFit(db')
  {
    forall k | 0 <= k < |db'.chargebacks|
      ensures db'.chargebacks[k].status == ChargebackWrittenOff <==> StatusOf(db', db'.chargebacks[k].invoiceId) == WrittenOff
    {
      StatusAfterMove(db, db', id, Funded, ChargedBack, now, db'.chargebacks[k].invoiceId);
    }
  }

  lemma FitAfterWriteOff(ks: KeyScheme, db: Db, c: Call)
    requires TrailsOk(ks, db) && RecordsFit(db) && Attempt(ks, db, c).Ok? && c.event.WriteOff?
    ensures RecordsFit(Attempt(ks, db, c).value)
  {
    var db', id := Attempt(ks, db, c).value, c.event.id;
    ShapeOfMoneyMove(ks, db, c);
    assert StatusOf(db, id) == ChargedBack;
    var record := FindFirst(db.chargebacks, ChargebackOf(id));
    assert record.Some?;
    FitAfterMarking(db, db', id, record.value, c.now);
  }

  lemma FitAfterMarking(db: Db, db': Db, id: nat, record: nat, now: int)
    requires RecordsFit(db) && Moves(db, db', id, ChargedBack, WrittenOff, now)
    requires record < |db.chargebacks| && db.chargebacks[record].invoiceId == id
    requires db'.chargebacks == db.chargebacks[record := db.chargebacks[record].(status := ChargebackWrittenOff)]
    ensures RecordsFit(db')
  {
    forall k | 0 <= k < |db'.chargebacks|
      ensures db'.chargebacks[k].status == ChargebackWrittenOff <==> StatusOf(db', db'.chargebacks[k].invoiceId) == WrittenOff
    {
      StatusAfterMove(db, db', id, ChargedBack, WrittenOff, now, db'.chargebacks[k].invoiceId);
    }
  }

  lemma FitElsewhere(db: Db, db': Db)
    requires RecordsFit(db) && db'.chargebacks == db.chargebacks
    requires forall i: nat :: StatusOf(db', i) == WrittenOff <==> StatusOf(db, i) == WrittenOff
    ensures RecordsFit(db')
  {
  }

  lemma FitAfterOther(ks: KeyScheme, db: Db, c: Call)
    requires RecordsFit(db) && StartsWhereItSays(db, c.event) && Attempt(ks, db, c).Ok?
    requires !c.event.ChargeBack? && !c.event.WriteOff?
    ensures RecordsFit(Attempt(ks, db, c).value)
  {
    var db' := Attempt(ks, db, c).value;
    FrameOfStep(ks, db, c);
    if c.event.Fund? || c.event.Settle? {
      ShapeOfMoneyMove(ks, db, c);
      forall i: nat ensures StatusOf(db', i) == WrittenOff <==> StatusOf(db, i) == WrittenOff {
        StatusAfterMove(db, db', c.event.id, EdgeOf(db, c.event).from, EdgeOf(db, c.event).to, c.now, i);
      }
    } else {
      QuietStepKeepsExpectations(ks, db, c);
    }
    FitElsewhere(db, db');
  }

  // ---- Runs

  lemma ChargebacksAfterStep(ks: KeyScheme, db: Db, c: Call)
    requires TrailsOk(ks, db) && ChargebacksPoint(db) && RecordsFit(db) && StartsWhereItSays(db, c.event)
    ensures ChargebacksPoint(Next(ks, db, c)) && RecordsFit(Next(ks, db, c))
  {
    PointingAfterStep(ks, db, c);
    if Attempt(ks, db, c).Ok? {
      if c.event.ChargeBack? {
        FitAfterChargeback(ks, db, c);
      } else if c.event.WriteOff? {
        FitAfterWriteOff(ks, db, c);
      } else {
        FitAfterOther(ks, db, c);
      }
    }
  }

  /** After any run each chargeback record names the CHARGEBACK entry of its own invoice and amount, is its invoice's
      only one, and is marked written off exactly when the invoice is WRITTEN_OFF. */
  lemma {:induction false} ChargebacksOfRun(ks: KeyScheme, calls: seq<Call>)
    requires Injective(ks) && Orderly(ks, calls)
    ensures ChargebacksPoint(After(ks, calls)) && RecordsFit(After(ks, calls))
  {
    if calls != [] {
      var n := |calls| - 1;
      ChargebacksOfRun(ks, calls[..n]);
      TrailsOfRun(ks, calls[..n]);
      ChargebacksAfterStep(ks, After(ks, calls[..n]), calls[n]);
    }
  }
}
