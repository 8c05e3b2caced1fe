/** What every ledger entry and every change log row says: which operation wrote it, about what, for whom, and how much. */
module Parties {
  import opened Wrappers
  import opened Sums
  import opened StateMachine
  import opened Credit
  import opened Ledger
  import opened FeeCalculator
  import opened Keys
  import opened Period
  import opened Schema
  import opened Engine
  import opened LedgerWrites
  import Exposure
  import Fees
  import FeeRuns
  import Histories
  import Invoices
  import Reruns
  import Settlement

  // ---- Ledger entries

  /** The entry names the parties of an invoice, and stands under the key of its type and invoice. */
  ghost predicate AboutInvoice(ks: KeyScheme, db: Db, e: LedgerEntry, id: nat) {
    && id < |db.invoices| && e.invoiceId == Some(id)
    && e.brokerId == Some(db.invoices[id].brokerId) && e.mcId == Some(db.invoices[id].mcId)
    && match e.entryType
       case FundingDisbursement => e.key == ks(DisbursementKey(id))
       case ReserveHold => e.key == ks(ReserveHoldKey(id))
       case ReserveRelease => e.key == ks(ReserveReleaseKey(id))
       case ChargebackEntry => e.key == ks(ChargebackKey(id))
       case WriteOffEntry => e.key == ks(WriteOffKey(id))
       case _ => false
  }

  /** The entry is the receipt of a payment: its amount, from its company, under its key. */
  ghost predicate IsReceipt(ks: KeyScheme, db: Db, e: LedgerEntry, p: nat) {
    && p < |db.payments| && e.key == ks(ReceiptKey(p)) && e.amount == db.payments[p].amount
    && e.invoiceId == None && e.brokerId == None && e.mcId == Some(db.payments[p].mcId)
  }

  /** The entry is the fee of an accrual row. */
  ghost predicate IsAccrualOf(ks: KeyScheme, e: LedgerEntry, a: Accrual) {
    && e.key == ks(AccrualKey(a.invoiceId, a.periodMonth)) && e.amount == a.feeAmount
    && e.invoiceId == Some(a.invoiceId) && e.brokerId == Some(a.brokerId) && e.mcId == None
  }

  ghost predicate IsFeeInvoiceOf(ks: KeyScheme, db: Db, e: LedgerEntry, brokerId: nat, month: int) {
    && (brokerId, month) in db.feeInvoices && e.key == ks(FeeInvoiceKey(brokerId, month))
    && e.invoiceId == None && e.brokerId == Some(brokerId) && e.mcId == None
  }

  /** What an entry says, by its type; no other types are written. */
  ghost predicate EntryOk(ks: KeyScheme, db: Db, e: LedgerEntry) {
    match e.entryType
    case PaymentReceipt => exists p: nat :: IsReceipt(ks, db, e, p)
    case FeeAccrualEntry => exists j :: 0 <= j < |db.accruals| && IsAccrualOf(ks, e, db.accruals[j])
    case FeeInvoiceEntry => exists brokerId: nat, month :: IsFeeInvoiceOf(ks, db, e, brokerId, month)
    case _ => e.invoiceId.Some? && AboutInvoice(ks, db, e, e.invoiceId.value)
  }

  ghost predicate EntriesOk(ks: KeyScheme, db: Db) {
    forall k :: 0 <= k < |db.ledger| ==> EntryOk(ks, db, db.ledger[k])
  }

  /** What entries name stays as it is. */
  ghost predicate KeepsNamed(db: Db, db': Db) {
    && Settlement.KeepsInvoices(db, db')
    && |db.payments| <= |db'.payments|
    && (forall p :: 0 <= p < |db.payments| ==>
          db'.payments[p].amount == db.payments[p].amount && db'.payments[p].mcId == db.payments[p].mcId)
    && db.accruals <= db'.accruals
    && db.feeInvoices.Keys <= db'.feeInvoices.Keys
  }

  lemma EntryStays(ks: KeyScheme, db: Db, db': Db, e: LedgerEntry)
    requires EntryOk(ks, db, e) && KeepsNamed(db, db')
    ensures EntryOk(ks, db', e)
  {
    match e.entryType {
      case PaymentReceipt =>
        var p: nat :| IsReceipt(ks, db, e, p);
        assert IsReceipt(ks, db', e, p);
      case FeeAccrualEntry =>
        var j :| 0 <= j < |db.accruals| && IsAccrualOf(ks, e, db.accruals[j]);
        assert db'.accruals[j] == db.accruals[j];
      case FeeInvoiceEntry =>
        var brokerId: nat, month :| IsFeeInvoiceOf(ks, db, e, brokerId, month);
        assert IsFeeInvoiceOf(ks, db', e, brokerId, month);
      case _ =>
    }
  }

  ghost predicate AllWrittenOk(ks: KeyScheme, db: Db, written: seq<Written>) {
    forall j :: 0 <= j < |written| ==> EntryOk(ks, db, written[j].entry)
  }

  lemma {:induction false} EntriesAfterRecording(ks: KeyScheme, db: Db, ledger: seq<LedgerEntry>, written: seq<Written>)
    requires forall k :: 0 <= k < |ledger| ==> EntryOk(ks, db, ledger[k])
    requires AllWrittenOk(ks, db, written)
    ensures forall k :: 0 <= k < |RecordWritten(ledger, written)| ==> EntryOk(ks, db, RecordWritten(ledger, written)[k])
  {
    if written != [] {
      EntriesAfterRecording(ks, db, ledger, written[..|written| - 1]);
    }
  }

  // ---- What a step writes

  lemma MoneyMoveWritesOk(ks: KeyScheme, db: Db, c: Call)
    requires Attempt(ks, db, c).Ok? && IsMoneyMove(c.event) && Settlement.KeepsInvoices(db, Attempt(ks, db, c).value)
    ensures AllWrittenOk(ks, Attempt(ks, db, c).value, WrittenBy(ks, db, c.event))
  {
    var db', written := Attempt(ks, db, c).value, WrittenBy(ks, db, c.event);
    forall j | 0 <= j < |written| ensures AboutInvoice(ks, db, written[j].entry, c.event.id) {
      WrittenAboutInvoice(ks, db, c.event, j);
    }
    forall j | 0 <= j < |written| ensures EntryOk(ks, db', written[j].entry) {
      assert AboutInvoice(ks, db, written[j].entry, c.event.id);
    }
  }

  lemma WrittenAboutInvoice(ks: KeyScheme, db: Db, e: Event, j: nat)
    requires IsMoneyMove(e) && j < |WrittenBy(ks, db, e)|
    ensures AboutInvoice(ks, db, WrittenBy(ks, db, e)[j].entry, e.id)
  {
  }

  lemma PaymentWritesOk(ks: KeyScheme, db: Db, c: Call)
    requires Attempt(ks, db, c).Ok? && c.event.RecordPayment?
    ensures AllWrittenOk(ks, Attempt(ks, db, c).value, WrittenBy(ks, db, c.event))
  {
    var written := WrittenBy(ks, db, c.event);
    Settlement.RecordingStep(ks, db, c);
    assert IsReceipt(ks, Attempt(ks, db, c).value, written[0].entry, |db.payments|);
  }

  /** The month's rows of the selected invoices are the broker's. */
  ghost predicate OfBroker(accruals: seq<Accrual>, selected: seq<Invoice>, brokerId: nat, month: int) {
    forall r, i :: 0 <= r < |accruals| && 0 <= i < |selected|
                   && accruals[r].periodMonth == month && accruals[r].invoiceId == selected[i].id ==>
      accruals[r].brokerId == brokerId
  }

  /** The entry of a turn is the fee of a row that is there after it. */
  lemma TurnWritesOk(ks: KeyScheme, s: Fees.Accruing, selected: seq<Invoice>, i: nat, brokerId: nat, month: int, tier: Option<FeeTier>)
    returns (k: nat)
    requires i < |selected| && OfBroker(s.accruals, selected, brokerId, month)
    ensures var accruals := Fees.AccrueOne(ks, s, selected[i], brokerId, month, tier).accruals;
            var e := AccrualWritten(ks, s, selected[i], brokerId, month, tier).entry;
            && OfBroker(accruals, selected, brokerId, month) && s.accruals <= accruals
            && k < |accruals| && e.entryType == FeeAccrualEntry && IsAccrualOf(ks, e, accruals[k])
  {
    var found := FindFirst(s.accruals, Fees.AccrualFor(selected[i].id, month));
    if found.Some? {
      k := found.value;
      assert Fees.AccrualFor(selected[i].id, month)(s.accruals[k]);
    } else {
      k := |s.accruals|;
    }
  }

  /** Each entry of the accrual loop is the fee of a row that is there at the end. */
  lemma {:induction false} LoopWritesOk(ks: KeyScheme, s: Fees.Accruing, selected: seq<Invoice>, n: nat, brokerId: nat, month: int,
                                        tier: Option<FeeTier>)
    requires n <= |selected| && OfBroker(s.accruals, selected, brokerId, month)
    ensures var accruals := Fees.AccrueAll(ks, s, selected[..n], brokerId, month, tier).accruals;
            var written := AccrualsWritten(ks, s, selected[..n], brokerId, month, tier);
            && OfBroker(accruals, selected, brokerId, month)
            && |written| == n && forall j :: 0 <= j < n ==> EntersRow(ks, accruals, written[j].entry)
  {
    if n > 0 {
      var earlier := selected[..n][..n - 1];
      assert earlier == selected[..n - 1];
      LoopWritesOk(ks, s, selected, n - 1, brokerId, month, tier);
      var before := Fees.AccrueAll(ks, s, earlier, brokerId, month, tier);
      var after := Fees.AccrueOne(ks, before, selected[n - 1], brokerId, month, tier);
      var k := TurnWritesOk(ks, before, selected, n - 1, brokerId, month, tier);
      var written := AccrualsWritten(ks, s, earlier, brokerId, month, tier);
      forall j | 0 <= j < n - 1 ensures EntersRow(ks, after.accruals, written[j].entry) {
        EntersRowStill(ks, before.accruals, after.accruals, written[j].entry);
      }
      assert EntersRow(ks, after.accruals, AccrualWritten(ks, before, selected[n - 1], brokerId, month, tier).entry);
    }
  }

  ghost predicate EntersRow(ks: KeyScheme, accruals: seq<Accrual>, e: LedgerEntry) {
    e.entryType == FeeAccrualEntry && exists k :: 0 <= k < |accruals| && IsAccrualOf(ks, e, accruals[k])
  }

  lemma EntersRowStill(ks: KeyScheme, before: seq<Accrual>, after: seq<Accrual>, e: LedgerEntry)
    requires EntersRow(ks, before, e) && before <= after
    ensures EntersRow(ks, after, e)
  {
    var k :| 0 <= k < |before| && IsAccrualOf(ks, e, before[k]);
    assert after[k] == before[k];
  }

  lemma SelectionOfBroker(db: Db, brokerId: nat, month: int)
    requires Histories.PathsOk(db) && Reruns.AccrualsOwned(db)
    ensures OfBroker(db.accruals, Fees.Outstanding(db, brokerId, month), brokerId, month)
  {
    var selected := Fees.Outstanding(db, brokerId, month);
    FeeRuns.SelectionIsExact(db, brokerId, month);
    forall i | 0 <= i < |selected| ensures selected[i].id < |db.invoices| && db.invoices[selected[i].id].brokerId == brokerId {
      assert selected[i] in selected;
    }
  }

  lemma RunWritesOk(ks: KeyScheme, db: Db, brokerId: nat, month: int)
    requires Histories.PathsOk(db) && Reruns.AccrualsOwned(db) && Fees.RunMonth(ks, db, brokerId, month).Ok?
    ensures AllWrittenOk(ks, Fees.RunMonth(ks, db, brokerId, month).value, RunWritten(ks, db, brokerId, month))
  {
    var db', written := Fees.RunMonth(ks, db, brokerId, month).value, RunWritten(ks, db, brokerId, month);
    var selected := Fees.Outstanding(db, brokerId, month);
    var s, tier := Fees.Accruing(db.accruals, db.ledger, 0), Fees.TierFor(db, selected);
    SelectionOfBroker(db, brokerId, month);
    assert selected[..|selected|] == selected;
    LoopWritesOk(ks, s, selected, |selected|, brokerId, month, tier);
    forall j | 0 <= j < |written| ensures EntryOk(ks, db', written[j].entry) {
      if j < |selected| {
        assert written[j] == AccrualsWritten(ks, s, selected, brokerId, month, tier)[j];
        assert EntersRow(ks, db'.accruals, written[j].entry);
      } else {
        assert IsFeeInvoiceOf(ks, db', written[j].entry, brokerId, month);
      }
    }
  }

  lemma StepWritesOk(ks: KeyScheme, db: Db, c: Call)
    requires Histories.PathsOk(db) && Reruns.AccrualsOwned(db) && StartsWhereItSays(db, c.event) && Attempt(ks, db, c).Ok?
    ensures AllWrittenOk(ks, Attempt(ks, db, c).value, WrittenBy(ks, db, c.event))
  {
    if c.event.RunFees? {
      RunStep(ks, db, c);
      WrittenByRun(ks, db, c.event);
      RunWritesOk(ks, db, c.event.brokerId, PeriodMonth(c.event.date));
    } else if IsMoneyMove(c.event) {
      Settlement.StepKeepsInvoices(ks, db, c);
      MoneyMoveWritesOk(ks, db, c);
    } else if c.event.RecordPayment? {
      PaymentWritesOk(ks, db, c);
    } else {
      LedgerOfQuietStep(ks, db, c);
    }
  }

  lemma StepKeepsNamed(ks: KeyScheme, db: Db, c: Call)
    requires Histories.PathsOk(db) && Reruns.OneRowEach(db.accruals) && Reruns.AccrualsOwned(db)
    requires StartsWhereItSays(db, c.event) && Attempt(ks, db, c).Ok?
    ensures KeepsNamed(db, Attempt(ks, db, c).value)
  {
    Settlement.StepKeepsInvoices(ks, db, c);
    FrameOfStep(ks, db, c);
    Reruns.RowsStay(ks, db, c);
    if c.event.RunFees? {
      RunStep(ks, db, c);
      Reruns.RunTouchesFeesOnly(ks, db, c.event.brokerId, PeriodMonth(c.event.date));
    } else if c.event.RecordPayment? {
      Settlement.RecordingStep(ks, db, c);
    }
  }

  /** In every reachable state each ledger entry says the truth about its key, its parties and, for receipts and fees, its
      amount; for the amounts of the other entries see MoneyTrail. */
  lemma {:induction false} EntriesOfRun(ks: KeyScheme, calls: seq<Call>)
    requires Orderly(ks, calls)
    ensures EntriesOk(ks, After(ks, calls))
  {
    if calls != [] {
      var n := |calls| - 1;
      var db, c := After(ks, calls[..n]), calls[n];
      EntriesOfRun(ks, calls[..n]);
      Reruns.RowsInRun(ks, calls[..n]);
      if Attempt(ks, db, c).Ok? {
        var db' := Attempt(ks, db, c).value;
        StepKeepsNamed(ks, db, c);
        StepWritesOk(ks, db, c);
        LedgerOfStep(ks, db, c);
        forall k | 0 <= k < |db.ledger| ensures EntryOk(ks, db', db.ledger[k]) {
          EntryStays(ks, db, db', db.ledger[k]);
        }
        EntriesAfterRecording(ks, db', db.ledger, WrittenBy(ks, db, c.event));
      }
    }
  }
}
