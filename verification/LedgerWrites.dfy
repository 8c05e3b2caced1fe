/** What every operation records in the ledger, as a list of keyed entries. */
module LedgerWrites {
  import opened Wrappers
  import opened Sums
  import opened StateMachine
  import opened Ledger
  import opened FeeCalculator
  import opened Keys
  import opened Period
  import opened Schema
  import opened Engine
  import Invoices
  import Fees

  /** The entry is of the type, and about the invoice, that the operation behind the key writes. */
  predicate Fits(e: LedgerEntry, name: KeyName) {
    match name
    case DisbursementKey(i) => e.entryType == FundingDisbursement && e.invoiceId == Some(i)
    case ReserveHoldKey(i) => e.entryType == ReserveHold && e.invoiceId == Some(i)
    case ReserveReleaseKey(i) => e.entryType == ReserveRelease && e.invoiceId == Some(i)
    case ChargebackKey(i) => e.entryType == ChargebackEntry && e.invoiceId == Some(i)
    case WriteOffKey(i) => e.entryType == WriteOffEntry && e.invoiceId == Some(i)
    case ReceiptKey(_) => e.entryType == PaymentReceipt
    case AccrualKey(_, _) => e.entryType == FeeAccrualEntry
    case FeeInvoiceKey(_, _) => e.entryType == FeeInvoiceEntry
    case _ => false
  }

  /** An entry that is not part of an invoice's money trail leaves every trail alone. */
  predicate OffTrail(e: LedgerEntry) {
    e.entryType == PaymentReceipt || e.entryType == FeeAccrualEntry || e.entryType == FeeInvoiceEntry
  }

  datatype Written = Written(name: KeyName, entry: LedgerEntry)

  /** A key of the fee run. */
  predicate IsFeeKey(name: KeyName) {
    name.AccrualKey? || name.FeeInvoiceKey?
  }

  predicate WellWritten(ks: KeyScheme, w: Written) {
    Fits(w.entry, w.name) && w.entry.key == ks(w.name)
  }

  function ChargebackAmount(chargebacks: seq<Chargeback>, i: nat, default: int): int {
    match FindFirst(chargebacks, ChargebackOf(i))
    case Some(j) => chargebacks[j].amount
    case None => default
  }

  function ValueOr0(o: Option<int>): int {
    if o.Some? then o.value else 0
  }

  /** The entry of one turn of the accrual loop. */
  function AccrualWritten(ks: KeyScheme, s: Fees.Accruing, inv: Invoice, brokerId: nat, month: int, tier: Option<FeeTier>): Written {
    var found := FindFirst(s.accruals, Fees.AccrualFor(inv.id, month));
    var row := if found.Some? then s.accruals[found.value] else Fees.NewAccrual(inv, brokerId, month, tier);
    Written(AccrualKey(inv.id, month), Fees.AccrualEntry(row, brokerId, ks(AccrualKey(inv.id, month))))
  }

  /** The accrual entries of a fee run over the selected invoices. */
  function AccrualsWritten(ks: KeyScheme, s: Fees.Accruing, selected: seq<Invoice>, brokerId: nat, month: int,
                           tier: Option<FeeTier>): seq<Written>
  {
    if selected == [] then []
    else
      var n := |selected| - 1;
      AccrualsWritten(ks, s, selected[..n], brokerId, month, tier)
      + [AccrualWritten(ks, Fees.AccrueAll(ks, s, selected[..n], brokerId, month, tier), selected[n], brokerId, month, tier)]
  }

  /** The entry of the fee invoice a run ends with. */
  function FeeInvoiceWritten(ks: KeyScheme, brokerId: nat, month: int, calculated: int, minimum: int): Written {
    Written(FeeInvoiceKey(brokerId, month),
            Fees.FeeInvoiceEntryFor(brokerId, if calculated < minimum then minimum else calculated, ks(FeeInvoiceKey(brokerId, month))))
  }

  /** The entries of a fee run on a selection. */
  function SelectionWritten(ks: KeyScheme, s: Fees.Accruing, selected: seq<Invoice>, brokerId: nat, month: int,
                            tier: Option<FeeTier>, minimum: int): seq<Written>
  {
    AccrualsWritten(ks, s, selected, brokerId, month, tier)
    + [FeeInvoiceWritten(ks, brokerId, month, Fees.AccrueAll(ks, s, selected, brokerId, month, tier).calculatedFee, minimum)]
  }

  function RunWritten(ks: KeyScheme, db: Db, brokerId: nat, month: int): seq<Written> {
    var selected := Fees.Outstanding(db, brokerId, month);
    SelectionWritten(ks, Fees.Accruing(db.accruals, db.ledger, 0), selected, brokerId, month, Fees.TierFor(db, selected),
                     Fees.CurrentMinimumFee(db.feeConfigs))
  }

  /** The entries an event records, in order. */
  function WrittenBy(ks: KeyScheme, db: Db, e: Event): seq<Written> {
    match e
    case Fund(id, advancePct) =>
      if id < |db.invoices| then
        var c := Invoices.FundingTerms(db.invoices[id], id, advancePct);
        [Written(DisbursementKey(id), Invoices.DisbursementEntry(c, ks(DisbursementKey(id)))),
         Written(ReserveHoldKey(id), Invoices.ReserveHoldEntry(c, ks(ReserveHoldKey(id))))]
      else []
    case Settle(id) =>
      if id < |db.invoices| then
        [Written(ReserveReleaseKey(id), Invoices.InvoiceEntry(ReserveRelease, ValueOr0(db.invoices[id].reserveAmount),
                                                              db.invoices[id], id, ks(ReserveReleaseKey(id))))]
      else []
    case ChargeBack(id, amount) =>
      if id < |db.invoices| then
        [Written(ChargebackKey(id), Invoices.InvoiceEntry(ChargebackEntry, amount, db.invoices[id], id, ks(ChargebackKey(id))))]
      else []
    case WriteOff(id) =>
      if id < |db.invoices| then
        [Written(WriteOffKey(id), Invoices.InvoiceEntry(WriteOffEntry,
            ChargebackAmount(db.chargebacks, id, db.invoices[id].totalAmount), db.invoices[id], id, ks(WriteOffKey(id))))]
      else []
    case RecordPayment(mcId, amount, _) =>
      [Written(ReceiptKey(|db.payments|),
               LedgerEntry(PaymentReceipt, amount, None, None, Some(mcId), ks(ReceiptKey(|db.payments|))))]
    case RunFees(brokerId, date) => RunWritten(ks, db, brokerId, PeriodMonth(date))
    case _ => []
  }

  function RecordWritten(ledger: seq<LedgerEntry>, written: seq<Written>): seq<LedgerEntry> {
    if written == [] then ledger
    else Record(RecordWritten(ledger, written[..|written| - 1]), written[|written| - 1].entry)
  }

  lemma RecordOneMore(ledger: seq<LedgerEntry>, written: seq<Written>, w: Written)
    ensures RecordWritten(ledger, written + [w]) == Record(RecordWritten(ledger, written), w.entry)
  {
    assert (written + [w])[..|written|] == written;
  }

  lemma RecordTwo(ledger: seq<LedgerEntry>, a: Written, b: Written)
    ensures RecordWritten(ledger, [a]) == Record(ledger, a.entry)
    ensures RecordWritten(ledger, [a, b]) == Record(Record(ledger, a.entry), b.entry)
  {
    RecordOneMore(ledger, [], a);
    RecordOneMore(ledger, [a], b);
    assert [] + [a] == [a] && [a] + [b] == [a, b];
  }

  lemma TurnIsWritten(ks: KeyScheme, s: Fees.Accruing, inv: Invoice, brokerId: nat, month: int, tier: Option<FeeTier>)
    ensures var w := AccrualWritten(ks, s, inv, brokerId, month, tier);
            && Fees.AccrueOne(ks, s, inv, brokerId, month, tier).ledger == Record(s.ledger, w.entry)
            && WellWritten(ks, w) && IsFeeKey(w.name)
  {
  }

  ghost predicate AreFeeEntries(ks: KeyScheme, written: seq<Written>) {
    forall j :: 0 <= j < |written| ==> WellWritten(ks, written[j]) && IsFeeKey(written[j].name)
  }

  lemma OneMoreFeeEntry(ks: KeyScheme, written: seq<Written>, w: Written)
    requires AreFeeEntries(ks, written) && WellWritten(ks, w) && IsFeeKey(w.name)
    ensures AreFeeEntries(ks, written + [w])
  {
  }

  lemma {:induction false} AccrualsAreWritten(ks: KeyScheme, s: Fees.Accruing, selected: seq<Invoice>, brokerId: nat,
                                              month: int, tier: Option<FeeTier>)
    ensures var written := AccrualsWritten(ks, s, selected, brokerId, month, tier);
            && Fees.AccrueAll(ks, s, selected, brokerId, month, tier).ledger == RecordWritten(s.ledger, written)
            && AreFeeEntries(ks, written)
  {
    if selected != [] {
      var n := |selected| - 1;
      AccrualsAreWritten(ks, s, selected[..n], brokerId, month, tier);
      var before := Fees.AccrueAll(ks, s, selected[..n], brokerId, month, tier);
      var earlier := AccrualsWritten(ks, s, selected[..n], brokerId, month, tier);
      var w := AccrualWritten(ks, before, selected[n], brokerId, month, tier);
      TurnIsWritten(ks, before, selected[n], brokerId, month, tier);
      OneMoreFeeEntry(ks, earlier, w);
      RecordOneMore(s.ledger, earlier, w);
    }
  }

  lemma SelectionIsWritten(ks: KeyScheme, s: Fees.Accruing, selected: seq<Invoice>, brokerId: nat, month: int,
                           tier: Option<FeeTier>, minimum: int)
    ensures var written := SelectionWritten(ks, s, selected, brokerId, month, tier, minimum);
            var done := Fees.AccrueAll(ks, s, selected, brokerId, month, tier);
            && RecordWritten(s.ledger, written)
               == Record(done.ledger, FeeInvoiceWritten(ks, brokerId, month, done.calculatedFee, minimum).entry)
            && AreFeeEntries(ks, written)
  {
    var accruals := AccrualsWritten(ks, s, selected, brokerId, month, tier);
    var last := FeeInvoiceWritten(ks, brokerId, month, Fees.AccrueAll(ks, s, selected, brokerId, month, tier).calculatedFee, minimum);
    AccrualsAreWritten(ks, s, selected, brokerId, month, tier);
    OneMoreFeeEntry(ks, accruals, last);
    RecordOneMore(s.ledger, accruals, last);
  }

  lemma RunIsWritten(ks: KeyScheme, db: Db, brokerId: nat, month: int)
    ensures var written := RunWritten(ks, db, brokerId, month);
            && AreFeeEntries(ks, written)
            && (Fees.RunMonth(ks, db, brokerId, month).Ok? ==>
                  Fees.RunMonth(ks, db, brokerId, month).value.ledger == RecordWritten(db.ledger, written))
  {
    var selected := Fees.Outstanding(db, brokerId, month);
    SelectionIsWritten(ks, Fees.Accruing(db.accruals, db.ledger, 0), selected, brokerId, month, Fees.TierFor(db, selected),
                       Fees.CurrentMinimumFee(db.feeConfigs));
  }

  /** A step's ledger is the old one with the event's entries recorded. */
  lemma LedgerOfStep(ks: KeyScheme, db: Db, c: Call)
    requires Attempt(ks, db, c).Ok?
    ensures Attempt(ks, db, c).value.ledger == RecordWritten(db.ledger, WrittenBy(ks, db, c.event))
  {
    if c.event.RunFees? {
      LedgerOfRunStep(ks, db, c);
    } else {
      LedgerOfInvoiceStep(ks, db, c);
    }
  }

  lemma RunStep(ks: KeyScheme, db: Db, c: Call)
    requires c.event.RunFees?
    ensures Attempt(ks, db, c) == Fees.RunMonth(ks, db, c.event.brokerId, PeriodMonth(c.event.date))
  {
  }

  lemma WrittenByRun(ks: KeyScheme, db: Db, e: Event)
    requires e.RunFees?
    ensures WrittenBy(ks, db, e) == RunWritten(ks, db, e.brokerId, PeriodMonth(e.date))
  {
  }

  lemma LedgerOfRunStep(ks: KeyScheme, db: Db, c: Call)
    requires Attempt(ks, db, c).Ok? && c.event.RunFees?
    ensures Attempt(ks, db, c).value.ledger == RecordWritten(db.ledger, WrittenBy(ks, db, c.event))
  {
    RunIsWritten(ks, db, c.event.brokerId, PeriodMonth(c.event.date));
    RunStep(ks, db, c);
    WrittenByRun(ks, db, c.event);
  }

  lemma LedgerOfFund(ks: KeyScheme, db: Db, c: Call)
    requires Attempt(ks, db, c).Ok? && c.event.Fund?
    ensures Attempt(ks, db, c).value.ledger == RecordWritten(db.ledger, WrittenBy(ks, db, c.event))
  {
    var w := WrittenBy(ks, db, c.event);
    assert w == [w[0], w[1]];
    RecordTwo(db.ledger, w[0], w[1]);
  }

  /** The other operations that write one entry. */
  predicate WritesOne(e: Event) {
    e.Settle? || e.ChargeBack? || e.WriteOff? || e.RecordPayment?
  }

  lemma LedgerOfOneEntry(ks: KeyScheme, db: Db, c: Call)
    requires Attempt(ks, db, c).Ok? && WritesOne(c.event)
    ensures Attempt(ks, db, c).value.ledger == RecordWritten(db.ledger, WrittenBy(ks, db, c.event))
  {
    var w := WrittenBy(ks, db, c.event);
    assert w == [w[0]];
    RecordTwo(db.ledger, w[0], w[0]);
  }

  lemma LedgerOfQuietStep(ks: KeyScheme, db: Db, c: Call)
    requires Attempt(ks, db, c).Ok? && !c.event.RunFees? && !c.event.Fund? && !WritesOne(c.event)
    ensures WrittenBy(ks, db, c.event) == [] && Attempt(ks, db, c).value.ledger == db.ledger
  {
  }

  lemma LedgerOfInvoiceStep(ks: KeyScheme, db: Db, c: Call)
    requires Attempt(ks, db, c).Ok? && !c.event.RunFees?
    ensures Attempt(ks, db, c).value.ledger == RecordWritten(db.ledger, WrittenBy(ks, db, c.event))
  {
    if c.event.Fund? {
      LedgerOfFund(ks, db, c);
    } else if WritesOne(c.event) {
      LedgerOfOneEntry(ks, db, c);
    } else {
      LedgerOfQuietStep(ks, db, c);
    }
  }

  predicate IsMoneyMove(e: Event) {
    e.Fund? || e.Settle? || e.ChargeBack? || e.WriteOff?
  }

  /** The entry is the one its key stands for; only the money moves write on an invoice's trail, only fund writes
      disbursements and reserve holds, only payments write receipts and only fee runs write fees. */
  ghost predicate FitsEvent(ks: KeyScheme, e: Event, w: Written) {
    && WellWritten(ks, w)
    && (IsMoneyMove(e) || OffTrail(w.entry))
    && (w.name.DisbursementKey? || w.name.ReserveHoldKey? <==> e.Fund?)
    && (w.name.ReceiptKey? <==> e.RecordPayment?)
    && (IsFeeKey(w.name) <==> e.RunFees?)
  }

  lemma WrittenFit(ks: KeyScheme, db: Db, e: Event)
    ensures forall j :: 0 <= j < |WrittenBy(ks, db, e)| ==> FitsEvent(ks, e, WrittenBy(ks, db, e)[j])
  {
    if e.RunFees? {
      RunWrittenFit(ks, db, e);
    } else {
      InvoiceWrittenFit(ks, db, e);
    }
  }

  lemma RunWrittenFit(ks: KeyScheme, db: Db, e: Event)
    requires e.RunFees?
    ensures forall j :: 0 <= j < |WrittenBy(ks, db, e)| ==> FitsEvent(ks, e, WrittenBy(ks, db, e)[j])
  {
    RunIsWritten(ks, db, e.brokerId, PeriodMonth(e.date));
    WrittenByRun(ks, db, e);
  }

  lemma InvoiceWrittenFit(ks: KeyScheme, db: Db, e: Event)
    requires !e.RunFees?
    ensures forall j :: 0 <= j < |WrittenBy(ks, db, e)| ==> FitsEvent(ks, e, WrittenBy(ks, db, e)[j])
  {
  }
}
