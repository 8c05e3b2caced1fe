/** Fee runs that go wrong: one made before its month starts, and one whose transaction comes after the fee invoice was
    issued. */
module FailingFeeRuns {
  import opened Wrappers
  import opened Sums
  import opened StateMachine
  import opened Credit
  import opened Ledger
  import opened FeeCalculator
  import opened Keys
  import opened Period
  import opened Schema
  import opened Engine
  import opened LedgerWrites
  import opened Fees
  import opened FeeRuns
  import opened Reruns
  import opened EarlyRuns
  import opened Scenarios
  import opened FailingRuns
  import AppendOnly
  import Histories
  import Invoices
  import TimelyRuns

  // ---- A run before its month starts

  /** One per cent of an amount, a hundred times. */
  const WHOLE := 100_000

  /** A run for the first day of a month is about that month. */
  lemma RunOfMonth(ks: KeyScheme, db: Db, brokerId: nat, month: int, now: int)
    requires !IsShortYear(month)
    ensures PeriodMonth(MonthStart(month)) == month
    ensures Attempt(ks, db, Call(RunFees(brokerId, MonthStart(month)), now)) == RunMonth(ks, db, brokerId, month)
  {
    MonthOfStart(month);
    MonthOfPeriod(month);
    RunStep(ks, db, Call(RunFees(brokerId, MonthStart(month)), now));
  }

  lemma HasApproval(db: Db, id: nat)
    requires Histories.PathsOk(db) && EverApproved(StatusOf(db, id))
    ensures exists k :: 0 <= k < |db.history| && IsApprovalOf(db.history[k], id)
  {
    var rows := HistoryOf(db.history, id);
    assert IsPath(rows, StatusOf(db, id));
    EntersMoneyStatusesOnce(rows, StatusOf(db, id));
    VisitsInHistory(db.history, id, ApprovedForFunding);
    if forall k :: 0 <= k < |db.history| ==> !IsApprovalOf(db.history[k], id) {
      SumOfZeros(db.history, EntersFor(id, ApprovedForFunding));
    }
  }

  lemma ApprovedBeforeMonth(db: Db, d: Deal, month: int)
    requires Histories.PathsOk(db) && EverApproved(StatusOf(db, 0))
    requires (forall k :: 0 <= k < |db.history| ==> db.history[k].createdAt == d.now) && d.now < MonthStart(month)
    ensures ApprovedBefore(db.history, 0, MonthStart(month + 1))
  {
    HasApproval(db, 0);
    MonthStartsIncrease(month, month + 1);
    var k :| 0 <= k < |db.history| && IsApprovalOf(db.history[k], 0);
    assert db.history[k].createdAt < MonthStart(month + 1);
  }

  /** The prepared invoice was approved before the month and is not resolved. */
  lemma PreparedIsOutstanding(db: Db, d: Deal, month: int)
    requires Histories.PathsOk(db) && |db.invoices| == 1 && db.invoices[0] == ApprovedInvoice(d, 0)
    requires (forall k :: 0 <= k < |db.history| ==> db.history[k].createdAt == d.now) && d.now < MonthStart(month)
    ensures IsOutstanding(db.history, 0, month)
  {
    assert StatusOf(db, 0) == ApprovedForFunding;
    ApprovedBeforeMonth(db, d, month);
    TimelyRuns.FundedIsOpen(db, 0);
  }

  /** So it is all that the month's run selects. */
  lemma OnlySelected(db: Db, d: Deal, month: int)
    requires Histories.PathsOk(db) && |db.invoices| == 1 && db.invoices[0] == ApprovedInvoice(d, 0)
    requires IsOutstanding(db.history, 0, month)
    ensures Outstanding(db, d.brokerId, month) == [db.invoices[0]]
  {
    SelectionIsExact(db, d.brokerId, month);
    OneOfOne(db.invoices[0], Outstanding(db, d.brokerId, month));
  }

  lemma OneOfOne(inv: Invoice, selected: seq<Invoice>)
    requires inv in selected && DistinctIds(selected) && forall j :: 0 <= j < |selected| ==> selected[j] == inv
    ensures selected == [inv]
  {
    assert |selected| > 1 ==> selected[0].id != selected[1].id;
  }

  function WholeTier(): FeeTier {
    FeeTier(0, 0, None, WHOLE, true)
  }

  function WholeRow(d: Deal, month: int): Accrual {
    Accrual(0, d.brokerId, month, Some(0), WHOLE, d.amount, d.amount)
  }

  lemma WholeFee(amount: nat)
    ensures RoundHalfAway(amount * WHOLE, FEE_SCALE) == amount
  {
  }

  lemma TierIsWhole(db: Db, selected: seq<Invoice>)
    requires db.tiers == [WholeTier()] && 0 <= Sum(selected, Gallons())
    ensures TierFor(db, selected) == Some(WholeTier())
  {
    assert db.tiers[1..] == [];
    assert ListActiveTiers(db.tiers) == [WholeTier()];
    assert Contains(Sum(selected, Gallons()))([WholeTier()][0]);
  }

  /** The run of the prepared invoice charges its whole amount. */
  lemma RunChargesWhole(ks: KeyScheme, db: Db, d: Deal, month: int)
    requires |db.invoices| == 1 && db.invoices[0] == ApprovedInvoice(d, 0)
    requires Outstanding(db, d.brokerId, month) == [db.invoices[0]]
    requires db.tiers == [WholeTier()] && db.accruals == [] && db.feeInvoices == map[]
    ensures RunMonth(ks, db, d.brokerId, month).Ok? && RunMonth(ks, db, d.brokerId, month).value.accruals == [WholeRow(d, month)]
  {
    var inv, s := db.invoices[0], Accruing(db.accruals, db.ledger, 0);
    assert [inv][..0] == [];
    assert Sum([inv], Gallons()) == Sum([inv][..0], Gallons()) + Gallons()(inv);
    TierIsWhole(db, [inv]);
    WholeFee(d.amount);
    assert AccrueAll(ks, s, [inv][..0], d.brokerId, month, Some(WholeTier())) == s;
    assert AccrueAll(ks, s, [inv], d.brokerId, month, Some(WholeTier())) == AccrueOne(ks, s, inv, d.brokerId, month, Some(WholeTier()));
    assert NewAccrual(inv, d.brokerId, month, Some(WholeTier())) == WholeRow(d, month);
  }

  ghost predicate LeadsAt(ks: KeyScheme, calls: seq<Call>, now: int, db: Db) {
    Leads(ks, calls, db) && forall j :: 0 <= j < |calls| ==> calls[j].now == now
  }

  lemma LeadsOnAt(ks: KeyScheme, calls: seq<Call>, now: int, db: Db, c: Call) returns (calls': seq<Call>, db': Db)
    requires LeadsAt(ks, calls, now, db) && StartsWhereItSays(db, c.event) && c.now == now
    ensures LeadsAt(ks, calls', now, db') && db' == Next(ks, db, c)
  {
    LeadsOn(ks, calls, db, c);
    calls', db' := calls + [c], Next(ks, db, c);
  }

  lemma Priced(ks: KeyScheme, d: Deal) returns (calls: seq<Call>, db: Db)
    requires d.amount <= d.cap
    ensures LeadsAt(ks, calls, d.now, db) && db.tiers == [WholeTier()] && Ready(db.(tiers := []), d, 1)
  {
    var prepared, before := Prepared(ks, d, 1);
    calls, db := LeadsOnAt(ks, prepared, d.now, before, Call(CreateTier(0, None, WHOLE), d.now));
    assert db == before.(tiers := [WholeTier()]);
  }

  /** The prepared invoice has been run for a month to come. */
  lemma RunEarly(ks: KeyScheme, d: Deal, month: int) returns (calls: seq<Call>, db: Db)
    requires d.amount <= d.cap && d.now < MonthStart(month) && !IsShortYear(month)
    ensures LeadsAt(ks, calls, d.now, db) && RunWithRow(db, d, month)
  {
    var priced, before := Priced(ks, d);
    Histories.PathsOfRun(ks, priced);
    assert before.invoices[0] == ApprovedInvoice(d, 0);
    PreparedIsOutstanding(before, d, month);
    OnlySelected(before, d, month);
    RunChargesWhole(ks, before, d, month);
    RunOfMonth(ks, before, d.brokerId, month, d.now);
    RunLeavesDraft(ks, before, d, month);
    calls, db := LeadsOnAt(ks, priced, d.now, before, Call(RunFees(d.brokerId, MonthStart(month)), d.now));
  }

  lemma RunLeavesDraft(ks: KeyScheme, db: Db, d: Deal, month: int)
    requires Ready(db.(tiers := []), d, 1) && RunMonth(ks, db, d.brokerId, month).Ok?
    requires RunMonth(ks, db, d.brokerId, month).value.accruals == [WholeRow(d, month)]
    ensures RunWithRow(RunMonth(ks, db, d.brokerId, month).value, d, month)
  {
    assert db.invoices[0] == ApprovedInvoice(d, 0);
  }

  /** The fee invoice is a draft, and its only row charges the invoice's whole amount. */
  ghost predicate HasRowAndDraft(db: Db, d: Deal, month: int) {
    && db.accruals == [WholeRow(d, month)]
    && (d.brokerId, month) in db.feeInvoices && db.feeInvoices[(d.brokerId, month)].status == FeeDraft
  }

  ghost predicate RunWithRow(db: Db, d: Deal, month: int) {
    && |db.invoices| == 1 && db.invoices[0] == ApprovedInvoice(d, 0)
    && d.mcId in db.credit.limits && db.credit.limits[d.mcId] == Limit(d.cap, 0) && db.credit.changeLog == []
    && HasRowAndDraft(db, d, month)
  }

  ghost predicate FundedWithRow(db: Db, d: Deal, month: int) {
    && |db.invoices| == 1 && db.invoices[0].status == Funded && db.invoices[0].mcId == d.mcId
    && d.mcId in db.credit.limits && HasRowAndDraft(db, d, month)
  }

  lemma FundWithRow(ks: KeyScheme, db: Db, d: Deal, month: int)
    requires RunWithRow(db, d, month) && d.amount <= d.cap
    ensures FundedWithRow(Next(ks, db, Call(Fund(0, 0), d.now)), d, month)
  {
  }

  lemma ChargeBackWithRow(ks: KeyScheme, db: Db, d: Deal, month: int)
    requires FundedWithRow(db, d, month)
    ensures var db' := Next(ks, db, Call(ChargeBack(0, 0), d.now));
            HasRowAndDraft(db', d, month) && ResolvedAt(db'.history, 0) == Some(d.now)
  {
    var db', row := Next(ks, db, Call(ChargeBack(0, 0), d.now)), StatusRow(0, Funded, ChargedBack, d.now);
    assert db'.history == db.history + [row];
    ResolvedLast(db.history, row);
  }

  lemma ResolvedLast(history: seq<StatusRow>, row: StatusRow)
    requires IsResolved(row.to)
    ensures ResolvedAt(history + [row], row.invoiceId) == Some(row.createdAt)
  {
  }

  lemma FallsShort(ks: KeyScheme, calls: seq<Call>, db: Db, d: Deal, month: int)
    requires Leads(ks, calls, db) && HasRowAndDraft(db, d, month) && 0 < d.amount
    requires ResolvedAt(db.history, 0) == Some(d.now) && d.now < MonthStart(month)
    ensures RunMonth(ks, db, d.brokerId, month).Ok?
    ensures var db' := RunMonth(ks, db, d.brokerId, month).value;
            db'.feeInvoices[(d.brokerId, month)].calculatedFee < Sum(db'.accruals, FeeOf(d.brokerId, month))
  {
    assert IsRowOf(db.accruals[0], d.brokerId, month) && ResolvedBefore(db.history, db.accruals[0].invoiceId, month);
    assert !NoEarlyFees(db, d.brokerId, month);
    WholeSumIffNoEarlyFees(ks, calls, d.brokerId, month);
  }

  /** An invoice is approved and run for a month that has not started, then funded and charged back, all before that
      month: the month's next run carries less than the month's accrual rows. */
  lemma EarlyRunFallsShort(ks: KeyScheme, brokerId: nat, mcId: nat, amount: nat, month: int) returns (calls: seq<Call>)
    requires 0 < amount && !IsShortYear(month)
    ensures Orderly(ks, calls) && forall j :: 0 <= j < |calls| ==> calls[j].now == MonthStart(month) - 1
    ensures RunMonth(ks, Engine.After(ks, calls), brokerId, month).Ok?
    ensures var db' := RunMonth(ks, Engine.After(ks, calls), brokerId, month).value;
            db'.feeInvoices[(brokerId, month)].calculatedFee < Sum(db'.accruals, FeeOf(brokerId, month))
  {
    var d := Deal(brokerId, mcId, amount, amount, MonthStart(month) - 1);
    var early, run := RunEarly(ks, d, month);
    FundWithRow(ks, run, d, month);
    var later, funded := LeadsOnAt(ks, early, d.now, run, Call(Fund(0, 0), d.now));
    ChargeBackWithRow(ks, funded, d, month);
    var db: Db;
    calls, db := LeadsOnAt(ks, later, d.now, funded, Call(ChargeBack(0, 0), d.now));
    FallsShort(ks, calls, db, d, month);
  }

  // ---- A fee invoice issued during its run

  /** A run whose transaction comes after its fee invoice was issued gives it the amounts a whole run would have given
      the draft. */
  lemma LateIsWhole(ks: KeyScheme, db: Db, brokerId: nat, month: int)
    requires ReadRun(db, brokerId, month).Ok? && (brokerId, month) in db.feeInvoices
    ensures var issued := Fees.MarkIssued(db, brokerId, month).value;
            var late := RunCommit(ks, issued, brokerId, month, ReadRun(db, brokerId, month).value).feeInvoices[(brokerId, month)];
            late == RunMonth(ks, db, brokerId, month).value.feeInvoices[(brokerId, month)].(status := FeeIssued)
  {
  }

  /** The minimum fee is raised after a run of an empty month; a second run reads it, the fee invoice is issued at zero,
      and the run's transaction then changes the issued total to the new minimum. */
  lemma IssuedTotalChanges(ks: KeyScheme, brokerId: nat, month: int, minimum: nat) returns (calls: seq<Call>)
    requires 0 < minimum && !IsShortYear(month)
    ensures Orderly(ks, calls)
    ensures var db := Engine.After(ks, calls);
            && (brokerId, month) in db.feeInvoices && ReadRun(db, brokerId, month).Ok?
            && var issued := Fees.MarkIssued(db, brokerId, month).value;
            && issued.feeInvoices[(brokerId, month)].totalFeeAmount == 0
            && var late := RunCommit(ks, issued, brokerId, month, ReadRun(db, brokerId, month).value).feeInvoices[(brokerId, month)];
            && late.status == FeeIssued && late.totalFeeAmount == minimum
  {
    var run, raise := Call(RunFees(brokerId, MonthStart(month)), 0), Call(Engine.SetMinimumFee(minimum), 0);
    assert Leads(ks, [], EMPTY);
    RunOfMonth(ks, EMPTY, brokerId, month, 0);
    var before, drafted := LeadsOnAt(ks, [], 0, EMPTY, run);
    EmptyMonth(ks, EMPTY, brokerId, month);
    var db: Db;
    calls, db := LeadsOnAt(ks, before, 0, drafted, raise);
    assert db.feeConfigs == [FeeConfig(minimum, 0, None)];
    EmptyMonth(ks, db, brokerId, month);
    LateIsWhole(ks, db, brokerId, month);
  }

  lemma EmptyMonth(ks: KeyScheme, db: Db, brokerId: nat, month: int)
    requires db.invoices == [] && db.history == []
    requires (brokerId, month) in db.feeInvoices ==> db.feeInvoices[(brokerId, month)].status == FeeDraft
    ensures RunMonth(ks, db, brokerId, month).Ok?
    ensures var db' := RunMonth(ks, db, brokerId, month).value;
            && db'.feeInvoices == db.feeInvoices[(brokerId, month) := db'.feeInvoices[(brokerId, month)]]
            && db'.feeInvoices[(brokerId, month)].status == FeeDraft
            && db'.feeInvoices[(brokerId, month)].totalFeeAmount == CurrentMinimumFee(db.feeConfigs)
            && db'.invoices == [] && db'.history == [] && db'.feeConfigs == db.feeConfigs
  {
    assert Outstanding(db, brokerId, month) == [];
  }
}
