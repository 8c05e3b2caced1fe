/** Fee tiers, the minimum fee, and the monthly fee run. */
module Fees {
  import opened Wrappers
  import opened Sums
  import opened StateMachine
  import opened Ledger
  import opened FeeCalculator
  import opened Keys
  import opened Period
  import opened Schema

  // ---- Tier table and minimum fee

  function InsertByFrom(tiers: seq<FeeTier>, tier: FeeTier): seq<FeeTier> {
    if tiers == [] || tier.gallonsFrom <= tiers[0].gallonsFrom then [tier] + tiers
    else [tiers[0]] + InsertByFrom(tiers[1..], tier)
  }

  /** The active tiers, by ascending start. */
  function ListActiveTiers(tiers: seq<FeeTier>): seq<FeeTier> {
    if tiers == [] then []
    else
      var rest := ListActiveTiers(tiers[1..]);
      if tiers[0].isActive then InsertByFrom(rest, tiers[0]) else rest
  }

  function CreateTier(db: Db, gallonsFrom: nat, gallonsTo: Option<nat>, feePct: nat): Db {
    db.(tiers := db.tiers + [FeeTier(|db.tiers|, gallonsFrom, gallonsTo, feePct, true)])
  }

  function DeactivateTier(db: Db, id: nat): Result<Db> {
    if id >= |db.tiers| then Err(TierNotFound)
    else Ok(db.(tiers := db.tiers[id := db.tiers[id].(isActive := false)]))
  }

  function IsOpenConfig(): FeeConfig -> bool {
    (c: FeeConfig) => c.effectiveTo.None?
  }

  /** The open row with the latest start; among equals, the first. */
  function LatestOpen(configs: seq<FeeConfig>): Option<FeeConfig> {
    if configs == [] then None
    else
      var n := |configs| - 1;
      var earlier := LatestOpen(configs[..n]);
      if configs[n].effectiveTo.Some? then earlier
      else if earlier.Some? && configs[n].effectiveFrom <= earlier.value.effectiveFrom then earlier
      else Some(configs[n])
  }

  function CurrentMinimumFee(configs: seq<FeeConfig>): nat {
    match LatestOpen(configs)
    case Some(c) => c.minimumMonthlyFee
    case None => 0
  }

  function SetMinimumFee(db: Db, minimumMonthlyFee: nat, now: int): Db {
    var closed := match FindFirst(db.feeConfigs, IsOpenConfig())
      case Some(j) => db.feeConfigs[j := db.feeConfigs[j].(effectiveTo := Some(now))]
      case None => db.feeConfigs;
    db.(feeConfigs := closed + [FeeConfig(minimumMonthlyFee, now, None)])
  }

  /** The calculator on the active tiers and the current minimum. */
  function PreviewCalculator(db: Db, gallons: int, volume: int, advancePct: int): FeeEstimate {
    CalculateFee(ListActiveTiers(db.tiers), gallons, volume, CurrentMinimumFee(db.feeConfigs), advancePct)
  }

  // ---- Which invoices a month's fee is charged on

  /** When the invoice was last settled, charged back or written off. */
  function ResolvedAt(history: seq<StatusRow>, invoiceId: nat): Option<int> {
    if history == [] then None
    else
      var n := |history| - 1;
      var row := history[n];
      if row.invoiceId == invoiceId && IsResolved(row.to) then Some(row.createdAt) else ResolvedAt(history[..n], invoiceId)
  }

  predicate StillOpenAt(history: seq<StatusRow>, invoiceId: nat, periodStart: int) {
    var resolvedAt := ResolvedAt(history, invoiceId);
    resolvedAt.None? || resolvedAt.value >= periodStart
  }

  predicate IsApprovalBefore(row: StatusRow, periodEnd: int) {
    row.to == ApprovedForFunding && row.createdAt < periodEnd
  }

  /** The invoices of the approval rows, in row order. */
  function ApprovedInvoices(invoices: seq<Invoice>, history: seq<StatusRow>, brokerId: nat, periodEnd: int): seq<Invoice> {
    if history == [] then []
    else
      var n := |history| - 1;
      var row := history[n];
      var earlier := ApprovedInvoices(invoices, history[..n], brokerId, periodEnd);
      if IsApprovalBefore(row, periodEnd) && row.invoiceId < |invoices| && invoices[row.invoiceId].brokerId == brokerId
      then earlier + [invoices[row.invoiceId]] else earlier
  }

  function OpenAt(history: seq<StatusRow>, periodStart: int): Invoice -> bool {
    (inv: Invoice) => StillOpenAt(history, inv.id, periodStart)
  }

  function Outstanding(db: Db, brokerId: nat, month: int): seq<Invoice> {
    Filter(ApprovedInvoices(db.invoices, db.history, brokerId, MonthStart(month + 1)), OpenAt(db.history, MonthStart(month)))
  }

  // ---- The run

  function Gallons(): Invoice -> int {
    (inv: Invoice) => inv.gallons
  }

  function DollarVolume(): Invoice -> int {
    (inv: Invoice) => inv.totalAmount
  }

  function AccrualFor(invoiceId: nat, month: int): Accrual -> bool {
    (a: Accrual) => a.invoiceId == invoiceId && a.periodMonth == month
  }

  /** The running state of the accrual loop. */
  datatype Accruing = Accruing(accruals: seq<Accrual>, ledger: seq<LedgerEntry>, calculatedFee: int)

  function NewAccrual(inv: Invoice, brokerId: nat, month: int, tier: Option<FeeTier>): Accrual {
    Accrual(inv.id, brokerId, month, if tier.Some? then Some(tier.value.id) else None, FeePctOf(tier), inv.totalAmount,
            RoundHalfAway(inv.totalAmount * FeePctOf(tier), FEE_SCALE))
  }

  function AccrualEntry(a: Accrual, brokerId: nat, key: string): LedgerEntry {
    LedgerEntry(FeeAccrualEntry, a.feeAmount, Some(a.invoiceId), Some(brokerId), None, key)
  }

  /** One turn of the loop: the accrual row is written unless there is one, and its stored fee is added up. */
  function AccrueOne(ks: KeyScheme, s: Accruing, inv: Invoice, brokerId: nat, month: int, tier: Option<FeeTier>): Accruing {
    var found := FindFirst(s.accruals, AccrualFor(inv.id, month));
    var row := if found.Some? then s.accruals[found.value] else NewAccrual(inv, brokerId, month, tier);
    Accruing(if found.Some? then s.accruals else s.accruals + [row],
             Record(s.ledger, AccrualEntry(row, brokerId, ks(AccrualKey(inv.id, month)))),
             s.calculatedFee + row.feeAmount)
  }

  function AccrueAll(ks: KeyScheme, s: Accruing, selected: seq<Invoice>, brokerId: nat, month: int, tier: Option<FeeTier>): Accruing {
    if selected == [] then s
    else
      var n := |selected| - 1;
      AccrueOne(ks, AccrueAll(ks, s, selected[..n], brokerId, month, tier), selected[n], brokerId, month, tier)
  }

  /** The fee invoice row after a run. An existing row keeps its status, and its recorded tier if the run has none. */
  function FeeInvoiceAfter(existing: Option<FeeInvoice>, gallons: int, volume: int, tier: Option<FeeTier>,
                           calculatedFee: int, minimumFee: int): FeeInvoice
  {
    var shortfall := calculatedFee < minimumFee;
    var tierId := if tier.Some? then Some(tier.value.id) else if existing.Some? then existing.value.tierId else None;
    var status := if existing.Some? then existing.value.status else FeeDraft;
    FeeInvoice(gallons, volume, tierId, calculatedFee, shortfall, if shortfall then minimumFee else calculatedFee, status)
  }

  function ExistingFeeInvoice(db: Db, brokerId: nat, month: int): Option<FeeInvoice> {
    if (brokerId, month) in db.feeInvoices then Some(db.feeInvoices[(brokerId, month)]) else None
  }

  function TierFor(db: Db, selected: seq<Invoice>): Option<FeeTier> {
    FindTierForGallons(ListActiveTiers(db.tiers), Sum(selected, Gallons()))
  }

  function FeeInvoiceEntryFor(brokerId: nat, amount: int, key: string): LedgerEntry {
    LedgerEntry(FeeInvoiceEntry, amount, None, Some(brokerId), None, key)
  }

  /** What a run has read before its transaction starts. */
  datatype RunReads = RunReads(selected: seq<Invoice>, gallons: int, volume: int, tier: Option<FeeTier>, minimumFee: nat)

  /** The check and the reads of a run. */
  function ReadRun(db: Db, brokerId: nat, month: int): Result<RunReads> {
    var existing := ExistingFeeInvoice(db, brokerId, month);
    if existing.Some? && existing.value.status != FeeDraft then Err(FeeInvoiceFinal)
    else
      var selected := Outstanding(db, brokerId, month);
      Ok(RunReads(selected, Sum(selected, Gallons()), Sum(selected, DollarVolume()), TierFor(db, selected), CurrentMinimumFee(db.feeConfigs)))
  }

  /** The transaction of a run, on whatever the tables hold by then. */
  function RunCommit(ks: KeyScheme, db: Db, brokerId: nat, month: int, read: RunReads): Db {
    var done := AccrueAll(ks, Accruing(db.accruals, db.ledger, 0), read.selected, brokerId, month, read.tier);
    var fee := FeeInvoiceAfter(ExistingFeeInvoice(db, brokerId, month), read.gallons, read.volume, read.tier,
                               done.calculatedFee, read.minimumFee);
    db.(accruals := done.accruals,
        ledger := Record(done.ledger, FeeInvoiceEntryFor(brokerId, fee.totalFeeAmount, ks(FeeInvoiceKey(brokerId, month)))),
        feeInvoices := db.feeInvoices[(brokerId, month) := fee])
  }

  function RunMonth(ks: KeyScheme, db: Db, brokerId: nat, month: int): Result<Db> {
    var read :- ReadRun(db, brokerId, month);
    Ok(RunCommit(ks, db, brokerId, month, read))
  }

  /** The run for whatever month the given date lies in. */
  function RunForBrokerPeriod(ks: KeyScheme, db: Db, brokerId: nat, date: int): Result<Db> {
    RunMonth(ks, db, brokerId, PeriodMonth(date))
  }

  /** The tables after some brokers' runs, and the fee invoices they returned or the error that ended them. */
  datatype AllRuns = AllRuns(db: Db, results: Result<seq<FeeInvoice>>)

  /** One more broker's run; none once a run has thrown. */
  function RunNext(ks: KeyScheme, before: AllRuns, brokerId: nat, date: int): AllRuns {
    if before.results.Err? then before
    else
      match RunForBrokerPeriod(ks, before.db, brokerId, date)
      case Ok(db') => AllRuns(db', Ok(before.results.value + [db'.feeInvoices[(brokerId, PeriodMonth(date))]]))
      case Err(e) => AllRuns(before.db, Err(e))
  }

  /** The month's run for each broker in turn. A run that throws ends it; the runs before stand. */
  function RunForAllBrokers(ks: KeyScheme, db: Db, brokers: seq<nat>, date: int): AllRuns {
    if brokers == [] then AllRuns(db, Ok([]))
    else
      var n := |brokers| - 1;
      RunNext(ks, RunForAllBrokers(ks, db, brokers[..n], date), brokers[n], date)
  }

  function MarkIssued(db: Db, brokerId: nat, month: int): Result<Db> {
    if (brokerId, month) !in db.feeInvoices then Err(FeeInvoiceNotFound)
    else Ok(db.(feeInvoices := db.feeInvoices[(brokerId, month) := db.feeInvoices[(brokerId, month)].(status := FeeIssued)]))
  }
}
