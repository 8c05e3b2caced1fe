/** The fee services: tiers and the minimum fee, and the monthly run. */
module FeesModule {
  import opened Wrappers
  import opened Sums
  import opened StateMachine
  import opened Ledger
  import opened FeeCalculator
  import opened Keys
  import opened Period
  import opened Schema
  import opened PrismaModule
  import Fees
  import LedgerModule

  class FeeTiersService {
    const prisma: Prisma

    /** DEFAULT_ADVANCE_PCT. */
    const advancePct: int

    constructor (prisma: Prisma, advancePct: int)
      ensures this.prisma == prisma && this.advancePct == advancePct
    {
      this.prisma := prisma;
      this.advancePct := advancePct;
    }

    function ListActiveTiers(): seq<FeeTier>
      reads prisma
    {
      Fees.ListActiveTiers(prisma.tiers)
    }

    function GetCurrentMinimumMonthlyFee(): nat
      reads prisma
    {
      Fees.CurrentMinimumFee(prisma.feeConfigs)
    }

    function PreviewCalculator(gallons: int, volume: int): FeeEstimate
      reads prisma
    {
      Fees.PreviewCalculator(prisma.Snapshot(), gallons, volume, advancePct)
    }

    method CreateTier(gallonsFrom: nat, gallonsTo: Option<nat>, feePct: nat) returns (tier: FeeTier)
      modifies prisma
      ensures prisma.Snapshot() == Fees.CreateTier(old(prisma.Snapshot()), gallonsFrom, gallonsTo, feePct)
      ensures prisma.tiers == old(prisma.tiers) + [tier]
    {
      tier := FeeTier(|prisma.tiers|, gallonsFrom, gallonsTo, feePct, true);
      prisma.tiers := prisma.tiers + [tier];
    }

    method DeactivateTier(id: nat) returns (r: Result<FeeTier>)
      modifies prisma
      ensures EndsAs(Fees.DeactivateTier(old(prisma.Snapshot()), id), old(prisma.Snapshot()), prisma.Snapshot(), r)
      ensures r.Ok? ==> id < |prisma.tiers| && r.value == prisma.tiers[id] && !r.value.isActive
    {
      if id >= |prisma.tiers| {
        return Err(TierNotFound);
      }
      prisma.tiers := prisma.tiers[id := prisma.tiers[id].(isActive := false)];
      return Ok(prisma.tiers[id]);
    }

    method SetMinimumMonthlyFee(minimumMonthlyFee: nat, now: int)
      modifies prisma
      ensures prisma.Snapshot() == Fees.SetMinimumFee(old(prisma.Snapshot()), minimumMonthlyFee, now)
    {
      var current := FindFirst(prisma.feeConfigs, Fees.IsOpenConfig());
      if current.Some? {
        var c := current.value;
        prisma.feeConfigs := prisma.feeConfigs[c := prisma.feeConfigs[c].(effectiveTo := Some(now))];
      }
      prisma.feeConfigs := prisma.feeConfigs + [FeeConfig(minimumMonthlyFee, now, None)];
    }
  }

  /** A map holds the last resolution time of each of the broker's invoices. */
  ghost predicate HoldsResolutions(resolvedAt: map<nat, int>, invoices: seq<Invoice>, history: seq<StatusRow>, brokerId: nat) {
    forall id: nat :: id < |invoices| && invoices[id].brokerId == brokerId ==>
      Fees.ResolvedAt(history, id) == if id in resolvedAt then Some(resolvedAt[id]) else None
  }

  class FeeAccrualService {
    const prisma: Prisma
    const ledger: LedgerModule.LedgerService
    const feeTiers: FeeTiersService

    ghost predicate Valid() {
      ledger.prisma == prisma && feeTiers.prisma == prisma
    }

    constructor (prisma: Prisma, ledger: LedgerModule.LedgerService, feeTiers: FeeTiersService)
      requires ledger.prisma == prisma && feeTiers.prisma == prisma
      ensures Valid() && this.prisma == prisma
    {
      this.prisma := prisma;
      this.ledger := ledger;
      this.feeTiers := feeTiers;
    }

    /** When each of the broker's invoices was resolved; of several rows for one invoice the last counts. */
    method ResolvedAtByInvoice(brokerId: nat) returns (resolvedAt: map<nat, int>)
      ensures HoldsResolutions(resolvedAt, prisma.invoices, prisma.history, brokerId)
    {
      resolvedAt := map[];
      for i := 0 to |prisma.history|
        invariant HoldsResolutions(resolvedAt, prisma.invoices, prisma.history[..i], brokerId)
      {
        var row := prisma.history[i];
        assert prisma.history[..i + 1][..i] == prisma.history[..i];
        if IsResolved(row.to) && row.invoiceId < |prisma.invoices| && prisma.invoices[row.invoiceId].brokerId == brokerId {
          resolvedAt := resolvedAt[row.invoiceId := row.createdAt];
        }
      }
      assert prisma.history[..|prisma.history|] == prisma.history;
    }

    /** The invoices of the broker's approvals before the period's end. */
    method ApprovedBefore(brokerId: nat, periodEnd: int) returns (approved: seq<Invoice>)
      ensures approved == Fees.ApprovedInvoices(prisma.invoices, prisma.history, brokerId, periodEnd)
      ensures forall j :: 0 <= j < |approved| ==> approved[j] in prisma.invoices && approved[j].brokerId == brokerId
    {
      approved := [];
      for i := 0 to |prisma.history|
        invariant approved == Fees.ApprovedInvoices(prisma.invoices, prisma.history[..i], brokerId, periodEnd)
        invariant forall j :: 0 <= j < |approved| ==> approved[j] in prisma.invoices && approved[j].brokerId == brokerId
      {
        var row := prisma.history[i];
        assert prisma.history[..i + 1][..i] == prisma.history[..i];
        if Fees.IsApprovalBefore(row, periodEnd) && row.invoiceId < |prisma.invoices|
           && prisma.invoices[row.invoiceId].brokerId == brokerId {
          approved := approved + [prisma.invoices[row.invoiceId]];
        }
      }
      assert prisma.history[..|prisma.history|] == prisma.history;
    }

    method GetOutstandingInvoicesForPeriod(brokerId: nat, periodStart: int, periodEnd: int) returns (outstanding: seq<Invoice>)
      requires forall j :: 0 <= j < |prisma.invoices| ==> prisma.invoices[j].id == j
      ensures outstanding == Filter(Fees.ApprovedInvoices(prisma.invoices, prisma.history, brokerId, periodEnd),
                                    Fees.OpenAt(prisma.history, periodStart))
    {
      var approved := ApprovedBefore(brokerId, periodEnd);
      var resolvedAtByInvoice := ResolvedAtByInvoice(brokerId);
      outstanding := [];
      for i := 0 to |approved|
        invariant outstanding == Filter(approved[..i], Fees.OpenAt(prisma.history, periodStart))
      {
        var invoice := approved[i];
        assert approved[..i + 1][..i] == approved[..i];
        if invoice.id !in resolvedAtByInvoice || resolvedAtByInvoice[invoice.id] >= periodStart {
          outstanding := outstanding + [invoice];
        }
      }
      assert approved[..|approved|] == approved;
    }

    /** What an amount adds up to over the invoices. */
    method Total(invoices: seq<Invoice>, amount: Invoice -> int) returns (sum: int)
      ensures sum == Sum(invoices, amount)
    {
      sum := 0;
      for i := 0 to |invoices|
        invariant sum == Sum(invoices[..i], amount)
      {
        assert invoices[..i + 1] == invoices[..i] + [invoices[i]];
        SumAppend(invoices[..i], invoices[i], amount);
        sum := sum + amount(invoices[i]);
      }
      assert invoices[..|invoices|] == invoices;
    }

    /** The invoice's accrual row for the month, which is written unless there is one. */
    method UpsertAccrual(invoice: Invoice, brokerId: nat, month: int, tier: Option<FeeTier>) returns (accrual: Accrual)
      modifies prisma`accruals
      ensures var found := FindFirst(old(prisma.accruals), Fees.AccrualFor(invoice.id, month));
              if found.Some? then accrual == old(prisma.accruals)[found.value] && prisma.accruals == old(prisma.accruals)
              else accrual == Fees.NewAccrual(invoice, brokerId, month, tier) && prisma.accruals == old(prisma.accruals) + [accrual]
    {
      var existing := FindFirst(prisma.accruals, Fees.AccrualFor(invoice.id, month));
      if existing.Some? {
        return prisma.accruals[existing.value];
      }
      var feePct := FeePctOf(tier);
      var feeAmount := RoundHalfAway(invoice.totalAmount * feePct, FEE_SCALE);
      accrual := Accrual(invoice.id, brokerId, month, if tier.Some? then Some(tier.value.id) else None, feePct,
                         invoice.totalAmount, feeAmount);
      prisma.accruals := prisma.accruals + [accrual];
    }

    /** One turn of the run's loop; returns the running fee. */
    method Accrue(invoice: Invoice, brokerId: nat, month: int, tier: Option<FeeTier>, calculatedFee: int)
      returns (running: int)
      requires Valid()
      modifies prisma`accruals, prisma`ledger
      ensures Fees.Accruing(prisma.accruals, prisma.ledger, running)
           == Fees.AccrueOne(DefaultKeys(prisma.uuid), Fees.Accruing(old(prisma.accruals), old(prisma.ledger), calculatedFee),
                             invoice, brokerId, month, tier)
    {
      var accrual := UpsertAccrual(invoice, brokerId, month, tier);
      var key := "fee-accrual:" + prisma.uuid(invoice.id) + (":" + IsoMonth(month));
      assert key == DefaultKeys(prisma.uuid)(AccrualKey(invoice.id, month));
      var _ := ledger.Record(LedgerEntry(FeeAccrualEntry, accrual.feeAmount, Some(invoice.id), Some(brokerId), None, key));
      running := calculatedFee + accrual.feeAmount;
    }

    /** The loop over the invoices. */
    method AccrueEach(invoices: seq<Invoice>, brokerId: nat, month: int, tier: Option<FeeTier>) returns (calculatedFee: int)
      requires Valid()
      modifies prisma`accruals, prisma`ledger
      ensures Fees.Accruing(prisma.accruals, prisma.ledger, calculatedFee)
           == Fees.AccrueAll(DefaultKeys(prisma.uuid), Fees.Accruing(old(prisma.accruals), old(prisma.ledger), 0),
                             invoices, brokerId, month, tier)
    {
      calculatedFee := 0;
      for i := 0 to |invoices|
        invariant Fees.Accruing(prisma.accruals, prisma.ledger, calculatedFee)
               == Fees.AccrueAll(DefaultKeys(prisma.uuid), Fees.Accruing(old(prisma.accruals), old(prisma.ledger), 0),
                                 invoices[..i], brokerId, month, tier)
      {
        assert invoices[..i + 1][..i] == invoices[..i];
        calculatedFee := Accrue(invoices[i], brokerId, month, tier, calculatedFee);
      }
      assert invoices[..|invoices|] == invoices;
    }

    /** The month's fee invoice: a new draft, or the existing row with new amounts, whatever its status. */
    method UpsertFeeInvoice(brokerId: nat, month: int, gallons: int, volume: int, tier: Option<FeeTier>, calculatedFee: int,
                            minimumMonthlyFee: nat) returns (fee: FeeInvoice)
      modifies prisma`feeInvoices
      ensures fee == Fees.FeeInvoiceAfter(Fees.ExistingFeeInvoice(old(prisma.Snapshot()), brokerId, month), gallons, volume, tier,
                                          calculatedFee, minimumMonthlyFee)
      ensures prisma.feeInvoices == old(prisma.feeInvoices)[(brokerId, month) := fee]
    {
      var shortfall := calculatedFee < minimumMonthlyFee;
      var totalFeeAmount := if shortfall then minimumMonthlyFee else calculatedFee;
      if (brokerId, month) in prisma.feeInvoices {
        var row := prisma.feeInvoices[(brokerId, month)];
        fee := row.(gallonsVolume := gallons, dollarVolume := volume, calculatedFee := calculatedFee,
                    minimumFeeShortfallApplied := shortfall, totalFeeAmount := totalFeeAmount);
        if tier.Some? {
          fee := fee.(tierId := Some(tier.value.id));
        }
      } else {
        fee := FeeInvoice(gallons, volume, if tier.Some? then Some(tier.value.id) else None, calculatedFee, shortfall,
                          totalFeeAmount, FeeDraft);
      }
      prisma.feeInvoices := prisma.feeInvoices[(brokerId, month) := fee];
    }

    /** Ids are positions in the invoice table. */
    ghost predicate Numbered()
      reads prisma
    {
      forall j :: 0 <= j < |prisma.invoices| ==> prisma.invoices[j].id == j
    }

    /** What the run reads: the invoices it charges, the tier for their gallons, and the minimum fee. */
    method ReadPeriod(brokerId: nat, date: int) returns (r: Result<Fees.RunReads>)
      requires Valid() && Numbered()
      ensures r == Fees.ReadRun(prisma.Snapshot(), brokerId, PeriodMonth(date))
    {
      var month := PeriodMonth(date);
      if (brokerId, month) in prisma.feeInvoices && prisma.feeInvoices[(brokerId, month)].status != FeeDraft {
        return Err(FeeInvoiceFinal);
      }
      var periodStart := StartOfMonthUtc(date);
      var periodEnd := NextMonthUtc(periodStart);
      OutstandingByDates(prisma.Snapshot(), brokerId, date);
      var invoices := GetOutstandingInvoicesForPeriod(brokerId, periodStart, periodEnd);
      var gallons := Total(invoices, Fees.Gallons());
      var volume := Total(invoices, Fees.DollarVolume());
      var tier := FindTierForGallons(feeTiers.ListActiveTiers(), gallons);
      var minimumMonthlyFee := feeTiers.GetCurrentMinimumMonthlyFee();
      return Ok(Fees.RunReads(invoices, gallons, volume, tier, minimumMonthlyFee));
    }

    /** The transaction of the run, for what was read before it, on whatever the tables hold by then. */
    method RunTransaction(brokerId: nat, month: int, read: Fees.RunReads) returns (fee: FeeInvoice)
      requires Valid()
      modifies prisma`accruals, prisma`ledger, prisma`feeInvoices
      ensures prisma.Snapshot() == Fees.RunCommit(DefaultKeys(prisma.uuid), old(prisma.Snapshot()), brokerId, month, read)
      ensures (brokerId, month) in prisma.feeInvoices && fee == prisma.feeInvoices[(brokerId, month)]
    {
      var calculatedFee := AccrueEach(read.selected, brokerId, month, read.tier);
      fee := UpsertFeeInvoice(brokerId, month, read.gallons, read.volume, read.tier, calculatedFee, read.minimumFee);
      var key := "fee-invoice:" + prisma.uuid(brokerId) + (":" + IsoMonth(month));
      assert key == DefaultKeys(prisma.uuid)(FeeInvoiceKey(brokerId, month));
      var _ := ledger.Record(LedgerEntry(FeeInvoiceEntry, fee.totalFeeAmount, None, Some(brokerId), None, key));
    }

    method RunForBrokerPeriod(brokerId: nat, date: int) returns (r: Result<FeeInvoice>)
      requires Valid() && Numbered()
      modifies prisma`accruals, prisma`ledger, prisma`feeInvoices
      ensures EndsAs(Fees.RunForBrokerPeriod(DefaultKeys(prisma.uuid), old(prisma.Snapshot()), brokerId, date),
                     old(prisma.Snapshot()), prisma.Snapshot(), r)
      ensures r.Ok? ==> (brokerId, PeriodMonth(date)) in prisma.feeInvoices && r.value == prisma.feeInvoices[(brokerId, PeriodMonth(date))]
    {
      var read :- ReadPeriod(brokerId, date);
      var fee := RunTransaction(brokerId, PeriodMonth(date), read);
      return Ok(fee);
    }

    method RunForAllBrokers(brokers: seq<nat>, date: int) returns (r: Result<seq<FeeInvoice>>)
      requires Valid() && Numbered()
      modifies prisma`accruals, prisma`ledger, prisma`feeInvoices
      ensures Fees.AllRuns(prisma.Snapshot(), r)
           == Fees.RunForAllBrokers(DefaultKeys(prisma.uuid), old(prisma.Snapshot()), brokers, date)
    {
      var results := [];
      ghost var before := prisma.Snapshot();
      for i := 0 to |brokers|
        invariant Numbered()
        invariant Fees.RunForAllBrokers(DefaultKeys(prisma.uuid), before, brokers[..i], date)
               == Fees.AllRuns(prisma.Snapshot(), Ok(results))
      {
        var result := RunTurn(brokers, i, date, before, results);
        if result.Err? {
          return Err(result.error);
        }
        results := results + [result.value];
      }
      assert brokers[..|brokers|] == brokers;
      return Ok(results);
    }

    /** The loop's turn for broker i, when the ones before have been run since the tables were as in before. */
    method RunTurn(brokers: seq<nat>, i: nat, date: int, ghost before: Db, ghost results: seq<FeeInvoice>)
      returns (r: Result<FeeInvoice>)
      requires Valid() && Numbered() && i < |brokers|
      requires Fees.RunForAllBrokers(DefaultKeys(prisma.uuid), before, brokers[..i], date) == Fees.AllRuns(prisma.Snapshot(), Ok(results))
      modifies prisma`accruals, prisma`ledger, prisma`feeInvoices
      ensures Numbered()
      ensures match r
              case Ok(fee) => Fees.RunForAllBrokers(DefaultKeys(prisma.uuid), before, brokers[..i + 1], date)
                              == Fees.AllRuns(prisma.Snapshot(), Ok(results + [fee]))
              case Err(e) => Fees.RunForAllBrokers(DefaultKeys(prisma.uuid), before, brokers, date)
                             == Fees.AllRuns(prisma.Snapshot(), Err(e))
    {
      NextBroker(DefaultKeys(prisma.uuid), before, brokers, i, date);
      r := RunForBrokerPeriod(brokers[i], date);
    }

    method MarkIssued(brokerId: nat, month: int) returns (r: Result<FeeInvoice>)
      modifies prisma`feeInvoices
      ensures EndsAs(Fees.MarkIssued(old(prisma.Snapshot()), brokerId, month), old(prisma.Snapshot()), prisma.Snapshot(), r)
      ensures r.Ok? ==> (brokerId, month) in prisma.feeInvoices && r.value == prisma.feeInvoices[(brokerId, month)]
                        && r.value.status == FeeIssued
    {
      if (brokerId, month) !in prisma.feeInvoices {
        return Err(FeeInvoiceNotFound);
      }
      var issued := prisma.feeInvoices[(brokerId, month)].(status := FeeIssued);
      prisma.feeInvoices := prisma.feeInvoices[(brokerId, month) := issued];
      return Ok(issued);
    }
  }

  /** The selection in terms of the dates the run computes. */
  lemma OutstandingByDates(db: Db, brokerId: nat, date: int)
    ensures var periodStart := StartOfMonthUtc(date);
            Fees.Outstanding(db, brokerId, PeriodMonth(date))
            == Filter(Fees.ApprovedInvoices(db.invoices, db.history, brokerId, NextMonthUtc(periodStart)),
                      Fees.OpenAt(db.history, periodStart))
  {
    PeriodIsOneMonth(date);
  }

  /** Once a broker's run has thrown, the rest are not run. */
  lemma {:induction false} StopsThere(ks: KeyScheme, db: Db, brokers: seq<nat>, i: nat, date: int)
    requires i <= |brokers| && Fees.RunForAllBrokers(ks, db, brokers[..i], date).results.Err?
    ensures Fees.RunForAllBrokers(ks, db, brokers, date) == Fees.RunForAllBrokers(ks, db, brokers[..i], date)
  {
    if i == |brokers| {
      assert brokers[..i] == brokers;
    } else {
      var shorter := brokers[..|brokers| - 1];
      assert shorter[..i] == brokers[..i];
      StopsThere(ks, db, shorter, i, date);
    }
  }

  /** What the next broker's run means for the whole. */
  lemma NextBroker(ks: KeyScheme, before: Db, brokers: seq<nat>, i: nat, date: int)
    requires i < |brokers|
    ensures var now := Fees.RunForAllBrokers(ks, before, brokers[..i], date);
            var next := Fees.RunNext(ks, now, brokers[i], date);
            && Fees.RunForAllBrokers(ks, before, brokers[..i + 1], date) == next
            && (next.results.Err? ==> Fees.RunForAllBrokers(ks, before, brokers, date) == next)
  {
    assert brokers[..i + 1][..i] == brokers[..i];
    var next := Fees.RunNext(ks, Fees.RunForAllBrokers(ks, before, brokers[..i], date), brokers[i], date);
    if next.results.Err? {
      StopsThere(ks, before, brokers, i + 1, date);
    }
  }
}
