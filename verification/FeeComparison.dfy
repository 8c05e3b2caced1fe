/** A first fee run against the fee calculator, the tier list both use, the minimum fee, and the ledger's view of the
    accruals. */
module FeeComparison {
  import opened Wrappers
  import opened Sums
  import opened StateMachine
  import opened Ledger
  import opened FeeCalculator
  import opened Keys
  import opened Period
  import opened Schema
  import opened Engine
  import opened LedgerWrites
  import opened Fees
  import opened FeeRuns
  import opened Reruns
  import Histories

  // ---- The run refines the calculator

  function RoundedFee(feePct: nat): Invoice -> int {
    (inv: Invoice) => RoundHalfAway(inv.totalAmount * feePct, FEE_SCALE)
  }

  ghost predicate NoRowsYet(accruals: seq<Accrual>, selected: seq<Invoice>, month: int) {
    forall j :: 0 <= j < |selected| ==> !HasRow(accruals, selected[j].id, month)
  }

  lemma {:induction false} FirstLoopSums(ks: KeyScheme, s: Accruing, selected: seq<Invoice>, brokerId: nat, month: int,
                                         tier: Option<FeeTier>)
    requires DistinctIds(selected) && NoRowsYet(s.accruals, selected, month) && OneRowEach(s.accruals) && s.calculatedFee == 0
    ensures var s' := AccrueAll(ks, s, selected, brokerId, month, tier);
            && s'.calculatedFee == Sum(selected, RoundedFee(FeePctOf(tier)))
            && forall id: nat :: HasRow(s'.accruals, id, month) ==> HasRow(s.accruals, id, month) || id in IdsOf(selected)
  {
    if selected != [] {
      var n := |selected| - 1;
      FirstLoopSums(ks, s, selected[..n], brokerId, month, tier);
      var before := AccrueAll(ks, s, selected[..n], brokerId, month, tier);
      var inv := selected[n];
      IdsOfMembers(selected[..n], inv.id);
      assert !HasRow(before.accruals, inv.id, month);
      FirstTurn(ks, before, inv, brokerId, month, tier);
    }
  }

  lemma FirstTurn(ks: KeyScheme, s: Accruing, inv: Invoice, brokerId: nat, month: int, tier: Option<FeeTier>)
    requires !HasRow(s.accruals, inv.id, month)
    ensures var s' := AccrueOne(ks, s, inv, brokerId, month, tier);
            && s'.calculatedFee == s.calculatedFee + RoundedFee(FeePctOf(tier))(inv)
            && forall id: nat :: HasRow(s'.accruals, id, month) <==> HasRow(s.accruals, id, month) || id == inv.id
  {
    var s' := AccrueOne(ks, s, inv, brokerId, month, tier);
    assert FindFirst(s.accruals, AccrualFor(inv.id, month)).None?;
    forall id: nat ensures HasRow(s'.accruals, id, month) <==> HasRow(s.accruals, id, month) || id == inv.id {
      RowAppended(s.accruals, NewAccrual(inv, brokerId, month, tier), id, month);
    }
  }

  /** The first run of a broker's month over n invoices picks the tier the preview shows for the summed gallons; its
      fee, before and after the minimum, is within n half-cents of the preview's on the summed volume. */
  lemma FirstRunRefinesCalculator(ks: KeyScheme, calls: seq<Call>, brokerId: nat, month: int, advancePct: int)
    requires Orderly(ks, calls) && (brokerId, month) !in Engine.After(ks, calls).feeInvoices
    ensures var db := Engine.After(ks, calls);
            var selected := Outstanding(db, brokerId, month);
            var estimate := PreviewCalculator(db, Sum(selected, Gallons()), Sum(selected, DollarVolume()), advancePct);
            && RunMonth(ks, db, brokerId, month).Ok?
            && var fee := RunMonth(ks, db, brokerId, month).value.feeInvoices[(brokerId, month)];
            && TierFor(db, selected) == estimate.tier
            && -|selected| * FEE_SCALE <= 2 * (fee.calculatedFee * FEE_SCALE - estimate.calculatedFee) <= |selected| * FEE_SCALE
            && -|selected| * FEE_SCALE <= 2 * (fee.totalFeeAmount * FEE_SCALE - estimate.estimatedFee) <= |selected| * FEE_SCALE
  {
    var db := Engine.After(ks, calls);
    var selected := Outstanding(db, brokerId, month);
    var tier := TierFor(db, selected);
    NothingAccruedYet(ks, calls, brokerId, month);
    FirstLoopSums(ks, Accruing(db.accruals, db.ledger, 0), selected, brokerId, month, tier);
    RoundedFeesNearExact(selected, DollarVolume(), RoundedFee(FeePctOf(tier)), FeePctOf(tier));
    FlooredNear(Sum(selected, RoundedFee(FeePctOf(tier))), Sum(selected, DollarVolume()) * FeePctOf(tier),
                CurrentMinimumFee(db.feeConfigs), |selected| * FEE_SCALE);
  }

  /** Without a fee invoice for the month there are no rows of its selected invoices, and they are all different. */
  lemma NothingAccruedYet(ks: KeyScheme, calls: seq<Call>, brokerId: nat, month: int)
    requires Orderly(ks, calls) && (brokerId, month) !in Engine.After(ks, calls).feeInvoices
    ensures var db := Engine.After(ks, calls);
            var selected := Outstanding(db, brokerId, month);
            DistinctIds(selected) && NoRowsYet(db.accruals, selected, month) && OneRowEach(db.accruals)
  {
    var db := Engine.After(ks, calls);
    var selected := Outstanding(db, brokerId, month);
    RowsInRun(ks, calls);
    SelectionIsExact(db, brokerId, month);
    forall j | 0 <= j < |selected| ensures !HasRow(db.accruals, selected[j].id, month) {
      assert selected[j] in selected;
    }
  }

  /** The minimum brings two fees no further apart. */
  lemma FlooredNear(fee: int, exact: int, minimum: int, error: int)
    requires -error <= 2 * (fee * FEE_SCALE - exact) <= error
    ensures var a, b := (if fee < minimum then minimum else fee), (if exact < minimum * FEE_SCALE then minimum * FEE_SCALE else exact);
            -error <= 2 * (a * FEE_SCALE - b) <= error
  {
  }

  // ---- The tier list

  lemma {:induction false} InsertedOnce(tiers: seq<FeeTier>, tier: FeeTier)
    ensures multiset(InsertByFrom(tiers, tier)) == multiset(tiers) + multiset{tier}
  {
    if tiers != [] && tiers[0].gallonsFrom < tier.gallonsFrom {
      InsertedOnce(tiers[1..], tier);
      assert tiers == [tiers[0]] + tiers[1..];
    }
  }

  lemma {:induction false} InsertedByFrom(tiers: seq<FeeTier>, tier: FeeTier)
    requires SortedByFrom(tiers)
    ensures SortedByFrom(InsertByFrom(tiers, tier))
  {
    if tiers != [] && tiers[0].gallonsFrom < tier.gallonsFrom {
      var rest := InsertByFrom(tiers[1..], tier);
      InsertedByFrom(tiers[1..], tier);
      InsertedOnce(tiers[1..], tier);
      forall j | 0 <= j < |rest| ensures tiers[0].gallonsFrom <= rest[j].gallonsFrom {
        InsertedAmong(tiers[1..], tier, rest, j);
      }
    }
  }

  lemma InsertedAmong(tiers: seq<FeeTier>, tier: FeeTier, inserted: seq<FeeTier>, j: nat)
    requires multiset(inserted) == multiset(tiers) + multiset{tier} && j < |inserted|
    ensures inserted[j] == tier || inserted[j] in tiers
  {
    assert inserted[j] in multiset(inserted);
  }

  /** The list is the active tiers, each as often as in the table, by ascending start. */
  lemma {:induction false} ActiveTiersAreListed(tiers: seq<FeeTier>, t: FeeTier)
    ensures SortedByFrom(ListActiveTiers(tiers))
    ensures multiset(ListActiveTiers(tiers))[t] == (if t.isActive then multiset(tiers)[t] else 0)
  {
    if tiers != [] {
      ActiveTiersAreListed(tiers[1..], t);
      assert tiers == [tiers[0]] + tiers[1..];
      if tiers[0].isActive {
        InsertedByFrom(ListActiveTiers(tiers[1..]), tiers[0]);
        InsertedOnce(ListActiveTiers(tiers[1..]), tiers[0]);
      }
    }
  }

  // ---- The minimum fee

  /** All configurations but the last are closed. */
  ghost predicate OnlyLastOpen(configs: seq<FeeConfig>) {
    forall j :: 0 <= j < |configs| ==> (configs[j].effectiveTo.None? <==> j == |configs| - 1)
  }

  lemma {:induction false} NoneOpen(configs: seq<FeeConfig>)
    requires forall j :: 0 <= j < |configs| ==> configs[j].effectiveTo.Some?
    ensures LatestOpen(configs) == None
  {
    if configs != [] {
      NoneOpen(configs[..|configs| - 1]);
    }
  }

  lemma SetMinimumTakesEffect(db: Db, minimumMonthlyFee: nat, now: int)
    requires OnlyLastOpen(db.feeConfigs)
    ensures OnlyLastOpen(Fees.SetMinimumFee(db, minimumMonthlyFee, now).feeConfigs)
    ensures CurrentMinimumFee(Fees.SetMinimumFee(db, minimumMonthlyFee, now).feeConfigs) == minimumMonthlyFee
  {
    var configs := Fees.SetMinimumFee(db, minimumMonthlyFee, now).feeConfigs;
    var n := |configs| - 1;
    NoneOpen(configs[..n]);
  }

  /** The minimum fee set last, or zero. */
  function LastMinimumSet(calls: seq<Call>): nat {
    if calls == [] then 0
    else
      match calls[|calls| - 1].event
      case SetMinimumFee(m) => m
      case _ => LastMinimumSet(calls[..|calls| - 1])
  }

  lemma StepKeepsConfigs(ks: KeyScheme, db: Db, c: Call)
    requires !c.event.SetMinimumFee?
    ensures Next(ks, db, c).feeConfigs == db.feeConfigs
  {
    if c.event.RunFees? {
    } else if IsMoneyMove(c.event) {
    } else {
    }
  }

  /** A step on the configurations, and what the minimum is after it. */
  lemma MinimumAfterStep(ks: KeyScheme, db: Db, c: Call)
    requires OnlyLastOpen(db.feeConfigs)
    ensures OnlyLastOpen(Next(ks, db, c).feeConfigs)
    ensures CurrentMinimumFee(Next(ks, db, c).feeConfigs)
         == (if c.event.SetMinimumFee? then c.event.minimumMonthlyFee else CurrentMinimumFee(db.feeConfigs))
  {
    if c.event.SetMinimumFee? {
      SetMinimumTakesEffect(db, c.event.minimumMonthlyFee, c.now);
    } else {
      StepKeepsConfigs(ks, db, c);
    }
  }

  /** Whatever the configurations' start times, the fee run reads the minimum that was set last. */
  lemma {:induction false} CurrentMinimumIsLastSet(ks: KeyScheme, calls: seq<Call>)
    ensures OnlyLastOpen(Engine.After(ks, calls).feeConfigs)
    ensures CurrentMinimumFee(Engine.After(ks, calls).feeConfigs) == LastMinimumSet(calls)
  {
    if calls != [] {
      var n := |calls| - 1;
      var db, c := Engine.After(ks, calls[..n]), calls[n];
      CurrentMinimumIsLastSet(ks, calls[..n]);
      MinimumAfterStep(ks, db, c);
    }
  }

  // ---- Accruals in the ledger

  function FeesOfBroker(brokerId: nat): Accrual -> int {
    (a: Accrual) => if a.brokerId == brokerId then a.feeAmount else 0
  }

  /** Accrual entries stand in the ledger one for one with accrual rows. */
  ghost predicate AccrualsRecorded(ks: KeyScheme, accruals: seq<Accrual>, ledger: seq<LedgerEntry>) {
    && (forall id: nat, month :: HasKey(ledger, ks(AccrualKey(id, month))) <==> HasRow(accruals, id, month))
    && (forall brokerId: nat :: Sum(ledger, AccrualsOf(brokerId)) == Sum(accruals, FeesOfBroker(brokerId)))
  }

  lemma RecordOther(ks: KeyScheme, accruals: seq<Accrual>, ledger: seq<LedgerEntry>, w: Written)
    requires Injective(ks) && AccrualsRecorded(ks, accruals, ledger) && WellWritten(ks, w) && !w.name.AccrualKey?
    ensures AccrualsRecorded(ks, accruals, Record(ledger, w.entry))
  {
    forall id: nat, month ensures HasKey(Record(ledger, w.entry), ks(AccrualKey(id, month))) <==> HasRow(accruals, id, month) {
      RecordKeys(ledger, w.entry, ks(AccrualKey(id, month)));
    }
    forall brokerId: nat ensures Sum(Record(ledger, w.entry), AccrualsOf(brokerId)) == Sum(accruals, FeesOfBroker(brokerId)) {
      SumAppend(ledger, w.entry, AccrualsOf(brokerId));
    }
  }

  lemma {:induction false} WrittenOther(ks: KeyScheme, accruals: seq<Accrual>, ledger: seq<LedgerEntry>, written: seq<Written>)
    requires Injective(ks) && AccrualsRecorded(ks, accruals, ledger)
    requires forall j :: 0 <= j < |written| ==> WellWritten(ks, written[j]) && !written[j].name.AccrualKey?
    ensures AccrualsRecorded(ks, accruals, RecordWritten(ledger, written))
  {
    if written != [] {
      var n := |written| - 1;
      WrittenOther(ks, accruals, ledger, written[..n]);
      RecordOther(ks, accruals, RecordWritten(ledger, written[..n]), written[n]);
    }
  }

  lemma TurnRecords(ks: KeyScheme, s: Accruing, inv: Invoice, brokerId: nat, month: int, tier: Option<FeeTier>)
    requires Injective(ks) && AccrualsRecorded(ks, s.accruals, s.ledger)
    ensures var s' := AccrueOne(ks, s, inv, brokerId, month, tier); AccrualsRecorded(ks, s'.accruals, s'.ledger)
  {
    if HasRow(s.accruals, inv.id, month) {
      assert FindFirst(s.accruals, AccrualFor(inv.id, month)).Some?;
    } else {
      var row := NewAccrual(inv, brokerId, month, tier);
      RowAndEntry(ks, s.accruals, s.ledger, row);
    }
  }

  lemma RowAndEntry(ks: KeyScheme, accruals: seq<Accrual>, ledger: seq<LedgerEntry>, row: Accrual)
    requires Injective(ks) && AccrualsRecorded(ks, accruals, ledger) && !HasRow(accruals, row.invoiceId, row.periodMonth)
    ensures AccrualsRecorded(ks, accruals + [row],
                             Record(ledger, AccrualEntry(row, row.brokerId, ks(AccrualKey(row.invoiceId, row.periodMonth)))))
  {
    var e := AccrualEntry(row, row.brokerId, ks(AccrualKey(row.invoiceId, row.periodMonth)));
    forall id: nat, month ensures HasKey(Record(ledger, e), ks(AccrualKey(id, month))) <==> HasRow(accruals + [row], id, month) {
      RecordKeys(ledger, e, ks(AccrualKey(id, month)));
      RowAppended(accruals, row, id, month);
    }
    forall brokerId: nat ensures Sum(Record(ledger, e), AccrualsOf(brokerId)) == Sum(accruals + [row], FeesOfBroker(brokerId)) {
      SumAppend(ledger, e, AccrualsOf(brokerId));
      SumAppend(accruals, row, FeesOfBroker(brokerId));
    }
  }

  lemma {:induction false} LoopRecords(ks: KeyScheme, s: Accruing, selected: seq<Invoice>, brokerId: nat, month: int,
                                       tier: Option<FeeTier>)
    requires Injective(ks) && AccrualsRecorded(ks, s.accruals, s.ledger)
    ensures var s' := AccrueAll(ks, s, selected, brokerId, month, tier); AccrualsRecorded(ks, s'.accruals, s'.ledger)
  {
    if selected != [] {
      var n := |selected| - 1;
      LoopRecords(ks, s, selected[..n], brokerId, month, tier);
      TurnRecords(ks, AccrueAll(ks, s, selected[..n], brokerId, month, tier), selected[n], brokerId, month, tier);
    }
  }

  lemma RunRecords(ks: KeyScheme, db: Db, brokerId: nat, month: int)
    requires Injective(ks) && AccrualsRecorded(ks, db.accruals, db.ledger) && RunMonth(ks, db, brokerId, month).Ok?
    ensures var db' := RunMonth(ks, db, brokerId, month).value; AccrualsRecorded(ks, db'.accruals, db'.ledger)
  {
    var selected := Outstanding(db, brokerId, month);
    var tier := TierFor(db, selected);
    var s := Accruing(db.accruals, db.ledger, 0);
    LoopRecords(ks, s, selected, brokerId, month, tier);
    var done := AccrueAll(ks, s, selected, brokerId, month, tier);
    var amount := RunMonth(ks, db, brokerId, month).value.feeInvoices[(brokerId, month)].totalFeeAmount;
    RecordOther(ks, done.accruals, done.ledger,
                Written(FeeInvoiceKey(brokerId, month), FeeInvoiceEntryFor(brokerId, amount, ks(FeeInvoiceKey(brokerId, month)))));
  }

  lemma OtherStepRecords(ks: KeyScheme, db: Db, c: Call)
    requires Injective(ks) && AccrualsRecorded(ks, db.accruals, db.ledger) && Attempt(ks, db, c).Ok? && !c.event.RunFees?
    ensures AccrualsRecorded(ks, Next(ks, db, c).accruals, Next(ks, db, c).ledger)
  {
    FrameOfStep(ks, db, c);
    LedgerOfStep(ks, db, c);
    WrittenFit(ks, db, c.event);
    WrittenOther(ks, db.accruals, db.ledger, WrittenBy(ks, db, c.event));
  }

  lemma AccrualsAfterStep(ks: KeyScheme, db: Db, c: Call)
    requires Injective(ks) && AccrualsRecorded(ks, db.accruals, db.ledger)
    ensures AccrualsRecorded(ks, Next(ks, db, c).accruals, Next(ks, db, c).ledger)
  {
    if Attempt(ks, db, c).Ok? {
      if c.event.RunFees? {
        RunStep(ks, db, c);
        RunRecords(ks, db, c.event.brokerId, PeriodMonth(c.event.date));
      } else {
        OtherStepRecords(ks, db, c);
      }
    }
  }

  /** After any run, in order or not, a broker's FEE_ACCRUAL entries sum to its accrual rows, however often months were
      run again. */
  lemma {:induction false} AccrualLedgerAgrees(ks: KeyScheme, calls: seq<Call>)
    requires Injective(ks)
    ensures var db := Engine.After(ks, calls); AccrualsRecorded(ks, db.accruals, db.ledger)
  {
    if calls != [] {
      var n := |calls| - 1;
      var db, c := Engine.After(ks, calls[..n]), calls[n];
      AccrualLedgerAgrees(ks, calls[..n]);
      AccrualsAfterStep(ks, db, c);
    }
  }
}
