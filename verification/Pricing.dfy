/** What a fee run charges: which tier it picks, what each accrual row says, and what the fee invoice's entry carries. */
module Pricing {
  import opened Wrappers
  import opened Sums
  import opened StateMachine
  import opened Ledger
  import opened FeeCalculator
  import opened Keys
  import opened Period
  import opened Schema
  import opened Engine
  import opened LedgerWrites
  import opened Fees
  import opened FeeRuns
  import opened Reruns
  import FeeComparison
  import Histories
  import Parties
  import Settlement

  // ---- The tier list

  ghost predicate TiersNumbered(tiers: seq<FeeTier>) {
    forall i :: 0 <= i < |tiers| ==> tiers[i].id == i
  }

  /** Ascending starts, and ascending ids among equal starts. */
  predicate Precedes(a: FeeTier, b: FeeTier) {
    a.gallonsFrom < b.gallonsFrom || (a.gallonsFrom == b.gallonsFrom && a.id < b.id)
  }

  ghost predicate InOrder(tiers: seq<FeeTier>) {
    forall i, j :: 0 <= i < j < |tiers| ==> Precedes(tiers[i], tiers[j])
  }

  lemma {:induction false} InsertMembers(tiers: seq<FeeTier>, tier: FeeTier, t: FeeTier)
    ensures t in InsertByFrom(tiers, tier) <==> t in tiers || t == tier
  {
    if tiers != [] && tiers[0].gallonsFrom < tier.gallonsFrom {
      InsertMembers(tiers[1..], tier, t);
      assert tiers == [tiers[0]] + tiers[1..];
    }
  }

  lemma {:induction false} InsertKeepsOrder(tiers: seq<FeeTier>, tier: FeeTier)
    requires InOrder(tiers) && forall t :: t in tiers ==> tier.id < t.id
    ensures InOrder(InsertByFrom(tiers, tier))
  {
    if tiers != [] && tiers[0].gallonsFrom < tier.gallonsFrom {
      var rest := InsertByFrom(tiers[1..], tier);
      InsertKeepsOrder(tiers[1..], tier);
      forall j | 0 <= j < |rest| ensures Precedes(tiers[0], rest[j]) {
        InsertMembers(tiers[1..], tier, rest[j]);
        assert rest[j] in rest;
      }
    }
  }

  /** The active tiers of the table from k on, in order. */
  lemma {:induction false} ListInOrder(tiers: seq<FeeTier>, k: nat)
    requires TiersNumbered(tiers) && k <= |tiers|
    ensures InOrder(ListActiveTiers(tiers[k..]))
    ensures forall t :: t in ListActiveTiers(tiers[k..]) <==> k <= t.id < |tiers| && t == tiers[t.id] && t.isActive
    decreases |tiers| - k
  {
    if k < |tiers| {
      ListInOrder(tiers, k + 1);
      assert tiers[k..][1..] == tiers[k + 1..] && tiers[k..][0] == tiers[k];
      if tiers[k].isActive {
        InsertKeepsOrder(ListActiveTiers(tiers[k + 1..]), tiers[k]);
        forall t ensures t in ListActiveTiers(tiers[k..]) <==> t in ListActiveTiers(tiers[k + 1..]) || t == tiers[k] {
          InsertMembers(ListActiveTiers(tiers[k + 1..]), tiers[k], t);
        }
      }
    }
  }

  /** An active tier of the table whose band holds the volume. */
  predicate Applies(tiers: seq<FeeTier>, id: nat, gallons: int) {
    && id < |tiers| && tiers[id].isActive
    && tiers[id].gallonsFrom <= gallons && (tiers[id].gallonsTo.None? || gallons < tiers[id].gallonsTo.value)
  }

  /** The tier that applies and comes first; among tiers that start together, the one created first. */
  ghost predicate IsTierOf(tiers: seq<FeeTier>, gallons: int, id: nat) {
    && Applies(tiers, id, gallons)
    && forall other: nat :: Applies(tiers, other, gallons) && other != id ==> Precedes(tiers[id], tiers[other])
  }

  ghost predicate NoneApplies(tiers: seq<FeeTier>, gallons: int) {
    forall id: nat :: !Applies(tiers, id, gallons)
  }

  lemma LookupIsTierOf(tiers: seq<FeeTier>, gallons: int)
    requires TiersNumbered(tiers)
    ensures match FindTierForGallons(ListActiveTiers(tiers), gallons)
            case Some(t) => t.id < |tiers| && t == tiers[t.id] && IsTierOf(tiers, gallons, t.id)
            case None => NoneApplies(tiers, gallons)
  {
    var list := ListActiveTiers(tiers);
    ListInOrder(tiers, 0);
    assert tiers[0..] == tiers;
    var found := FindFirst(list, Contains(gallons));
    forall other: nat | Applies(tiers, other, gallons)
      ensures found.Some? && (tiers[other] == list[found.value] || Precedes(list[found.value], tiers[other]))
    {
      assert tiers[other] in list;
      var k :| 0 <= k < |list| && list[k] == tiers[other];
      assert Contains(gallons)(list[k]);
    }
    if found.Some? {
      assert list[found.value] in list && Contains(gallons)(list[found.value]);
    }
  }

  // ---- The tier and the rows of a run

  /** A run uses the tier of its selection's gallons, if any, and a fee invoice keeps its recorded tier otherwise. */
  lemma TierOfRun(ks: KeyScheme, db: Db, brokerId: nat, month: int)
    requires TiersNumbered(db.tiers) && RunMonth(ks, db, brokerId, month).Ok?
    ensures var fee := RunMonth(ks, db, brokerId, month).value.feeInvoices[(brokerId, month)];
            var gallons := fee.gallonsVolume;
            && (fee.tierId.Some? && !NoneApplies(db.tiers, gallons) ==> IsTierOf(db.tiers, gallons, fee.tierId.value))
            && (!NoneApplies(db.tiers, gallons) ==> fee.tierId.Some?)
            && (NoneApplies(db.tiers, gallons) ==>
                  fee.tierId == if (brokerId, month) in db.feeInvoices then db.feeInvoices[(brokerId, month)].tierId else None)
  {
    LookupIsTierOf(db.tiers, Sum(Outstanding(db, brokerId, month), Gallons()));
  }

  /** The gallons of an invoice that is the broker's and outstanding in the month. */
  ghost function GallonsDue(history: seq<StatusRow>, brokerId: nat, month: int): Invoice -> int {
    (inv: Invoice) => if inv.brokerId == brokerId && IsOutstanding(history, inv.id, month) then inv.gallons else 0
  }

  ghost function TotalDue(history: seq<StatusRow>, brokerId: nat, month: int): Invoice -> int {
    (inv: Invoice) => if inv.brokerId == brokerId && IsOutstanding(history, inv.id, month) then inv.totalAmount else 0
  }

  /** A run's volumes are the gallons and the total amounts of the broker's outstanding invoices. */
  lemma VolumesOfRun(ks: KeyScheme, calls: seq<Call>, brokerId: nat, month: int)
    requires Orderly(ks, calls) && RunMonth(ks, Engine.After(ks, calls), brokerId, month).Ok?
    ensures var db := Engine.After(ks, calls);
            var fee := RunMonth(ks, db, brokerId, month).value.feeInvoices[(brokerId, month)];
            && fee.gallonsVolume == Sum(db.invoices, GallonsDue(db.history, brokerId, month))
            && fee.dollarVolume == Sum(db.invoices, TotalDue(db.history, brokerId, month))
  {
    var db := Engine.After(ks, calls);
    Histories.PathsOfRun(ks, calls);
    VolumesCountOnce(ks, db, brokerId, month);
    SumCongruent(db.invoices, Due(db.history, brokerId, month, Gallons()), GallonsDue(db.history, brokerId, month));
    SumCongruent(db.invoices, Due(db.history, brokerId, month, DollarVolume()), TotalDue(db.history, brokerId, month));
  }

  /** A row's fee is its percentage of its base amount, in thousandths of a percent, to the nearest cent and upwards on a tie;
      its base is the invoice's total, and its percentage that of the tier it names, or zero. */
  ghost predicate IsPriced(db: Db, a: Accrual) {
    && a.invoiceId < |db.invoices| && a.baseAmount == db.invoices[a.invoiceId].totalAmount
    && -100_000 < 2 * (a.feeAmount * 100_000 - a.baseAmount * a.feePct) <= 100_000
    && match a.tierId
       case None => a.feePct == 0
       case Some(t) => t < |db.tiers| && a.feePct == db.tiers[t].feePct
  }

  ghost predicate AllPriced(db: Db, accruals: seq<Accrual>) {
    forall j :: 0 <= j < |accruals| ==> IsPriced(db, accruals[j])
  }

  ghost predicate RowsPriced(db: Db) {
    TiersNumbered(db.tiers) && AllPriced(db, db.accruals)
  }

  lemma NewRowIsPriced(db: Db, inv: Invoice, brokerId: nat, month: int, tier: Option<FeeTier>)
    requires inv.id < |db.invoices| && inv == db.invoices[inv.id]
    requires tier.Some? ==> tier.value.id < |db.tiers| && tier.value == db.tiers[tier.value.id]
    ensures IsPriced(db, NewAccrual(inv, brokerId, month, tier))
  {
    assert 0 <= inv.totalAmount * FeePctOf(tier);
    RoundsToNearest(inv.totalAmount * FeePctOf(tier), FEE_SCALE);
  }

  lemma TurnPrices(ks: KeyScheme, db: Db, s: Accruing, inv: Invoice, brokerId: nat, month: int, tier: Option<FeeTier>)
    requires AllPriced(db, s.accruals) && inv.id < |db.invoices| && inv == db.invoices[inv.id]
    requires tier.Some? ==> tier.value.id < |db.tiers| && tier.value == db.tiers[tier.value.id]
    ensures AllPriced(db, AccrueOne(ks, s, inv, brokerId, month, tier).accruals)
  {
    NewRowIsPriced(db, inv, brokerId, month, tier);
  }

  lemma {:induction false} LoopPrices(ks: KeyScheme, db: Db, s: Accruing, selected: seq<Invoice>, brokerId: nat, month: int,
                                      tier: Option<FeeTier>)
    requires AllPriced(db, s.accruals)
    requires forall i :: 0 <= i < |selected| ==> selected[i].id < |db.invoices| && selected[i] == db.invoices[selected[i].id]
    requires tier.Some? ==> tier.value.id < |db.tiers| && tier.value == db.tiers[tier.value.id]
    ensures AllPriced(db, AccrueAll(ks, s, selected, brokerId, month, tier).accruals)
  {
    if selected != [] {
      var n := |selected| - 1;
      LoopPrices(ks, db, s, selected[..n], brokerId, month, tier);
      TurnPrices(ks, db, AccrueAll(ks, s, selected[..n], brokerId, month, tier), selected[n], brokerId, month, tier);
    }
  }

  lemma PricedInSameTables(db: Db, db': Db, accruals: seq<Accrual>)
    requires AllPriced(db, accruals) && db'.invoices == db.invoices && db'.tiers == db.tiers
    ensures AllPriced(db', accruals)
  {
    forall j | 0 <= j < |accruals| ensures IsPriced(db', accruals[j]) {
      assert IsPriced(db, accruals[j]);
    }
  }

  lemma RunPrices(ks: KeyScheme, db: Db, brokerId: nat, month: int)
    requires Histories.PathsOk(db) && RowsPriced(db) && RunMonth(ks, db, brokerId, month).Ok?
    ensures RowsPriced(RunMonth(ks, db, brokerId, month).value)
  {
    var db', selected := RunMonth(ks, db, brokerId, month).value, Outstanding(db, brokerId, month);
    SelectionIsExact(db, brokerId, month);
    LookupIsTierOf(db.tiers, Sum(selected, Gallons()));
    LoopPrices(ks, db, Accruing(db.accruals, db.ledger, 0), selected, brokerId, month, TierFor(db, selected));
    PricedInSameTables(db, db', db'.accruals);
  }

  /** Tiers stay but for their flag, and new ones get the next number. */
  ghost predicate KeepsTiers(db: Db, db': Db) {
    && |db.tiers| <= |db'.tiers|
    && (forall i :: 0 <= i < |db.tiers| ==> db'.tiers[i] == db.tiers[i].(isActive := db'.tiers[i].isActive))
    && (forall i :: |db.tiers| <= i < |db'.tiers| ==> db'.tiers[i].id == i)
  }

  predicate ChangesTiers(e: Event) {
    e.CreateTier? || e.DeactivateTier?
  }

  lemma TiersUntouched(ks: KeyScheme, db: Db, c: Call)
    requires Attempt(ks, db, c).Ok? && !ChangesTiers(c.event)
    ensures Attempt(ks, db, c).value.tiers == db.tiers
  {
    if c.event.RunFees? {
      RunStep(ks, db, c);
    } else if IsMoneyMove(c.event) {
    } else if IsMove(c.event) || c.event.Create? {
      TiersUntouchedByHandler(ks, db, c);
    } else {
    }
  }

  lemma TiersUntouchedByHandler(ks: KeyScheme, db: Db, c: Call)
    requires Attempt(ks, db, c).Ok? && !IsMoneyMove(c.event) && (IsMove(c.event) || c.event.Create?)
    ensures Attempt(ks, db, c).value.tiers == db.tiers
  {
  }

  lemma StepKeepsTiers(ks: KeyScheme, db: Db, c: Call)
    requires Attempt(ks, db, c).Ok?
    ensures KeepsTiers(db, Attempt(ks, db, c).value)
  {
    if !ChangesTiers(c.event) {
      TiersUntouched(ks, db, c);
    }
  }

  lemma PricedLater(db: Db, db': Db)
    requires RowsPriced(db) && KeepsTiers(db, db') && Settlement.KeepsInvoices(db, db') && db'.accruals == db.accruals
    ensures RowsPriced(db')
  {
    forall j | 0 <= j < |db'.accruals| ensures IsPriced(db', db'.accruals[j]) {
      assert IsPriced(db, db.accruals[j]);
    }
  }

  /** In every reachable state every accrual row is priced by the tier it names, whatever has happened to tiers since. */
  lemma {:induction false} PricesOfRun(ks: KeyScheme, calls: seq<Call>)
    requires Orderly(ks, calls)
    ensures RowsPriced(Engine.After(ks, calls))
  {
    if calls != [] {
      var n := |calls| - 1;
      var db, c := Engine.After(ks, calls[..n]), calls[n];
      PricesOfRun(ks, calls[..n]);
      Histories.PathsOfRun(ks, calls[..n]);
      if Attempt(ks, db, c).Ok? {
        if c.event.RunFees? {
          RunStep(ks, db, c);
          RunPrices(ks, db, c.event.brokerId, PeriodMonth(c.event.date));
        } else {
          FrameOfStep(ks, db, c);
          StepKeepsTiers(ks, db, c);
          Settlement.StepKeepsInvoices(ks, db, c);
          PricedLater(db, Attempt(ks, db, c).value);
        }
      }
    }
  }

  /** A tier is active from its creation on, and inactive once it was deactivated; nothing else about the others changes. */
  lemma TierOutcome(ks: KeyScheme, db: Db, id: nat, gallonsFrom: nat, gallonsTo: Option<nat>, feePct: nat, now: int)
    ensures var created := Attempt(ks, db, Call(Engine.CreateTier(gallonsFrom, gallonsTo, feePct), now));
            created == Ok(db.(tiers := db.tiers + [FeeTier(|db.tiers|, gallonsFrom, gallonsTo, feePct, true)]))
    ensures var retired := Attempt(ks, db, Call(Engine.DeactivateTier(id), now));
            if id >= |db.tiers| then retired == Err(TierNotFound)
            else
              && retired.Ok? && retired.value == db.(tiers := retired.value.tiers) && |retired.value.tiers| == |db.tiers|
              && !retired.value.tiers[id].isActive
              && (forall gallons :: !Applies(retired.value.tiers, id, gallons))
              && forall j: nat :: j < |db.tiers| && j != id ==> retired.value.tiers[j] == db.tiers[j]
  {
  }

  // ---- Fee invoices

  /** A run goes through unless the fee invoice has left DRAFT, and leaves a draft. */
  lemma FeeRunOutcome(ks: KeyScheme, db: Db, brokerId: nat, month: int)
    ensures var r, key := RunMonth(ks, db, brokerId, month), (brokerId, month);
            && (r.Err? <==> key in db.feeInvoices && db.feeInvoices[key].status == FeeIssued)
            && (r.Err? ==> r.error == FeeInvoiceFinal)
            && (r.Ok? ==> key in r.value.feeInvoices && r.value.feeInvoices[key].status == FeeDraft)
  {
  }

  /** Issuing needs a fee invoice and changes its status only. */
  lemma IssueOutcome(ks: KeyScheme, db: Db, brokerId: nat, month: int, now: int)
    ensures var r, key := Attempt(ks, db, Call(Engine.MarkIssued(brokerId, month), now)), (brokerId, month);
            && (r.Ok? <==> key in db.feeInvoices)
            && (r.Err? ==> r.error == FeeInvoiceNotFound)
            && (r.Ok? ==> r.value == db.(feeInvoices := r.value.feeInvoices) && r.value.feeInvoices.Keys == db.feeInvoices.Keys
                          && r.value.feeInvoices[key] == db.feeInvoices[key].(status := FeeIssued)
                          && forall k :: k in db.feeInvoices && k != key ==> r.value.feeInvoices[k] == db.feeInvoices[k])
  {
  }

  /** The first run of a broker's month enters the fee invoice's total in the ledger, as its last entry. */
  lemma FirstRunEntersTotal(ks: KeyScheme, calls: seq<Call>, brokerId: nat, month: int)
    requires Injective(ks) && Orderly(ks, calls) && (brokerId, month) !in Engine.After(ks, calls).feeInvoices
    ensures var db' := RunMonth(ks, Engine.After(ks, calls), brokerId, month);
            && db'.Ok? && db'.value.ledger != []
            && db'.value.ledger[|db'.value.ledger| - 1]
               == LedgerEntry(FeeInvoiceEntry, db'.value.feeInvoices[(brokerId, month)].totalFeeAmount, None, Some(brokerId), None,
                              ks(FeeInvoiceKey(brokerId, month)))
  {
    var db := Engine.After(ks, calls);
    Parties.EntriesOfRun(ks, calls);
    forall k | 0 <= k < |db.ledger| ensures db.ledger[k].key != ks(FeeInvoiceKey(brokerId, month)) {
      KeyOfOtherEntry(ks, db, db.ledger[k], brokerId, month);
    }
    var selected := Outstanding(db, brokerId, month);
    var done := AccrueAll(ks, Accruing(db.accruals, db.ledger, 0), selected, brokerId, month, TierFor(db, selected));
    LoopLeavesKeys(ks, Accruing(db.accruals, db.ledger, 0), selected, brokerId, month, TierFor(db, selected), brokerId, month);
  }

  lemma KeyOfOtherEntry(ks: KeyScheme, db: Db, e: LedgerEntry, brokerId: nat, month: int)
    requires Injective(ks) && Parties.EntryOk(ks, db, e) && (brokerId, month) !in db.feeInvoices
    ensures e.key != ks(FeeInvoiceKey(brokerId, month))
  {
    match e.entryType {
      case PaymentReceipt => var p: nat :| Parties.IsReceipt(ks, db, e, p);
      case FeeAccrualEntry => var j :| 0 <= j < |db.accruals| && Parties.IsAccrualOf(ks, e, db.accruals[j]);
      case FeeInvoiceEntry => var b: nat, m :| Parties.IsFeeInvoiceOf(ks, db, e, b, m);
      case _ =>
    }
  }

  lemma {:induction false} LoopLeavesKeys(ks: KeyScheme, s: Accruing, selected: seq<Invoice>, brokerId: nat, month: int,
                                          tier: Option<FeeTier>, b: nat, m: int)
    requires Injective(ks)
    ensures HasKey(AccrueAll(ks, s, selected, brokerId, month, tier).ledger, ks(FeeInvoiceKey(b, m)))
       <==> HasKey(s.ledger, ks(FeeInvoiceKey(b, m)))
  {
    if selected != [] {
      var n := |selected| - 1;
      LoopLeavesKeys(ks, s, selected[..n], brokerId, month, tier, b, m);
      var before := AccrueAll(ks, s, selected[..n], brokerId, month, tier);
      var w := AccrualWritten(ks, before, selected[n], brokerId, month, tier);
      TurnIsWritten(ks, before, selected[n], brokerId, month, tier);
      RecordKeys(before.ledger, w.entry, ks(FeeInvoiceKey(b, m)));
    }
  }

  /** The configuration read is the open one with the latest start, the first of several, and none only if none is open. */
  lemma {:induction false} LatestOpenIsLatest(configs: seq<FeeConfig>)
    ensures LatestOpen(configs).None? ==> forall j :: 0 <= j < |configs| ==> configs[j].effectiveTo.Some?
    ensures LatestOpen(configs).Some? ==> exists k: nat :: IsLatestOpen(configs, k) && configs[k] == LatestOpen(configs).value
  {
    if configs != [] {
      var n := |configs| - 1;
      LatestOpenIsLatest(configs[..n]);
      if LatestOpen(configs[..n]).Some? {
        var k: nat :| IsLatestOpen(configs[..n], k) && configs[..n][k] == LatestOpen(configs[..n]).value;
        assert IsLatestOpen(configs, if LatestOpen(configs) == LatestOpen(configs[..n]) then k else n);
      } else if configs[n].effectiveTo.None? {
        assert IsLatestOpen(configs, n);
      }
    }
  }

  ghost predicate IsLatestOpen(configs: seq<FeeConfig>, k: nat) {
    && k < |configs| && configs[k].effectiveTo.None?
    && forall j :: 0 <= j < |configs| && configs[j].effectiveTo.None? ==>
         if j < k then configs[j].effectiveFrom < configs[k].effectiveFrom else configs[j].effectiveFrom <= configs[k].effectiveFrom
  }

  // ---- The minimum fee over time

  function SetsMinimum(): Call -> bool {
    (c: Call) => c.event.SetMinimumFee?
  }

  /** The configuration is the minimum of a call, in force from that call until the next one. */
  ghost predicate IsVersion(config: FeeConfig, sets: seq<Call>, j: nat)
    requires j < |sets|
  {
    && sets[j].event.SetMinimumFee? && config.minimumMonthlyFee == sets[j].event.minimumMonthlyFee
    && config.effectiveFrom == sets[j].now
    && config.effectiveTo == (if j + 1 < |sets| then Some(sets[j + 1].now) else None)
  }

  ghost predicate VersionsOf(configs: seq<FeeConfig>, sets: seq<Call>) {
    |configs| == |sets| && forall j :: 0 <= j < |sets| ==> IsVersion(configs[j], sets, j)
  }

  lemma VersionAdded(db: Db, sets: seq<Call>, c: Call)
    requires VersionsOf(db.feeConfigs, sets) && c.event.SetMinimumFee?
    ensures VersionsOf(Fees.SetMinimumFee(db, c.event.minimumMonthlyFee, c.now).feeConfigs, sets + [c])
  {
    var configs := Fees.SetMinimumFee(db, c.event.minimumMonthlyFee, c.now).feeConfigs;
    var found := FindFirst(db.feeConfigs, IsOpenConfig());
    if sets != [] {
      var last := |sets| - 1;
      assert IsVersion(db.feeConfigs[last], sets, last);
      assert IsOpenConfig()(db.feeConfigs[last]);
      forall j | 0 <= j < last ensures !IsOpenConfig()(db.feeConfigs[j]) {
        assert IsVersion(db.feeConfigs[j], sets, j);
      }
      assert found == Some(last);
    }
    forall j | 0 <= j < |sets + [c]| ensures IsVersion(configs[j], sets + [c], j) {
      if j < |sets| {
        assert IsVersion(db.feeConfigs[j], sets, j);
      }
    }
  }

  /** After any calls the configurations are the versions of the minimum that were set, none changed and none lost, and
      each in force until the next one was set. */
  lemma {:induction false} MinimumHistory(ks: KeyScheme, calls: seq<Call>)
    ensures VersionsOf(Engine.After(ks, calls).feeConfigs, Filter(calls, SetsMinimum()))
  {
    if calls != [] {
      var n := |calls| - 1;
      MinimumHistory(ks, calls[..n]);
      if calls[n].event.SetMinimumFee? {
        VersionAdded(Engine.After(ks, calls[..n]), Filter(calls[..n], SetsMinimum()), calls[n]);
      } else {
        FeeComparison.StepKeepsConfigs(ks, Engine.After(ks, calls[..n]), calls[n]);
      }
    }
  }

  // ---- When invoices were resolved

  ghost predicate IsLastResolution(history: seq<StatusRow>, id: nat, k: nat) {
    k < |history| && Resolves(history[k], id) && forall j :: k < j < |history| ==> !Resolves(history[j], id)
  }

  /** The time read for an invoice is that of its last resolution in row order, and none is read if it has none. */
  lemma {:induction false} LastResolution(history: seq<StatusRow>, id: nat) returns (k: nat)
    ensures match ResolvedAt(history, id)
            case None => forall j :: 0 <= j < |history| ==> !Resolves(history[j], id)
            case Some(time) => IsLastResolution(history, id, k) && time == history[k].createdAt
  {
    k := 0;
    if history != [] {
      var n := |history| - 1;
      k := LastResolution(history[..n], id);
      if Resolves(history[n], id) {
        k := n;
      } else {
        assert forall j :: 0 <= j < n ==> history[..n][j] == history[j];
      }
    }
  }

  /** The row takes the invoice to SETTLED, CHARGED_BACK or WRITTEN_OFF. */
  predicate Resolves(row: StatusRow, id: nat) {
    row.invoiceId == id && (row.to == Settled || row.to == ChargedBack || row.to == WrittenOff)
  }
}
