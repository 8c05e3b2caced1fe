/** What a fee run adds, and what running it again can and cannot change. */
module Reruns {
  import opened Wrappers
  import opened Sums
  import opened StateMachine
  import opened Ledger
  import opened FeeCalculator
  import opened Keys
  import opened Period
  import opened Schema
  import opened Engine
  import opened LedgerWrites
  import opened Fees
  import opened FeeRuns
  import Histories
  import Settlement

  /** There is at most one accrual row for an invoice and a month. */
  ghost predicate OneRowEach(accruals: seq<Accrual>) {
    forall j, k :: 0 <= j < k < |accruals| ==>
      accruals[j].invoiceId != accruals[k].invoiceId || accruals[j].periodMonth != accruals[k].periodMonth
  }

  ghost predicate HasRow(accruals: seq<Accrual>, id: nat, month: int) {
    exists j :: 0 <= j < |accruals| && accruals[j].invoiceId == id && accruals[j].periodMonth == month
  }

  lemma RowAppended(accruals: seq<Accrual>, a: Accrual, id: nat, month: int)
    ensures HasRow(accruals + [a], id, month) <==> HasRow(accruals, id, month) || (a.invoiceId == id && a.periodMonth == month)
  {
    assert (accruals + [a])[|accruals|] == a;
    assert forall j :: 0 <= j < |accruals| ==> (accruals + [a])[j] == accruals[j];
  }

  function IdsOf(selected: seq<Invoice>): set<nat> {
    if selected == [] then {} else IdsOf(selected[..|selected| - 1]) + {selected[|selected| - 1].id}
  }

  /** The month's fee of the given invoices. */
  function FeeWithin(ids: set<nat>, month: int): Accrual -> int {
    (a: Accrual) => if a.periodMonth == month && a.invoiceId in ids then a.feeAmount else 0
  }

  /** A broker's fee in a month. */
  function FeeOf(brokerId: nat, month: int): Accrual -> int {
    (a: Accrual) => if a.brokerId == brokerId && a.periodMonth == month then a.feeAmount else 0
  }

  /** The part of a broker's fee in a month that is on invoices outside a selection. */
  function FeeOutside(brokerId: nat, month: int, ids: set<nat>): Accrual -> int {
    (a: Accrual) => if a.brokerId == brokerId && a.periodMonth == month && a.invoiceId !in ids then a.feeAmount else 0
  }

  lemma {:induction false} IdsOfMembers(selected: seq<Invoice>, id: nat)
    ensures id in IdsOf(selected) <==> exists j :: 0 <= j < |selected| && selected[j].id == id
  {
    if selected != [] {
      var n := |selected| - 1;
      IdsOfMembers(selected[..n], id);
      assert forall j :: 0 <= j < n ==> selected[..n][j] == selected[j];
    }
  }

  /** What a turn of the loop does: the rows stay, there is one for the invoice, and its fee is the one added. */
  lemma TurnAddsFee(ks: KeyScheme, s: Accruing, inv: Invoice, brokerId: nat, month: int, tier: Option<FeeTier>, ids: set<nat>)
    requires OneRowEach(s.accruals) && inv.id !in ids
    ensures var s' := AccrueOne(ks, s, inv, brokerId, month, tier);
            && OneRowEach(s'.accruals)
            && s.accruals <= s'.accruals
            && s'.calculatedFee - s.calculatedFee
               == Sum(s'.accruals, FeeWithin(ids + {inv.id}, month)) - Sum(s.accruals, FeeWithin(ids, month))
            && (HasRow(s.accruals, inv.id, month) ==> s'.accruals == s.accruals)
            && (!HasRow(s.accruals, inv.id, month) ==> s'.accruals == s.accruals + [NewAccrual(inv, brokerId, month, tier)])
  {
    var s' := AccrueOne(ks, s, inv, brokerId, month, tier);
    var found := FindFirst(s.accruals, AccrualFor(inv.id, month));
    if found.Some? {
      SumPoint(s.accruals, found.value, FeeWithin(ids, month), FeeWithin(ids + {inv.id}, month));
    } else {
      var row := NewAccrual(inv, brokerId, month, tier);
      SumAppend(s.accruals, row, FeeWithin(ids + {inv.id}, month));
      SumCongruent(s.accruals, FeeWithin(ids, month), FeeWithin(ids + {inv.id}, month));
      assert s'.accruals == s.accruals + [row];
    }
  }

  /** A row added by the run of a month for a broker. */
  predicate IsNewRow(a: Accrual, brokerId: nat, month: int, ids: set<nat>) {
    a.brokerId == brokerId && a.periodMonth == month && a.invoiceId in ids
  }

  /** The loop keeps every row, adds rows of its own month and selection only, gives every selected invoice a row, and
      sums up exactly the selected invoices' fees. */
  lemma {:induction false} LoopAddsFees(ks: KeyScheme, s: Accruing, selected: seq<Invoice>, brokerId: nat, month: int,
                                        tier: Option<FeeTier>)
    requires OneRowEach(s.accruals) && DistinctIds(selected) && s.calculatedFee == 0
    ensures var s' := AccrueAll(ks, s, selected, brokerId, month, tier);
            && OneRowEach(s'.accruals)
            && s.accruals <= s'.accruals
            && s'.calculatedFee == Sum(s'.accruals, FeeWithin(IdsOf(selected), month))
            && forall j :: |s.accruals| <= j < |s'.accruals| ==> IsNewRow(s'.accruals[j], brokerId, month, IdsOf(selected))
  {
    if selected == [] {
      SumOfZeros(s.accruals, FeeWithin({}, month));
    } else {
      var n := |selected| - 1;
      assert DistinctIds(selected[..n]);
      LoopAddsFees(ks, s, selected[..n], brokerId, month, tier);
      var before := AccrueAll(ks, s, selected[..n], brokerId, month, tier);
      IdsOfMembers(selected[..n], selected[n].id);
      TurnAddsFee(ks, before, selected[n], brokerId, month, tier, IdsOf(selected[..n]));
    }
  }

  /** Each row belongs to its invoice's broker and to a month whose fee invoice has been made. */
  ghost predicate AccrualsOwned(db: Db) {
    forall j :: 0 <= j < |db.accruals| ==>
      && db.accruals[j].invoiceId < |db.invoices|
      && db.accruals[j].brokerId == db.invoices[db.accruals[j].invoiceId].brokerId
      && (db.accruals[j].brokerId, db.accruals[j].periodMonth) in db.feeInvoices
  }

  lemma {:induction false} FeeSplits(accruals: seq<Accrual>, brokerId: nat, month: int, ids: set<nat>)
    requires forall j :: 0 <= j < |accruals| && accruals[j].periodMonth == month && accruals[j].invoiceId in ids ==>
               accruals[j].brokerId == brokerId
    ensures Sum(accruals, FeeOf(brokerId, month))
         == Sum(accruals, FeeWithin(ids, month)) + Sum(accruals, FeeOutside(brokerId, month, ids))
  {
    if accruals != [] {
      FeeSplits(accruals[..|accruals| - 1], brokerId, month, ids);
    }
  }

  lemma {:induction false} OtherFeesUntouched(before: seq<Accrual>, after: seq<Accrual>, f: Accrual -> int)
    requires before <= after
    requires forall j :: |before| <= j < |after| ==> f(after[j]) == 0
    ensures Sum(after, f) == Sum(before, f)
    decreases |after|
  {
    if |before| < |after| {
      OtherFeesUntouched(before, after[..|after| - 1], f);
    } else {
      assert before == after;
    }
  }

  /** The selection of a run, in terms of ids. */
  function SelectedIds(db: Db, brokerId: nat, month: int): set<nat> {
    IdsOf(Outstanding(db, brokerId, month))
  }

  /** The rows of a run are the old rows followed by rows of its own. */
  lemma RowsOfRun(ks: KeyScheme, db: Db, brokerId: nat, month: int)
    requires Histories.PathsOk(db) && OneRowEach(db.accruals) && AccrualsOwned(db)
    requires RunMonth(ks, db, brokerId, month).Ok?
    ensures var db' := RunMonth(ks, db, brokerId, month).value;
            var ids := SelectedIds(db, brokerId, month);
            && OneRowEach(db'.accruals) && AccrualsOwned(db') && db.accruals <= db'.accruals
            && (forall j :: |db.accruals| <= j < |db'.accruals| ==> IsNewRow(db'.accruals[j], brokerId, month, ids))
            && (forall id :: id in ids ==> id < |db.invoices| && db.invoices[id].brokerId == brokerId && IsOutstanding(db.history, id, month))
            && db'.feeInvoices[(brokerId, month)].calculatedFee == Sum(db'.accruals, FeeWithin(ids, month))
  {
    var selected := Outstanding(db, brokerId, month);
    SelectionIsExact(db, brokerId, month);
    LoopAddsFees(ks, Accruing(db.accruals, db.ledger, 0), selected, brokerId, month, TierFor(db, selected));
    forall id | id in IdsOf(selected)
      ensures id < |db.invoices| && db.invoices[id].brokerId == brokerId && IsOutstanding(db.history, id, month)
    {
      IdsOfMembers(selected, id);
      assert db.invoices[id] in selected;
    }
  }

  /** After any run the calculated fee is what all accrual rows of the broker and month sum to, short of the rows of
      invoices that the run no longer selects. */
  lemma CalculatedFeeOfRun(ks: KeyScheme, db: Db, brokerId: nat, month: int)
    requires Histories.PathsOk(db) && OneRowEach(db.accruals) && AccrualsOwned(db)
    requires RunMonth(ks, db, brokerId, month).Ok?
    ensures var db' := RunMonth(ks, db, brokerId, month).value;
            var fee := db'.feeInvoices[(brokerId, month)];
            var dropped := Sum(db.accruals, FeeOutside(brokerId, month, SelectedIds(db, brokerId, month)));
            && fee.calculatedFee == Sum(db'.accruals, FeeOf(brokerId, month)) - dropped
            && fee.totalFeeAmount == Max(fee.calculatedFee, CurrentMinimumFee(db.feeConfigs))
            && (fee.minimumFeeShortfallApplied <==> fee.calculatedFee < CurrentMinimumFee(db.feeConfigs))
  {
    var db' := RunMonth(ks, db, brokerId, month).value;
    var ids := SelectedIds(db, brokerId, month);
    RowsOfRun(ks, db, brokerId, month);
    FeeSplits(db'.accruals, brokerId, month, ids);
    OtherFeesUntouched(db.accruals, db'.accruals, FeeOutside(brokerId, month, ids));
  }

  lemma RowsAfterStep(ks: KeyScheme, db: Db, c: Call)
    requires Histories.PathsOk(db) && OneRowEach(db.accruals) && AccrualsOwned(db) && StartsWhereItSays(db, c.event)
    ensures OneRowEach(Next(ks, db, c).accruals) && AccrualsOwned(Next(ks, db, c))
  {
    if Attempt(ks, db, c).Ok? {
      if c.event.RunFees? {
        RowsOfRun(ks, db, c.event.brokerId, PeriodMonth(c.event.date));
      } else {
        FrameOfStep(ks, db, c);
        Settlement.StepKeepsInvoices(ks, db, c);
        OwnedAfterStep(db, Next(ks, db, c));
      }
    }
  }

  lemma {:induction false} RowsInRun(ks: KeyScheme, calls: seq<Call>)
    requires Orderly(ks, calls)
    ensures var db := Engine.After(ks, calls); Histories.PathsOk(db) && OneRowEach(db.accruals) && AccrualsOwned(db)
  {
    Histories.PathsOfRun(ks, calls);
    if calls != [] {
      var n := |calls| - 1;
      RowsInRun(ks, calls[..n]);
      RowsAfterStep(ks, Engine.After(ks, calls[..n]), calls[n]);
    }
  }

  // ---- Runs in time order

  /** The clock does not run backwards, and no month is run before it starts. */
  ghost predicate Timely(calls: seq<Call>) {
    && (forall j, k :: 0 <= j < k < |calls| ==> calls[j].now <= calls[k].now)
    && (forall j :: 0 <= j < |calls| ==> NotEarly(calls[j]))
  }

  ghost predicate NotEarly(c: Call) {
    c.event.RunFees? ==> StartOfMonthUtc(c.event.date) <= c.now
  }

  ghost predicate HistoryUpTo(db: Db, now: int) {
    forall k :: 0 <= k < |db.history| ==> db.history[k].createdAt <= now
  }

  /** Every accrual row's month has begun, and its invoice is still selected for it. */
  ghost predicate AccrualsCurrent(db: Db, now: int) {
    forall j :: 0 <= j < |db.accruals| ==>
      MonthStart(db.accruals[j].periodMonth) <= now && IsOutstanding(db.history, db.accruals[j].invoiceId, db.accruals[j].periodMonth)
  }

  /** A fee invoice's amounts are those of the broker's accrual rows for the month. */
  ghost predicate FeeInvoicesOk(db: Db) {
    forall key :: key in db.feeInvoices ==>
      var fee := db.feeInvoices[key];
      && fee.calculatedFee == Sum(db.accruals, FeeOf(key.0, key.1))
      && fee.calculatedFee <= fee.totalFeeAmount
      && (fee.minimumFeeShortfallApplied <==> fee.calculatedFee < fee.totalFeeAmount)
  }

  ghost predicate FeesOk(db: Db, now: int) {
    && Histories.PathsOk(db) && OneRowEach(db.accruals) && AccrualsOwned(db)
    && HistoryUpTo(db, now) && AccrualsCurrent(db, now) && FeeInvoicesOk(db)
  }

  /** A later history row never ends an invoice's place in a month that has begun. */
  lemma OutstandingPersists(history: seq<StatusRow>, row: StatusRow, id: nat, start: int, end: int)
    requires OutstandingIn(history, id, start, end) && start <= row.createdAt
    ensures OutstandingIn(history + [row], id, start, end)
  {
    assert forall k :: 0 <= k < |history| ==> (history + [row])[k] == history[k];
    assert (history + [row])[..|history|] == history;
  }

  lemma SelectionGrows(ks: KeyScheme, db: Db, c: Call, id: nat, month: int)
    requires StartsWhereItSays(db, c.event)
    requires IsOutstanding(db.history, id, month) && MonthStart(month) <= c.now
    ensures IsOutstanding(Next(ks, db, c).history, id, month)
  {
    if Attempt(ks, db, c).Ok? {
      var db' := Next(ks, db, c);
      ShapeOfStep(ks, db, c);
      if db'.history != db.history {
        OutstandingPersists(db.history, db'.history[|db.history|], id, MonthStart(month), MonthStart(month + 1));
      }
    }
  }

  lemma HistoryUpToNext(ks: KeyScheme, db: Db, c: Call, now: int)
    requires StartsWhereItSays(db, c.event) && HistoryUpTo(db, now) && now <= c.now
    ensures HistoryUpTo(Next(ks, db, c), c.now)
  {
    if Attempt(ks, db, c).Ok? {
      ShapeOfStep(ks, db, c);
    }
  }

  lemma OwnedAfterStep(db: Db, db': Db)
    requires AccrualsOwned(db) && Settlement.KeepsInvoices(db, db') && db'.accruals == db.accruals
    requires db.feeInvoices.Keys <= db'.feeInvoices.Keys
    ensures AccrualsOwned(db')
  {
  }

  lemma FeesAfterOtherStep(ks: KeyScheme, db: Db, c: Call, now: int)
    requires FeesOk(db, now) && now <= c.now && StartsWhereItSays(db, c.event) && !c.event.RunFees? && Attempt(ks, db, c).Ok?
    ensures FeesOk(Next(ks, db, c), c.now)
  {
    var db' := Next(ks, db, c);
    Histories.PathsAfterStep(ks, db, c);
    HistoryUpToNext(ks, db, c, now);
    FrameOfStep(ks, db, c);
    Settlement.StepKeepsInvoices(ks, db, c);
    OwnedAfterStep(db, db');
    AccrualsStayCurrent(ks, db, c, now);
    FeeInvoicesAfterOther(ks, db, c);
  }

  lemma AccrualsStayCurrent(ks: KeyScheme, db: Db, c: Call, now: int)
    requires AccrualsCurrent(db, now) && now <= c.now && StartsWhereItSays(db, c.event)
    requires Attempt(ks, db, c).Ok? && Next(ks, db, c).accruals == db.accruals
    ensures AccrualsCurrent(Next(ks, db, c), c.now)
  {
    var db' := Next(ks, db, c);
    forall j | 0 <= j < |db'.accruals|
      ensures MonthStart(db'.accruals[j].periodMonth) <= c.now
      ensures IsOutstanding(db'.history, db'.accruals[j].invoiceId, db'.accruals[j].periodMonth)
    {
      SelectionGrows(ks, db, c, db.accruals[j].invoiceId, db.accruals[j].periodMonth);
    }
  }

  lemma FeeInvoicesAfterOther(ks: KeyScheme, db: Db, c: Call)
    requires FeeInvoicesOk(db) && !c.event.RunFees? && Attempt(ks, db, c).Ok?
    ensures FeeInvoicesOk(Next(ks, db, c))
  {
    FrameOfStep(ks, db, c);
    if c.event.MarkIssued? {
      IssueKeepsAmounts(db, c.event.brokerId, c.event.month);
    }
  }

  lemma IssueKeepsAmounts(db: Db, brokerId: nat, month: int)
    requires FeeInvoicesOk(db) && Fees.MarkIssued(db, brokerId, month).Ok?
    ensures FeeInvoicesOk(Fees.MarkIssued(db, brokerId, month).value)
  {
  }

  /** In time order no row of a run is left out of it. */
  lemma NothingDropped(db: Db, brokerId: nat, month: int, now: int)
    requires FeesOk(db, now)
    ensures Sum(db.accruals, FeeOutside(brokerId, month, SelectedIds(db, brokerId, month))) == 0
  {
    var ids := SelectedIds(db, brokerId, month);
    var selected := Outstanding(db, brokerId, month);
    SelectionIsExact(db, brokerId, month);
    forall j | 0 <= j < |db.accruals| && db.accruals[j].brokerId == brokerId && db.accruals[j].periodMonth == month
      ensures db.accruals[j].invoiceId in ids
    {
      var id := db.accruals[j].invoiceId;
      assert db.invoices[id] in selected;
      var k :| 0 <= k < |selected| && selected[k] == db.invoices[id];
      assert selected[k].id == id;
      IdsOfMembers(selected, id);
    }
    SumOfZeros(db.accruals, FeeOutside(brokerId, month, ids));
  }

  /** The tables after a run, as far as fees go. */
  ghost predicate RunAdds(db: Db, db': Db, brokerId: nat, month: int, ids: set<nat>) {
    && db'.invoices == db.invoices && db'.history == db.history
    && db.accruals <= db'.accruals
    && (forall j :: |db.accruals| <= j < |db'.accruals| ==> IsNewRow(db'.accruals[j], brokerId, month, ids))
    && (forall id :: id in ids ==> IsOutstanding(db.history, id, month))
    && (brokerId, month) in db'.feeInvoices
    && db'.feeInvoices == db.feeInvoices[(brokerId, month) := db'.feeInvoices[(brokerId, month)]]
  }

  lemma CurrentAfterRun(db: Db, db': Db, brokerId: nat, month: int, ids: set<nat>, now: int)
    requires RunAdds(db, db', brokerId, month, ids) && AccrualsCurrent(db, now) && MonthStart(month) <= now
    ensures AccrualsCurrent(db', now)
  {
    forall j | 0 <= j < |db'.accruals|
      ensures MonthStart(db'.accruals[j].periodMonth) <= now
      ensures IsOutstanding(db'.history, db'.accruals[j].invoiceId, db'.accruals[j].periodMonth)
    {
      if j < |db.accruals| {
        assert db'.accruals[j] == db.accruals[j];
      }
    }
  }

  lemma FeeInvoicesAfterRun(db: Db, db': Db, brokerId: nat, month: int, ids: set<nat>)
    requires RunAdds(db, db', brokerId, month, ids) && FeeInvoicesOk(db)
    requires var fee := db'.feeInvoices[(brokerId, month)];
             && fee.calculatedFee == Sum(db'.accruals, FeeOf(brokerId, month))
             && fee.calculatedFee <= fee.totalFeeAmount
             && (fee.minimumFeeShortfallApplied <==> fee.calculatedFee < fee.totalFeeAmount)
    ensures FeeInvoicesOk(db')
  {
    forall key | key in db'.feeInvoices && key != (brokerId, month)
      ensures key in db.feeInvoices && db'.feeInvoices[key] == db.feeInvoices[key]
      ensures Sum(db'.accruals, FeeOf(key.0, key.1)) == Sum(db.accruals, FeeOf(key.0, key.1))
    {
      OtherFeesUntouched(db.accruals, db'.accruals, FeeOf(key.0, key.1));
    }
  }

  lemma RunAddsRows(ks: KeyScheme, db: Db, brokerId: nat, month: int)
    requires Histories.PathsOk(db) && OneRowEach(db.accruals) && AccrualsOwned(db)
    requires RunMonth(ks, db, brokerId, month).Ok?
    ensures RunAdds(db, RunMonth(ks, db, brokerId, month).value, brokerId, month, SelectedIds(db, brokerId, month))
  {
    RowsOfRun(ks, db, brokerId, month);
    RunTouchesFeesOnly(ks, db, brokerId, month);
  }

  lemma FeesAfterRun(ks: KeyScheme, db: Db, brokerId: nat, month: int, now: int)
    requires FeesOk(db, now) && MonthStart(month) <= now && RunMonth(ks, db, brokerId, month).Ok?
    ensures FeesOk(RunMonth(ks, db, brokerId, month).value, now)
  {
    var db' := RunMonth(ks, db, brokerId, month).value;
    var ids := SelectedIds(db, brokerId, month);
    RunAddsRows(ks, db, brokerId, month);
    RowsOfRun(ks, db, brokerId, month);
    SamePathsOk(db, db');
    CurrentAfterRun(db, db', brokerId, month, ids, now);
    CalculatedFeeOfRun(ks, db, brokerId, month);
    NothingDropped(db, brokerId, month, now);
    FeeInvoicesAfterRun(db, db', brokerId, month, ids);
  }

  lemma RunTouchesFeesOnly(ks: KeyScheme, db: Db, brokerId: nat, month: int)
    requires RunMonth(ks, db, brokerId, month).Ok?
    ensures var db' := RunMonth(ks, db, brokerId, month).value;
            && db'.invoices == db.invoices && db'.history == db.history
            && db'.feeInvoices == db.feeInvoices[(brokerId, month) := db'.feeInvoices[(brokerId, month)]]
  {
  }

  lemma SamePathsOk(a: Db, b: Db)
    requires a.invoices == b.invoices && a.history == b.history && Histories.PathsOk(a)
    ensures Histories.PathsOk(b)
  {
    forall i: nat ensures IsPath(HistoryOf(b.history, i), StatusOf(b, i)) {
      assert IsPath(HistoryOf(a.history, i), StatusOf(a, i));
    }
  }

  lemma FeesLater(db: Db, now: int, later: int)
    requires FeesOk(db, now) && now <= later
    ensures FeesOk(db, later)
  {
  }

  lemma FeesAfterRunStep(ks: KeyScheme, db: Db, c: Call)
    requires FeesOk(db, c.now) && NotEarly(c) && c.event.RunFees? && Attempt(ks, db, c).Ok?
    ensures FeesOk(Attempt(ks, db, c).value, c.now)
  {
    RunStep(ks, db, c);
    FeesAfterRun(ks, db, c.event.brokerId, PeriodMonth(c.event.date), c.now);
  }

  lemma FeesAfterStep(ks: KeyScheme, db: Db, c: Call, now: int)
    requires FeesOk(db, now) && now <= c.now && StartsWhereItSays(db, c.event) && NotEarly(c)
    ensures FeesOk(Next(ks, db, c), c.now)
  {
    FeesLater(db, now, c.now);
    if Attempt(ks, db, c).Ok? {
      if c.event.RunFees? {
        FeesAfterRunStep(ks, db, c);
      } else {
        FeesAfterOtherStep(ks, db, c, now);
      }
    }
  }

  lemma {:induction false} FeesOfRun(ks: KeyScheme, calls: seq<Call>, now: int)
    requires Orderly(ks, calls) && Timely(calls)
    requires forall j :: 0 <= j < |calls| ==> calls[j].now <= now
    ensures FeesOk(Engine.After(ks, calls), now)
  {
    if calls != [] {
      var n := |calls| - 1;
      FeesOfRun(ks, calls[..n], calls[n].now);
      FeesAfterStep(ks, Engine.After(ks, calls[..n]), calls[n], calls[n].now);
      FeesLater(Engine.After(ks, calls), calls[n].now, now);
    }
  }

  /** In every state reached in time order, a month's fee invoice carries the sum of all accrual rows of its broker and
      month, and a run that has just been made sets the total to the larger of that sum and the minimum fee. */
  lemma FeeInvoicesMatchAccruals(ks: KeyScheme, calls: seq<Call>, brokerId: nat, month: int)
    requires Orderly(ks, calls) && Timely(calls)
    ensures var db := Engine.After(ks, calls);
            && ((brokerId, month) in db.feeInvoices ==>
                  db.feeInvoices[(brokerId, month)].calculatedFee == Sum(db.accruals, FeeOf(brokerId, month)))
            && (RunMonth(ks, db, brokerId, month).Ok? ==>
                  var db' := RunMonth(ks, db, brokerId, month).value;
                  var fee := db'.feeInvoices[(brokerId, month)];
                  && fee.calculatedFee == Sum(db'.accruals, FeeOf(brokerId, month))
                  && fee.totalFeeAmount == Max(fee.calculatedFee, CurrentMinimumFee(db.feeConfigs)))
  {
    var db := Engine.After(ks, calls);
    var now := if calls == [] then 0 else calls[|calls| - 1].now;
    FeesOfRun(ks, calls, now);
    if RunMonth(ks, db, brokerId, month).Ok? {
      CalculatedFeeOfRun(ks, db, brokerId, month);
      NothingDropped(db, brokerId, month, now);
    }
  }

  // ---- What later calls leave as it was

  /** Rows once written stay, selected invoices stay selected, and an issued fee invoice stays as issued. */
  ghost predicate Preserves(db: Db, db': Db, now: int) {
    && db.accruals <= db'.accruals
    && |db.invoices| <= |db'.invoices|
    && (forall id: nat, month :: IsOutstanding(db.history, id, month) && MonthStart(month) <= now ==> IsOutstanding(db'.history, id, month))
    && (forall key :: key in db.feeInvoices && db.feeInvoices[key].status == FeeIssued ==>
          key in db'.feeInvoices && db'.feeInvoices[key] == db.feeInvoices[key])
  }

  lemma StepPreserves(ks: KeyScheme, db: Db, c: Call, now: int)
    requires FeesOk(db, now) && now <= c.now && StartsWhereItSays(db, c.event)
    ensures Preserves(db, Next(ks, db, c), c.now)
  {
    forall id: nat, month | IsOutstanding(db.history, id, month) && MonthStart(month) <= c.now
      ensures IsOutstanding(Next(ks, db, c).history, id, month)
    {
      SelectionGrows(ks, db, c, id, month);
    }
    if Attempt(ks, db, c).Ok? {
      Settlement.StepKeepsInvoices(ks, db, c);
      RowsStay(ks, db, c);
    }
  }

  lemma RowsStay(ks: KeyScheme, db: Db, c: Call)
    requires OneRowEach(db.accruals) && AccrualsOwned(db) && Histories.PathsOk(db) && Attempt(ks, db, c).Ok?
    ensures var db' := Attempt(ks, db, c).value;
            && db.accruals <= db'.accruals
            && forall key :: key in db.feeInvoices && db.feeInvoices[key].status == FeeIssued ==>
                 key in db'.feeInvoices && db'.feeInvoices[key] == db.feeInvoices[key]
  {
    FrameOfStep(ks, db, c);
    if c.event.RunFees? {
      RowsOfRun(ks, db, c.event.brokerId, PeriodMonth(c.event.date));
      RunTouchesFeesOnly(ks, db, c.event.brokerId, PeriodMonth(c.event.date));
    }
  }

  lemma PreservesLater(db: Db, db1: Db, db2: Db, now: int, later: int)
    requires Preserves(db, db1, now) && Preserves(db1, db2, later) && now <= later
    ensures Preserves(db, db2, now)
  {
  }

  /** The calls without the last one are in time order again, and none is later than the last. */
  lemma TimelyBeforeLast(calls: seq<Call>)
    requires calls != [] && Timely(calls)
    ensures Timely(calls[..|calls| - 1])
    ensures forall c :: c in calls[..|calls| - 1] ==> c.now <= calls[|calls| - 1].now
  {
  }

  /** Over any further calls made in time order, tier and minimum fee changes included: no accrual row changes, the
      selection of a month that has begun only grows, and fee invoices that left DRAFT are not touched. */
  lemma {:induction false} RerunSafety(ks: KeyScheme, calls: seq<Call>, more: seq<Call>, now: int)
    requires Orderly(ks, calls + more) && Timely(calls + more)
    requires forall j :: 0 <= j < |calls| ==> calls[j].now <= now
    requires forall j :: 0 <= j < |more| ==> now <= more[j].now
    ensures Preserves(Engine.After(ks, calls), Engine.After(ks, calls + more), now)
    decreases |more|
  {
    if more == [] {
      assert calls + more == calls;
    } else {
      var all, n := calls + more, |calls| + |more| - 1;
      var before, last := all[..n], all[n];
      assert before == calls + more[..|more| - 1];
      TimelyBeforeLast(all);
      RerunSafety(ks, calls, more[..|more| - 1], now);
      FeesOfRun(ks, before, last.now);
      var db := Engine.After(ks, before);
      StepPreserves(ks, db, last, last.now);
      PreservesLater(Engine.After(ks, calls), db, Next(ks, db, last), now, last.now);
    }
  }
}
