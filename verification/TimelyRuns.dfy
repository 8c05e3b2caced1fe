/** Fee runs made month after month while invoices live: how many rows an invoice ends up with. */
module TimelyRuns {
  import opened Wrappers
  import opened Sums
  import opened StateMachine
  import opened Keys
  import opened Period
  import opened Schema
  import opened Engine
  import opened LedgerWrites
  import opened Fees
  import opened FeeRuns
  import opened Reruns
  import opened MonthlyRuns
  import Histories
  import Settlement

  /** The call runs the broker's fees for the month, after the month has ended, and does not throw. */
  ghost predicate RunsAfterEnd(ks: KeyScheme, db: Db, c: Call, brokerId: nat, month: int) {
    && c.event.RunFees? && c.event.brokerId == brokerId && PeriodMonth(c.event.date) == month
    && MonthStart(month + 1) <= c.now
    && Attempt(ks, db, c).Ok?
  }

  /** One of the calls was such a run. */
  ghost predicate RanAfterEnd(ks: KeyScheme, calls: seq<Call>, brokerId: nat, month: int) {
    calls != [] &&
    var n := |calls| - 1;
    RanAfterEnd(ks, calls[..n], brokerId, month) || RunsAfterEnd(ks, Engine.After(ks, calls[..n]), calls[n], brokerId, month)
  }

  lemma {:induction false} EndsBeforeLast(ks: KeyScheme, calls: seq<Call>, brokerId: nat, month: int)
    requires Timely(calls) && RanAfterEnd(ks, calls, brokerId, month)
    ensures MonthStart(month + 1) <= calls[|calls| - 1].now
  {
    var n := |calls| - 1;
    if RanAfterEnd(ks, calls[..n], brokerId, month) {
      TimelyBeforeLast(calls);
      EndsBeforeLast(ks, calls[..n], brokerId, month);
      assert calls[..n][n - 1] in calls[..n];
    }
  }

  lemma {:induction false} UnresolvedWhileFunded(history: seq<StatusRow>, id: nat)
    ensures ResolvedAt(history, id).None? <==> forall k :: 0 <= k < |history| ==> !(history[k].invoiceId == id && IsResolved(history[k].to))
  {
    if history != [] {
      var n := |history| - 1;
      UnresolvedWhileFunded(history[..n], id);
      assert forall k :: 0 <= k < n ==> history[..n][k] == history[k];
    }
  }

  /** An invoice that has not got past FUNDED has no resolution. */
  lemma FundedIsOpen(db: Db, id: nat)
    requires Histories.PathsOk(db) && !IsResolved(StatusOf(db, id))
    ensures ResolvedAt(db.history, id).None?
  {
    var rows := HistoryOf(db.history, id);
    assert IsPath(rows, StatusOf(db, id));
    EntersMoneyStatusesOnce(rows, StatusOf(db, id));
    if !ResolvedAt(db.history, id).None? {
      UnresolvedWhileFunded(db.history, id);
      var k :| 0 <= k < |db.history| && db.history[k].invoiceId == id && IsResolved(db.history[k].to);
      VisitsInHistory(db.history, id, db.history[k].to);
      SumAtLeastTerm(db.history, k, EntersFor(id, db.history[k].to));
    }
  }

  // ---- Resolutions

  /** When the invoice was first settled, charged back or written off. */
  function EarliestResolution(history: seq<StatusRow>, id: nat): Option<int> {
    if history == [] then None
    else
      var n := |history| - 1;
      var earlier := EarliestResolution(history[..n], id);
      if history[n].invoiceId != id || !IsResolved(history[n].to) then earlier
      else if earlier.Some? && earlier.value <= history[n].createdAt then earlier
      else Some(history[n].createdAt)
  }

  predicate IsResolutionOf(row: StatusRow, id: nat) {
    row.invoiceId == id && IsResolved(row.to)
  }

  /** Both are times of resolutions, and the earliest one is not after the last one. */
  lemma {:induction false} EarliestAndLast(history: seq<StatusRow>, id: nat) returns (e: nat, l: nat)
    ensures var earliest, last := EarliestResolution(history, id), ResolvedAt(history, id);
            && (earliest.None? <==> last.None?)
            && (last.Some? ==>
                  && earliest.value <= last.value
                  && e < |history| && IsResolutionOf(history[e], id) && history[e].createdAt == earliest.value
                  && l < |history| && IsResolutionOf(history[l], id) && history[l].createdAt == last.value)
  {
    e, l := 0, 0;
    if history != [] {
      var n := |history| - 1;
      e, l := EarliestAndLast(history[..n], id);
      if IsResolutionOf(history[n], id) {
        l := n;
        if EarliestResolution(history[..n], id) != EarliestResolution(history, id) {
          e := n;
        }
      }
    }
  }

  function ResolvesFor(id: nat): StatusRow -> int {
    (row: StatusRow) => if IsResolutionOf(row, id) then 1 else 0
  }

  lemma {:induction false} ResolutionsByStatus(history: seq<StatusRow>, id: nat)
    ensures Sum(history, ResolvesFor(id))
         == Sum(history, EntersFor(id, Settled)) + Sum(history, EntersFor(id, ChargedBack)) + Sum(history, EntersFor(id, WrittenOff))
  {
    if history != [] {
      ResolutionsByStatus(history[..|history| - 1], id);
    }
  }

  /** An invoice is resolved once, unless it is written off after its chargeback. */
  lemma ResolvedOnce(db: Db, id: nat)
    requires Histories.PathsOk(db) && StatusOf(db, id) != WrittenOff
    ensures EarliestResolution(db.history, id) == ResolvedAt(db.history, id)
  {
    var rows := HistoryOf(db.history, id);
    assert IsPath(rows, StatusOf(db, id));
    EntersMoneyStatusesOnce(rows, StatusOf(db, id));
    VisitsInHistory(db.history, id, Settled);
    VisitsInHistory(db.history, id, ChargedBack);
    VisitsInHistory(db.history, id, WrittenOff);
    ResolutionsByStatus(db.history, id);
    var e, l := EarliestAndLast(db.history, id);
    if EarliestResolution(db.history, id) != ResolvedAt(db.history, id) {
      TwoTerms(db.history, if e < l then e else l, if e < l then l else e, ResolvesFor(id));
    }
  }

  // ---- The rows the runs make

  /** Approved before the month ended, and not resolved even once before it started. */
  ghost predicate OpenThrough(history: seq<StatusRow>, id: nat, month: int) {
    && ApprovedBefore(history, id, MonthStart(month + 1))
    && var earliest := EarliestResolution(history, id);
    earliest.None? || MonthStart(month) <= earliest.value
  }

  lemma OpenIsOutstanding(history: seq<StatusRow>, id: nat, month: int)
    requires OpenThrough(history, id, month)
    ensures IsOutstanding(history, id, month)
  {
    var _, _ := EarliestAndLast(history, id);
  }

  lemma ApprovedBackThen(history: seq<StatusRow>, row: StatusRow, id: nat, end: int)
    requires end <= row.createdAt && ApprovedBefore(history + [row], id, end)
    ensures ApprovedBefore(history, id, end)
  {
    var later := history + [row];
    var k :| 0 <= k < |later| && IsApprovalOf(later[k], id) && later[k].createdAt < end;
    assert k < |history| && later[k] == history[k];
  }

  /** A history row written after a month's end does not open an invoice in the month. */
  lemma OpenBackThen(history: seq<StatusRow>, row: StatusRow, id: nat, month: int)
    requires MonthStart(month + 1) <= row.createdAt && OpenThrough(history + [row], id, month)
    ensures OpenThrough(history, id, month)
  {
    ApprovedBackThen(history, row, id, MonthStart(month + 1));
    assert (history + [row])[..|history|] == history;
  }

  lemma OpenBeforeStep(ks: KeyScheme, db: Db, c: Call, id: nat, month: int)
    requires StartsWhereItSays(db, c.event) && Attempt(ks, db, c).Ok? && MonthStart(month + 1) <= c.now
    requires OpenThrough(Attempt(ks, db, c).value.history, id, month)
    ensures OpenThrough(db.history, id, month)
  {
    var db' := Attempt(ks, db, c).value;
    ShapeOfStep(ks, db, c);
    if db'.history != db.history {
      OpenBackThen(db.history, db'.history[|db.history|], id, month);
    }
  }

  /** An invoice open through a month has a row for it once the month was run after its end. */
  ghost predicate RowsMade(ks: KeyScheme, calls: seq<Call>, id: nat) {
    var db := Engine.After(ks, calls);
    id < |db.invoices| ==>
      forall m :: RanAfterEnd(ks, calls, db.invoices[id].brokerId, m) && OpenThrough(db.history, id, m) ==> HasRow(db.accruals, id, m)
  }

  lemma RowMadeByRun(ks: KeyScheme, db: Db, c: Call, id: nat, month: int)
    requires Histories.PathsOk(db) && Attempt(ks, db, c).Ok? && c.event.RunFees? && PeriodMonth(c.event.date) == month
    requires id < |db.invoices| && db.invoices[id].brokerId == c.event.brokerId
    requires OpenThrough(Attempt(ks, db, c).value.history, id, month)
    ensures HasRow(Attempt(ks, db, c).value.accruals, id, month)
  {
    RunStep(ks, db, c);
    RunTouchesFeesOnly(ks, db, c.event.brokerId, month);
    OpenIsOutstanding(db.history, id, month);
    SelectionIsExact(db, c.event.brokerId, month);
    SelectedIsCharged(db, id, month);
    RowsAfterRun(ks, db, c.event.brokerId, month, id, month);
  }

  lemma RowKept(ks: KeyScheme, db: Db, c: Call, id: nat, month: int)
    requires OneRowEach(db.accruals) && AccrualsOwned(db) && Histories.PathsOk(db) && Attempt(ks, db, c).Ok?
    requires HasRow(db.accruals, id, month)
    ensures HasRow(Attempt(ks, db, c).value.accruals, id, month)
  {
    RowsStay(ks, db, c);
    var j :| 0 <= j < |db.accruals| && db.accruals[j].invoiceId == id && db.accruals[j].periodMonth == month;
    assert Attempt(ks, db, c).value.accruals[j] == db.accruals[j];
  }

  /** An invoice that is not in the table is not approved. */
  lemma NotYetApproved(db: Db, id: nat, end: int)
    requires Histories.PathsOk(db) && |db.invoices| <= id
    ensures !ApprovedBefore(db.history, id, end)
  {
  }

  /** The row of a month that an earlier call ran, after one more call. */
  lemma RowMadeEarlier(ks: KeyScheme, db: Db, c: Call, id: nat, month: int)
    requires Histories.PathsOk(db) && OneRowEach(db.accruals) && AccrualsOwned(db)
    requires StartsWhereItSays(db, c.event) && Attempt(ks, db, c).Ok? && MonthStart(month + 1) <= c.now
    requires OpenThrough(Attempt(ks, db, c).value.history, id, month)
    requires id < |db.invoices| && OpenThrough(db.history, id, month) ==> HasRow(db.accruals, id, month)
    ensures HasRow(Attempt(ks, db, c).value.accruals, id, month)
  {
    OpenBeforeStep(ks, db, c, id, month);
    if id >= |db.invoices| {
      NotYetApproved(db, id, MonthStart(month + 1));
    }
    RowKept(ks, db, c, id, month);
  }

  /** The row of a month that the last call or an earlier one ran. */
  lemma RowAfterLastCall(ks: KeyScheme, db: Db, c: Call, id: nat, month: int, ranBefore: bool)
    requires Histories.PathsOk(db) && OneRowEach(db.accruals) && AccrualsOwned(db) && StartsWhereItSays(db, c.event)
    requires MonthStart(month + 1) <= c.now && id < |Next(ks, db, c).invoices|
    requires ranBefore || RunsAfterEnd(ks, db, c, Next(ks, db, c).invoices[id].brokerId, month)
    requires OpenThrough(Next(ks, db, c).history, id, month)
    requires ranBefore && id < |db.invoices| && OpenThrough(db.history, id, month) ==> HasRow(db.accruals, id, month)
    ensures HasRow(Next(ks, db, c).accruals, id, month)
  {
    if Attempt(ks, db, c).Ok? {
      if ranBefore {
        RowMadeEarlier(ks, db, c, id, month);
      } else {
        RunStep(ks, db, c);
        RunTouchesFeesOnly(ks, db, c.event.brokerId, month);
        RowMadeByRun(ks, db, c, id, month);
      }
    }
  }

  lemma SameBroker(ks: KeyScheme, db: Db, c: Call, id: nat)
    requires StartsWhereItSays(db, c.event) && id < |db.invoices|
    ensures id < |Next(ks, db, c).invoices| && Next(ks, db, c).invoices[id].brokerId == db.invoices[id].brokerId
  {
    if Attempt(ks, db, c).Ok? {
      Settlement.StepKeepsInvoices(ks, db, c);
    }
  }

  lemma {:induction false} RowsMadeInRun(ks: KeyScheme, calls: seq<Call>, id: nat)
    requires Orderly(ks, calls) && Timely(calls)
    ensures RowsMade(ks, calls, id)
  {
    var db := Engine.After(ks, calls);
    if calls == [] {
      assert |db.invoices| == 0;
    } else if id < |db.invoices| {
      var n, brokerId := |calls| - 1, db.invoices[id].brokerId;
      var before := Engine.After(ks, calls[..n]);
      RowsMadeInRun(ks, calls[..n], id);
      RowsInRun(ks, calls[..n]);
      if id < |before.invoices| {
        SameBroker(ks, before, calls[n], id);
      }
      forall m | RanAfterEnd(ks, calls, brokerId, m) && OpenThrough(db.history, id, m) ensures HasRow(db.accruals, id, m) {
        EndsBeforeLast(ks, calls, brokerId, m);
        RowAfterLastCall(ks, before, calls[n], id, m, RanAfterEnd(ks, calls[..n], brokerId, m));
      }
    }
  }

  // ---- Counting them

  lemma {:induction false} SpanAtLeast(accruals: seq<Accrual>, id: nat, lo: int, hi: int, first: int, last: int)
    requires OneRowEach(accruals) && lo <= hi
    requires forall m :: lo <= m < hi && first <= m <= last ==> HasRow(accruals, id, m)
    ensures Overlap(lo, hi, first, last) <= Sum(accruals, InSpan(id, lo, hi))
    decreases hi - lo
  {
    if lo == hi {
      SumOfZeros(accruals, InSpan(id, lo, hi));
    } else {
      SpanAtLeast(accruals, id, lo, hi - 1, first, last);
      OneInMonth(accruals, id, hi - 1);
      SpanSplits(accruals, id, lo, hi - 1, hi);
    }
  }

  lemma {:induction false} SpanAtMost(accruals: seq<Accrual>, id: nat, lo: int, hi: int, first: int, last: int)
    requires OneRowEach(accruals) && lo <= hi
    requires forall m :: lo <= m < hi && HasRow(accruals, id, m) ==> first <= m <= last
    ensures Sum(accruals, InSpan(id, lo, hi)) <= Overlap(lo, hi, first, last)
    decreases hi - lo
  {
    if lo == hi {
      SumOfZeros(accruals, InSpan(id, lo, hi));
    } else {
      SpanAtMost(accruals, id, lo, hi - 1, first, last);
      OneInMonth(accruals, id, hi - 1);
      SpanSplits(accruals, id, lo, hi - 1, hi);
    }
  }

  /** The invoice of an approval row has been resolved, and its broker's months from lo up to hi were all run after their
      end. */
  ghost predicate SpanWasRun(ks: KeyScheme, calls: seq<Call>, approval: nat, lo: int, hi: int) {
    var db := Engine.After(ks, calls);
    && approval < |db.history| && db.history[approval].to == ApprovedForFunding
    && var id := db.history[approval].invoiceId;
    && IsResolved(StatusOf(db, id)) && lo <= hi
    && id < |db.invoices| && forall m :: lo <= m < hi ==> RanAfterEnd(ks, calls, db.invoices[id].brokerId, m)
  }

  lemma ResolvedHasTime(db: Db, id: nat)
    requires Histories.PathsOk(db) && IsResolved(StatusOf(db, id))
    ensures ResolvedAt(db.history, id).Some? && EarliestResolution(db.history, id).Some?
  {
    var s := StatusOf(db, id);
    var rows := HistoryOf(db.history, id);
    assert IsPath(rows, s);
    EntersMoneyStatusesOnce(rows, s);
    VisitsInHistory(db.history, id, s);
    UnresolvedWhileFunded(db.history, id);
    var _, _ := EarliestAndLast(db.history, id);
    if ResolvedAt(db.history, id).None? {
      SumOfZeros(db.history, EntersFor(id, s));
    }
  }

  lemma OpenFromApproval(db: Db, approval: nat, month: int)
    requires approval < |db.history| && db.history[approval].to == ApprovedForFunding
    requires var id := db.history[approval].invoiceId;
             && EarliestResolution(db.history, id).Some?
             && MonthOf(db.history[approval].createdAt) <= month <= MonthOf(EarliestResolution(db.history, id).value)
    ensures OpenThrough(db.history, db.history[approval].invoiceId, month)
  {
    var row := db.history[approval];
    MonthOfBefore(row.createdAt, month + 1);
    MonthOfBefore(EarliestResolution(db.history, row.invoiceId).value, month);
    assert IsApprovalOf(row, row.invoiceId);
  }

  lemma RowIsCharged(db: Db, id: nat, month: int, now: int)
    requires FeesOk(db, now) && id < |db.invoices| && HasRow(db.accruals, id, month)
    ensures Charged(db, id, month)
  {
    SelectionIsExact(db, db.invoices[id].brokerId, month);
    var j :| 0 <= j < |db.accruals| && db.accruals[j].invoiceId == id && db.accruals[j].periodMonth == month;
    assert IsOutstanding(db.history, db.accruals[j].invoiceId, db.accruals[j].periodMonth);
  }

  function LatestNow(calls: seq<Call>): int {
    if calls == [] then 0 else calls[|calls| - 1].now
  }

  /** In a run in time order in which each month of a span is run after its end, as often as one likes and between
      whatever other calls, a resolved invoice has a row for each month of the span from its approval to its earliest
      resolution, and none outside its approval and its last one. The two differ for written-off invoices only. */
  lemma RowsOfResolved(ks: KeyScheme, calls: seq<Call>, approval: nat, lo: int, hi: int)
    requires Orderly(ks, calls) && Timely(calls) && SpanWasRun(ks, calls, approval, lo, hi)
    ensures var db := Engine.After(ks, calls);
            var id := db.history[approval].invoiceId;
            var earliest, last := EarliestResolution(db.history, id), ResolvedAt(db.history, id);
            && earliest.Some? && last.Some? && earliest.value <= last.value
            && (StatusOf(db, id) != WrittenOff ==> earliest == last)
            && var first, rows := MonthOf(db.history[approval].createdAt), Sum(db.accruals, InSpan(id, lo, hi));
               Overlap(lo, hi, first, MonthOf(earliest.value)) <= rows <= Overlap(lo, hi, first, MonthOf(last.value))
  {
    var db := Engine.After(ks, calls);
    var id := db.history[approval].invoiceId;
    RowsInRun(ks, calls);
    RowsMadeInRun(ks, calls, id);
    FeesOfRun(ks, calls, LatestNow(calls));
    ResolvedHasTime(db, id);
    var _, _ := EarliestAndLast(db.history, id);
    if StatusOf(db, id) != WrittenOff {
      ResolvedOnce(db, id);
    }
    var first, earliest := MonthOf(db.history[approval].createdAt), MonthOf(EarliestResolution(db.history, id).value);
    forall m | lo <= m < hi && first <= m <= earliest ensures HasRow(db.accruals, id, m) {
      OpenFromApproval(db, approval, m);
    }
    SpanAtLeast(db.accruals, id, lo, hi, first, earliest);
    RowsWithinCharge(db, approval, lo, hi, LatestNow(calls));
  }

  lemma RowsWithinCharge(db: Db, approval: nat, lo: int, hi: int, now: int)
    requires FeesOk(db, now) && lo <= hi && approval < |db.history| && db.history[approval].to == ApprovedForFunding
    requires ResolvedAt(db.history, db.history[approval].invoiceId).Some?
    ensures var id := db.history[approval].invoiceId;
            var first, last := MonthOf(db.history[approval].createdAt), MonthOf(ResolvedAt(db.history, id).value);
            Sum(db.accruals, InSpan(id, lo, hi)) <= Overlap(lo, hi, first, last)
  {
    var id := db.history[approval].invoiceId;
    var first, last := MonthOf(db.history[approval].createdAt), MonthOf(ResolvedAt(db.history, id).value);
    forall m | lo <= m < hi && HasRow(db.accruals, id, m) ensures first <= m <= last {
      MonthCoverage(db, approval, m);
      RowIsCharged(db, id, m, now);
    }
    SpanAtMost(db.accruals, id, lo, hi, first, last);
  }

  /** So an invoice that is settled or charged back has exactly one row for each month of the span from its approval to
      its resolution. */
  lemma OneRowPerMonth(ks: KeyScheme, calls: seq<Call>, approval: nat, lo: int, hi: int)
    requires Orderly(ks, calls) && Timely(calls) && SpanWasRun(ks, calls, approval, lo, hi)
    requires var db := Engine.After(ks, calls); StatusOf(db, db.history[approval].invoiceId) != WrittenOff
    ensures var db := Engine.After(ks, calls);
            var id := db.history[approval].invoiceId;
            && ResolvedAt(db.history, id).Some?
            && var first, last := MonthOf(db.history[approval].createdAt), MonthOf(ResolvedAt(db.history, id).value);
            && Sum(db.accruals, InSpan(id, lo, hi)) == Overlap(lo, hi, first, last)
            && (lo <= first <= last < hi ==> Sum(db.accruals, InSpan(id, lo, hi)) == last - first + 1)
  {
    RowsOfResolved(ks, calls, approval, lo, hi);
  }
}
