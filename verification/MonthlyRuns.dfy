/** Running a broker's fees month by month: how many rows an invoice gets. */
module MonthlyRuns {
  import opened Wrappers
  import opened Sums
  import opened StateMachine
  import opened Ledger
  import opened FeeCalculator
  import opened Keys
  import opened Period
  import opened Schema
  import opened Fees
  import opened FeeRuns
  import opened Reruns
  import opened AllBrokers
  import Histories

  // ---- The rows of one run

  lemma RowsAfterTurn(ks: KeyScheme, s: Accruing, inv: Invoice, brokerId: nat, month: int, tier: Option<FeeTier>, id: nat, m: int)
    ensures HasRow(AccrueOne(ks, s, inv, brokerId, month, tier).accruals, id, m) <==>
            HasRow(s.accruals, id, m) || (id == inv.id && m == month)
  {
    var found := FindFirst(s.accruals, AccrualFor(inv.id, month));
    if found.Some? {
      assert HasRow(s.accruals, inv.id, month);
    } else {
      RowAppended(s.accruals, NewAccrual(inv, brokerId, month, tier), id, m);
    }
  }

  lemma {:induction false} RowsAfterLoop(ks: KeyScheme, s: Accruing, selected: seq<Invoice>, brokerId: nat, month: int,
                                         tier: Option<FeeTier>, id: nat, m: int)
    ensures HasRow(AccrueAll(ks, s, selected, brokerId, month, tier).accruals, id, m) <==>
            HasRow(s.accruals, id, m) || (m == month && id in IdsOf(selected))
  {
    if selected != [] {
      var n := |selected| - 1;
      RowsAfterLoop(ks, s, selected[..n], brokerId, month, tier, id, m);
      RowsAfterTurn(ks, AccrueAll(ks, s, selected[..n], brokerId, month, tier), selected[n], brokerId, month, tier, id, m);
    }
  }

  /** A run gives a row to exactly the invoices it selects that have none yet. */
  lemma RowsAfterRun(ks: KeyScheme, db: Db, brokerId: nat, month: int, id: nat, m: int)
    requires RunMonth(ks, db, brokerId, month).Ok?
    ensures HasRow(RunMonth(ks, db, brokerId, month).value.accruals, id, m) <==>
            HasRow(db.accruals, id, m) || (m == month && id in SelectedIds(db, brokerId, month))
  {
    var selected := Outstanding(db, brokerId, month);
    RowsAfterLoop(ks, Accruing(db.accruals, db.ledger, 0), selected, brokerId, month, TierFor(db, selected), id, m);
  }

  lemma SelectedIsCharged(db: Db, id: nat, month: int)
    requires Histories.PathsOk(db) && id < |db.invoices|
    ensures id in SelectedIds(db, db.invoices[id].brokerId, month) <==> Charged(db, id, month)
  {
    var selected := Outstanding(db, db.invoices[id].brokerId, month);
    SelectionIsExact(db, db.invoices[id].brokerId, month);
    IdsOfMembers(selected, id);
    if db.invoices[id] in selected {
      var k :| 0 <= k < |selected| && selected[k] == db.invoices[id];
      assert selected[k].id == id;
    }
  }

  // ---- Month after month

  /** The broker's runs for the months from lo up to hi. */
  function RunMonths(ks: KeyScheme, db: Db, brokerId: nat, lo: int, hi: int): Db
    decreases hi - lo
  {
    if hi <= lo then db
    else
      var before := RunMonths(ks, db, brokerId, lo, hi - 1);
      match RunMonth(ks, before, brokerId, hi - 1)
      case Ok(db') => db'
      case Err(_) => before
  }

  ghost predicate NoneFinal(db: Db, brokerId: nat, lo: int, hi: int) {
    forall m :: lo <= m < hi ==> !IsFinal(db, brokerId, m)
  }

  /** Fee tables apart, nothing has changed, and no fee invoice has left DRAFT or returned to it. */
  ghost predicate FeesOnly(db: Db, db': Db) {
    && db'.invoices == db.invoices && db'.history == db.history
    && (forall b: nat, m :: IsFinal(db', b, m) <==> IsFinal(db, b, m))
  }

  lemma RunKeepsRest(ks: KeyScheme, db: Db, brokerId: nat, month: int)
    requires !IsFinal(db, brokerId, month)
    ensures RunMonth(ks, db, brokerId, month).Ok? && FeesOnly(db, RunMonth(ks, db, brokerId, month).value)
  {
  }

  /** After the runs an invoice of the broker has a row for a month if it had one, or the month is in the span and
      charges it. */
  lemma {:induction false} RowsAfterMonths(ks: KeyScheme, db: Db, lo: int, hi: int, id: nat)
    requires Histories.PathsOk(db) && OneRowEach(db.accruals) && AccrualsOwned(db) && id < |db.invoices|
    requires NoneFinal(db, db.invoices[id].brokerId, lo, hi)
    ensures var db' := RunMonths(ks, db, db.invoices[id].brokerId, lo, hi);
            && FeesOnly(db, db') && Histories.PathsOk(db') && OneRowEach(db'.accruals) && AccrualsOwned(db')
            && forall m :: HasRow(db'.accruals, id, m) <==> HasRow(db.accruals, id, m) || (lo <= m < hi && Charged(db, id, m))
    decreases hi - lo
  {
    if lo < hi {
      var brokerId := db.invoices[id].brokerId;
      var before := RunMonths(ks, db, brokerId, lo, hi - 1);
      RowsAfterMonths(ks, db, lo, hi - 1, id);
      assert !IsFinal(db, brokerId, hi - 1);
      RunKeepsRest(ks, before, brokerId, hi - 1);
      RowsOfRun(ks, before, brokerId, hi - 1);
      SamePathsOk(before, RunMonth(ks, before, brokerId, hi - 1).value);
      SelectedIsCharged(before, id, hi - 1);
      forall m ensures HasRow(RunMonth(ks, before, brokerId, hi - 1).value.accruals, id, m) <==>
                       HasRow(before.accruals, id, m) || (m == hi - 1 && Charged(db, id, m)) {
        RowsAfterRun(ks, before, brokerId, hi - 1, id, m);
      }
    }
  }

  // ---- Counting rows

  /** A row of the invoice for a month from lo up to hi. */
  function InSpan(id: nat, lo: int, hi: int): Accrual -> int {
    (a: Accrual) => if a.invoiceId == id && lo <= a.periodMonth < hi then 1 else 0
  }

  lemma {:induction false} SpanSplits(accruals: seq<Accrual>, id: nat, lo: int, mid: int, hi: int)
    requires lo <= mid <= hi
    ensures Sum(accruals, InSpan(id, lo, hi)) == Sum(accruals, InSpan(id, lo, mid)) + Sum(accruals, InSpan(id, mid, hi))
  {
    if accruals != [] {
      SpanSplits(accruals[..|accruals| - 1], id, lo, mid, hi);
    }
  }

  lemma {:induction false} OneInMonth(accruals: seq<Accrual>, id: nat, m: int)
    requires OneRowEach(accruals)
    ensures Sum(accruals, InSpan(id, m, m + 1)) == if HasRow(accruals, id, m) then 1 else 0
  {
    if accruals != [] {
      var n := |accruals| - 1;
      OneInMonth(accruals[..n], id, m);
      assert accruals == accruals[..n] + [accruals[n]];
      RowAppended(accruals[..n], accruals[n], id, m);
    }
  }

  /** Months of the span from lo up to hi that lie between first and last, both included. */
  function Overlap(lo: int, hi: int, first: int, last: int): int {
    Max(0, (if hi <= last then hi else last + 1) - Max(lo, first))
  }

  lemma {:induction false} RowsInSpan(accruals: seq<Accrual>, id: nat, lo: int, hi: int, first: int, last: int)
    requires OneRowEach(accruals) && lo <= hi
    requires forall m :: lo <= m < hi ==> (HasRow(accruals, id, m) <==> first <= m <= last)
    ensures Sum(accruals, InSpan(id, lo, hi)) == Overlap(lo, hi, first, last)
    decreases hi - lo
  {
    if lo == hi {
      SumOfZeros(accruals, InSpan(id, lo, hi));
    } else {
      RowsInSpan(accruals, id, lo, hi - 1, first, last);
      OneInMonth(accruals, id, hi - 1);
      SpanSplits(accruals, id, lo, hi - 1, hi);
    }
  }

  /** Running a broker's months one after the other leaves a resolved invoice one row for each month of the span from
      its approval to its resolution: if the span covers them, resolution month - approval month + 1 rows. Months of the
      span may have been run before. */
  lemma ChargedOncePerMonth(ks: KeyScheme, db: Db, approval: nat, lo: int, hi: int)
    requires Histories.PathsOk(db) && OneRowEach(db.accruals) && AccrualsOwned(db)
    requires approval < |db.history| && db.history[approval].to == ApprovedForFunding
    requires var id := db.history[approval].invoiceId;
             && ResolvedAt(db.history, id).Some? && lo <= hi && NoneFinal(db, db.invoices[id].brokerId, lo, hi)
             && forall m :: lo <= m < hi && HasRow(db.accruals, id, m) ==> Charged(db, id, m)
    ensures var id := db.history[approval].invoiceId;
            var first, last := MonthOf(db.history[approval].createdAt), MonthOf(ResolvedAt(db.history, id).value);
            var rows := Sum(RunMonths(ks, db, db.invoices[id].brokerId, lo, hi).accruals, InSpan(id, lo, hi));
            && rows == Overlap(lo, hi, first, last)
            && (lo <= first <= last < hi ==> rows == last - first + 1)
  {
    var id := db.history[approval].invoiceId;
    var first, last := MonthOf(db.history[approval].createdAt), MonthOf(ResolvedAt(db.history, id).value);
    var db' := RunMonths(ks, db, db.invoices[id].brokerId, lo, hi);
    RowsAfterMonths(ks, db, lo, hi, id);
    forall m | lo <= m < hi ensures HasRow(db'.accruals, id, m) <==> first <= m <= last {
      MonthCoverage(db, approval, m);
    }
    RowsInSpan(db'.accruals, id, lo, hi, first, last);
  }
}
