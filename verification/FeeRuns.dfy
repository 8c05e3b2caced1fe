/** Monthly fee runs over time: whom they charge, what re-running changes, and how they compare with the calculator. */
module FeeRuns {
  import opened Wrappers
  import opened Sums
  import opened StateMachine
  import opened Ledger
  import opened FeeCalculator
  import opened Keys
  import opened Period
  import opened Schema
  import opened Engine
  import opened LedgerWrites
  import opened Fees
  import Histories
  import Settlement

  // ---- Whom a month is charged on

  predicate IsApprovalOf(row: StatusRow, id: nat) {
    row.invoiceId == id && row.to == ApprovedForFunding
  }

  ghost predicate ApprovedBefore(history: seq<StatusRow>, id: nat, end: int) {
    exists k :: 0 <= k < |history| && IsApprovalOf(history[k], id) && history[k].createdAt < end
  }

  /** Approved before the end of the period, and not resolved before its start. */
  ghost predicate OutstandingIn(history: seq<StatusRow>, id: nat, start: int, end: int) {
    ApprovedBefore(history, id, end) && StillOpenAt(history, id, start)
  }

  ghost predicate IsOutstanding(history: seq<StatusRow>, id: nat, month: int) {
    OutstandingIn(history, id, MonthStart(month), MonthStart(month + 1))
  }

  ghost predicate SingleApprovals(history: seq<StatusRow>) {
    forall j, k :: 0 <= j < k < |history| && history[k].to == ApprovedForFunding && history[j].to == ApprovedForFunding ==>
      history[j].invoiceId != history[k].invoiceId
  }

  predicate DistinctIds(invoices: seq<Invoice>) {
    forall j, k :: 0 <= j < k < |invoices| ==> invoices[j].id != invoices[k].id
  }

  function EntersFor(id: nat, s: Status): StatusRow -> int {
    (row: StatusRow) => if row.invoiceId == id && row.to == s then 1 else 0
  }

  lemma {:induction false} VisitsInHistory(history: seq<StatusRow>, id: nat, s: Status)
    ensures Visits(HistoryOf(history, id), s) == Sum(history, EntersFor(id, s))
  {
    if history != [] {
      var n := |history| - 1;
      VisitsInHistory(history[..n], id, s);
      Histories.HistoryAppend(history[..n], history[n], id);
      assert history == history[..n] + [history[n]];
      SumAppend(HistoryOf(history[..n], id), history[n], Enters(s));
    }
  }

  lemma ApprovedOnce(db: Db, j: nat, k: nat)
    requires Histories.PathsOk(db) && j < k < |db.history| && db.history[k].to == ApprovedForFunding
    requires db.history[j].to == ApprovedForFunding
    ensures db.history[j].invoiceId != db.history[k].invoiceId
  {
    var id := db.history[k].invoiceId;
    assert IsPath(HistoryOf(db.history, id), StatusOf(db, id));
    EntersMoneyStatusesOnce(HistoryOf(db.history, id), StatusOf(db, id));
    VisitsInHistory(db.history, id, ApprovedForFunding);
    TwoTerms(db.history, j, k, EntersFor(id, ApprovedForFunding));
  }

  /** Walks through the graph approve an invoice once at most. */
  lemma PathsApproveOnce(db: Db)
    requires Histories.PathsOk(db)
    ensures SingleApprovals(db.history)
  {
    forall j, k | 0 <= j < k < |db.history| && db.history[k].to == ApprovedForFunding && db.history[j].to == ApprovedForFunding
      ensures db.history[j].invoiceId != db.history[k].invoiceId
    {
      ApprovedOnce(db, j, k);
    }
  }

  /** A sum of non-negative terms is at least any two of them. */
  lemma TwoTerms(rows: seq<StatusRow>, j: nat, k: nat, f: StatusRow -> int)
    requires j < k < |rows| && forall i :: 0 <= i < |rows| ==> 0 <= f(rows[i])
    ensures f(rows[j]) + f(rows[k]) <= Sum(rows, f)
  {
    assert rows == rows[..k] + rows[k..];
    SumConcat(rows[..k], rows[k..], f);
    SumAtLeastTerm(rows[..k], j, f);
    SumAtLeastTerm(rows[k..], 0, f);
  }

  lemma ApprovedBeforeLast(history: seq<StatusRow>, i: nat, end: int)
    requires history != []
    ensures var n := |history| - 1;
            ApprovedBefore(history, i, end) <==>
            ApprovedBefore(history[..n], i, end) || (IsApprovalOf(history[n], i) && history[n].createdAt < end)
  {
    var n := |history| - 1;
    assert forall k :: 0 <= k < n ==> history[..n][k] == history[k];
  }

  /** Different rows of the table. */
  ghost predicate RowsOfTable(invoices: seq<Invoice>, list: seq<Invoice>) {
    && DistinctIds(list)
    && forall j :: 0 <= j < |list| ==> list[j].id < |invoices| && list[j] == invoices[list[j].id]
  }

  /** The broker's invoices approved before the end, and no others. */
  ghost predicate ListsApproved(invoices: seq<Invoice>, history: seq<StatusRow>, brokerId: nat, end: int, list: seq<Invoice>) {
    forall i :: 0 <= i < |invoices| ==>
      (invoices[i] in list <==> invoices[i].brokerId == brokerId && ApprovedBefore(history, i, end))
  }

  lemma RowAdded(invoices: seq<Invoice>, list: seq<Invoice>, i: nat)
    requires RowsOfTable(invoices, list) && i < |invoices| && invoices[i].id == i && invoices[i] !in list
    ensures RowsOfTable(invoices, list + [invoices[i]])
  {
    forall j | 0 <= j < |list| ensures list[j].id != i {
      assert list[j] in list;
    }
  }

  /** The list after one more history row. */
  lemma ApprovedAfterRow(invoices: seq<Invoice>, history: seq<StatusRow>, brokerId: nat, end: int, earlier: seq<Invoice>)
    requires forall i :: 0 <= i < |invoices| ==> invoices[i].id == i
    requires history != [] && history[|history| - 1].invoiceId < |invoices| && SingleApprovals(history)
    requires RowsOfTable(invoices, earlier) && ListsApproved(invoices, history[..|history| - 1], brokerId, end, earlier)
    ensures var row := history[|history| - 1];
            var adds := IsApprovalBefore(row, end) && invoices[row.invoiceId].brokerId == brokerId;
            var list := if adds then earlier + [invoices[row.invoiceId]] else earlier;
            RowsOfTable(invoices, list) && ListsApproved(invoices, history, brokerId, end, list)
  {
    var n := |history| - 1;
    var row := history[n];
    forall i: nat ensures ApprovedBefore(history, i, end) <==>
                          ApprovedBefore(history[..n], i, end) || (IsApprovalOf(row, i) && row.createdAt < end) {
      ApprovedBeforeLast(history, i, end);
    }
    if IsApprovalBefore(row, end) && invoices[row.invoiceId].brokerId == brokerId {
      assert !ApprovedBefore(history[..n], row.invoiceId, end);
      RowAdded(invoices, earlier, row.invoiceId);
    }
  }

  lemma {:induction false} ApprovedInvoicesAre(invoices: seq<Invoice>, history: seq<StatusRow>, brokerId: nat, end: int)
    requires forall i :: 0 <= i < |invoices| ==> invoices[i].id == i
    requires forall k :: 0 <= k < |history| ==> history[k].invoiceId < |invoices|
    requires SingleApprovals(history)
    ensures var list := ApprovedInvoices(invoices, history, brokerId, end);
            RowsOfTable(invoices, list) && ListsApproved(invoices, history, brokerId, end, list)
  {
    if history != [] {
      var n := |history| - 1;
      ApprovedInvoicesAre(invoices, history[..n], brokerId, end);
      ApprovedAfterRow(invoices, history, brokerId, end, ApprovedInvoices(invoices, history[..n], brokerId, end));
    }
  }

  lemma {:induction false} FilterKeepsDistinct(list: seq<Invoice>, p: Invoice -> bool)
    requires DistinctIds(list)
    ensures DistinctIds(Filter(list, p))
  {
    if list != [] {
      var n := |list| - 1;
      FilterKeepsDistinct(list[..n], p);
      forall x | x in Filter(list[..n], p) ensures x.id != list[n].id {
        FilterMember(list[..n], p, x);
      }
    }
  }

  /** The selection of a month: each outstanding invoice of the broker, once. */
  lemma SelectionIsExact(db: Db, brokerId: nat, month: int)
    requires Histories.PathsOk(db)
    ensures var selected := Outstanding(db, brokerId, month);
            && DistinctIds(selected)
            && (forall j :: 0 <= j < |selected| ==> selected[j].id < |db.invoices| && selected[j] == db.invoices[selected[j].id])
            && (forall i :: 0 <= i < |db.invoices| ==>
                  (db.invoices[i] in selected <==> db.invoices[i].brokerId == brokerId && IsOutstanding(db.history, i, month)))
  {
    PathsApproveOnce(db);
    var list := ApprovedInvoices(db.invoices, db.history, brokerId, MonthStart(month + 1));
    var p := OpenAt(db.history, MonthStart(month));
    ApprovedInvoicesAre(db.invoices, db.history, brokerId, MonthStart(month + 1));
    FilterKeepsDistinct(list, p);
    var selected := Outstanding(db, brokerId, month);
    forall j | 0 <= j < |selected| ensures selected[j] in list {
      FilterMember(list, p, selected[j]);
    }
    forall i | 0 <= i < |db.invoices|
      ensures db.invoices[i] in selected <==> db.invoices[i].brokerId == brokerId && IsOutstanding(db.history, i, month)
    {
      FilterMember(list, p, db.invoices[i]);
    }
  }

  /** In every reachable state a fee run charges each invoice once, so its gallons and its amount enter the volumes
      once. */
  lemma NoDoubleAccrual(ks: KeyScheme, calls: seq<Call>, brokerId: nat, month: int)
    requires Orderly(ks, calls)
    ensures DistinctIds(Outstanding(Engine.After(ks, calls), brokerId, month))
  {
    Histories.PathsOfRun(ks, calls);
    SelectionIsExact(Engine.After(ks, calls), brokerId, month);
  }

  // ---- Volumes

  /** An amount of the invoices in a list, for a sum over the whole table. */
  function Listed(list: seq<Invoice>, amount: Invoice -> int): Invoice -> int {
    (inv: Invoice) => if inv in list then amount(inv) else 0
  }

  ghost predicate FromTable(invoices: seq<Invoice>, list: seq<Invoice>) {
    && DistinctIds(list)
    && (forall i :: 0 <= i < |invoices| ==> invoices[i].id == i)
    && (forall j :: 0 <= j < |list| ==> list[j].id < |invoices| && list[j] == invoices[list[j].id])
  }

  /** Rows of a list without repetition sum to what they sum to in the table. */
  lemma {:induction false} ListSumsAsInTable(invoices: seq<Invoice>, list: seq<Invoice>, amount: Invoice -> int)
    requires FromTable(invoices, list)
    ensures Sum(list, amount) == Sum(invoices, Listed(list, amount))
  {
    if list == [] {
      SumOfZeros(invoices, Listed(list, amount));
    } else {
      var n := |list| - 1;
      var inv := list[n];
      ListSumsAsInTable(invoices, list[..n], amount);
      assert list == list[..n] + [inv];
      assert inv !in list[..n];
      SumPoint(invoices, inv.id, Listed(list[..n], amount), Listed(list, amount));
    }
  }

  /** An amount of the broker's invoices that are outstanding in the month. */
  ghost function Due(history: seq<StatusRow>, brokerId: nat, month: int, amount: Invoice -> int): Invoice -> int {
    (inv: Invoice) => if inv.brokerId == brokerId && IsOutstanding(history, inv.id, month) then amount(inv) else 0
  }

  /** The volumes a run picks the tier by and reports are the sums over all the broker's outstanding invoices in the
      table, each counted once. */
  lemma VolumesCountOnce(ks: KeyScheme, db: Db, brokerId: nat, month: int)
    requires Histories.PathsOk(db) && RunMonth(ks, db, brokerId, month).Ok?
    ensures var fee := RunMonth(ks, db, brokerId, month).value.feeInvoices[(brokerId, month)];
            && fee.gallonsVolume == Sum(db.invoices, Due(db.history, brokerId, month, Gallons()))
            && fee.dollarVolume == Sum(db.invoices, Due(db.history, brokerId, month, DollarVolume()))
  {
    SelectedSum(db, brokerId, month, Gallons());
    SelectedSum(db, brokerId, month, DollarVolume());
  }

  lemma SelectedSum(db: Db, brokerId: nat, month: int, amount: Invoice -> int)
    requires Histories.PathsOk(db)
    ensures Sum(Outstanding(db, brokerId, month), amount) == Sum(db.invoices, Due(db.history, brokerId, month, amount))
  {
    var selected := Outstanding(db, brokerId, month);
    SelectionIsExact(db, brokerId, month);
    ListSumsAsInTable(db.invoices, selected, amount);
    SumCongruent(db.invoices, Listed(selected, amount), Due(db.history, brokerId, month, amount));
  }

  // ---- Month coverage

  /** The month's run charges the invoice. */
  ghost predicate Charged(db: Db, id: nat, month: int)
    requires id < |db.invoices|
  {
    db.invoices[id] in Outstanding(db, db.invoices[id].brokerId, month)
  }

  /** An invoice approved at one instant is charged for exactly the months from its approval month to its resolution
      month, both included, and without end while it is unresolved. */
  lemma MonthCoverage(db: Db, approval: nat, month: int)
    requires Histories.PathsOk(db) && approval < |db.history| && db.history[approval].to == ApprovedForFunding
    ensures var id := db.history[approval].invoiceId;
            var resolvedAt := ResolvedAt(db.history, id);
            && id < |db.invoices|
            && (Charged(db, id, month) <==>
                  MonthOf(db.history[approval].createdAt) <= month && (resolvedAt.None? || month <= MonthOf(resolvedAt.value)))
  {
    var row := db.history[approval];
    var id := row.invoiceId;
    var resolvedAt := ResolvedAt(db.history, id);
    PathsApproveOnce(db);
    SelectionIsExact(db, db.invoices[id].brokerId, month);
    OnlyApproval(db.history, approval, MonthStart(month + 1));
    MonthOfBefore(row.createdAt, month + 1);
    if resolvedAt.Some? {
      MonthOfBefore(resolvedAt.value, month);
    }
  }

  lemma OnlyApproval(history: seq<StatusRow>, approval: nat, end: int)
    requires SingleApprovals(history) && approval < |history| && history[approval].to == ApprovedForFunding
    ensures ApprovedBefore(history, history[approval].invoiceId, end) <==> history[approval].createdAt < end
  {
    if history[approval].createdAt < end {
      assert IsApprovalOf(history[approval], history[approval].invoiceId);
    }
  }
}
