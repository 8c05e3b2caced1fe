/** Which accrual rows a run leaves out of its fee. */
module EarlyRuns {
  import opened Wrappers
  import opened Sums
  import opened StateMachine
  import opened Ledger
  import opened FeeCalculator
  import opened Keys
  import opened Period
  import opened Schema
  import opened Engine
  import opened LedgerWrites
  import opened Fees
  import opened FeeRuns
  import opened Reruns
  import AppendOnly
  import Histories

  // ---- Every row's invoice was approved before the month ended

  ghost predicate RowApproved(history: seq<StatusRow>, a: Accrual) {
    ApprovedBefore(history, a.invoiceId, MonthStart(a.periodMonth + 1)) && 0 <= a.feeAmount
  }

  ghost predicate RowsApproved(db: Db) {
    forall j :: 0 <= j < |db.accruals| ==> RowApproved(db.history, db.accruals[j])
  }

  lemma StillApproved(history: seq<StatusRow>, later: seq<StatusRow>, a: Accrual)
    requires history <= later && RowApproved(history, a)
    ensures RowApproved(later, a)
  {
    var end := MonthStart(a.periodMonth + 1);
    var k :| 0 <= k < |history| && IsApprovalOf(history[k], a.invoiceId) && history[k].createdAt < end;
    assert later[k] == history[k];
  }

  ghost predicate FeesNotNegative(accruals: seq<Accrual>) {
    forall j :: 0 <= j < |accruals| ==> 0 <= accruals[j].feeAmount
  }

  lemma TurnFeeNotNegative(ks: KeyScheme, s: Accruing, inv: Invoice, brokerId: nat, month: int, tier: Option<FeeTier>)
    requires FeesNotNegative(s.accruals)
    ensures FeesNotNegative(AccrueOne(ks, s, inv, brokerId, month, tier).accruals)
  {
    assert 0 <= inv.totalAmount * FeePctOf(tier);
    assert 0 <= RoundHalfAway(inv.totalAmount * FeePctOf(tier), FEE_SCALE);
  }

  lemma {:induction false} NewFeesNotNegative(ks: KeyScheme, s: Accruing, selected: seq<Invoice>, brokerId: nat, month: int,
                                              tier: Option<FeeTier>)
    requires FeesNotNegative(s.accruals)
    ensures FeesNotNegative(AccrueAll(ks, s, selected, brokerId, month, tier).accruals)
  {
    if selected != [] {
      var n := |selected| - 1;
      NewFeesNotNegative(ks, s, selected[..n], brokerId, month, tier);
      TurnFeeNotNegative(ks, AccrueAll(ks, s, selected[..n], brokerId, month, tier), selected[n], brokerId, month, tier);
    }
  }

  lemma FeesOfRunNotNegative(ks: KeyScheme, db: Db, brokerId: nat, month: int)
    requires RowsApproved(db) && RunMonth(ks, db, brokerId, month).Ok?
    ensures FeesNotNegative(RunMonth(ks, db, brokerId, month).value.accruals)
  {
    var selected := Outstanding(db, brokerId, month);
    forall j | 0 <= j < |db.accruals| ensures 0 <= db.accruals[j].feeAmount {
      assert RowApproved(db.history, db.accruals[j]);
    }
    NewFeesNotNegative(ks, Accruing(db.accruals, db.ledger, 0), selected, brokerId, month, TierFor(db, selected));
  }

  lemma RowsApprovedAfterRun(ks: KeyScheme, db: Db, brokerId: nat, month: int)
    requires Histories.PathsOk(db) && OneRowEach(db.accruals) && AccrualsOwned(db) && RowsApproved(db)
    requires RunMonth(ks, db, brokerId, month).Ok?
    ensures RowsApproved(RunMonth(ks, db, brokerId, month).value)
  {
    var db' := RunMonth(ks, db, brokerId, month).value;
    RowsOfRun(ks, db, brokerId, month);
    FeesOfRunNotNegative(ks, db, brokerId, month);
    RunTouchesFeesOnly(ks, db, brokerId, month);
    forall j | 0 <= j < |db'.accruals| ensures RowApproved(db'.history, db'.accruals[j]) {
      if j < |db.accruals| {
        assert db'.accruals[j] == db.accruals[j];
      } else {
        assert IsNewRow(db'.accruals[j], brokerId, month, SelectedIds(db, brokerId, month));
      }
    }
  }

  lemma RowsApprovedLater(db: Db, db': Db)
    requires RowsApproved(db) && db'.accruals == db.accruals && db.history <= db'.history
    ensures RowsApproved(db')
  {
    forall j | 0 <= j < |db'.accruals| ensures RowApproved(db'.history, db'.accruals[j]) {
      StillApproved(db.history, db'.history, db.accruals[j]);
    }
  }

  lemma RowsApprovedAfterStep(ks: KeyScheme, db: Db, c: Call)
    requires Histories.PathsOk(db) && OneRowEach(db.accruals) && AccrualsOwned(db) && RowsApproved(db)
    ensures RowsApproved(Next(ks, db, c))
  {
    if Attempt(ks, db, c).Ok? {
      if c.event.RunFees? {
        RunStep(ks, db, c);
        RowsApprovedAfterRun(ks, db, c.event.brokerId, PeriodMonth(c.event.date));
      } else {
        FrameOfStep(ks, db, c);
        AppendOnly.HistoryGrows(ks, db, c);
        RowsApprovedLater(db, Next(ks, db, c));
      }
    }
  }

  lemma {:induction false} RowsApprovedInRun(ks: KeyScheme, calls: seq<Call>)
    requires Orderly(ks, calls)
    ensures RowsApproved(Engine.After(ks, calls))
  {
    if calls != [] {
      var n := |calls| - 1;
      RowsApprovedInRun(ks, calls[..n]);
      RowsInRun(ks, calls[..n]);
      RowsApprovedAfterStep(ks, Engine.After(ks, calls[..n]), calls[n]);
    }
  }

  // ---- The rows a run leaves out

  ghost predicate IsRowOf(a: Accrual, brokerId: nat, month: int) {
    a.brokerId == brokerId && a.periodMonth == month
  }

  /** The invoice was settled, charged back or written off before the month started, and not again since. */
  predicate ResolvedBefore(history: seq<StatusRow>, id: nat, month: int) {
    var resolvedAt := ResolvedAt(history, id);
    resolvedAt.Some? && resolvedAt.value < MonthStart(month)
  }

  lemma SelectedIfOpen(db: Db, brokerId: nat, month: int, id: nat)
    requires Histories.PathsOk(db) && id < |db.invoices| && db.invoices[id].brokerId == brokerId
    requires ApprovedBefore(db.history, id, MonthStart(month + 1))
    ensures id in SelectedIds(db, brokerId, month) <==> !ResolvedBefore(db.history, id, month)
  {
    var selected := Outstanding(db, brokerId, month);
    SelectionIsExact(db, brokerId, month);
    IdsOfMembers(selected, id);
    assert IsOutstanding(db.history, id, month) <==> !ResolvedBefore(db.history, id, month);
    if db.invoices[id] in selected {
      var k :| 0 <= k < |selected| && selected[k] == db.invoices[id];
      assert selected[k].id == id;
    }
  }

  ghost predicate RowsKnown(db: Db) {
    Histories.PathsOk(db) && OneRowEach(db.accruals) && AccrualsOwned(db) && RowsApproved(db)
  }

  lemma LeftOutRow(db: Db, brokerId: nat, month: int, j: nat)
    requires RowsKnown(db) && j < |db.accruals| && IsRowOf(db.accruals[j], brokerId, month)
    ensures db.accruals[j].invoiceId !in SelectedIds(db, brokerId, month) <==> ResolvedBefore(db.history, db.accruals[j].invoiceId, month)
  {
    assert RowApproved(db.history, db.accruals[j]);
    SelectedIfOpen(db, brokerId, month, db.accruals[j].invoiceId);
  }

  /** In every reachable state the rows of a month that its run would leave out are exactly those whose invoice was
      resolved before the month started. */
  lemma LeftOutRows(ks: KeyScheme, calls: seq<Call>, brokerId: nat, month: int)
    requires Orderly(ks, calls)
    ensures var db := Engine.After(ks, calls);
            forall j: nat :: j < |db.accruals| && IsRowOf(db.accruals[j], brokerId, month) ==>
              (db.accruals[j].invoiceId !in SelectedIds(db, brokerId, month) <==>
               ResolvedBefore(db.history, db.accruals[j].invoiceId, month))
  {
    var db := Engine.After(ks, calls);
    RowsInRun(ks, calls);
    RowsApprovedInRun(ks, calls);
    forall j: nat | j < |db.accruals| && IsRowOf(db.accruals[j], brokerId, month)
      ensures db.accruals[j].invoiceId !in SelectedIds(db, brokerId, month) <==>
              ResolvedBefore(db.history, db.accruals[j].invoiceId, month)
    {
      LeftOutRow(db, brokerId, month, j);
    }
  }

  /** No fee of the month was charged on an invoice that was resolved before the month started. */
  ghost predicate NoEarlyFees(db: Db, brokerId: nat, month: int) {
    forall j :: 0 <= j < |db.accruals| && IsRowOf(db.accruals[j], brokerId, month)
                && ResolvedBefore(db.history, db.accruals[j].invoiceId, month) ==>
      db.accruals[j].feeAmount == 0
  }

  lemma WholeSumOfRun(ks: KeyScheme, db: Db, brokerId: nat, month: int)
    requires RowsKnown(db) && RunMonth(ks, db, brokerId, month).Ok?
    ensures var db' := RunMonth(ks, db, brokerId, month).value;
            var fee, sum := db'.feeInvoices[(brokerId, month)].calculatedFee, Sum(db'.accruals, FeeOf(brokerId, month));
            fee <= sum && (fee == sum <==> NoEarlyFees(db, brokerId, month))
  {
    CalculatedFeeOfRun(ks, db, brokerId, month);
    var f := FeeOutside(brokerId, month, SelectedIds(db, brokerId, month));
    forall j | 0 <= j < |db.accruals|
      ensures 0 <= f(db.accruals[j])
      ensures f(db.accruals[j]) == 0 <==>
              (IsRowOf(db.accruals[j], brokerId, month) && ResolvedBefore(db.history, db.accruals[j].invoiceId, month) ==>
                 db.accruals[j].feeAmount == 0)
    {
      assert RowApproved(db.history, db.accruals[j]);
      if IsRowOf(db.accruals[j], brokerId, month) {
        LeftOutRow(db, brokerId, month, j);
      }
    }
    ZeroSumIff(db.accruals, f);
  }

  /** A run of a month carries the whole sum of the month's rows if and only if no fee of the month was charged on an
      invoice that was resolved before the month started; otherwise it carries less. */
  lemma WholeSumIffNoEarlyFees(ks: KeyScheme, calls: seq<Call>, brokerId: nat, month: int)
    requires Orderly(ks, calls) && RunMonth(ks, Engine.After(ks, calls), brokerId, month).Ok?
    ensures var db := Engine.After(ks, calls);
            var db' := RunMonth(ks, db, brokerId, month).value;
            var fee, sum := db'.feeInvoices[(brokerId, month)].calculatedFee, Sum(db'.accruals, FeeOf(brokerId, month));
            fee <= sum && (fee == sum <==> NoEarlyFees(db, brokerId, month))
  {
    RowsInRun(ks, calls);
    RowsApprovedInRun(ks, calls);
    WholeSumOfRun(ks, Engine.After(ks, calls), brokerId, month);
  }

  /** A sum of non-negative terms is zero exactly when they all are. */
  lemma ZeroSumIff<T>(rows: seq<T>, f: T -> int)
    requires forall j :: 0 <= j < |rows| ==> 0 <= f(rows[j])
    ensures 0 <= Sum(rows, f)
    ensures Sum(rows, f) == 0 <==> forall j :: 0 <= j < |rows| ==> f(rows[j]) == 0
  {
    SumNonNegative(rows, f);
    if forall j :: 0 <= j < |rows| ==> f(rows[j]) == 0 {
      SumOfZeros(rows, f);
    } else {
      var j :| 0 <= j < |rows| && f(rows[j]) != 0;
      SumAtLeastTerm(rows, j, f);
    }
  }
}
