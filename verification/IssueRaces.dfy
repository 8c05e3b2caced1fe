/** A fee invoice that is issued after a run has read its invoices and before the run's transaction: when it stays as it
    was issued. */
module IssueRaces {
  import opened Wrappers
  import opened Sums
  import opened Ledger
  import opened FeeCalculator
  import opened Keys
  import opened Period
  import opened Schema
  import opened Engine
  import opened Fees
  import opened FeeRuns
  import opened Reruns
  import EarlyRuns
  import Histories
  import MonthlyRuns

  // ---- What the transaction adds to the fee

  /** The fee an invoice is yet to be charged for the month: nothing if it has a row. */
  ghost function FeeToCome(accruals: seq<Accrual>, month: int, tier: Option<FeeTier>): Invoice -> int {
    (inv: Invoice) =>
      if HasRow(accruals, inv.id, month) then 0 else RoundHalfAway(inv.totalAmount * FeePctOf(tier), FEE_SCALE)
  }

  lemma TurnAddsFeeToCome(ks: KeyScheme, s: Accruing, inv: Invoice, brokerId: nat, month: int, tier: Option<FeeTier>, ids: set<nat>)
    requires inv.id in ids
    ensures var s' := AccrueOne(ks, s, inv, brokerId, month, tier);
            Sum(s'.accruals, FeeWithin(ids, month))
            == Sum(s.accruals, FeeWithin(ids, month)) + FeeToCome(s.accruals, month, tier)(inv)
  {
    if FindFirst(s.accruals, AccrualFor(inv.id, month)).Some? {
      assert HasRow(s.accruals, inv.id, month);
    } else {
      assert !HasRow(s.accruals, inv.id, month);
      SumAppend(s.accruals, NewAccrual(inv, brokerId, month, tier), FeeWithin(ids, month));
    }
  }

  lemma {:induction false} LoopAddsFeesToCome(ks: KeyScheme, s: Accruing, selected: seq<Invoice>, brokerId: nat, month: int,
                                              tier: Option<FeeTier>, ids: set<nat>)
    requires DistinctIds(selected) && IdsOf(selected) <= ids
    ensures Sum(AccrueAll(ks, s, selected, brokerId, month, tier).accruals, FeeWithin(ids, month))
         == Sum(s.accruals, FeeWithin(ids, month)) + Sum(selected, FeeToCome(s.accruals, month, tier))
  {
    if selected != [] {
      var n := |selected| - 1;
      assert DistinctIds(selected[..n]);
      LoopAddsFeesToCome(ks, s, selected[..n], brokerId, month, tier, ids);
      var before := AccrueAll(ks, s, selected[..n], brokerId, month, tier);
      TurnAddsFeeToCome(ks, before, selected[n], brokerId, month, tier, ids);
      IdsOfMembers(selected[..n], selected[n].id);
      MonthlyRuns.RowsAfterLoop(ks, s, selected[..n], brokerId, month, tier, selected[n].id, month);
    }
  }

  // ---- When the fee invoice stays as it is

  /** Volumes, tier and total are what the run has read and would write. */
  ghost predicate AgreesWithReads(fee: FeeInvoice, read: RunReads) {
    && fee.gallonsVolume == read.gallons && fee.dollarVolume == read.volume
    && (read.tier.Some? ==> fee.tierId == Some(read.tier.value.id))
    && fee.totalFeeAmount == Max(fee.calculatedFee, read.minimumFee)
  }

  ghost predicate ShortfallMarked(fee: FeeInvoice) {
    fee.minimumFeeShortfallApplied <==> fee.calculatedFee < fee.totalFeeAmount
  }

  /** The fee a run on these tables comes to for the invoices it has read: their rows of the month, and the fees of those
      without a row. */
  ghost function FeeOfRead(db: Db, month: int, read: RunReads): int {
    Sum(db.accruals, FeeWithin(IdsOf(read.selected), month)) + Sum(read.selected, FeeToCome(db.accruals, month, read.tier))
  }

  lemma StaysIff(ks: KeyScheme, db: Db, brokerId: nat, month: int, read: RunReads)
    requires OneRowEach(db.accruals) && DistinctIds(read.selected) && (brokerId, month) in db.feeInvoices
    requires ShortfallMarked(db.feeInvoices[(brokerId, month)])
    ensures var fee := db.feeInvoices[(brokerId, month)];
            RunCommit(ks, db, brokerId, month, read).feeInvoices[(brokerId, month)] == fee <==>
            AgreesWithReads(fee, read) && fee.calculatedFee == FeeOfRead(db, month, read)
  {
    var s := Accruing(db.accruals, db.ledger, 0);
    LoopAddsFees(ks, s, read.selected, brokerId, month, read.tier);
    LoopAddsFeesToCome(ks, s, read.selected, brokerId, month, read.tier, IdsOf(read.selected));
  }

  lemma OrderlyPrefix(ks: KeyScheme, calls: seq<Call>, more: seq<Call>)
    requires Orderly(ks, calls + more)
    ensures Orderly(ks, calls)
    decreases |more|
  {
    if more == [] {
      assert calls + more == calls;
    } else {
      assert (calls + more)[..|calls| + |more| - 1] == calls + more[..|more| - 1];
      OrderlyPrefix(ks, calls, more[..|more| - 1]);
    }
  }

  ghost predicate ShortfallsMarked(db: Db) {
    forall key :: key in db.feeInvoices ==> ShortfallMarked(db.feeInvoices[key])
  }

  lemma ShortfallsAfterRun(ks: KeyScheme, db: Db, brokerId: nat, month: int)
    requires ShortfallsMarked(db) && RunMonth(ks, db, brokerId, month).Ok?
    ensures ShortfallsMarked(RunMonth(ks, db, brokerId, month).value)
  {
  }

  lemma ShortfallsAfterIssue(db: Db, brokerId: nat, month: int)
    requires ShortfallsMarked(db) && Fees.MarkIssued(db, brokerId, month).Ok?
    ensures ShortfallsMarked(Fees.MarkIssued(db, brokerId, month).value)
  {
  }

  lemma ShortfallsAfterStep(ks: KeyScheme, db: Db, c: Call)
    requires ShortfallsMarked(db) && Attempt(ks, db, c).Ok?
    ensures ShortfallsMarked(Attempt(ks, db, c).value)
  {
    FrameOfStep(ks, db, c);
    if c.event.RunFees? {
      ShortfallsAfterRun(ks, db, c.event.brokerId, PeriodMonth(c.event.date));
    } else if c.event.MarkIssued? {
      ShortfallsAfterIssue(db, c.event.brokerId, c.event.month);
    }
  }

  lemma {:induction false} ShortfallsInRun(ks: KeyScheme, calls: seq<Call>)
    ensures ShortfallsMarked(Engine.After(ks, calls))
  {
    if calls != [] {
      var n := |calls| - 1;
      ShortfallsInRun(ks, calls[..n]);
      if Attempt(ks, Engine.After(ks, calls[..n]), calls[n]).Ok? {
        ShortfallsAfterStep(ks, Engine.After(ks, calls[..n]), calls[n]);
      }
    }
  }

  /** A run reads its invoices after the first calls and its transaction comes after all of them, whatever the later ones
      did: issued the fee invoice, say, or made other runs. The fee invoice stays as it is by then if and only if it
      agrees with what the run has read, and its fee is what the invoices read have been charged and are yet to be
      charged. */
  lemma IssuedDuringRun(ks: KeyScheme, calls: seq<Call>, more: seq<Call>, brokerId: nat, month: int)
    requires Orderly(ks, calls + more) && ReadRun(Engine.After(ks, calls), brokerId, month).Ok?
    requires (brokerId, month) in Engine.After(ks, calls + more).feeInvoices
    ensures var read := ReadRun(Engine.After(ks, calls), brokerId, month).value;
            var db := Engine.After(ks, calls + more);
            var fee, late := db.feeInvoices[(brokerId, month)], RunCommit(ks, db, brokerId, month, read).feeInvoices[(brokerId, month)];
            && late.status == fee.status
            && (late == fee <==> AgreesWithReads(fee, read) && fee.calculatedFee == FeeOfRead(db, month, read))
  {
    OrderlyPrefix(ks, calls, more);
    NoDoubleAccrual(ks, calls, brokerId, month);
    RowsInRun(ks, calls + more);
    ShortfallsInRun(ks, calls + more);
    StaysIff(ks, Engine.After(ks, calls + more), brokerId, month, ReadRun(Engine.After(ks, calls), brokerId, month).value);
  }

  // ---- In time order

  /** Every invoice read has a row of the month, or its fee comes to nothing. */
  ghost predicate NothingToCome(accruals: seq<Accrual>, month: int, read: RunReads) {
    forall j :: 0 <= j < |read.selected| ==>
      HasRow(accruals, read.selected[j].id, month)
      || RoundHalfAway(read.selected[j].totalAmount * FeePctOf(read.tier), FEE_SCALE) == 0
  }

  lemma NothingToComeIff(accruals: seq<Accrual>, month: int, read: RunReads)
    ensures Sum(read.selected, FeeToCome(accruals, month, read.tier)) == 0 <==> NothingToCome(accruals, month, read)
  {
    var f := FeeToCome(accruals, month, read.tier);
    forall j | 0 <= j < |read.selected| ensures 0 <= f(read.selected[j]) {
      assert 0 <= read.selected[j].totalAmount * FeePctOf(read.tier);
    }
    EarlyRuns.ZeroSumIff(read.selected, f);
  }

  /** In time order a draft carries the rows of everything the month's run reads. */
  lemma DraftCarriesRows(db: Db, brokerId: nat, month: int, now: int)
    requires FeesOk(db, now) && (brokerId, month) in db.feeInvoices
    ensures db.feeInvoices[(brokerId, month)].calculatedFee == Sum(db.accruals, FeeWithin(SelectedIds(db, brokerId, month), month))
  {
    var ids := SelectedIds(db, brokerId, month);
    NothingDropped(db, brokerId, month, now);
    forall j | 0 <= j < |db.accruals| && db.accruals[j].invoiceId in ids ensures db.accruals[j].brokerId == brokerId {
      SelectedOfBroker(db, brokerId, month, db.accruals[j].invoiceId);
    }
    FeeSplits(db.accruals, brokerId, month, ids);
  }

  lemma SelectedOfBroker(db: Db, brokerId: nat, month: int, id: nat)
    requires Histories.PathsOk(db) && id in SelectedIds(db, brokerId, month)
    ensures id < |db.invoices| && db.invoices[id].brokerId == brokerId
  {
    var selected := Outstanding(db, brokerId, month);
    SelectionIsExact(db, brokerId, month);
    IdsOfMembers(selected, id);
    assert db.invoices[id] in selected;
  }

  /** In time order, a draft that is issued between a run's reads and its transaction stays as issued if and only if the
      volumes, the tier and the minimum fee read lead to what it holds, and no invoice read is yet to be charged a fee
      other than zero. */
  lemma IssuedDuringTimelyRun(ks: KeyScheme, calls: seq<Call>, brokerId: nat, month: int)
    requires Orderly(ks, calls) && Timely(calls)
    requires ReadRun(Engine.After(ks, calls), brokerId, month).Ok? && (brokerId, month) in Engine.After(ks, calls).feeInvoices
    ensures var db := Engine.After(ks, calls);
            var draft, read := db.feeInvoices[(brokerId, month)], ReadRun(db, brokerId, month).value;
            var issued := Fees.MarkIssued(db, brokerId, month).value;
            var late := RunCommit(ks, issued, brokerId, month, read).feeInvoices[(brokerId, month)];
            && late.status == FeeIssued
            && (late == issued.feeInvoices[(brokerId, month)] <==>
                AgreesWithReads(draft, read) && NothingToCome(db.accruals, month, read))
  {
    var db := Engine.After(ks, calls);
    var read, issued := ReadRun(db, brokerId, month).value, Fees.MarkIssued(db, brokerId, month).value;
    var now := if calls == [] then 0 else calls[|calls| - 1].now;
    FeesOfRun(ks, calls, now);
    NoDoubleAccrual(ks, calls, brokerId, month);
    ShortfallsInRun(ks, calls);
    DraftCarriesRows(db, brokerId, month, now);
    NothingToComeIff(db.accruals, month, read);
    StaysIff(ks, issued, brokerId, month, read);
  }
}
