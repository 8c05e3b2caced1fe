/** When fundings in flight stay within the limit, and that the interleaved bound is reached. */
module CapTightness {
  import opened Wrappers
  import opened Sums
  import opened StateMachine
  import opened Credit
  import opened Ledger
  import opened Keys
  import opened Schema
  import opened Engine
  import opened Interleaving
  import Exposure
  import Invoices

  // ---- What is in flight and still to be counted

  ghost predicate IsInFlight(pending: seq<Invoices.FundCall>, id: nat) {
    exists j :: 0 <= j < |pending| && pending[j].id == id
  }

  /** What the calls in flight for an invoice will add to the company's counter: its amount once, however many calls there
      are, and nothing if its key has been used. */
  ghost function Promised(ks: KeyScheme, s: State, mcId: nat, id: nat): int
    requires id < |s.db.invoices|
  {
    var inv := s.db.invoices[id];
    if inv.mcId == mcId && IsInFlight(s.pending, id) && !LogHasKey(s.db.credit.changeLog, ks(FundingCreditKey(id)))
    then inv.totalAmount else 0
  }

  ghost function PromisedUpTo(ks: KeyScheme, s: State, mcId: nat, n: nat): int
    requires n <= |s.db.invoices|
  {
    if n == 0 then 0 else PromisedUpTo(ks, s, mcId, n - 1) + Promised(ks, s, mcId, n - 1)
  }

  ghost function PromisedTotal(ks: KeyScheme, s: State, mcId: nat): int {
    PromisedUpTo(ks, s, mcId, |s.db.invoices|)
  }

  /** Two states that promise the same for all invoices but one. */
  lemma {:induction false} PromisedPoint(ks: KeyScheme, s: State, s': State, mcId: nat, n: nat, id: nat)
    requires n <= |s.db.invoices| == |s'.db.invoices| && id < |s.db.invoices|
    requires forall i :: 0 <= i < n && i != id ==> Promised(ks, s, mcId, i) == Promised(ks, s', mcId, i)
    ensures PromisedUpTo(ks, s', mcId, n) - PromisedUpTo(ks, s, mcId, n)
         == (if id < n then Promised(ks, s', mcId, id) - Promised(ks, s, mcId, id) else 0)
  {
    if n > 0 {
      PromisedPoint(ks, s, s', mcId, n - 1, id);
    }
  }

  lemma {:induction false} NothingPromised(ks: KeyScheme, s: State, mcId: nat, n: nat)
    requires n <= |s.db.invoices| && s.pending == []
    ensures PromisedUpTo(ks, s, mcId, n) == 0
  {
    if n > 0 {
      NothingPromised(ks, s, mcId, n - 1);
    }
  }

  // ---- Transactions in any order

  ghost predicate SameLimit(t: CreditTables, t': CreditTables, mcId: nat) {
    && (mcId in t'.limits <==> mcId in t.limits)
    && (mcId in t.limits ==> t'.limits[mcId].totalLimit == t.limits[mcId].totalLimit)
  }

  /** What is promised moves into use, and nothing else changes for the company. */
  ghost predicate KeepsPromise(ks: KeyScheme, s: State, s': State, mcId: nat) {
    && Used(s'.db.credit, mcId) + PromisedTotal(ks, s', mcId) == Used(s.db.credit, mcId) + PromisedTotal(ks, s, mcId)
    && SameLimit(s.db.credit, s'.db.credit, mcId)
  }

  lemma InFlightAfter(pending: seq<Invoices.FundCall>, k: nat, id: nat)
    requires k < |pending| && pending[k].id != id
    ensures IsInFlight(RemoveAt(pending, k), id) <==> IsInFlight(pending, id)
  {
    var left := RemoveAt(pending, k);
    assert forall j :: 0 <= j < |left| ==> left[j] == pending[if j < k then j else j + 1];
    if IsInFlight(pending, id) {
      var j :| 0 <= j < |pending| && pending[j].id == id;
      assert left[if j < k then j else j - 1] == pending[j];
    }
  }

  lemma OthersPromised(ks: KeyScheme, s: State, k: nat, now: int, mcId: nat, i: nat)
    requires Injective(ks) && PendingOk(s) && k < |s.pending| && i < |s.db.invoices| && i != s.pending[k].id
    ensures var s' := AfterCommit(ks, s, k, now);
            |s'.db.invoices| == |s.db.invoices| && Promised(ks, s', mcId, i) == Promised(ks, s, mcId, i)
  {
    var c := s.pending[k];
    assert FitsInvoice(s.db, c);
    KeysAfterCommit(ks, s.db, c, now, i);
    CommitMovesInvoice(ks, s.db, c, now);
    InFlightAfter(s.pending, k, i);
  }

  /** The counter after a transaction: up by the amount if the key is new. */
  lemma UsedAfterCommit(ks: KeyScheme, db: Db, c: Invoices.FundCall, now: int, mcId: nat)
    requires c.id < |db.invoices| && c.mcId in db.credit.limits
    ensures var t := DbAfterCommit(ks, db, c, now).credit;
            var isNew := !LogHasKey(db.credit.changeLog, ks(FundingCreditKey(c.id)));
            && Used(t, mcId) == Used(db.credit, mcId) + (if c.mcId == mcId && isNew then c.totalAmount else 0)
            && SameLimit(db.credit, t, mcId)
  {
    CommitRecords(ks, db, c, now);
  }

  lemma OwnPromise(ks: KeyScheme, s: State, k: nat, now: int, mcId: nat)
    requires Injective(ks) && PendingOk(s) && k < |s.pending|
    ensures var s', id := AfterCommit(ks, s, k, now), s.pending[k].id;
            && |s'.db.invoices| == |s.db.invoices| && id < |s.db.invoices| && SameLimit(s.db.credit, s'.db.credit, mcId)
            && Promised(ks, s', mcId, id) == 0
            && Used(s'.db.credit, mcId) == Used(s.db.credit, mcId) + Promised(ks, s, mcId, id)
  {
    var c := s.pending[k];
    assert FitsInvoice(s.db, c);
    KeysAfterCommit(ks, s.db, c, now, c.id);
    CommitMovesInvoice(ks, s.db, c, now);
    UsedAfterCommit(ks, s.db, c, now, mcId);
    assert IsInFlight(s.pending, c.id);
  }

  lemma OneCommit(ks: KeyScheme, s: State, k: nat, now: int, mcId: nat)
    requires Injective(ks) && PendingOk(s)
    ensures PendingOk(AfterCommit(ks, s, k, now)) && KeepsPromise(ks, s, AfterCommit(ks, s, k, now), mcId)
  {
    if k < |s.pending| {
      var s', id := AfterCommit(ks, s, k, now), s.pending[k].id;
      OwnPromise(ks, s, k, now, mcId);
      forall i | 0 <= i < |s.db.invoices| && i != id ensures Promised(ks, s', mcId, i) == Promised(ks, s, mcId, i) {
        OthersPromised(ks, s, k, now, mcId, i);
      }
      PromisedPoint(ks, s, s', mcId, |s.db.invoices|, id);
      PendingAfterCommit(ks, s, k, now);
    }
  }

  /** The transaction of one of the calls in flight, by its place among those left, and its time. */
  datatype Turn = Turn(k: nat, now: int)

  function CommitInTurn(ks: KeyScheme, s: State, turns: seq<Turn>): State {
    if turns == [] then s
    else
      var n := |turns| - 1;
      AfterCommit(ks, CommitInTurn(ks, s, turns[..n]), turns[n].k, turns[n].now)
  }

  /** Whatever calls are in flight and in whatever order they run their transactions: what a company uses and what is
      promised for it stay the same together. */
  lemma {:induction false} AllCommit(ks: KeyScheme, s: State, turns: seq<Turn>, mcId: nat)
    requires Injective(ks) && PendingOk(s)
    ensures PendingOk(CommitInTurn(ks, s, turns)) && KeepsPromise(ks, s, CommitInTurn(ks, s, turns), mcId)
  {
    if turns != [] {
      var n := |turns| - 1;
      AllCommit(ks, s, turns[..n], mcId);
      OneCommit(ks, CommitInTurn(ks, s, turns[..n]), turns[n].k, turns[n].now, mcId);
    }
  }

  /** After any interleaved run, once all calls in flight have run their transactions in any order, a company's counter is
      within its limit if and only if what it used before and what was in flight for it together were, where each invoice
      counts once, and not at all if its key was used. */
  lemma StaysWithinLimitIff(ks: KeyScheme, steps: seq<TimedStep>, turns: seq<Turn>, mcId: nat)
    requires Injective(ks) && AllSplit(steps) && mcId in Run(ks, steps).db.credit.limits
    requires CommitInTurn(ks, Run(ks, steps), turns).pending == []
    ensures var s, done := Run(ks, steps), CommitInTurn(ks, Run(ks, steps), turns);
            && mcId in done.db.credit.limits
            && Used(done.db.credit, mcId) == Used(s.db.credit, mcId) + PromisedTotal(ks, s, mcId)
            && (Used(done.db.credit, mcId) <= done.db.credit.limits[mcId].totalLimit <==>
                Used(s.db.credit, mcId) + PromisedTotal(ks, s, mcId) <= s.db.credit.limits[mcId].totalLimit)
  {
    var done := CommitInTurn(ks, Run(ks, steps), turns);
    FundedOnceInRun(ks, steps, 0);
    AllCommit(ks, Run(ks, steps), turns, mcId);
    NothingPromised(ks, done, mcId, |done.db.invoices|);
  }

  // ---- Calls for different invoices

  /** Calls for different invoices, none of them funded before. */
  ghost predicate FreshCalls(ks: KeyScheme, db: Db, calls: seq<Invoices.FundCall>) {
    && (forall i, j :: 0 <= i < j < |calls| ==> calls[i].id != calls[j].id)
    && (forall j :: 0 <= j < |calls| ==> FitsInvoice(db, calls[j]) && !LogHasKey(db.credit.changeLog, ks(FundingCreditKey(calls[j].id))))
  }

  lemma InFlightAppend(pending: seq<Invoices.FundCall>, c: Invoices.FundCall, id: nat)
    ensures IsInFlight(pending + [c], id) <==> IsInFlight(pending, id) || c.id == id
  {
    var more := pending + [c];
    assert more[|pending|] == c;
    assert forall j :: 0 <= j < |pending| ==> more[j] == pending[j];
  }

  lemma PromisedWithOne(ks: KeyScheme, db: Db, earlier: seq<Invoices.FundCall>, c: Invoices.FundCall, mcId: nat)
    requires FitsInvoice(db, c) && !LogHasKey(db.credit.changeLog, ks(FundingCreditKey(c.id))) && !IsInFlight(earlier, c.id)
    ensures PromisedTotal(ks, State(db, earlier + [c]), mcId) == PromisedTotal(ks, State(db, earlier), mcId) + InFlightAmount(mcId)(c)
  {
    forall i | 0 <= i < |db.invoices|
      ensures Promised(ks, State(db, earlier + [c]), mcId, i)
           == (if i == c.id then InFlightAmount(mcId)(c) else Promised(ks, State(db, earlier), mcId, i))
    {
      InFlightAppend(earlier, c, i);
    }
    PromisedPoint(ks, State(db, earlier), State(db, earlier + [c]), mcId, |db.invoices|, c.id);
  }

  /** For such calls, what is promised is the sum of their amounts. */
  lemma {:induction false} PromisedOfDifferent(ks: KeyScheme, db: Db, pending: seq<Invoices.FundCall>, mcId: nat)
    requires FreshCalls(ks, db, pending)
    ensures PromisedTotal(ks, State(db, pending), mcId) == Sum(pending, InFlightAmount(mcId))
    decreases |pending|
  {
    if pending == [] {
      NothingPromised(ks, State(db, []), mcId, |db.invoices|);
    } else {
      var n := |pending| - 1;
      PromisedOfDifferent(ks, db, pending[..n], mcId);
      PromisedWithOne(ks, db, pending[..n], pending[n], mcId);
      assert pending == pending[..n] + [pending[n]];
    }
  }
}
