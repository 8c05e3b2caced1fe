/** A run from empty tables in which k fundings in flight overshoot the limit by k - 1 of their amounts. */
module CapReached {
  import opened Wrappers
  import opened Sums
  import opened StateMachine
  import opened Credit
  import opened Keys
  import opened Schema
  import opened Engine
  import opened Interleaving
  import opened CapTightness
  import opened Scenarios
  import Invoices

  /** Calls as steps that are not split. */
  function Others(calls: seq<Call>): seq<TimedStep> {
    if calls == [] then []
    else Others(calls[..|calls| - 1]) + [TimedStep(Other(calls[|calls| - 1].event), calls[|calls| - 1].now)]
  }

  /** What a run has kept to so far: funding is split, no more than k calls of at most the amount are in flight, and the
      limit was never above high. */
  datatype Bound = Bound(mcId: nat, k: nat, amount: nat, high: int)

  ghost predicate Within(b: Bound, pending: seq<Invoices.FundCall>) {
    && Sum(pending, InFlight(b.mcId)) <= b.k
    && forall j :: 0 <= j < |pending| && pending[j].mcId == b.mcId ==> pending[j].totalAmount <= b.amount
  }

  ghost predicate RunsTo(ks: KeyScheme, steps: seq<TimedStep>, b: Bound, s: State) {
    && Run(ks, steps) == s
    && AllSplit(steps) && AtMostInFlight(ks, steps, b.mcId, b.k, b.amount) && HighestLimit(steps, b.mcId) == b.high
  }

  /** A step's limit, if it sets the company's. */
  function LimitAfter(step: Step, b: Bound): int {
    match step
    case Other(SetLimit(m, totalLimit)) => if m == b.mcId then Max(b.high, totalLimit) else b.high
    case _ => b.high
  }

  lemma RunsOn(ks: KeyScheme, steps: seq<TimedStep>, b: Bound, s: State, t: TimedStep)
    requires RunsTo(ks, steps, b, s) && IsSplit(t.step) && Within(b, Interleaving.After(ks, s, t).pending)
    ensures RunsTo(ks, steps + [t], b.(high := LimitAfter(t.step, b)), Interleaving.After(ks, s, t))
  {
    assert (steps + [t])[..|steps|] == steps;
  }

  lemma NothingInFlight(b: Bound)
    ensures Within(b, [])
  {
  }

  lemma {:induction false} OthersRun(ks: KeyScheme, calls: seq<Call>, db: Db, b: Bound) returns (high: int)
    requires Engine.After(ks, calls) == db && b.high == 0
    requires forall j :: 0 <= j < |calls| ==> !calls[j].event.Fund?
    ensures RunsTo(ks, Others(calls), b.(high := high), State(db, [])) && high == HighestLimitSet(calls, b.mcId)
  {
    NothingInFlight(b);
    if calls == [] {
      high := 0;
    } else {
      var n := |calls| - 1;
      var t := TimedStep(Other(calls[n].event), calls[n].now);
      var before := Engine.After(ks, calls[..n]);
      var high0 := OthersRun(ks, calls[..n], before, b);
      RunsOn(ks, Others(calls[..n]), b.(high := high0), State(before, []), t);
      high := LimitAfter(t.step, b.(high := high0));
    }
  }

  // ---- The checks

  /** The calls in flight are the fundings of invoices 0 to n - 1. */
  ghost predicate FundingsOf(d: Deal, pending: seq<Invoices.FundCall>, n: nat) {
    |pending| == n && forall j :: 0 <= j < n ==> pending[j].id == j && pending[j].mcId == d.mcId && pending[j].totalAmount == d.amount
  }

  lemma {:induction false} FundingsSum(d: Deal, pending: seq<Invoices.FundCall>)
    requires forall j :: 0 <= j < |pending| ==> pending[j].mcId == d.mcId && pending[j].totalAmount == d.amount
    ensures Sum(pending, InFlight(d.mcId)) == |pending|
    ensures Sum(pending, InFlightAmount(d.mcId)) == |pending| * d.amount
  {
    if pending != [] {
      var n := |pending| - 1;
      FundingsSum(d, pending[..n]);
      assert (n + 1) * d.amount == n * d.amount + d.amount;
    }
  }

  lemma CheckPasses(ks: KeyScheme, db: Db, d: Deal, k: nat, i: nat, advancePct: int, pending: seq<Invoices.FundCall>)
    requires Ready(db, d, k) && i < k && d.amount <= d.cap && FundingsOf(d, pending, i)
    ensures var s' := AfterBegin(State(db, pending), i, advancePct);
            s'.db == db && FundingsOf(d, s'.pending, i + 1)
  {
    assert db.invoices[i] == ApprovedInvoice(d, i);
  }

  /** The run goes on with the checks of the first n fundings. */
  lemma {:induction false} ChecksRun(ks: KeyScheme, steps: seq<TimedStep>, b: Bound, db: Db, d: Deal, n: nat, advancePct: int)
    returns (steps': seq<TimedStep>, pending: seq<Invoices.FundCall>)
    requires Ready(db, d, b.k) && n <= b.k && d.amount <= d.cap && b.mcId == d.mcId && b.amount == d.amount
    requires RunsTo(ks, steps, b, State(db, []))
    ensures RunsTo(ks, steps', b, State(db, pending)) && FundingsOf(d, pending, n)
  {
    if n == 0 {
      steps', pending := steps, [];
    } else {
      var before, earlier := ChecksRun(ks, steps, b, db, d, n - 1, advancePct);
      CheckPasses(ks, db, d, b.k, n - 1, advancePct, earlier);
      var t := TimedStep(Begin(n - 1, advancePct), d.now);
      pending := AfterBegin(State(db, earlier), n - 1, advancePct).pending;
      FundingsSum(d, pending);
      RunsOn(ks, before, b, State(db, earlier), t);
      steps' := before + [t];
    }
  }

  // ---- The transactions

  lemma RunsOnCommit(ks: KeyScheme, steps: seq<TimedStep>, b: Bound, s: State, now: int)
    requires RunsTo(ks, steps, b, s) && Within(b, AfterCommit(ks, s, 0, now).pending)
    ensures RunsTo(ks, steps + [TimedStep(Commit(0), now)], b, AfterCommit(ks, s, 0, now))
  {
    RunsOn(ks, steps, b, s, TimedStep(Commit(0), now));
  }

  lemma FewerWithin(b: Bound, d: Deal, pending: seq<Invoices.FundCall>, n: nat)
    requires b.mcId == d.mcId && b.amount == d.amount && FundingsOf(d, pending, b.k) && n <= b.k
    ensures Within(b, pending[n..])
  {
    FundingsSum(d, pending[n..]);
  }

  /** The first n calls in flight have run their transactions. */
  ghost predicate Reached(ks: KeyScheme, s: State, s': State, n: nat, mcId: nat)
    requires n <= |s.pending|
  {
    s'.pending == s.pending[n..] && PendingOk(s') && KeepsPromise(ks, s, s', mcId)
  }

  lemma CommitReached(ks: KeyScheme, s: State, before: State, n: nat, now: int, mcId: nat)
    requires Injective(ks) && n < |s.pending| && Reached(ks, s, before, n, mcId)
    ensures Reached(ks, s, AfterCommit(ks, before, 0, now), n + 1, mcId)
  {
    assert FitsInvoice(before.db, before.pending[0]);
    assert RemoveAt(before.pending, 0) == s.pending[n + 1..];
    OneCommit(ks, before, 0, now, mcId);
  }

  lemma NextCommitRuns(ks: KeyScheme, steps: seq<TimedStep>, b: Bound, s: State, before: State, n: nat, now: int)
    returns (steps': seq<TimedStep>, s': State)
    requires Injective(ks) && n < |s.pending| && Reached(ks, s, before, n, b.mcId)
    requires RunsTo(ks, steps, b, before) && Within(b, s.pending[n + 1..])
    ensures RunsTo(ks, steps', b, s') && Reached(ks, s, s', n + 1, b.mcId)
  {
    CommitReached(ks, s, before, n, now, b.mcId);
    RunsOnCommit(ks, steps, b, before, now);
    steps', s' := steps + [TimedStep(Commit(0), now)], AfterCommit(ks, before, 0, now);
  }

  /** The run goes on with the transactions of the first n calls in flight. */
  lemma {:induction false} CommitsRun(ks: KeyScheme, steps: seq<TimedStep>, b: Bound, s: State, d: Deal, n: nat)
    returns (steps': seq<TimedStep>, s': State)
    requires Injective(ks) && PendingOk(s) && FundingsOf(d, s.pending, b.k) && n <= b.k
    requires b.mcId == d.mcId && b.amount == d.amount && RunsTo(ks, steps, b, s)
    ensures RunsTo(ks, steps', b, s') && Reached(ks, s, s', n, d.mcId)
  {
    if n == 0 {
      assert s.pending[0..] == s.pending;
      steps', s' := steps, s;
    } else {
      var before, earlier := CommitsRun(ks, steps, b, s, d, n - 1);
      FewerWithin(b, d, s.pending, n);
      steps', s' := NextCommitRuns(ks, before, b, s, earlier, n - 1, d.now);
    }
  }

  lemma ReadyIsFresh(ks: KeyScheme, db: Db, d: Deal, k: nat, pending: seq<Invoices.FundCall>)
    requires Ready(db, d, k) && FundingsOf(d, pending, k)
    ensures FreshCalls(ks, db, pending) && PendingOk(State(db, pending))
  {
    assert forall i: nat :: i < k ==> db.invoices[i] == ApprovedInvoice(d, i);
  }

  /** Whatever k and the amount are: k invoices of it are created and approved under a limit of just one, all k fundings
      pass their checks and then run their transactions. No more than k are ever in flight, and the counter ends k - 1
      amounts above the highest limit ever set, as far as the bound allows. */
  lemma CapIsReached(ks: KeyScheme, mcId: nat, amount: nat, k: nat, advancePct: int) returns (steps: seq<TimedStep>)
    requires Injective(ks) && 1 <= k
    ensures AllSplit(steps) && AtMostInFlight(ks, steps, mcId, k, amount)
    ensures HighestLimit(steps, mcId) == amount
    ensures Run(ks, steps).pending == []
    ensures Used(Run(ks, steps).db.credit, mcId) == HighestLimit(steps, mcId) + (k - 1) * amount
  {
    var d := Deal(0, mcId, amount, amount, 0);
    var calls, db := Prepared(ks, d, k);
    var b := Bound(mcId, k, amount, 0);
    var high := OthersRun(ks, calls, db, b);
    b := b.(high := high);
    var checked, pending := ChecksRun(ks, Others(calls), b, db, d, k, advancePct);
    ReadyIsFresh(ks, db, d, k, pending);
    var done: State;
    steps, done := CommitsRun(ks, checked, b, State(db, pending), d, k);
    assert pending[k..] == [];
    NothingPromised(ks, done, mcId, |done.db.invoices|);
    PromisedOfDifferent(ks, db, pending, mcId);
    FundingsSum(d, pending);
    assert k * amount == amount + (k - 1) * amount;
  }
}
