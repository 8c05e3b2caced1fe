/** Funding as it runs: the limit check and the transaction are separate steps, and other operations, other fundings
    and retries of the same funding may come between them. */
module Interleaving {
  import opened Wrappers
  import opened Sums
  import opened StateMachine
  import opened Credit
  import opened Ledger
  import opened Keys
  import opened Schema
  import opened Engine
  import opened LedgerWrites
  import opened MoneyTrail
  import Exposure
  import Histories
  import Invoices

  /** The tables, and the fund calls that have passed their checks and not yet run their transaction. */
  datatype State = State(db: Db, pending: seq<Invoices.FundCall>)

  datatype Step =
    | Begin(id: nat, advancePct: int)
    | Commit(k: nat)
    | Abandon(k: nat)
    | Other(event: Event)

  datatype TimedStep = TimedStep(step: Step, now: int)

  /** Fund calls are split into Begin and Commit, so no other step is one. */
  predicate IsSplit(s: Step) {
    s.Other? ==> !s.event.Fund?
  }

  predicate Commits(s: State, step: Step) {
    step.Commit? && step.k < |s.pending| && s.pending[step.k].id < |s.db.invoices|
  }

  function DbAfterCommit(ks: KeyScheme, db: Db, c: Invoices.FundCall, now: int): Db
    requires c.id < |db.invoices|
  {
    match Invoices.FundCommit(db, c, FundKeysFor(ks, c.id), now)
    case Ok(db') => db'
    case Err(_) => db
  }

  function AfterBegin(s: State, id: nat, advancePct: int): State {
    match Invoices.FundGuard(s.db, id, advancePct)
    case Ok(c) => s.(pending := s.pending + [c])
    case Err(_) => s
  }

  function AfterCommit(ks: KeyScheme, s: State, k: nat, now: int): State {
    if Commits(s, Commit(k)) then State(DbAfterCommit(ks, s.db, s.pending[k], now), RemoveAt(s.pending, k)) else s
  }

  function After(ks: KeyScheme, s: State, t: TimedStep): State {
    match t.step
    case Begin(id, advancePct) => AfterBegin(s, id, advancePct)
    case Commit(k) => AfterCommit(ks, s, k, t.now)
    case Abandon(k) => if k < |s.pending| then s.(pending := RemoveAt(s.pending, k)) else s
    case Other(e) => s.(db := Next(ks, s.db, Call(e, t.now)))
  }

  function Run(ks: KeyScheme, steps: seq<TimedStep>): State {
    if steps == [] then State(EMPTY, []) else After(ks, Run(ks, steps[..|steps| - 1]), steps[|steps| - 1])
  }

  ghost predicate AllSplit(steps: seq<TimedStep>) {
    forall j :: 0 <= j < |steps| ==> IsSplit(steps[j].step)
  }

  // ---- The limit

  function InFlight(mcId: nat): Invoices.FundCall -> int {
    (c: Invoices.FundCall) => if c.mcId == mcId then 1 else 0
  }

  function InFlightAmount(mcId: nat): Invoices.FundCall -> int {
    (c: Invoices.FundCall) => if c.mcId == mcId then c.totalAmount else 0
  }

  /** At no time are more than k of the company's fund calls in flight, nor any of more than the given amount. */
  ghost predicate AtMostInFlight(ks: KeyScheme, steps: seq<TimedStep>, mcId: nat, k: nat, amount: nat) {
    && (steps != [] ==> AtMostInFlight(ks, steps[..|steps| - 1], mcId, k, amount))
    && var pending := Run(ks, steps).pending;
    && Sum(pending, InFlight(mcId)) <= k
    && forall j :: 0 <= j < |pending| && pending[j].mcId == mcId ==> pending[j].totalAmount <= amount
  }

  /** The highest limit ever set for the company. */
  function HighestLimit(steps: seq<TimedStep>, mcId: nat): int {
    if steps == [] then 0
    else
      var n := |steps| - 1;
      var high := HighestLimit(steps[..n], mcId);
      match steps[n].step
      case Other(SetLimit(m, totalLimit)) => if m == mcId then Max(high, totalLimit) else high
      case _ => high
  }

  /** A step other than fund never raises a counter, and changes a limit only by setting it. */
  lemma OthersNeverRaise(ks: KeyScheme, db: Db, c: Call, mcId: nat)
    requires !c.event.Fund?
    ensures var db' := Next(ks, db, c);
            && Used(db'.credit, mcId) <= Used(db.credit, mcId)
            && db.credit.limits.Keys <= db'.credit.limits.Keys
            && (mcId in db'.credit.limits ==>
                  if c.event.SetLimit? && c.event.mcId == mcId then db'.credit.limits[mcId].totalLimit == c.event.totalLimit
                  else mcId in db.credit.limits && db'.credit.limits[mcId].totalLimit == db.credit.limits[mcId].totalLimit)
  {
    if Attempt(ks, db, c).Ok? {
      Exposure.CreditOfStep(ks, db, c);
    }
  }

  /** A commit raises its company's counter by its amount, or not at all if its key was used. */
  lemma CommitRaisesByAmount(ks: KeyScheme, db: Db, c: Invoices.FundCall, now: int, mcId: nat)
    requires c.id < |db.invoices|
    ensures var db' := DbAfterCommit(ks, db, c, now);
            && Used(db'.credit, mcId) <= Used(db.credit, mcId) + (if c.mcId == mcId then c.totalAmount else 0)
            && db'.credit.limits.Keys == db.credit.limits.Keys
            && (mcId in db.credit.limits ==> db'.credit.limits[mcId].totalLimit == db.credit.limits[mcId].totalLimit)
  {
    assert db.credit.limits.Keys == DbAfterCommit(ks, db, c, now).credit.limits.Keys;
  }

  lemma {:induction false} AmountsWithin(pending: seq<Invoices.FundCall>, mcId: nat, amount: nat)
    requires forall j :: 0 <= j < |pending| && pending[j].mcId == mcId ==> pending[j].totalAmount <= amount
    ensures Sum(pending, InFlightAmount(mcId)) <= Sum(pending, InFlight(mcId)) * amount
  {
    if pending != [] {
      var n := |pending| - 1;
      AmountsWithin(pending[..n], mcId, amount);
      var count := Sum(pending[..n], InFlight(mcId));
      if pending[n].mcId == mcId {
        assert (count + 1) * amount == count * amount + amount;
      }
    }
  }

  ghost predicate WithinCap(s: State, mcId: nat, high: int, k: nat, amount: nat)
    requires 1 <= k
  {
    && Used(s.db.credit, mcId) + Sum(s.pending, InFlightAmount(mcId)) <= high + (k - 1) * amount
    && (mcId in s.db.credit.limits ==> s.db.credit.limits[mcId].totalLimit <= high)
  }

  lemma BeginStaysWithinCap(ks: KeyScheme, s: State, t: TimedStep, mcId: nat, high: int, k: nat, amount: nat)
    requires 1 <= k && WithinCap(s, mcId, high, k, amount) && t.step.Begin?
    requires var pending := After(ks, s, t).pending;
             && Sum(pending, InFlight(mcId)) <= k
             && forall j :: 0 <= j < |pending| && pending[j].mcId == mcId ==> pending[j].totalAmount <= amount
    ensures WithinCap(After(ks, s, t), mcId, high, k, amount)
  {
    match Invoices.FundGuard(s.db, t.step.id, t.step.advancePct) {
      case Ok(c) => NewCallStaysWithinCap(s, c, mcId, high, k, amount);
      case Err(_) =>
    }
  }

  lemma NewCallStaysWithinCap(s: State, c: Invoices.FundCall, mcId: nat, high: int, k: nat, amount: nat)
    requires 1 <= k && WithinCap(s, mcId, high, k, amount)
    requires LimitCheck(s.db.credit, c.mcId, c.totalAmount).None?
    requires Sum(s.pending + [c], InFlight(mcId)) <= k
    requires forall j :: 0 <= j < |s.pending + [c]| && (s.pending + [c])[j].mcId == mcId ==> (s.pending + [c])[j].totalAmount <= amount
    ensures WithinCap(State(s.db, s.pending + [c]), mcId, high, k, amount)
  {
    SumAppend(s.pending, c, InFlight(mcId));
    SumAppend(s.pending, c, InFlightAmount(mcId));
    if c.mcId == mcId {
      assert forall j :: 0 <= j < |s.pending| ==> s.pending[j] == (s.pending + [c])[j];
      AmountsWithin(s.pending, mcId, amount);
      Multiply(Sum(s.pending, InFlight(mcId)), k - 1, amount);
    }
  }

  lemma Multiply(a: int, b: int, c: nat)
    requires a <= b
    ensures a * c <= b * c
  {
  }

  lemma StepStaysWithinCap(ks: KeyScheme, s: State, t: TimedStep, mcId: nat, high: int, high': int, k: nat, amount: nat)
    requires 1 <= k && WithinCap(s, mcId, high, k, amount) && IsSplit(t.step) && !t.step.Begin?
    requires high <= high'
    requires t.step.Other? && t.step.event.SetLimit? && t.step.event.mcId == mcId ==> t.step.event.totalLimit <= high'
    ensures WithinCap(After(ks, s, t), mcId, high', k, amount)
  {
    match t.step {
      case Commit(i) =>
        if Commits(s, t.step) {
          CommitRaisesByAmount(ks, s.db, s.pending[i], t.now, mcId);
          SumRemove(s.pending, i, InFlightAmount(mcId));
        }
      case Abandon(i) =>
        if i < |s.pending| {
          SumRemove(s.pending, i, InFlightAmount(mcId));
        }
      case Other(e) => OthersNeverRaise(ks, s.db, Call(e, t.now), mcId);
    }
  }

  /** With at most k of a company's fund calls in flight, each of at most the given amount, what it uses together with
      what is in flight never exceeds the highest limit ever set by more than k - 1 such amounts, whatever other
      operations, retries and limit changes come in between. */
  lemma {:induction false} CapUnderInterleaving(ks: KeyScheme, steps: seq<TimedStep>, mcId: nat, k: nat, amount: nat)
    requires 1 <= k && AllSplit(steps) && AtMostInFlight(ks, steps, mcId, k, amount)
    ensures var s := Run(ks, steps);
            && Used(s.db.credit, mcId) + Sum(s.pending, InFlightAmount(mcId)) <= HighestLimit(steps, mcId) + (k - 1) * amount
            && (mcId in s.db.credit.limits ==> s.db.credit.limits[mcId].totalLimit <= HighestLimit(steps, mcId))
  {
    if steps == [] {
      Multiply(0, k - 1, amount);
    } else {
      var n := |steps| - 1;
      CapUnderInterleaving(ks, steps[..n], mcId, k, amount);
      var s, t := Run(ks, steps[..n]), steps[n];
      var high := HighestLimit(steps[..n], mcId);
      if t.step.Begin? {
        BeginStaysWithinCap(ks, s, t, mcId, high, k, amount);
      } else {
        StepStaysWithinCap(ks, s, t, mcId, high, HighestLimit(steps, mcId), k, amount);
      }
      assert WithinCap(After(ks, s, t), mcId, HighestLimit(steps, mcId), k, amount);
    }
  }

  /** Calls that run one after the other: the counter never exceeds the highest limit ever set. */
  lemma {:induction false} CapInSequence(ks: KeyScheme, calls: seq<Call>, mcId: nat)
    ensures var t := Engine.After(ks, calls).credit;
            && Used(t, mcId) <= HighestLimitSet(calls, mcId)
            && (mcId in t.limits ==> t.limits[mcId].totalLimit <= HighestLimitSet(calls, mcId))
  {
    if calls != [] {
      var n := |calls| - 1;
      var db, c := Engine.After(ks, calls[..n]), calls[n];
      CapInSequence(ks, calls[..n], mcId);
      if !c.event.Fund? {
        OthersNeverRaise(ks, db, c, mcId);
      } else {
        FundStaysUnderLimit(ks, db, c, mcId);
      }
    }
  }

  lemma FundStaysUnderLimit(ks: KeyScheme, db: Db, c: Call, mcId: nat)
    requires c.event.Fund?
    ensures var t, t' := db.credit, Next(ks, db, c).credit;
            && (mcId in t'.limits <==> mcId in t.limits)
            && (mcId in t.limits ==> t'.limits[mcId].totalLimit == t.limits[mcId].totalLimit)
            && (Used(t', mcId) == Used(t, mcId) || (mcId in t.limits && Used(t', mcId) <= t.limits[mcId].totalLimit))
  {
    if Attempt(ks, db, c).Ok? {
      Exposure.CreditOfStep(ks, db, c);
    }
  }

  function HighestLimitSet(calls: seq<Call>, mcId: nat): int {
    if calls == [] then 0
    else
      var n := |calls| - 1;
      var high := HighestLimitSet(calls[..n], mcId);
      match calls[n].event
      case SetLimit(m, totalLimit) => if m == mcId then Max(high, totalLimit) else high
      case _ => high
  }

  // ---- Retries

  /** Some fund call for the invoice ran its transaction. */
  ghost predicate Committed(ks: KeyScheme, steps: seq<TimedStep>, id: nat) {
    steps != [] &&
    var n := |steps| - 1;
    var s, step := Run(ks, steps[..n]), steps[n].step;
    Committed(ks, steps[..n], id) || (Commits(s, step) && s.pending[step.k].id == id)
  }

  function FundingRow(id: nat): ChangeRow -> bool {
    (row: ChangeRow) => row.reason == InvoiceFunded && row.invoiceId == Some(id)
  }

  /** The call is for a known invoice, carries its company and amount, and the company has a limit. */
  ghost predicate FitsInvoice(db: Db, c: Invoices.FundCall) {
    && c.id < |db.invoices| && c.mcId in db.credit.limits
    && c.mcId == db.invoices[c.id].mcId && c.totalAmount == db.invoices[c.id].totalAmount
  }

  ghost predicate PendingOk(s: State) {
    forall j :: 0 <= j < |s.pending| ==> FitsInvoice(s.db, s.pending[j])
  }

  /** Invoices stay, with their company and amount. */
  ghost predicate KeepsAmounts(db: Db, db': Db) {
    && |db.invoices| <= |db'.invoices|
    && forall i :: 0 <= i < |db.invoices| ==>
         db'.invoices[i].mcId == db.invoices[i].mcId && db'.invoices[i].totalAmount == db.invoices[i].totalAmount
  }

  /** The funding records of an invoice stand under their keys: none, or one of each. */
  ghost predicate FundedOnce(ks: KeyScheme, db: Db, id: nat, committed: bool) {
    && (HasKey(db.ledger, ks(DisbursementKey(id))) <==> committed)
    && (HasKey(db.ledger, ks(ReserveHoldKey(id))) <==> committed)
    && (LogHasKey(db.credit.changeLog, ks(FundingCreditKey(id))) <==> committed)
    && |Filter(db.credit.changeLog, FundingRow(id))| == One(committed)
  }

  lemma {:induction false} WrittenKeys(ks: KeyScheme, ledger: seq<LedgerEntry>, written: seq<Written>, key: string)
    requires forall j :: 0 <= j < |written| ==> written[j].entry.key != key
    ensures HasKey(RecordWritten(ledger, written), key) <==> HasKey(ledger, key)
  {
    if written != [] {
      var n := |written| - 1;
      WrittenKeys(ks, ledger, written[..n], key);
      RecordKeys(RecordWritten(ledger, written[..n]), written[n].entry, key);
    }
  }

  lemma LogAfterDelta(ks: KeyScheme, t: CreditTables, r: DeltaRequest, id: nat)
    requires Injective(ks) && ApplyDelta(t, r).Ok?
    requires r.reason != InvoiceFunded && exists name: KeyName :: r.key == ks(name) && !name.FundingCreditKey?
    ensures var log' := ApplyDelta(t, r).value.changeLog;
            && (LogHasKey(log', ks(FundingCreditKey(id))) <==> LogHasKey(t.changeLog, ks(FundingCreditKey(id))))
            && Filter(log', FundingRow(id)) == Filter(t.changeLog, FundingRow(id))
  {
    Exposure.AppliedKeys(t, r, ks(FundingCreditKey(id)));
    var t' := ApplyDelta(t, r).value;
    if t' != t {
      FilterAppend(t.changeLog, t'.changeLog[|t.changeLog|], FundingRow(id));
    }
  }

  lemma OtherKeepsFundedOnce(ks: KeyScheme, db: Db, c: Call, id: nat, committed: bool)
    requires Injective(ks) && FundedOnce(ks, db, id, committed) && !c.event.Fund?
    ensures FundedOnce(ks, Next(ks, db, c), id, committed)
  {
    if Attempt(ks, db, c).Ok? {
      LedgerOfStep(ks, db, c);
      WrittenFit(ks, db, c.event);
      WrittenKeys(ks, db.ledger, WrittenBy(ks, db, c.event), ks(DisbursementKey(id)));
      WrittenKeys(ks, db.ledger, WrittenBy(ks, db, c.event), ks(ReserveHoldKey(id)));
      LogOfOther(ks, db, c, id);
    }
  }

  lemma LogOfOther(ks: KeyScheme, db: Db, c: Call, id: nat)
    requires Injective(ks) && !c.event.Fund? && Attempt(ks, db, c).Ok?
    ensures var log, log' := db.credit.changeLog, Attempt(ks, db, c).value.credit.changeLog;
            && (LogHasKey(log', ks(FundingCreditKey(id))) <==> LogHasKey(log, ks(FundingCreditKey(id))))
            && Filter(log', FundingRow(id)) == Filter(log, FundingRow(id))
  {
    Exposure.CreditOfStep(ks, db, c);
    if Exposure.DeltaOf(ks, db, c.event).Some? {
      LogAfterDelta(ks, db.credit, Exposure.DeltaOf(ks, db, c.event).value, id);
    }
  }

  lemma CommitRecords(ks: KeyScheme, db: Db, c: Invoices.FundCall, now: int)
    requires c.id < |db.invoices| && c.mcId in db.credit.limits
    ensures var db' := DbAfterCommit(ks, db, c, now);
            && db'.ledger == Record(Record(db.ledger, Invoices.DisbursementEntry(c, ks(DisbursementKey(c.id)))),
                                    Invoices.ReserveHoldEntry(c, ks(ReserveHoldKey(c.id))))
            && ApplyDelta(db.credit, Invoices.FundingDelta(c, ks(FundingCreditKey(c.id)))) == Ok(db'.credit)
            && |db'.invoices| == |db.invoices|
  {
  }

  lemma CommitKeepsFundedOnce(ks: KeyScheme, db: Db, c: Invoices.FundCall, now: int, id: nat, committed: bool)
    requires Injective(ks) && FundedOnce(ks, db, id, committed)
    requires c.id < |db.invoices| && c.mcId in db.credit.limits
    ensures FundedOnce(ks, DbAfterCommit(ks, db, c, now), id, committed || c.id == id)
  {
    var db' := DbAfterCommit(ks, db, c, now);
    CommitRecords(ks, db, c, now);
    var d := Invoices.DisbursementEntry(c, ks(DisbursementKey(c.id)));
    var h := Invoices.ReserveHoldEntry(c, ks(ReserveHoldKey(c.id)));
    CommitLedgerKeys(ks, db.ledger, d, h, c.id, id);
    CommitLog(ks, db.credit, c, id);
  }

  lemma CommitLedgerKeys(ks: KeyScheme, ledger: seq<LedgerEntry>, d: LedgerEntry, h: LedgerEntry, funded: nat, id: nat)
    requires Injective(ks) && d.key == ks(DisbursementKey(funded)) && h.key == ks(ReserveHoldKey(funded))
    ensures var ledger' := Record(Record(ledger, d), h);
            && (HasKey(ledger', ks(DisbursementKey(id))) <==> HasKey(ledger, ks(DisbursementKey(id))) || id == funded)
            && (HasKey(ledger', ks(ReserveHoldKey(id))) <==> HasKey(ledger, ks(ReserveHoldKey(id))) || id == funded)
  {
    RecordKeys(ledger, d, ks(DisbursementKey(id)));
    RecordKeys(ledger, d, ks(ReserveHoldKey(id)));
    RecordKeys(Record(ledger, d), h, ks(DisbursementKey(id)));
    RecordKeys(Record(ledger, d), h, ks(ReserveHoldKey(id)));
  }

  lemma CommitLog(ks: KeyScheme, t: CreditTables, c: Invoices.FundCall, id: nat)
    requires Injective(ks) && c.mcId in t.limits
    requires |Filter(t.changeLog, FundingRow(id))| == One(LogHasKey(t.changeLog, ks(FundingCreditKey(id))))
    ensures var r := Invoices.FundingDelta(c, ks(FundingCreditKey(c.id)));
            var log' := ApplyDelta(t, r).value.changeLog;
            && ApplyDelta(t, r).Ok?
            && (LogHasKey(log', ks(FundingCreditKey(id))) <==> LogHasKey(t.changeLog, ks(FundingCreditKey(id))) || id == c.id)
            && |Filter(log', FundingRow(id))| == One(LogHasKey(log', ks(FundingCreditKey(id))))
  {
    var r := Invoices.FundingDelta(c, ks(FundingCreditKey(c.id)));
    var t' := ApplyDelta(t, r).value;
    Exposure.AppliedKeys(t, r, ks(FundingCreditKey(id)));
    if t' != t {
      FilterAppend(t.changeLog, t'.changeLog[|t.changeLog|], FundingRow(id));
    }
  }

  lemma OtherKeepsPending(ks: KeyScheme, s: State, t: TimedStep)
    requires PendingOk(s) && t.step.Other?
    ensures PendingOk(After(ks, s, t))
  {
    var c := Call(t.step.event, t.now);
    if Attempt(ks, s.db, c).Ok? {
      AmountsKept(ks, s.db, c);
      Exposure.CreditOfStep(ks, s.db, c);
    }
  }

  lemma AmountsKept(ks: KeyScheme, db: Db, c: Call)
    requires Attempt(ks, db, c).Ok?
    ensures KeepsAmounts(db, Attempt(ks, db, c).value)
  {
    var db' := Attempt(ks, db, c).value;
    if Exposure.NamesItsStart(c.event) {
      Exposure.HandlerChanges(ks, db, c);
    } else {
      ShapeOfStep(ks, db, c);
      if c.event.Create? {
        assert forall i :: 0 <= i < |db.invoices| ==> db'.invoices[i] == db'.invoices[..|db.invoices|][i];
      }
    }
  }

  lemma CommitStepKeepsFundedOnce(ks: KeyScheme, s: State, t: TimedStep, id: nat, committed: bool)
    requires Injective(ks) && Commits(s, t.step) && PendingOk(s) && FundedOnce(ks, s.db, id, committed)
    ensures FundedOnce(ks, After(ks, s, t).db, id, committed || s.pending[t.step.k].id == id)
  {
    CommitKeepsFundedOnce(ks, s.db, s.pending[t.step.k], t.now, id, committed);
  }

  lemma PendingAfterCommit(ks: KeyScheme, s: State, k: nat, now: int)
    requires PendingOk(s) && k < |s.pending|
    ensures PendingOk(AfterCommit(ks, s, k, now))
  {
    assert FitsInvoice(s.db, s.pending[k]);
    CommitMovesInvoice(ks, s.db, s.pending[k], now);
    CommitRaisesByAmount(ks, s.db, s.pending[k], now, 0);
    PendingAfterRemoval(s, AfterCommit(ks, s, k, now), k);
  }

  lemma PendingAfterRemoval(s: State, s': State, k: nat)
    requires PendingOk(s) && k < |s.pending| && s'.pending == RemoveAt(s.pending, k)
    requires KeepsAmounts(s.db, s'.db) && s'.db.credit.limits.Keys == s.db.credit.limits.Keys
    ensures PendingOk(s')
  {
  }

  lemma StepKeepsFundedOnce(ks: KeyScheme, s: State, t: TimedStep, id: nat, committed: bool)
    requires Injective(ks) && IsSplit(t.step) && PendingOk(s) && FundedOnce(ks, s.db, id, committed)
    ensures PendingOk(After(ks, s, t))
    ensures FundedOnce(ks, After(ks, s, t).db, id, committed || (Commits(s, t.step) && s.pending[t.step.k].id == id))
  {
    if Commits(s, t.step) {
      CommitStepKeepsFundedOnce(ks, s, t, id, committed);
      PendingAfterCommit(ks, s, t.step.k, t.now);
    } else if t.step.Other? {
      OtherKeepsPending(ks, s, t);
      OtherKeepsFundedOnce(ks, s.db, Call(t.step.event, t.now), id, committed);
    } else {
      GuardsOnly(ks, s, t);
    }
  }

  /** Begin and Abandon leave the tables alone. */
  lemma GuardsOnly(ks: KeyScheme, s: State, t: TimedStep)
    requires PendingOk(s) && !Commits(s, t.step) && !t.step.Other?
    ensures After(ks, s, t).db == s.db && PendingOk(After(ks, s, t))
  {
    if t.step.Abandon? && t.step.k < |s.pending| {
      PendingAfterRemoval(s, After(ks, s, t), t.step.k);
    }
  }

  lemma {:induction false} FundedOnceInRun(ks: KeyScheme, steps: seq<TimedStep>, id: nat)
    requires Injective(ks) && AllSplit(steps)
    ensures PendingOk(Run(ks, steps)) && FundedOnce(ks, Run(ks, steps).db, id, Committed(ks, steps, id))
  {
    if steps != [] {
      var n := |steps| - 1;
      FundedOnceInRun(ks, steps[..n], id);
      StepKeepsFundedOnce(ks, Run(ks, steps[..n]), steps[n], id, Committed(ks, steps[..n], id));
    }
  }

  lemma PendingOkInRun(ks: KeyScheme, steps: seq<TimedStep>)
    requires Injective(ks) && AllSplit(steps)
    ensures PendingOk(Run(ks, steps))
  {
    FundedOnceInRun(ks, steps, 0);
  }

  lemma CommitKeepsOncePerKey(ks: KeyScheme, db: Db, c: Invoices.FundCall, now: int)
    requires Injective(ks) && OncePerKey(ks, db.ledger) && c.id < |db.invoices| && c.mcId in db.credit.limits
    ensures OncePerKey(ks, DbAfterCommit(ks, db, c, now).ledger)
  {
    CommitRecords(ks, db, c, now);
    var d := Invoices.DisbursementEntry(c, ks(DisbursementKey(c.id)));
    var h := Invoices.ReserveHoldEntry(c, ks(ReserveHoldKey(c.id)));
    RecordKeepsOncePerKey(ks, db.ledger, d, DisbursementKey(c.id));
    RecordKeepsOncePerKey(ks, Record(db.ledger, d), h, ReserveHoldKey(c.id));
  }

  lemma StepKeepsOncePerKey(ks: KeyScheme, s: State, t: TimedStep)
    requires Injective(ks) && OncePerKey(ks, s.db.ledger) && PendingOk(s)
    ensures OncePerKey(ks, After(ks, s, t).db.ledger)
  {
    if t.step.Other? {
      OncePerKeyAfterStep(ks, s.db, Call(t.step.event, t.now));
    } else if Commits(s, t.step) {
      CommitStepKeepsOncePerKey(ks, s, t);
    } else {
      GuardsOnly(ks, s, t);
    }
  }

  lemma CommitStepKeepsOncePerKey(ks: KeyScheme, s: State, t: TimedStep)
    requires Injective(ks) && OncePerKey(ks, s.db.ledger) && PendingOk(s) && Commits(s, t.step)
    ensures OncePerKey(ks, After(ks, s, t).db.ledger)
  {
    CommitKeepsOncePerKey(ks, s.db, s.pending[t.step.k], t.now);
  }

  lemma {:induction false} OncePerKeyInRun(ks: KeyScheme, steps: seq<TimedStep>)
    requires Injective(ks) && AllSplit(steps)
    ensures OncePerKey(ks, Run(ks, steps).db.ledger)
  {
    if steps != [] {
      var n := |steps| - 1;
      OncePerKeyInRun(ks, steps[..n]);
      PendingOkInRun(ks, steps[..n]);
      StepKeepsOncePerKey(ks, Run(ks, steps[..n]), steps[n]);
    }
  }

  /** However the retries of a funding interleave, among themselves and with everything else, the invoice has exactly
      one disbursement, one reserve hold and one exposure row once one of them commits, and none before. */
  lemma RetriesFundOnce(ks: KeyScheme, steps: seq<TimedStep>, id: nat)
    requires Injective(ks) && AllSplit(steps)
    ensures var db := Run(ks, steps).db;
            var count := One(Committed(ks, steps, id));
            && |TrailOf(db.ledger, id).disbursed| == count
            && |TrailOf(db.ledger, id).held| == count
            && |Filter(db.credit.changeLog, FundingRow(id))| == count
  {
    FundedOnceInRun(ks, steps, id);
    OncePerKeyInRun(ks, steps);
  }

  /** Under any interleaving the transaction of a call in flight finds its company's limit row, so it goes through. */
  lemma CommitsAreAccepted(ks: KeyScheme, steps: seq<TimedStep>, k: nat, now: int)
    requires Injective(ks) && AllSplit(steps) && k < |Run(ks, steps).pending|
    ensures var s := Run(ks, steps);
            && s.pending[k].id < |s.db.invoices|
            && Invoices.FundCommit(s.db, s.pending[k], FundKeysFor(ks, s.pending[k].id), now).Ok?
  {
    FundedOnceInRun(ks, steps, 0);
    AcceptedIfLimit(ks, Run(ks, steps).db, Run(ks, steps).pending[k], now);
  }

  lemma AcceptedIfLimit(ks: KeyScheme, db: Db, c: Invoices.FundCall, now: int)
    requires c.id < |db.invoices| && c.mcId in db.credit.limits
    ensures Invoices.FundCommit(db, c, FundKeysFor(ks, c.id), now).Ok?
  {
  }

  // ---- Late commits

  /** A fund transaction that starts late leaves the counter short of the funded total by the invoice's amount exactly
      when the invoice has been settled, charged back or written off meanwhile; so the two still agree if and only if
      it has not been, or its amount is zero. The history stays a walk only if the invoice still awaits funding. */
  lemma LateCommit(ks: KeyScheme, db: Db, c: Invoices.FundCall, now: int)
    requires Injective(ks) && Exposure.CreditOk(ks, db) && Histories.PathsOk(db) && FitsInvoice(db, c)
    ensures var db' := DbAfterCommit(ks, db, c, now);
            var s := db.invoices[c.id].status;
            && (Exposure.CreditOk(ks, db') <==> !IsResolved(s))
            && Exposure.FundedTotal(db'.invoices, c.mcId) - Used(db'.credit, c.mcId) == (if IsResolved(s) then c.totalAmount else 0)
            && (Exposure.CountersAgree(db') <==> !IsResolved(s) || c.totalAmount == 0)
            && (Histories.PathsOk(db') <==> s == ApprovedForFunding)
  {
    LateCredit(ks, db, c, now);
    LateCounters(ks, db, c, now);
    LatePath(ks, db, c, now);
  }

  lemma StatusAfterCommit(ks: KeyScheme, db: Db, c: Invoices.FundCall, now: int, i: nat)
    requires c.id < |db.invoices| && c.mcId in db.credit.limits
    ensures StatusOf(DbAfterCommit(ks, db, c, now), i) == (if i == c.id then Funded else StatusOf(db, i))
  {
    CommitMovesInvoice(ks, db, c, now);
  }

  lemma KeysAfterCommit(ks: KeyScheme, db: Db, c: Invoices.FundCall, now: int, i: nat)
    requires Injective(ks) && c.id < |db.invoices| && c.mcId in db.credit.limits
    ensures var log, log' := db.credit.changeLog, DbAfterCommit(ks, db, c, now).credit.changeLog;
            && (LogHasKey(log', ks(FundingCreditKey(i))) <==> LogHasKey(log, ks(FundingCreditKey(i))) || i == c.id)
            && (LogHasKey(log', ks(SettlementCreditKey(i))) <==> LogHasKey(log, ks(SettlementCreditKey(i))))
            && (LogHasKey(log', ks(ChargebackCreditKey(i))) <==> LogHasKey(log, ks(ChargebackCreditKey(i))))
  {
    CommitRecords(ks, db, c, now);
    Exposure.NewCreditKeys(ks, db.credit, DbAfterCommit(ks, db, c, now).credit,
                           Invoices.FundingDelta(c, ks(FundingCreditKey(c.id))), FundingCreditKey(c.id), i);
  }

  /** What the log's keys say about one invoice is right. */
  ghost predicate KeysFit(ks: KeyScheme, log: seq<ChangeRow>, i: nat, s: Status) {
    && (LogHasKey(log, ks(FundingCreditKey(i))) <==> EverFunded(s))
    && (LogHasKey(log, ks(SettlementCreditKey(i))) <==> s == Settled)
    && (LogHasKey(log, ks(ChargebackCreditKey(i))) <==> EverChargedBack(s))
  }

  lemma AllKeysFit(ks: KeyScheme, db: Db)
    ensures Exposure.CreditKeysOk(ks, db) <==> forall i: nat :: KeysFit(ks, db.credit.changeLog, i, StatusOf(db, i))
  {
    if Exposure.CreditKeysOk(ks, db) {
      forall i: nat ensures KeysFit(ks, db.credit.changeLog, i, StatusOf(db, i)) {
        assert LogHasKey(db.credit.changeLog, ks(FundingCreditKey(i))) <==> EverFunded(StatusOf(db, i));
      }
    }
    if forall i: nat :: KeysFit(ks, db.credit.changeLog, i, StatusOf(db, i)) {
      forall i: nat
        ensures LogHasKey(db.credit.changeLog, ks(FundingCreditKey(i))) <==> EverFunded(StatusOf(db, i))
        ensures LogHasKey(db.credit.changeLog, ks(SettlementCreditKey(i))) <==> StatusOf(db, i) == Settled
        ensures LogHasKey(db.credit.changeLog, ks(ChargebackCreditKey(i))) <==> EverChargedBack(StatusOf(db, i))
      {
        assert KeysFit(ks, db.credit.changeLog, i, StatusOf(db, i));
      }
    }
  }

  /** A transaction leaves the keys right for every invoice, its own excepted if it was late. */
  lemma KeysFitAfterCommit(ks: KeyScheme, db: Db, c: Invoices.FundCall, now: int, i: nat)
    requires Injective(ks) && c.id < |db.invoices| && c.mcId in db.credit.limits
    requires KeysFit(ks, db.credit.changeLog, i, StatusOf(db, i))
    ensures var db' := DbAfterCommit(ks, db, c, now);
            KeysFit(ks, db'.credit.changeLog, i, StatusOf(db', i)) <==> i != c.id || !IsResolved(StatusOf(db, i))
  {
    KeysAfterCommit(ks, db, c, now, i);
    StatusAfterCommit(ks, db, c, now, i);
  }

  lemma LateKeys(ks: KeyScheme, db: Db, c: Invoices.FundCall, now: int)
    requires Injective(ks) && Exposure.CreditKeysOk(ks, db) && c.id < |db.invoices| && c.mcId in db.credit.limits
    ensures Exposure.CreditKeysOk(ks, DbAfterCommit(ks, db, c, now)) <==> !IsResolved(StatusOf(db, c.id))
  {
    var db' := DbAfterCommit(ks, db, c, now);
    AllKeysFit(ks, db);
    AllKeysFit(ks, db');
    forall i: nat
      ensures KeysFit(ks, db'.credit.changeLog, i, StatusOf(db', i)) <==> i != c.id || !IsResolved(StatusOf(db, i))
    {
      assert KeysFit(ks, db.credit.changeLog, i, StatusOf(db, i));
      KeysFitAfterCommit(ks, db, c, now, i);
    }
  }

  lemma LimitsAfterCommit(ks: KeyScheme, db: Db, c: Invoices.FundCall, now: int)
    requires Exposure.FundedHaveLimits(db) && FitsInvoice(db, c)
    ensures Exposure.FundedHaveLimits(DbAfterCommit(ks, db, c, now))
  {
    CommitRaisesByAmount(ks, db, c, now, 0);
    CommitMovesInvoice(ks, db, c, now);
  }

  lemma LateCredit(ks: KeyScheme, db: Db, c: Invoices.FundCall, now: int)
    requires Injective(ks) && Exposure.CreditOk(ks, db) && FitsInvoice(db, c)
    ensures Exposure.CreditOk(ks, DbAfterCommit(ks, db, c, now)) <==> !IsResolved(db.invoices[c.id].status)
  {
    CommitRecords(ks, db, c, now);
    ApplyDeltaKeepsLog(db.credit, Invoices.FundingDelta(c, ks(FundingCreditKey(c.id))));
    LimitsAfterCommit(ks, db, c, now);
    LateKeys(ks, db, c, now);
    LateCounters(ks, db, c, now);
  }

  /** No transaction is late, and handlers are called on invoices that have never been funded. */
  ghost predicate IsPunctual(s: State, step: Step) {
    match step
    case Commit(k) => Commits(s, step) ==> !IsResolved(s.db.invoices[s.pending[k].id].status)
    case Other(e) => !e.Fund? && SparesFunded(s.db, e)
    case _ => true
  }

  ghost predicate Punctual(ks: KeyScheme, steps: seq<TimedStep>) {
    steps == [] ||
    var n := |steps| - 1;
    Punctual(ks, steps[..n]) && IsPunctual(Run(ks, steps[..n]), steps[n].step)
  }

  lemma {:induction false} PunctualIsSplit(ks: KeyScheme, steps: seq<TimedStep>)
    requires Punctual(ks, steps)
    ensures AllSplit(steps)
  {
    if steps != [] {
      PunctualIsSplit(ks, steps[..|steps| - 1]);
    }
  }

  lemma CreditAfterStep(ks: KeyScheme, s: State, t: TimedStep)
    requires Injective(ks) && PendingOk(s) && Exposure.CreditOk(ks, s.db) && IsPunctual(s, t.step)
    ensures Exposure.CreditOk(ks, After(ks, s, t).db)
  {
    if t.step.Other? {
      Exposure.CreditAfterStep(ks, s.db, Call(t.step.event, t.now));
    } else if Commits(s, t.step) {
      LateCredit(ks, s.db, s.pending[t.step.k], t.now);
    } else {
      GuardsOnly(ks, s, t);
    }
  }

  /** However fundings interleave with each other and with everything else, the counters agree with the funded invoices
      and with the change log all along, as long as no transaction is late. */
  lemma {:induction false} CreditUnderInterleaving(ks: KeyScheme, steps: seq<TimedStep>)
    requires Injective(ks) && Punctual(ks, steps)
    ensures Exposure.CreditOk(ks, Run(ks, steps).db)
  {
    if steps == [] {
      Exposure.NothingOwed(ks);
    } else {
      var n := |steps| - 1;
      CreditUnderInterleaving(ks, steps[..n]);
      PunctualIsSplit(ks, steps);
      PendingOkInRun(ks, steps[..n]);
      CreditAfterStep(ks, Run(ks, steps[..n]), steps[n]);
    }
  }

  /** And the first late one ends it. */
  lemma FirstLateEndsIt(ks: KeyScheme, steps: seq<TimedStep>, t: TimedStep)
    requires Injective(ks) && Punctual(ks, steps) && t.step.Commit?
    ensures Exposure.CreditOk(ks, Run(ks, steps + [t]).db) <==> IsPunctual(Run(ks, steps), t.step)
  {
    var s := Run(ks, steps);
    assert (steps + [t])[..|steps|] == steps;
    PunctualIsSplit(ks, steps);
    PendingOkInRun(ks, steps);
    CreditUnderInterleaving(ks, steps);
    if Commits(s, t.step) {
      LateCredit(ks, s.db, s.pending[t.step.k], t.now);
    }
  }

  lemma LateCounters(ks: KeyScheme, db: Db, c: Invoices.FundCall, now: int)
    requires Injective(ks) && Exposure.CreditOk(ks, db) && FitsInvoice(db, c)
    ensures var db', late := DbAfterCommit(ks, db, c, now), IsResolved(db.invoices[c.id].status);
            && Exposure.FundedTotal(db'.invoices, c.mcId) - Used(db'.credit, c.mcId) == (if late then c.totalAmount else 0)
            && (Exposure.CountersAgree(db') <==> !late || c.totalAmount == 0)
  {
    var db' := DbAfterCommit(ks, db, c, now);
    forall m: nat ensures Exposure.FundedTotal(db'.invoices, m) - Used(db'.credit, m)
                       == (if m == c.mcId && IsResolved(db.invoices[c.id].status) then c.totalAmount else 0) {
      Drift(ks, db, c, now, m);
    }
  }

  lemma CommitMovesInvoice(ks: KeyScheme, db: Db, c: Invoices.FundCall, now: int)
    requires c.id < |db.invoices| && c.mcId in db.credit.limits
    ensures var db' := DbAfterCommit(ks, db, c, now);
            && db'.history == db.history + [StatusRow(c.id, ApprovedForFunding, Funded, now)]
            && db'.invoices == db.invoices[c.id := db'.invoices[c.id]]
            && db'.invoices[c.id] == db.invoices[c.id].(status := Funded, advanceAmount := Some(c.advance), reserveAmount := Some(c.reserve))
  {
    var db' := DbAfterCommit(ks, db, c, now);
    assert db'.invoices == db.invoices[c.id := db'.invoices[c.id]];
  }

  lemma Drift(ks: KeyScheme, db: Db, c: Invoices.FundCall, now: int, m: nat)
    requires Exposure.CreditOk(ks, db) && FitsInvoice(db, c)
    ensures var db' := DbAfterCommit(ks, db, c, now);
            var late := m == c.mcId && IsResolved(db.invoices[c.id].status);
            Exposure.FundedTotal(db'.invoices, m) - Used(db'.credit, m) == (if late then c.totalAmount else 0)
  {
    var db' := DbAfterCommit(ks, db, c, now);
    CommitRecords(ks, db, c, now);
    CommitMovesInvoice(ks, db, c, now);
    Exposure.TotalAfterMove(db.invoices, c.id, db'.invoices[c.id], m);
    assert LogHasKey(db.credit.changeLog, ks(FundingCreditKey(c.id))) <==> EverFunded(StatusOf(db, c.id));
    assert Used(db.credit, m) == Exposure.FundedTotal(db.invoices, m);
  }

  lemma LatePath(ks: KeyScheme, db: Db, c: Invoices.FundCall, now: int)
    requires Histories.PathsOk(db) && c.id < |db.invoices| && c.mcId in db.credit.limits
    ensures Histories.PathsOk(DbAfterCommit(ks, db, c, now)) <==> db.invoices[c.id].status == ApprovedForFunding
  {
    var db' := DbAfterCommit(ks, db, c, now);
    CommitMovesInvoice(ks, db, c, now);
    var changed := Invoices.ChangeStatus(db, c.id, ApprovedForFunding, Funded, now).value;
    Histories.NamedStartMustHold(db, c.id, ApprovedForFunding, Funded, now);
    SamePaths(changed, db');
  }

  lemma SamePaths(a: Db, b: Db)
    requires a.history == b.history && |a.invoices| == |b.invoices|
    requires forall i :: 0 <= i < |a.invoices| ==> a.invoices[i].id == b.invoices[i].id && a.invoices[i].status == b.invoices[i].status
    ensures Histories.PathsOk(a) <==> Histories.PathsOk(b)
  {
    assert forall i: nat :: StatusOf(a, i) == StatusOf(b, i);
  }
}
