/** The credit sub-limit of each Machinery Company: a cached counter and the change log it can be rebuilt from. */
module Credit {
  import opened Wrappers
  import opened Sums

  datatype Limit = Limit(totalLimit: int, currentUsed: int)

  datatype ChangeReason = InvoiceFunded | InvoiceSettled | ChargedBackInvoice | ManualAdjustment

  datatype ChangeRow = ChangeRow(mcId: nat, delta: int, reason: ChangeReason, invoiceId: Option<nat>,
                                 previousUsed: int, newUsed: int, key: string)

  datatype CreditTables = CreditTables(limits: map<nat, Limit>, changeLog: seq<ChangeRow>)

  datatype DeltaRequest = DeltaRequest(mcId: nat, delta: int, reason: ChangeReason, invoiceId: Option<nat>, key: string)

  predicate LogHasKey(log: seq<ChangeRow>, key: string) {
    exists j :: 0 <= j < |log| && log[j].key == key
  }

  /** The counter of a company; one without a limit row has none used. */
  function Used(t: CreditTables, mcId: nat): int {
    if mcId in t.limits then t.limits[mcId].currentUsed else 0
  }

  function ApplyDelta(t: CreditTables, r: DeltaRequest): Result<CreditTables> {
    if LogHasKey(t.changeLog, r.key) then Ok(t)
    else if r.mcId !in t.limits then Err(LimitNotConfigured)
    else
      var limit := t.limits[r.mcId];
      var newUsed := limit.currentUsed + r.delta;
      Ok(CreditTables(t.limits[r.mcId := limit.(currentUsed := newUsed)],
                      t.changeLog + [ChangeRow(r.mcId, r.delta, r.reason, r.invoiceId, limit.currentUsed, newUsed, r.key)]))
  }

  function SetLimit(t: CreditTables, mcId: nat, totalLimit: int): CreditTables {
    var limit := if mcId in t.limits then t.limits[mcId].(totalLimit := totalLimit) else Limit(totalLimit, 0);
    t.(limits := t.limits[mcId := limit])
  }

  /** The funding gate: the error fund and underwriting stop with, or none. */
  function LimitCheck(t: CreditTables, mcId: nat, amount: int): Option<Error> {
    if mcId !in t.limits then Some(LimitNotConfigured)
    else
      var projected := t.limits[mcId].currentUsed + amount;
      if projected > t.limits[mcId].totalLimit then Some(LimitExceeded(projected - t.limits[mcId].totalLimit)) else None
  }

  // ---- Rebuilding the counter from the log

  function OfCompany(mcId: nat): ChangeRow -> bool {
    (row: ChangeRow) => row.mcId == mcId
  }

  function Delta(): ChangeRow -> int {
    (row: ChangeRow) => row.delta
  }

  /** The rows lead from zero to used: each starts where the one before ended and moves by its delta. */
  ghost predicate Chained(rows: seq<ChangeRow>, used: int) {
    if rows == [] then used == 0
    else
      var last := rows[|rows| - 1];
      last.newUsed == used && used == last.previousUsed + last.delta && Chained(rows[..|rows| - 1], last.previousUsed)
  }

  ghost predicate LogRebuildsCounters(t: CreditTables) {
    forall mcId: nat :: Chained(Filter(t.changeLog, OfCompany(mcId)), Used(t, mcId))
  }

  lemma {:induction false} ChainedSum(rows: seq<ChangeRow>, used: int)
    requires Chained(rows, used)
    ensures Sum(rows, Delta()) == used
  {
    if rows != [] {
      var n := |rows| - 1;
      ChainedSum(rows[..n], rows[n].previousUsed);
    }
  }

  lemma ApplyDeltaKeepsLog(t: CreditTables, r: DeltaRequest)
    requires LogRebuildsCounters(t) && ApplyDelta(t, r).Ok?
    ensures LogRebuildsCounters(ApplyDelta(t, r).value)
  {
    var t' := ApplyDelta(t, r).value;
    if t' != t {
      var row := t'.changeLog[|t.changeLog|];
      forall mcId: nat ensures Chained(Filter(t'.changeLog, OfCompany(mcId)), Used(t', mcId)) {
        FilterAppend(t.changeLog, row, OfCompany(mcId));
        var before := Filter(t.changeLog, OfCompany(mcId));
        assert (before + [row])[..|before|] == before;
      }
    }
  }

  lemma SetLimitKeepsLog(t: CreditTables, mcId: nat, totalLimit: int)
    requires LogRebuildsCounters(t)
    ensures LogRebuildsCounters(SetLimit(t, mcId, totalLimit))
  {
    forall m: nat ensures Used(SetLimit(t, mcId, totalLimit), m) == Used(t, m) {
    }
  }

  datatype CreditCall = Change(request: DeltaRequest) | Cap(mcId: nat, totalLimit: int)

  /** The tables after a sequence of calls; a call that throws changes nothing. */
  function AfterCalls(calls: seq<CreditCall>): CreditTables {
    if calls == [] then CreditTables(map[], [])
    else
      var t := AfterCalls(calls[..|calls| - 1]);
      match calls[|calls| - 1]
      case Change(r) => AfterRequest(t, r)
      case Cap(mcId, totalLimit) => SetLimit(t, mcId, totalLimit)
  }

  function AfterRequest(t: CreditTables, r: DeltaRequest): CreditTables {
    match ApplyDelta(t, r)
    case Ok(t') => t'
    case Err(_) => t
  }

  /** After any mix of deltas and limit changes, a company's log rows chain from zero to its counter, so the counter
      is the last newUsed and the sum of the logged deltas. */
  lemma {:induction false} ChangeLogReconstruction(calls: seq<CreditCall>, mcId: nat)
    ensures var t := AfterCalls(calls);
            var rows := Filter(t.changeLog, OfCompany(mcId));
            && LogRebuildsCounters(t)
            && Chained(rows, Used(t, mcId))
            && Sum(rows, Delta()) == Used(t, mcId)
            && (rows != [] ==> rows[|rows| - 1].newUsed == Used(t, mcId))
  {
    if calls != [] {
      var before := AfterCalls(calls[..|calls| - 1]);
      ChangeLogReconstruction(calls[..|calls| - 1], mcId);
      match calls[|calls| - 1] {
        case Change(r) =>
          if ApplyDelta(before, r).Ok? {
            ApplyDeltaKeepsLog(before, r);
          }
        case Cap(m, totalLimit) => SetLimitKeepsLog(before, m, totalLimit);
      }
    }
    var t := AfterCalls(calls);
    ChainedSum(Filter(t.changeLog, OfCompany(mcId)), Used(t, mcId));
  }

  // ---- Retries

  function ApplyAll(t: CreditTables, requests: seq<DeltaRequest>): CreditTables {
    if requests == [] then t
    else AfterRequest(ApplyAll(t, requests[..|requests| - 1]), requests[|requests| - 1])
  }

  ghost predicate Repeats(requests: seq<DeltaRequest>, j: nat)
    requires j < |requests|
  {
    exists i :: 0 <= i < j && requests[i].key == requests[j].key
  }

  /** The requests without those whose key was used by an earlier one. */
  ghost function FirstOccurrences(requests: seq<DeltaRequest>): seq<DeltaRequest> {
    if requests == [] then []
    else
      var n := |requests| - 1;
      var first := FirstOccurrences(requests[..n]);
      if Repeats(requests, n) then first else first + [requests[n]]
  }

  /** The first request under the key of request j names a company that has a limit. */
  ghost predicate FirstWasAccepted(t: CreditTables, requests: seq<DeltaRequest>, j: nat)
    requires j < |requests|
  {
    exists i: nat :: i <= j && requests[i].key == requests[j].key && !Repeats(requests, i) && requests[i].mcId in t.limits
  }

  /** Whoever retries a request for a company that has a limit is retrying one that was accepted: the key is in the
      log already, or its first request named a company with a limit. */
  ghost predicate RetriesFollowSuccess(t: CreditTables, requests: seq<DeltaRequest>) {
    forall j: nat :: j < |requests| && requests[j].mcId in t.limits && !LogHasKey(t.changeLog, requests[j].key) ==>
      FirstWasAccepted(t, requests, j)
  }

  lemma {:induction false} ApplyAllKeys(t: CreditTables, requests: seq<DeltaRequest>, key: string)
    ensures ApplyAll(t, requests).limits.Keys == t.limits.Keys
    ensures LogHasKey(ApplyAll(t, requests).changeLog, key) <==>
            LogHasKey(t.changeLog, key) || exists r :: r in requests && r.key == key && r.mcId in t.limits
  {
    if requests != [] {
      var n := |requests| - 1;
      var before := ApplyAll(t, requests[..n]);
      var r := requests[n];
      ApplyAllKeys(t, requests[..n], key);
      assert requests == requests[..n] + [r];
      AfterRequestKeys(before, r, key);
    }
  }

  lemma AfterRequestKeys(t: CreditTables, r: DeltaRequest, key: string)
    ensures AfterRequest(t, r).limits.Keys == t.limits.Keys
    ensures LogHasKey(AfterRequest(t, r).changeLog, key) <==>
            LogHasKey(t.changeLog, key) || (r.key == key && r.mcId in t.limits)
  {
    var t' := AfterRequest(t, r);
    if t' != t {
      assert t'.changeLog[|t.changeLog|].key == r.key;
      assert forall j :: 0 <= j < |t.changeLog| ==> t'.changeLog[j] == t.changeLog[j];
      assert t'.limits.Keys == t.limits.Keys;
    }
  }

  lemma {:induction false} FirstOccurrencesMembers(requests: seq<DeltaRequest>, r: DeltaRequest)
    requires r in FirstOccurrences(requests)
    ensures exists i: nat :: i < |requests| && requests[i] == r && !Repeats(requests, i)
  {
    var n := |requests| - 1;
    if Repeats(requests, n) || r != requests[n] {
      FirstOccurrencesMembers(requests[..n], r);
      var i: nat :| i < n && requests[..n][i] == r && !Repeats(requests[..n], i);
      assert requests[i] == r && !Repeats(requests, i);
    }
  }

  /** Applying any requests, retried in any way, leaves exactly the log and counters of their first occurrences, as
      long as retries follow an accepted request; and only then, because a retry that is accepted after a refused
      first attempt is in the log. */
  lemma ReplayEquivalence(t: CreditTables, requests: seq<DeltaRequest>)
    ensures ApplyAll(t, requests) == ApplyAll(t, FirstOccurrences(requests)) <==> RetriesFollowSuccess(t, requests)
  {
    if RetriesFollowSuccess(t, requests) {
      ReplayFolds(t, requests);
    } else {
      var j: nat :| j < |requests| && requests[j].mcId in t.limits && !LogHasKey(t.changeLog, requests[j].key)
        && !FirstWasAccepted(t, requests, j);
      AcceptedRetryIsLogged(t, requests, j);
    }
  }

  lemma AcceptedRetryIsLogged(t: CreditTables, requests: seq<DeltaRequest>, j: nat)
    requires j < |requests| && requests[j].mcId in t.limits && !LogHasKey(t.changeLog, requests[j].key)
    requires !FirstWasAccepted(t, requests, j)
    ensures ApplyAll(t, requests) != ApplyAll(t, FirstOccurrences(requests))
  {
    var key := requests[j].key;
    ApplyAllKeys(t, requests, key);
    ApplyAllKeys(t, FirstOccurrences(requests), key);
    assert requests[j] in requests;
    if r :| r in FirstOccurrences(requests) && r.key == key && r.mcId in t.limits {
      FirstOccurrencesMembers(requests, r);
    }
  }

  lemma PrefixFollowsSuccess(t: CreditTables, requests: seq<DeltaRequest>)
    requires requests != [] && RetriesFollowSuccess(t, requests)
    ensures RetriesFollowSuccess(t, requests[..|requests| - 1])
  {
    var n := |requests| - 1;
    var earlier := requests[..n];
    forall j: nat | j < n && earlier[j].mcId in t.limits && !LogHasKey(t.changeLog, earlier[j].key)
      ensures FirstWasAccepted(t, earlier, j)
    {
      assert FirstWasAccepted(t, requests, j);
      var i: nat :| i <= j && requests[i].key == requests[j].key && !Repeats(requests, i) && requests[i].mcId in t.limits;
      assert earlier[i] == requests[i] && !Repeats(earlier, i);
    }
  }

  lemma RetryIsNoOp(t: CreditTables, requests: seq<DeltaRequest>)
    requires requests != [] && RetriesFollowSuccess(t, requests) && Repeats(requests, |requests| - 1)
    ensures ApplyAll(t, requests) == ApplyAll(t, requests[..|requests| - 1])
  {
    var n := |requests| - 1;
    var earlier, r := requests[..n], requests[n];
    ApplyAllKeys(t, earlier, r.key);
    if r.mcId in t.limits && !LogHasKey(t.changeLog, r.key) {
      assert FirstWasAccepted(t, requests, n);
      var i: nat :| i <= n && requests[i].key == r.key && !Repeats(requests, i) && requests[i].mcId in t.limits;
      assert i < n;
      assert requests[i] in earlier;
    }
  }

  lemma {:induction false} ReplayFolds(t: CreditTables, requests: seq<DeltaRequest>)
    requires RetriesFollowSuccess(t, requests)
    ensures ApplyAll(t, requests) == ApplyAll(t, FirstOccurrences(requests))
  {
    if requests != [] {
      var n := |requests| - 1;
      PrefixFollowsSuccess(t, requests);
      ReplayFolds(t, requests[..n]);
      if Repeats(requests, n) {
        RetryIsNoOp(t, requests);
      } else {
        var first := FirstOccurrences(requests[..n]);
        assert (first + [requests[n]])[..|first|] == first;
      }
    }
  }

  /** Requests for companies that all have a limit, which is how the services make them: retries never matter. */
  lemma ReplayOfConfigured(t: CreditTables, requests: seq<DeltaRequest>)
    requires forall j :: 0 <= j < |requests| ==> requests[j].mcId in t.limits
    ensures ApplyAll(t, requests) == ApplyAll(t, FirstOccurrences(requests))
  {
    forall j: nat | j < |requests| ensures FirstWasAccepted(t, requests, j) {
      FirstExists(requests, j);
    }
    ReplayEquivalence(t, requests);
  }

  lemma {:induction false} FirstExists(requests: seq<DeltaRequest>, j: nat)
    requires j < |requests|
    ensures exists i: nat :: i <= j && requests[i].key == requests[j].key && !Repeats(requests, i)
  {
    if Repeats(requests, j) {
      var i :| 0 <= i < j && requests[i].key == requests[j].key;
      FirstExists(requests, i);
    }
  }

  /** A retry under a refused request's key is not a no-op: the first attempt names a company without a limit. */
  lemma RefusedFirstAttempt()
    ensures var t := CreditTables(map[1 := Limit(100, 0)], []);
            var refused := DeltaRequest(0, 10, InvoiceFunded, None, "k");
            var retried := DeltaRequest(1, 10, InvoiceFunded, None, "k");
            && FirstOccurrences([refused, retried]) == [refused]
            && Used(ApplyAll(t, [refused, retried]), 1) == 10
            && Used(ApplyAll(t, [refused]), 1) == 0
  {
    var refused := DeltaRequest(0, 10, InvoiceFunded, None, "k");
    var retried := DeltaRequest(1, 10, InvoiceFunded, None, "k");
    var both := [refused, retried];
    assert both[..1] == [refused] && [refused][..0] == [];
    assert both[0].key == both[1].key;
    assert Repeats(both, 1) && !Repeats([refused], 0);
    assert FirstOccurrences([refused]) == [refused];
    var t := CreditTables(map[1 := Limit(100, 0)], []);
    assert ApplyAll(t, [refused]) == t;
  }
}
