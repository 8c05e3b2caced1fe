/** Runs from empty tables that bring invoices to APPROVED_FOR_FUNDING, as starting points for the runs of other modules. */
module Scenarios {
  import opened Wrappers
  import opened Sums
  import opened StateMachine
  import opened Credit
  import opened Ledger
  import opened Keys
  import opened Schema
  import opened Engine
  import opened Interleaving
  import Invoices

  /** Who trades, for how much, and under what limit. All calls are made at the time now. */
  datatype Deal = Deal(brokerId: nat, mcId: nat, amount: nat, cap: nat, now: int)

  /** Invoice numbers of different lengths. */
  function NumberOf(i: nat): string {
    if i == 0 then "" else NumberOf(i - 1) + "1"
  }

  lemma {:induction false} NumberLength(i: nat)
    ensures |NumberOf(i)| == i
  {
    if i > 0 {
      NumberLength(i - 1);
    }
  }

  /** The calls that create invoice i and get it approved: an upload and five handlers. */
  function CallFor(d: Deal, i: nat, k: nat): Call {
    Call(match k
         case 0 => Create(d.brokerId, d.mcId, NumberOf(i), d.amount, 0, true)
         case 1 => Handle(i, Invoices.StartExtraction, true)
         case 2 => Handle(i, Invoices.FinishExtraction, true)
         case 3 => Handle(i, Invoices.SubmitForApproval, true)
         case 4 => Handle(i, Invoices.McApprove, true)
         case _ => Handle(i, Invoices.UnderwriteApprove, true), d.now)
  }

  function ApprovedInvoice(d: Deal, i: nat): Invoice {
    Invoice(i, NumberOf(i), d.brokerId, d.mcId, d.amount, 0, ApprovedForFunding, false, None, None)
  }

  /** n approved invoices, a limit of which nothing is used, a history made by now, and nothing else. */
  ghost predicate Ready(db: Db, d: Deal, n: nat) {
    && |db.invoices| == n && (forall i: nat :: i < n ==> db.invoices[i] == ApprovedInvoice(d, i))
    && (forall k :: 0 <= k < |db.history| ==> db.history[k].createdAt == d.now)
    && db == EMPTY.(invoices := db.invoices, history := db.history,
                    credit := CreditTables(map[d.mcId := Limit(d.cap, 0)], []))
  }

  // ---- One call after another

  /** An orderly run to the tables that sets the limit once and funds nothing, all at one time. */
  ghost predicate Prepares(ks: KeyScheme, d: Deal, calls: seq<Call>, db: Db) {
    && Orderly(ks, calls) && Engine.After(ks, calls) == db
    && HighestLimitSet(calls, d.mcId) == d.cap
    && forall j :: 0 <= j < |calls| ==> !calls[j].event.Fund? && calls[j].now == d.now
  }

  lemma AfterOneMore(ks: KeyScheme, calls: seq<Call>, c: Call)
    ensures Engine.After(ks, calls + [c]) == Next(ks, Engine.After(ks, calls), c)
    ensures Orderly(ks, calls + [c]) <==> Orderly(ks, calls) && StartsWhereItSays(Engine.After(ks, calls), c.event)
  {
    assert (calls + [c])[..|calls|] == calls;
  }

  lemma PreparesOn(ks: KeyScheme, d: Deal, calls: seq<Call>, db: Db, c: Call)
    requires Prepares(ks, d, calls, db) && StartsWhereItSays(db, c.event) && !c.event.Fund? && !c.event.SetLimit? && c.now == d.now
    ensures Prepares(ks, d, calls + [c], Next(ks, db, c))
  {
    AfterOneMore(ks, calls, c);
    assert (calls + [c])[..|calls|] == calls;
  }

  /** The tables with the last invoice in a status and rows added to the history. */
  function InStatus(db: Db, i: nat, s: Status, rows: seq<StatusRow>): Db
    requires i < |db.invoices|
  {
    db.(invoices := db.invoices[i := db.invoices[i].(status := s)], history := db.history + rows)
  }

  lemma HandlerMoves(ks: KeyScheme, db: Db, i: nat, h: Invoices.Handler, now: int)
    requires i < |db.invoices|
    requires h == Invoices.UnderwriteApprove ==> LimitCheck(db.credit, db.invoices[i].mcId, db.invoices[i].totalAmount).None?
    ensures Next(ks, db, Call(Handle(i, h, true), now))
         == InStatus(db, i, Invoices.ToOf(h), [StatusRow(i, Invoices.FromOf(h), Invoices.ToOf(h), now)])
  {
  }

  lemma CreateUploads(ks: KeyScheme, db: Db, d: Deal, n: nat)
    requires Ready(db, d, n)
    ensures Next(ks, db, CallFor(d, n, 0))
         == db.(invoices := db.invoices + [ApprovedInvoice(d, n).(status := Uploaded)],
                history := db.history + [StatusRow(n, Draft, Uploaded, d.now)])
  {
    NumberLength(n);
    forall i | 0 <= i < n ensures !Invoices.HasNumber(d.brokerId, NumberOf(n))(db.invoices[i]) {
      assert db.invoices[i] == ApprovedInvoice(d, i);
      NumberLength(i);
    }
  }

  /** The first k of the six calls have been made for invoice n. */
  ghost predicate Underway(db: Db, db': Db, d: Deal, n: nat, s: Status) {
    && db'.invoices == db.invoices + [ApprovedInvoice(d, n).(status := s)]
    && db.history <= db'.history
    && (forall k :: |db.history| <= k < |db'.history| ==> db'.history[k].createdAt == d.now)
    && db' == db.(invoices := db'.invoices, history := db'.history)
  }

  lemma HandlerGoesOn(ks: KeyScheme, db: Db, db': Db, d: Deal, n: nat, h: Invoices.Handler)
    requires |db.invoices| == n && Underway(db, db', d, n, Invoices.FromOf(h))
    requires h == Invoices.UnderwriteApprove ==> LimitCheck(db.credit, d.mcId, d.amount).None?
    ensures Underway(db, Next(ks, db', Call(Handle(n, h, true), d.now)), d, n, Invoices.ToOf(h))
    ensures StartsWhereItSays(db', Handle(n, h, true))
  {
    HandlerMoves(ks, db', n, h, d.now);
    var db'' := Next(ks, db', Call(Handle(n, h, true), d.now));
    assert db''.invoices == db.invoices + [ApprovedInvoice(d, n).(status := Invoices.ToOf(h))];
  }

  function StatusAfter(k: nat): Status {
    match k
    case 1 => Uploaded
    case 2 => Extracting
    case 3 => PendingBrokerReview
    case 4 => PendingMcApproval
    case 5 => PendingUnderwriting
    case _ => ApprovedForFunding
  }

  /** Where invoice n stands after the first k calls. */
  ghost predicate Partly(db: Db, db': Db, d: Deal, n: nat, k: nat) {
    if k == 0 then db' == db else Underway(db, db', d, n, StatusAfter(k))
  }

  lemma CallGoesOn(ks: KeyScheme, db: Db, db': Db, d: Deal, n: nat, k: nat)
    requires Ready(db, d, n) && d.amount <= d.cap && k < 6 && Partly(db, db', d, n, k)
    ensures Partly(db, Next(ks, db', CallFor(d, n, k)), d, n, k + 1)
    ensures StartsWhereItSays(db', CallFor(d, n, k).event)
  {
    if k == 0 {
      CreateUploads(ks, db, d, n);
    } else {
      HandlerGoesOn(ks, db, db', d, n, CallFor(d, n, k).event.handler);
    }
  }

  lemma {:induction false} CallsGoOn(ks: KeyScheme, d: Deal, calls: seq<Call>, db: Db, n: nat, k: nat)
    returns (calls': seq<Call>, db': Db)
    requires Prepares(ks, d, calls, db) && Ready(db, d, n) && d.amount <= d.cap && k <= 6
    ensures Prepares(ks, d, calls', db') && Partly(db, db', d, n, k)
  {
    if k == 0 {
      calls', db' := calls, db;
    } else {
      var before, earlier := CallsGoOn(ks, d, calls, db, n, k - 1);
      var c := CallFor(d, n, k - 1);
      CallGoesOn(ks, db, earlier, d, n, k - 1);
      PreparesOn(ks, d, before, earlier, c);
      calls', db' := before + [c], Next(ks, earlier, c);
    }
  }

  lemma ReadyForMore(db: Db, db': Db, d: Deal, n: nat)
    requires Ready(db, d, n) && Underway(db, db', d, n, ApprovedForFunding)
    ensures Ready(db', d, n + 1)
  {
    forall k | 0 <= k < |db'.history| ensures db'.history[k].createdAt == d.now {
      if k < |db.history| {
        assert db'.history[k] == db.history[k];
      }
    }
  }

  lemma LimitIsSet(ks: KeyScheme, d: Deal) returns (calls: seq<Call>, db: Db)
    ensures Prepares(ks, d, calls, db) && Ready(db, d, 0)
  {
    calls := [Call(SetLimit(d.mcId, d.cap), d.now)];
    db := Engine.After(ks, calls);
    AfterOneMore(ks, [], calls[0]);
    assert [] + [calls[0]] == calls;
  }

  /** Any number of invoices that each fit under the limit can be created and approved by an orderly run from empty
      tables. */
  lemma {:induction false} Prepared(ks: KeyScheme, d: Deal, n: nat) returns (calls: seq<Call>, db: Db)
    requires d.amount <= d.cap
    ensures Prepares(ks, d, calls, db) && Ready(db, d, n)
  {
    if n == 0 {
      calls, db := LimitIsSet(ks, d);
    } else {
      var before, earlier := Prepared(ks, d, n - 1);
      calls, db := CallsGoOn(ks, d, before, earlier, n - 1, 6);
      ReadyForMore(earlier, db, d, n - 1);
    }
  }
}
