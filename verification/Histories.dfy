/** Every reachable invoice's history is a walk through the transition graph. */
module Histories {
  import opened Wrappers
  import opened Sums
  import opened StateMachine
  import opened Keys
  import opened Schema
  import opened Engine
  import Invoices

  ghost predicate PathsOk(db: Db) {
    && (forall i :: 0 <= i < |db.invoices| ==> db.invoices[i].id == i)
    && (forall k :: 0 <= k < |db.history| ==> db.history[k].invoiceId < |db.invoices|)
    && (forall i: nat :: IsPath(HistoryOf(db.history, i), StatusOf(db, i)))
  }

  lemma HistoryAppend(history: seq<StatusRow>, row: StatusRow, i: nat)
    ensures HistoryOf(history + [row], i)
         == (if row.invoiceId == i then HistoryOf(history, i) + [row] else HistoryOf(history, i))
  {
    FilterAppend(history, row, RowOf(i));
  }

  lemma PathExtends(rows: seq<StatusRow>, row: StatusRow)
    ensures IsPath(rows + [row], row.to) <==> IsLegal(row.from, row.to) && IsPath(rows, row.from)
  {
    assert (rows + [row])[..|rows|] == rows;
  }

  lemma PathAfterRow(db: Db, db': Db, row: StatusRow, i: nat)
    requires PathsOk(db) && db'.history == db.history + [row] && row.invoiceId <= |db.invoices|
    requires forall j: nat :: j != row.invoiceId ==> StatusOf(db', j) == StatusOf(db, j)
    requires StatusOf(db', row.invoiceId) == row.to && StatusOf(db, row.invoiceId) == row.from && IsLegal(row.from, row.to)
    ensures IsPath(HistoryOf(db'.history, i), StatusOf(db', i))
  {
    HistoryAppend(db.history, row, i);
    PathExtends(HistoryOf(db.history, i), row);
  }

  lemma PathsAfterShape(db: Db, db': Db, e: Event, now: int)
    requires PathsOk(db) && HasShape(db, db', e, now)
    ensures PathsOk(db')
  {
    if IsMove(e) || e.Create? {
      var row := db'.history[|db.history|];
      forall i: nat ensures IsPath(HistoryOf(db'.history, i), StatusOf(db', i)) {
        PathAfterRow(db, db', row, i);
      }
    } else {
      assert forall i: nat :: StatusOf(db', i) == StatusOf(db, i);
    }
  }

  lemma PathsAfterStep(ks: KeyScheme, db: Db, c: Call)
    requires PathsOk(db) && StartsWhereItSays(db, c.event)
    ensures PathsOk(Next(ks, db, c))
  {
    if Attempt(ks, db, c).Ok? {
      ShapeOfStep(ks, db, c);
      PathsAfterShape(db, Next(ks, db, c), c.event, c.now);
    }
  }

  lemma {:induction false} PathsOfRun(ks: KeyScheme, calls: seq<Call>)
    requires Orderly(ks, calls)
    ensures PathsOk(After(ks, calls))
  {
    if calls != [] {
      var n := |calls| - 1;
      PathsOfRun(ks, calls[..n]);
      PathsAfterStep(ks, After(ks, calls[..n]), calls[n]);
    }
  }

  /** What every reachable history looks like: its length, its single approval and funding, its waypoints. */
  lemma HistoriesOfRun(ks: KeyScheme, calls: seq<Call>, id: nat)
    requires Orderly(ks, calls) && id < |After(ks, calls).invoices|
    ensures var db := After(ks, calls);
            var rows := HistoryOf(db.history, id);
            var status := db.invoices[id].status;
            && (status != Cancelled ==> |rows| == Potential(rows, status))
            && Visits(rows, ApprovedForFunding) == (if EverApproved(status) then 1 else 0)
            && Visits(rows, Funded) == (if EverFunded(status) then 1 else 0)
            && (EverFunded(status) ==> WaypointsTaken(rows) == Waypoints())
  {
    var db := After(ks, calls);
    var rows := HistoryOf(db.history, id);
    PathsOfRun(ks, calls);
    assert IsPath(rows, StatusOf(db, id));
    HistoryLength(rows, StatusOf(db, id));
    EntersMoneyStatusesOnce(rows, StatusOf(db, id));
    if EverFunded(StatusOf(db, id)) {
      MandatoryWaypoints(rows, StatusOf(db, id));
    }
  }

  lemma {:induction false} PathEndsOnce(rows: seq<StatusRow>, s: Status, t: Status)
    requires IsPath(rows, s) && IsPath(rows, t)
    ensures s == t
  {
  }

  /** A status change with a named starting status keeps the histories walks exactly when the invoice is in that
      status: the service checks the named pair only, so a handler called in another status breaks the walk. */
  lemma NamedStartMustHold(db: Db, id: nat, from: Status, to: Status, now: int)
    requires PathsOk(db) && id < |db.invoices| && IsLegal(from, to)
    ensures Invoices.ChangeStatus(db, id, from, to, now).Ok?
    ensures PathsOk(Invoices.ChangeStatus(db, id, from, to, now).value) <==> db.invoices[id].status == from
  {
    var db' := Invoices.ChangeStatus(db, id, from, to, now).value;
    var row := StatusRow(id, from, to, now);
    var rows := HistoryOf(db.history, id);
    HistoryAppend(db.history, row, id);
    PathExtends(rows, row);
    assert IsPath(rows, StatusOf(db, id));
    assert StatusOf(db', id) == to;
    if PathsOk(db') {
      assert IsPath(HistoryOf(db'.history, id), StatusOf(db', id));
      PathEndsOnce(rows, db.invoices[id].status, from);
    }
    if db.invoices[id].status == from {
      forall i: nat ensures IsPath(HistoryOf(db'.history, i), StatusOf(db', i)) {
        HistoryAppend(db.history, row, i);
        assert IsPath(HistoryOf(db.history, i), StatusOf(db, i));
      }
    }
  }
}
