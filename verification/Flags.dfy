/** Hold events match the hold flag, and open disputes match the disputed status. */
module Flags {
  import opened Wrappers
  import opened Sums
  import opened StateMachine
  import opened Keys
  import opened Schema
  import opened Engine
  import Invoices

  function ActiveHold(i: nat): HoldEvent -> int {
    (h: HoldEvent) => if h.invoiceId == i && h.active then 1 else 0
  }

  function OpenDispute(i: nat): Dispute -> int {
    (d: Dispute) => if d.invoiceId == i && d.status == Open then 1 else 0
  }

  predicate Held(db: Db, i: nat) {
    i < |db.invoices| && db.invoices[i].reserveHold
  }

  /** One active hold event per held invoice; only funded or charged-back invoices are held. */
  ghost predicate HoldsOk(db: Db) {
    forall i: nat ::
      && Sum(db.holds, ActiveHold(i)) == (if Held(db, i) then 1 else 0)
      && (Held(db, i) ==> StatusOf(db, i) == Funded || EverChargedBack(StatusOf(db, i)))
  }

  /** A disputed invoice has one open dispute; an open dispute's invoice is disputed, or was cancelled. */
  predicate DisputesFit(s: Status, openCount: int) {
    && 0 <= openCount <= 1
    && (s == McDisputed ==> openCount == 1)
    && (openCount == 1 ==> s == McDisputed || s == Cancelled)
  }

  ghost predicate DisputesOk(db: Db) {
    forall i: nat :: DisputesFit(StatusOf(db, i), Sum(db.disputes, OpenDispute(i)))
  }

  lemma {:induction false} SomeRow<T>(rows: seq<T>, p: T -> bool, f: T -> int)
    requires forall x :: f(x) == (if p(x) then 1 else 0)
    ensures FindFirst(rows, p).None? ==> Sum(rows, f) == 0
    ensures FindFirst(rows, p).Some? ==> 0 < Sum(rows, f)
  {
    if rows != [] {
      var n := |rows| - 1;
      SomeRow(rows[..n], p, f);
      SumNonNegative(rows[..n], f);
    }
  }

  lemma HoldEnded(holds: seq<HoldEvent>, id: nat, i: nat)
    requires Sum(holds, ActiveHold(id)) == 1
    ensures Sum(Invoices.EndHold(holds, id), ActiveHold(i)) == (if i == id then 0 else Sum(holds, ActiveHold(i)))
  {
    SomeRow(holds, ActiveHoldOf(id), ActiveHold(id));
    var j := FindFirst(holds, ActiveHoldOf(id)).value;
    SumUpdate(holds, j, holds[j].(active := false), ActiveHold(i));
  }

  lemma DisputeClosed(disputes: seq<Dispute>, id: nat, i: nat)
    requires Sum(disputes, OpenDispute(id)) == 1
    ensures Sum(Invoices.CloseDispute(disputes, id), OpenDispute(i)) == (if i == id then 0 else Sum(disputes, OpenDispute(i)))
  {
    SomeRow(disputes, OpenDisputeOf(id), OpenDispute(id));
    var j := FindFirst(disputes, OpenDisputeOf(id)).value;
    SumUpdate(disputes, j, disputes[j].(status := Resolved), OpenDispute(i));
  }

  /** Statuses and flags of a step that is neither a hold step nor an upload. */
  lemma FlagsAfterMove(db: Db, db': Db, id: nat, from: Status, to: Status, now: int, i: nat)
    requires Moves(db, db', id, from, to, now)
    ensures StatusOf(db', i) == (if i == id then to else StatusOf(db, i)) && Held(db', i) == Held(db, i)
  {
  }

  lemma HoldsAfterMove(db: Db, db': Db, id: nat, from: Status, to: Status, now: int)
    requires HoldsOk(db) && Moves(db, db', id, from, to, now) && db'.holds == db.holds
    requires from == Funded && to == Settled ==> !Held(db, id)
    ensures HoldsOk(db')
  {
    forall i: nat
      ensures StatusOf(db', i) == (if i == id then to else StatusOf(db, i)) && Held(db', i) == Held(db, i)
    {
      FlagsAfterMove(db, db', id, from, to, now, i);
    }
    assert StatusOf(db, id) == from;
  }

  lemma HoldsAfterUpload(db: Db, db': Db, now: int)
    requires HoldsOk(db) && Uploads(db, db', now) && db'.holds == db.holds
    ensures HoldsOk(db')
  {
    forall i: nat ensures Held(db', i) == Held(db, i) && (i != |db.invoices| ==> StatusOf(db', i) == StatusOf(db, i)) {
      assert i < |db.invoices| ==> db'.invoices[i] == db'.invoices[..|db.invoices|][i];
    }
  }

  lemma HoldsAfterPlace(db: Db, id: nat)
    requires HoldsOk(db) && Invoices.PlaceReserveHold(db, id).Ok?
    ensures HoldsOk(Invoices.PlaceReserveHold(db, id).value)
  {
    var db' := Invoices.PlaceReserveHold(db, id).value;
    assert !Held(db, id);
    forall i: nat
      ensures Sum(db'.holds, ActiveHold(i)) == (if Held(db', i) then 1 else 0)
      ensures Held(db', i) ==> StatusOf(db', i) == Funded || EverChargedBack(StatusOf(db', i))
    {
      SumAppend(db.holds, HoldEvent(id, true), ActiveHold(i));
      assert Held(db', i) == (i == id || Held(db, i));
      assert StatusOf(db', i) == StatusOf(db, i);
    }
  }

  lemma HoldsAfterRelease(db: Db, id: nat)
    requires HoldsOk(db) && Invoices.ReleaseReserveHold(db, id).Ok?
    ensures HoldsOk(Invoices.ReleaseReserveHold(db, id).value)
  {
    var db' := Invoices.ReleaseReserveHold(db, id).value;
    assert Held(db, id);
    forall i: nat
      ensures Sum(db'.holds, ActiveHold(i)) == (if Held(db', i) then 1 else 0)
      ensures Held(db', i) ==> StatusOf(db', i) == Funded || EverChargedBack(StatusOf(db', i))
    {
      HoldEnded(db.holds, id, i);
      assert Held(db', i) == (i != id && Held(db, i));
      assert StatusOf(db', i) == StatusOf(db, i);
    }
  }

  lemma SettleNeedsNoHold(ks: KeyScheme, db: Db, c: Call)
    requires Attempt(ks, db, c).Ok? && c.event.Settle?
    ensures !Held(db, c.event.id)
  {
  }

  lemma HoldsAfterStep(ks: KeyScheme, db: Db, c: Call)
    requires HoldsOk(db) && StartsWhereItSays(db, c.event)
    ensures HoldsOk(Next(ks, db, c))
  {
    if Attempt(ks, db, c).Ok? {
      var db', e := Next(ks, db, c), c.event;
      ShapeOfStep(ks, db, c);
      FrameOfStep(ks, db, c);
      if IsMove(e) {
        if e.Settle? {
          SettleNeedsNoHold(ks, db, c);
        }
        MoveIntoSettled(db, e);
        HoldsAfterMove(db, db', e.id, EdgeOf(db, e).from, EdgeOf(db, e).to, c.now);
      } else if e.Create? {
        HoldsAfterUpload(db, db', c.now);
      } else if e.PlaceReserveHold? {
        HoldsAfterPlace(db, e.id);
      } else if e.ReleaseReserveHold? {
        HoldsAfterRelease(db, e.id);
      } else {
        HoldsUntouched(db, db');
      }
    }
  }

  lemma MoveIntoSettled(db: Db, e: Event)
    ensures EdgeOf(db, e).to == Settled ==> e.Settle?
  {
  }

  lemma HoldsUntouched(db: Db, db': Db)
    requires HoldsOk(db) && db'.invoices == db.invoices && db'.holds == db.holds
    ensures HoldsOk(db')
  {
    forall i: nat ensures Held(db', i) == Held(db, i) && StatusOf(db', i) == StatusOf(db, i) {
    }
  }

  lemma DisputesAfterMove(db: Db, db': Db, id: nat, from: Status, to: Status, now: int)
    requires DisputesOk(db) && Moves(db, db', id, from, to, now)
    requires forall i: nat :: i != id ==> Sum(db'.disputes, OpenDispute(i)) == Sum(db.disputes, OpenDispute(i))
    requires DisputesFit(to, Sum(db'.disputes, OpenDispute(id)))
    ensures DisputesOk(db')
  {
    forall i: nat ensures DisputesFit(StatusOf(db', i), Sum(db'.disputes, OpenDispute(i))) {
      FlagsAfterMove(db, db', id, from, to, now, i);
      assert DisputesFit(StatusOf(db, i), Sum(db.disputes, OpenDispute(i)));
    }
  }

  /** Moves that do not touch disputes neither start nor end in MC_DISPUTED, except that a cancellation may start there. */
  lemma DisputesAfterPlainMove(db: Db, db': Db, e: Event, now: int)
    requires DisputesOk(db) && IsMove(e) && !e.RaiseDispute? && !e.ResolveDispute?
    requires Moves(db, db', e.id, EdgeOf(db, e).from, EdgeOf(db, e).to, now) && db'.disputes == db.disputes
    ensures DisputesOk(db')
  {
    assert DisputesFit(StatusOf(db, e.id), Sum(db.disputes, OpenDispute(e.id)));
    DisputesAfterMove(db, db', e.id, EdgeOf(db, e).from, EdgeOf(db, e).to, now);
  }

  lemma DisputesAfterRaise(db: Db, db': Db, id: nat, now: int)
    requires DisputesOk(db) && Moves(db, db', id, PendingMcApproval, McDisputed, now)
    requires db'.disputes == db.disputes + [Dispute(id, Open)]
    ensures DisputesOk(db')
  {
    assert DisputesFit(StatusOf(db, id), Sum(db.disputes, OpenDispute(id)));
    forall i: nat ensures Sum(db'.disputes, OpenDispute(i)) == Sum(db.disputes, OpenDispute(i)) + (if i == id then 1 else 0) {
      SumAppend(db.disputes, Dispute(id, Open), OpenDispute(i));
    }
    DisputesAfterMove(db, db', id, PendingMcApproval, McDisputed, now);
  }

  lemma DisputesAfterResolve(db: Db, db': Db, id: nat, to: Status, now: int)
    requires DisputesOk(db) && Moves(db, db', id, McDisputed, to, now)
    requires db'.disputes == Invoices.CloseDispute(db.disputes, id)
    ensures DisputesOk(db')
  {
    assert DisputesFit(StatusOf(db, id), Sum(db.disputes, OpenDispute(id)));
    forall i: nat ensures Sum(db'.disputes, OpenDispute(i)) == (if i == id then 0 else Sum(db.disputes, OpenDispute(i))) {
      DisputeClosed(db.disputes, id, i);
    }
    DisputesAfterMove(db, db', id, McDisputed, to, now);
  }

  lemma DisputesElsewhere(db: Db, db': Db)
    requires DisputesOk(db) && db'.disputes == db.disputes
    requires forall i: nat :: StatusOf(db', i) == StatusOf(db, i) || (StatusOf(db, i) == Draft && StatusOf(db', i) == Uploaded)
    ensures DisputesOk(db')
  {
    forall i: nat ensures DisputesFit(StatusOf(db', i), Sum(db'.disputes, OpenDispute(i))) {
      assert DisputesFit(StatusOf(db, i), Sum(db.disputes, OpenDispute(i)));
    }
  }

  lemma StatusesElsewhere(db: Db, db': Db, now: int)
    requires StaysPut(db, db') || Uploads(db, db', now)
    ensures forall i: nat :: StatusOf(db', i) == StatusOf(db, i) || (StatusOf(db, i) == Draft && StatusOf(db', i) == Uploaded)
  {
    forall i: nat
      ensures StatusOf(db', i) == StatusOf(db, i) || (StatusOf(db, i) == Draft && StatusOf(db', i) == Uploaded)
    {
      assert Uploads(db, db', now) && i < |db.invoices| ==> db'.invoices[i] == db'.invoices[..|db.invoices|][i];
    }
  }

  lemma DisputesAfterStep(ks: KeyScheme, db: Db, c: Call)
    requires DisputesOk(db) && StartsWhereItSays(db, c.event)
    ensures DisputesOk(Next(ks, db, c))
  {
    if Attempt(ks, db, c).Ok? {
      var db', e := Next(ks, db, c), c.event;
      ShapeOfStep(ks, db, c);
      FrameOfStep(ks, db, c);
      if e.RaiseDispute? {
        DisputesAfterRaise(db, db', e.id, c.now);
      } else if e.ResolveDispute? {
        DisputesAfterResolve(db, db', e.id, EdgeOf(db, e).to, c.now);
      } else if IsMove(e) {
        DisputesAfterPlainMove(db, db', e, c.now);
      } else {
        StatusesElsewhere(db, db', c.now);
        DisputesElsewhere(db, db');
      }
    }
  }

  lemma {:induction false} FlagsOfRun(ks: KeyScheme, calls: seq<Call>)
    requires Orderly(ks, calls)
    ensures HoldsOk(After(ks, calls)) && DisputesOk(After(ks, calls))
  {
    if calls != [] {
      var n := |calls| - 1;
      FlagsOfRun(ks, calls[..n]);
      HoldsAfterStep(ks, After(ks, calls[..n]), calls[n]);
      DisputesAfterStep(ks, After(ks, calls[..n]), calls[n]);
    }
  }

  /** In every reachable state: active hold events are one if the invoice is held and none otherwise, a settled invoice
      is not held, a disputed invoice has exactly one open dispute, and an open dispute's invoice is disputed or
      cancelled. */
  lemma HoldsAndDisputesMatchFlags(ks: KeyScheme, calls: seq<Call>, id: nat)
    requires Orderly(ks, calls) && id < |After(ks, calls).invoices|
    ensures var db := After(ks, calls);
            var inv := db.invoices[id];
            && Sum(db.holds, ActiveHold(id)) == (if inv.reserveHold then 1 else 0)
            && (inv.status == Settled ==> !inv.reserveHold)
            && (inv.status == McDisputed ==> Sum(db.disputes, OpenDispute(id)) == 1)
            && 0 <= Sum(db.disputes, OpenDispute(id)) <= 1
            && (Sum(db.disputes, OpenDispute(id)) == 1 ==> inv.status == McDisputed || inv.status == Cancelled)
  {
    FlagsOfRun(ks, calls);
    var db := After(ks, calls);
    assert DisputesFit(StatusOf(db, id), Sum(db.disputes, OpenDispute(id)));
    assert Held(db, id) == db.invoices[id].reserveHold;
  }
}
