/** The logs only ever grow: what one call has recorded no later call changes. */
module AppendOnly {
  import opened Wrappers
  import opened Sums
  import opened StateMachine
  import opened Credit
  import opened Ledger
  import opened Keys
  import opened Schema
  import opened Engine
  import opened LedgerWrites
  import Exposure

  /** Each log of db is the beginning of db's one later on. */
  ghost predicate Extends(db: Db, db': Db) {
    && db.ledger <= db'.ledger
    && db.credit.changeLog <= db'.credit.changeLog
    && db.history <= db'.history
    && db.matches <= db'.matches
  }

  lemma {:induction false} RecordedGrows(ledger: seq<LedgerEntry>, written: seq<Written>)
    ensures ledger <= RecordWritten(ledger, written)
  {
    if written != [] {
      RecordedGrows(ledger, written[..|written| - 1]);
    }
  }

  lemma LedgerGrows(ks: KeyScheme, db: Db, c: Call)
    requires Attempt(ks, db, c).Ok?
    ensures db.ledger <= Attempt(ks, db, c).value.ledger
  {
    LedgerOfStep(ks, db, c);
    RecordedGrows(db.ledger, WrittenBy(ks, db, c.event));
  }

  lemma ChangeLogGrows(ks: KeyScheme, db: Db, c: Call)
    requires Attempt(ks, db, c).Ok?
    ensures db.credit.changeLog <= Attempt(ks, db, c).value.credit.changeLog
  {
    Exposure.CreditOfStep(ks, db, c);
  }

  lemma HistoryGrows(ks: KeyScheme, db: Db, c: Call)
    requires Attempt(ks, db, c).Ok?
    ensures db.history <= Attempt(ks, db, c).value.history
  {
    if IsMoneyMove(c.event) {
      ShapeOfMoneyMove(ks, db, c);
    } else if c.event.RunFees? {
      ShapeOfRun(ks, db, c);
    } else if !IsMove(c.event) && !c.event.Create? {
      ShapeOfOther(ks, db, c);
    } else {
      HandlersAddHistory(ks, db, c);
    }
  }

  lemma HandlersAddHistory(ks: KeyScheme, db: Db, c: Call)
    requires Attempt(ks, db, c).Ok?
    requires c.event.Create? || c.event.Handle? || c.event.RaiseDispute? || c.event.ResolveDispute? || c.event.Cancel?
    ensures db.history <= Attempt(ks, db, c).value.history
  {
  }

  lemma MatchesGrow(ks: KeyScheme, db: Db, c: Call)
    requires Attempt(ks, db, c).Ok?
    ensures db.matches <= Attempt(ks, db, c).value.matches
  {
    FrameOfStep(ks, db, c);
  }

  lemma StepExtends(ks: KeyScheme, db: Db, c: Call)
    ensures Extends(db, Next(ks, db, c))
  {
    if Attempt(ks, db, c).Ok? {
      LedgerGrows(ks, db, c);
      ChangeLogGrows(ks, db, c);
      HistoryGrows(ks, db, c);
      MatchesGrow(ks, db, c);
    }
  }

  /** Over any further calls, orderly or not, every ledger entry, change log row, history row and match stays where it
      is and as it is. */
  lemma {:induction false} LogsOnlyGrow(ks: KeyScheme, calls: seq<Call>, more: seq<Call>)
    ensures Extends(After(ks, calls), After(ks, calls + more))
    decreases |more|
  {
    if more == [] {
      assert calls + more == calls;
    } else {
      var n := |more| - 1;
      assert (calls + more)[..|calls| + n] == calls + more[..n];
      LogsOnlyGrow(ks, calls, more[..n]);
      StepExtends(ks, After(ks, calls + more[..n]), more[n]);
    }
  }
}
