/** Runs from empty tables in which what concurrent calls leave behind does not agree, one for each exact condition. */
module FailingRuns {
  import opened Wrappers
  import opened Sums
  import opened StateMachine
  import opened Credit
  import opened Ledger
  import opened FeeCalculator
  import opened Keys
  import opened Schema
  import opened Engine
  import opened Scenarios
  import opened Interleaving
  import CapReached
  import ClosingRaces
  import Exposure
  import Histories
  import Invoices
  import RetryKeys

  /** An orderly run to the tables. */
  ghost predicate Leads(ks: KeyScheme, calls: seq<Call>, db: Db) {
    Orderly(ks, calls) && Engine.After(ks, calls) == db
  }

  lemma LeadsOn(ks: KeyScheme, calls: seq<Call>, db: Db, c: Call)
    requires Leads(ks, calls, db) && StartsWhereItSays(db, c.event)
    ensures Leads(ks, calls + [c], Next(ks, db, c))
  {
    AfterOneMore(ks, calls, c);
  }

  // ---- The funding of the prepared invoice

  function TermsOf(d: Deal, advancePct: int): Invoices.FundCall {
    Invoices.FundingTerms(ApprovedInvoice(d, 0), 0, advancePct)
  }

  /** The prepared invoice has been funded, and nothing is known about other tables than these. */
  ghost predicate FundedFirst(ks: KeyScheme, db: Db, d: Deal) {
    && |db.invoices| == 1
    && db.invoices[0].status == Funded && !db.invoices[0].reserveHold
    && db.invoices[0].mcId == d.mcId && db.invoices[0].brokerId == d.brokerId && db.invoices[0].totalAmount == d.amount
    && d.mcId in db.credit.limits
    && db.payments == [] && db.matches == []
    && forall j :: 0 <= j < |db.credit.changeLog| ==> db.credit.changeLog[j].key == ks(FundingCreditKey(0))
  }

  lemma CheckOfPrepared(ks: KeyScheme, db: Db, d: Deal, advancePct: int)
    requires Ready(db, d, 1) && d.amount <= d.cap
    ensures Invoices.FundGuard(db, 0, advancePct) == Ok(TermsOf(d, advancePct))
  {
    assert db.invoices[0] == ApprovedInvoice(d, 0);
  }

  lemma FundPrepared(ks: KeyScheme, db: Db, d: Deal, advancePct: int)
    requires Ready(db, d, 1) && d.amount <= d.cap
    ensures var db' := DbAfterCommit(ks, db, TermsOf(d, advancePct), d.now);
            db' == Next(ks, db, Call(Fund(0, advancePct), d.now)) && FundedFirst(ks, db', d)
  {
    CheckOfPrepared(ks, db, d, advancePct);
    CommitMovesInvoice(ks, db, TermsOf(d, advancePct), d.now);
    CommitRaisesByAmount(ks, db, TermsOf(d, advancePct), d.now, d.mcId);
    assert db.invoices[0] == ApprovedInvoice(d, 0);
  }

  lemma PreparedAndFunded(ks: KeyScheme, d: Deal, advancePct: int) returns (calls: seq<Call>, db: Db)
    requires d.amount <= d.cap
    ensures Leads(ks, calls, db) && FundedFirst(ks, db, d)
  {
    var prepared, before := Prepared(ks, d, 1);
    var c := Call(Fund(0, advancePct), d.now);
    FundPrepared(ks, before, d, advancePct);
    LeadsOn(ks, prepared, before, c);
    calls, db := prepared + [c], Next(ks, before, c);
  }

  lemma ChargeBackFunded(ks: KeyScheme, db: Db, d: Deal, amount: nat, now: int)
    requires FundedFirst(ks, db, d)
    ensures var db' := Next(ks, db, Call(ChargeBack(0, amount), now));
            && Attempt(ks, db, Call(ChargeBack(0, amount), now)).Ok?
            && |db'.invoices| == 1 && db'.invoices[0] == db.invoices[0].(status := ChargedBack) && d.mcId in db'.credit.limits
  {
  }

  // ---- A late transaction

  ghost predicate SplitRun(ks: KeyScheme, steps: seq<TimedStep>, s: State) {
    AllSplit(steps) && Run(ks, steps) == s
  }

  lemma SplitRunOn(ks: KeyScheme, steps: seq<TimedStep>, s: State, t: TimedStep)
    requires SplitRun(ks, steps, s) && IsSplit(t.step)
    ensures SplitRun(ks, steps + [t], Interleaving.After(ks, s, t))
  {
    assert (steps + [t])[..|steps|] == steps;
  }

  lemma TwoChecks(ks: KeyScheme, d: Deal, advancePct: int) returns (calls: seq<Call>, steps: seq<TimedStep>, db: Db)
    requires d.amount <= d.cap
    ensures Leads(ks, calls, db) && Ready(db, d, 1)
    ensures SplitRun(ks, steps, State(db, [TermsOf(d, advancePct), TermsOf(d, advancePct)]))
  {
    var c, begin := TermsOf(d, advancePct), TimedStep(Begin(0, advancePct), d.now);
    calls, db := Prepared(ks, d, 1);
    var _ := CapReached.OthersRun(ks, calls, db, CapReached.Bound(d.mcId, 0, 0, 0));
    steps := CapReached.Others(calls);
    CheckOfPrepared(ks, db, d, advancePct);
    SplitRunOn(ks, steps, State(db, []), begin);
    SplitRunOn(ks, steps + [begin], State(db, [c]), begin);
    assert [] + [c] == [c] && [c] + [c] == [c, c];
    steps := steps + [begin] + [begin];
  }

  lemma CommitLast(ks: KeyScheme, steps: seq<TimedStep>, db: Db, c: Invoices.FundCall, left: seq<Invoices.FundCall>, db': Db)
    requires c.id < |db.invoices| && SplitRun(ks, steps, State(db, [c] + left)) && db' == DbAfterCommit(ks, db, c, 0)
    ensures SplitRun(ks, steps + [TimedStep(Commit(0), 0)], State(db', left))
  {
    SplitRunOn(ks, steps, State(db, [c] + left), TimedStep(Commit(0), 0));
    assert RemoveAt([c] + left, 0) == left;
  }

  /** The first transaction runs, the other call is still in flight. */
  lemma OneCommits(ks: KeyScheme, d: Deal, advancePct: int) returns (calls: seq<Call>, steps: seq<TimedStep>, db: Db)
    requires d.amount <= d.cap && d.now == 0
    ensures Leads(ks, calls, db) && FundedFirst(ks, db, d) && SplitRun(ks, steps, State(db, [TermsOf(d, advancePct)]))
  {
    var c, fund := TermsOf(d, advancePct), Call(Fund(0, advancePct), 0);
    var prepared, checked, before := TwoChecks(ks, d, advancePct);
    FundPrepared(ks, before, d, advancePct);
    LeadsOn(ks, prepared, before, fund);
    assert [c] + [c] == [c, c];
    CommitLast(ks, checked, before, c, [c], Next(ks, before, fund));
    calls, steps, db := prepared + [fund], checked + [TimedStep(Commit(0), 0)], Next(ks, before, fund);
  }

  /** The funded invoice is charged back, and the other call is still in flight. */
  lemma ThenChargedBack(ks: KeyScheme, d: Deal, advancePct: int) returns (calls: seq<Call>, steps: seq<TimedStep>, db: Db)
    requires d.amount <= d.cap && d.now == 0
    ensures Leads(ks, calls, db) && SplitRun(ks, steps, State(db, [TermsOf(d, advancePct)]))
    ensures |db.invoices| == 1 && db.invoices[0].status == ChargedBack && d.mcId in db.credit.limits
    ensures db.invoices[0].mcId == d.mcId && db.invoices[0].totalAmount == d.amount
  {
    var charge := Call(ChargeBack(0, d.amount), 0);
    var earlier, before, funded := OneCommits(ks, d, advancePct);
    ChargeBackFunded(ks, funded, d, d.amount, 0);
    LeadsOn(ks, earlier, funded, charge);
    SplitRunOn(ks, before, State(funded, [TermsOf(d, advancePct)]), TimedStep(Other(charge.event), 0));
    calls, steps, db := earlier + [charge], before + [TimedStep(Other(charge.event), 0)], Next(ks, funded, charge);
  }

  lemma LateIsWrong(ks: KeyScheme, calls: seq<Call>, db: Db, d: Deal, advancePct: int) returns (db': Db)
    requires Injective(ks) && Leads(ks, calls, db) && 0 < d.amount
    requires |db.invoices| == 1 && db.invoices[0].status == ChargedBack && d.mcId in db.credit.limits
    requires db.invoices[0].mcId == d.mcId && db.invoices[0].totalAmount == d.amount
    ensures db' == DbAfterCommit(ks, db, TermsOf(d, advancePct), 0)
    ensures Exposure.FundedTotal(db'.invoices, d.mcId) - Used(db'.credit, d.mcId) == d.amount
    ensures !Exposure.CountersAgree(db') && !Histories.PathsOk(db')
  {
    Histories.PathsOfRun(ks, calls);
    OrderlyIsSparing(ks, calls);
    Exposure.CreditOfRun(ks, calls);
    LateCommit(ks, db, TermsOf(d, advancePct), 0);
    db' := DbAfterCommit(ks, db, TermsOf(d, advancePct), 0);
  }

  lemma LateTransaction(ks: KeyScheme, calls: seq<Call>, steps: seq<TimedStep>, db: Db, d: Deal, advancePct: int)
    returns (steps': seq<TimedStep>, db': Db)
    requires Injective(ks) && Leads(ks, calls, db) && 0 < d.amount && SplitRun(ks, steps, State(db, [TermsOf(d, advancePct)]))
    requires |db.invoices| == 1 && db.invoices[0].status == ChargedBack && d.mcId in db.credit.limits
    requires db.invoices[0].mcId == d.mcId && db.invoices[0].totalAmount == d.amount
    ensures SplitRun(ks, steps', State(db', []))
    ensures Exposure.FundedTotal(db'.invoices, d.mcId) - Used(db'.credit, d.mcId) == d.amount
    ensures !Exposure.CountersAgree(db') && !Histories.PathsOk(db')
  {
    db' := LateIsWrong(ks, calls, db, d, advancePct);
    assert [TermsOf(d, advancePct)] + [] == [TermsOf(d, advancePct)];
    CommitLast(ks, steps, db, TermsOf(d, advancePct), [], db');
    steps' := steps + [TimedStep(Commit(0), 0)];
  }

  /** A retry passes the checks together with the first call; the invoice is funded, charged back, and then the retry's
      transaction runs: the invoice is FUNDED again and counts against no limit. */
  lemma LateCommitDrifts(ks: KeyScheme, mcId: nat, amount: nat, advancePct: int) returns (steps: seq<TimedStep>)
    requires Injective(ks) && 0 < amount
    ensures AllSplit(steps)
    ensures var db := Run(ks, steps).db;
            && Exposure.FundedTotal(db.invoices, mcId) - Used(db.credit, mcId) == amount
            && !Exposure.CountersAgree(db) && !Histories.PathsOk(db)
  {
    var d := Deal(0, mcId, amount, amount, 0);
    var calls, before, db := ThenChargedBack(ks, d, advancePct);
    var db': Db;
    steps, db' := LateTransaction(ks, calls, before, db, d, advancePct);
  }

  // ---- Retries under different keys

  /** Two retries under the keys "a" and "b" that pass their checks on a prepared invoice pay it out twice, and the
      counter rises twice. */
  lemma DifferentKeysPayTwice(ks: KeyScheme, mcId: nat, amount: nat, advancePct: int) returns (calls: seq<Call>)
    requires Injective(ks) && 0 < amount
    ensures Orderly(ks, calls) && Invoices.FundGuard(Engine.After(ks, calls), 0, advancePct).Ok?
    ensures var db := Engine.After(ks, calls);
            var c := Invoices.FundGuard(db, 0, advancePct).value;
            var db' := RetryKeys.CommitAll(db, c, [RetryKeys.Retry("a", 0), RetryKeys.Retry("b", 0)]);
            && |AmountsFor(db'.ledger, FundingDisbursement, 0)| == 2
            && Used(db'.credit, mcId) == 2 * amount && Exposure.FundedTotal(db'.invoices, mcId) == amount
  {
    var d := Deal(0, mcId, amount, amount, 0);
    var db: Db;
    calls, db := Prepared(ks, d, 1);
    CheckOfPrepared(ks, db, d, advancePct);
    PayTwice(db, d, advancePct);
  }

  lemma PayTwice(db: Db, d: Deal, advancePct: int)
    requires Ready(db, d, 1) && d.amount <= d.cap
    ensures var db' := RetryKeys.CommitAll(db, TermsOf(d, advancePct), [RetryKeys.Retry("a", 0), RetryKeys.Retry("b", 0)]);
            && |AmountsFor(db'.ledger, FundingDisbursement, 0)| == 2
            && Used(db'.credit, d.mcId) == 2 * d.amount && Exposure.FundedTotal(db'.invoices, d.mcId) == d.amount
  {
    var c, a, b := TermsOf(d, advancePct), RetryKeys.Retry("a", 0), RetryKeys.Retry("b", 0);
    assert db.invoices[0] == ApprovedInvoice(d, 0);
    RetryKeys.MovesOncePerKey(db, c, [a, b]);
    RetryKeys.AllUnseen({"a", "b"}, RetryKeys.PaidUnder(db));
    RetryKeys.AllUnseen({"a", "b"}, RetryKeys.CountedUnder(db));
    RetryKeys.FundedByFirst(db, c, [a, b]);
    TwoKeys(a, b);
    assert db.ledger == [] && |AmountsFor(db.ledger, FundingDisbursement, 0)| == 0;
    OneInvoice(RetryKeys.CommitAll(db, c, [a, b]).invoices, d);
  }

  lemma TwoKeys(a: RetryKeys.Retry, b: RetryKeys.Retry)
    requires a.key != b.key
    ensures RetryKeys.KeysUsed([a, b]) == {a.key, b.key} && |RetryKeys.KeysUsed([a, b])| == 2
  {
    assert [a, b][..1] == [a];
    assert RetryKeys.KeysUsed([a]) == RetryKeys.KeysUsed([]) + {a.key};
  }

  lemma OneInvoice(invoices: seq<Invoice>, d: Deal)
    requires |invoices| == 1 && invoices[0].mcId == d.mcId && invoices[0].totalAmount == d.amount
    ensures Exposure.FundedTotal(invoices, d.mcId) == (if invoices[0].status == Funded then d.amount else 0)
  {
    var f := Exposure.Exposed(d.mcId);
    assert Sum(invoices, f) == Sum(invoices[..0], f) + f(invoices[0]);
  }

  // ---- A settlement against a chargeback

  lemma PayAndMatch(ks: KeyScheme, calls: seq<Call>, db: Db, d: Deal) returns (calls': seq<Call>, db': Db)
    requires Leads(ks, calls, db) && FundedFirst(ks, db, d)
    ensures Leads(ks, calls', db') && db'.invoices == db.invoices && db'.credit == db.credit
    ensures Invoices.MatchedTotal(db', 0) == d.amount
  {
    var pay, match0 := Call(RecordPayment(d.mcId, d.amount, true), d.now), Call(MatchPayment(0, 0, d.amount), d.now);
    LeadsOn(ks, calls, db, pay);
    var paid := Next(ks, db, pay);
    LeadsOn(ks, calls + [pay], paid, match0);
    db' := Next(ks, paid, match0);
    assert db'.matches == [] + [Schema.Match(0, 0, d.amount)];
    SumAppend([], Schema.Match(0, 0, d.amount), MatchedToInvoice(0));
    calls' := calls + [pay] + [match0];
  }

  lemma Passes(db: Db, c: ClosingRaces.Closing)
    requires |db.invoices| == 1 && db.invoices[0].status == Funded && !db.invoices[0].reserveHold
    requires db.invoices[0].mcId in db.credit.limits && Invoices.MatchedTotal(db, 0) == db.invoices[0].totalAmount
    ensures ClosingCall(db, c) == Ok(ClosingRaces.CloseOne(db, 0, db.invoices[0], c))
  {
    ClosingRaces.TransactionsOfCalls(db, 0, c);
  }

  /** The call of the service that a closing of invoice 0 belongs to. */
  function ClosingCall(db: Db, c: ClosingRaces.Closing): Result<Db> {
    match c
    case SettleIt(key, now) => Invoices.Settle(db, 0, SettleKeysOf(key), now)
    case ChargeItBack(amount, key, now) => Invoices.ChargeBack(db, 0, amount, ChargebackKeysOf(key), now)
  }

  /** Under the default keys nothing has been restored while only the funding is in the log. */
  lemma NoneRestored(uuid: nat -> string, t: CreditTables, key: string)
    requires forall j :: 0 <= j < |t.changeLog| ==> t.changeLog[j].key == DefaultKeys(uuid)(FundingCreditKey(0))
    ensures key !in ClosingRaces.RestoredUnder(t)
  {
    var funding, restoring := DefaultKeys(uuid)(FundingCreditKey(0)), SettleKeysOf(key).credit;
    assert funding == "fund:" + uuid(0) + ":credit-limit";
    assert funding[|funding| - 1] == 't' && restoring[|restoring| - 1] == 'e';
  }

  lemma TwoRequests(a: ClosingRaces.Closing, b: ClosingRaces.Closing)
    ensures |ClosingRaces.KeysOf([a, b])| == if a.key == b.key then 1 else 2
  {
    assert [a, b][..1] == [a];
    assert ClosingRaces.KeysOf([a]) == ClosingRaces.KeysOf([]) + {a.key};
    assert ClosingRaces.KeysOf([a, b]) == {a.key, b.key};
  }

  /** A funded and fully paid invoice can be settled and can be charged back, under whatever header. When any two such calls
      pass their checks before either runs its transaction, the counter ends at zero if they carry the same key, and below
      zero by the invoice's amount if not. */
  lemma ClosedTogether(uuid: nat -> string, mcId: nat, amount: nat, advancePct: int, a: ClosingRaces.Closing, b: ClosingRaces.Closing)
    returns (calls: seq<Call>)
    requires forall i, j :: uuid(i) == uuid(j) ==> i == j
    ensures Orderly(DefaultKeys(uuid), calls) && |Engine.After(DefaultKeys(uuid), calls).invoices| == 1
    ensures var db := Engine.After(DefaultKeys(uuid), calls);
            var db' := ClosingRaces.CloseAll(db, 0, db.invoices[0], [a, b]);
            && ClosingCall(db, a) == Ok(ClosingRaces.CloseOne(db, 0, db.invoices[0], a))
            && ClosingCall(db, b) == Ok(ClosingRaces.CloseOne(db, 0, db.invoices[0], b))
            && Exposure.FundedTotal(db'.invoices, mcId) == 0
            && Used(db'.credit, mcId) == (if a.key == b.key then 0 else 0 - amount)
  {
    var ks, d := DefaultKeys(uuid), Deal(0, mcId, amount, amount, 0);
    DefaultKeysNeverCollide(uuid);
    var funding, funded := PreparedAndFunded(ks, d, advancePct);
    var db: Db;
    calls, db := PayAndMatch(ks, funding, funded, d);
    Passes(db, a);
    Passes(db, b);
    OrderlyIsSparing(ks, calls);
    Exposure.CreditOfRun(ks, calls);
    NewRequests(uuid, db.credit, a, b);
    BothRestore(db, d, a, b, if a.key == b.key then 1 else 2);
  }

  lemma NewRequests(uuid: nat -> string, t: CreditTables, a: ClosingRaces.Closing, b: ClosingRaces.Closing)
    requires forall j :: 0 <= j < |t.changeLog| ==> t.changeLog[j].key == DefaultKeys(uuid)(FundingCreditKey(0))
    ensures |RetryKeys.Unseen(ClosingRaces.KeysOf([a, b]), ClosingRaces.RestoredUnder(t))| == if a.key == b.key then 1 else 2
  {
    forall key | key in ClosingRaces.KeysOf([a, b]) ensures key !in ClosingRaces.RestoredUnder(t) {
      NoneRestored(uuid, t, key);
    }
    RetryKeys.AllUnseen(ClosingRaces.KeysOf([a, b]), ClosingRaces.RestoredUnder(t));
    TwoRequests(a, b);
  }

  lemma BothRestore(db: Db, d: Deal, a: ClosingRaces.Closing, b: ClosingRaces.Closing, times: nat)
    requires Exposure.CountersAgree(db) && |db.invoices| == 1 && db.invoices[0].status == Funded
    requires db.invoices[0].mcId == d.mcId && db.invoices[0].totalAmount == d.amount && d.mcId in db.credit.limits
    requires |RetryKeys.Unseen(ClosingRaces.KeysOf([a, b]), ClosingRaces.RestoredUnder(db.credit))| == times
    ensures var db' := ClosingRaces.CloseAll(db, 0, db.invoices[0], [a, b]);
            Exposure.FundedTotal(db'.invoices, d.mcId) == 0 && Used(db'.credit, d.mcId) == d.amount - times * d.amount
  {
    ClosingRaces.AllRestored(db, 0, [a, b]);
    assert Used(db.credit, d.mcId) == Exposure.FundedTotal(db.invoices, d.mcId);
    OneInvoice(db.invoices, d);
    OneInvoice(ClosingRaces.CloseAll(db, 0, db.invoices[0], [a, b]).invoices, d);
  }

  // ---- A key that another invoice's funding has used

  /** Two prepared invoices are funded one after the other under the same header: the second becomes FUNDED, and is neither
      paid out nor counted. */
  lemma UsedKeyPaysNothing(ks: KeyScheme, mcId: nat, amount: nat, advancePct: int, key: string) returns (calls: seq<Call>)
    requires Injective(ks)
    ensures Orderly(ks, calls)
    ensures var db := Engine.After(ks, calls);
            var one := Invoices.Fund(db, 0, advancePct, FundKeysOf(key), 0);
            && one.Ok?
            && var two := Invoices.Fund(one.value, 1, advancePct, FundKeysOf(key), 0);
            && two.Ok? && |two.value.invoices| == 2 && two.value.invoices[1].status == Funded
            && AmountsFor(two.value.ledger, FundingDisbursement, 1) == []
            && Exposure.FundedTotal(two.value.invoices, mcId) - Used(two.value.credit, mcId) == amount
  {
    var d := Deal(0, mcId, amount, 2 * amount, 0);
    var db: Db;
    calls, db := Prepared(ks, d, 2);
    OrderlyIsSparing(ks, calls);
    Exposure.CreditOfRun(ks, calls);
    var one := FirstUnderKey(db, d, advancePct, key);
    SecondUnderKey(one, d, advancePct, key);
  }

  /** The first invoice is funded under the key, the second one still is to be. */
  ghost predicate FirstFunded(db: Db, d: Deal, key: string) {
    && |db.invoices| == 2 && db.invoices[1] == ApprovedInvoice(d, 1)
    && Exposure.CountersAgree(db) && d.mcId in db.credit.limits && db.credit.limits[d.mcId] == Limit(d.cap, d.amount)
    && key in RetryKeys.CountedUnder(db) && key in RetryKeys.PaidUnder(db) && key in RetryKeys.HeldUnder(db)
    && AmountsFor(db.ledger, FundingDisbursement, 1) == []
  }

  lemma FirstUnderKey(db: Db, d: Deal, advancePct: int, key: string) returns (one: Db)
    requires Ready(db, d, 2) && Exposure.CountersAgree(db) && d.amount <= d.cap
    ensures Invoices.Fund(db, 0, advancePct, FundKeysOf(key), 0) == Ok(one) && FirstFunded(one, d, key)
  {
    var c, keys := Invoices.FundingTerms(ApprovedInvoice(d, 0), 0, advancePct), FundKeysOf(key);
    assert db.invoices[0] == ApprovedInvoice(d, 0) && db.invoices[1] == ApprovedInvoice(d, 1);
    assert Invoices.FundGuard(db, 0, advancePct) == Ok(c);
    one := Invoices.Fund(db, 0, advancePct, keys, 0).value;
    RetryKeys.CommitWrites(db, c, RetryKeys.Retry(key, 0));
    RetryKeys.KeyStateAfter(db, db, c, RetryKeys.Retry(key, 0), {}, key);
    RetryKeys.FundKeepsCounters(db, advancePct, 0, key, 0);
    var disbursement := Invoices.DisbursementEntry(c, keys.disbursement);
    AmountsAppend([], disbursement, FundingDisbursement, 1);
    AmountsAppend(Record([], disbursement), Invoices.ReserveHoldEntry(c, keys.reserveHold), FundingDisbursement, 1);
  }

  lemma SecondUnderKey(db: Db, d: Deal, advancePct: int, key: string)
    requires FirstFunded(db, d, key) && 2 * d.amount <= d.cap
    ensures var two := Invoices.Fund(db, 1, advancePct, FundKeysOf(key), 0);
            && two.Ok? && |two.value.invoices| == 2 && two.value.invoices[1].status == Funded
            && AmountsFor(two.value.ledger, FundingDisbursement, 1) == []
            && Exposure.FundedTotal(two.value.invoices, d.mcId) - Used(two.value.credit, d.mcId) == d.amount
  {
    var c, retry := Invoices.FundingTerms(ApprovedInvoice(d, 1), 1, advancePct), RetryKeys.Retry(key, 0);
    assert Invoices.FundGuard(db, 1, advancePct) == Ok(c);
    RetryKeys.CommitWrites(db, c, retry);
    RetryKeys.TotalGrows(db, RetryKeys.CommitOne(db, c, retry), c);
  }

  // ---- A handler called on an invoice that has been funded

  /** A funded invoice is charged back. Then an approval is called on it, which the service does not refuse, and the counters
      still agree; but the funding that follows finds its key used, and the invoice is FUNDED and not counted. */
  lemma MisplacedApprovalDrifts(ks: KeyScheme, mcId: nat, amount: nat, advancePct: int) returns (calls: seq<Call>)
    requires Injective(ks) && 0 < amount
    ensures Orderly(ks, calls)
    ensures var approved := Next(ks, Engine.After(ks, calls), Call(Handle(0, Invoices.UnderwriteApprove, true), 0));
            var db' := Next(ks, approved, Call(Fund(0, advancePct), 0));
            && StatusOf(Engine.After(ks, calls), 0) == ChargedBack
            && Exposure.CountersAgree(approved)
            && Exposure.FundedTotal(db'.invoices, mcId) - Used(db'.credit, mcId) == amount
  {
    var d, cap := Deal(0, mcId, amount, amount, 0), Call(SetLimit(mcId, amount), 0);
    var earlier, _, charged := ThenChargedBack(ks, d, advancePct);
    LeadsOn(ks, earlier, charged, cap);
    calls := earlier + [cap];
    var db := Next(ks, charged, cap);
    OrderlyIsSparing(ks, calls);
    Exposure.CreditOfRun(ks, calls);
    assert Used(db.credit, mcId) == Exposure.FundedTotal(db.invoices, mcId);
    OneInvoice(db.invoices, d);
    Exposure.FundedAgainDrifts(ks, db, 0, advancePct, 0);
  }
}
