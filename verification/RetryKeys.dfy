/** Retries of one funding that pass their checks before any of them commits, each under the key its caller sent. */
module RetryKeys {
  import opened Wrappers
  import opened Sums
  import opened StateMachine
  import opened Credit
  import opened Ledger
  import opened FeeCalculator
  import opened Keys
  import opened Schema
  import Exposure
  import Invoices

  /** A call's idempotency key and the time its transaction runs. */
  datatype Retry = Retry(key: string, now: int)

  function CommitOne(db: Db, c: Invoices.FundCall, retry: Retry): (db': Db)
    requires c.id < |db.invoices|
    ensures |db'.invoices| == |db.invoices|
  {
    match Invoices.FundCommit(db, c, FundKeysOf(retry.key), retry.now)
    case Ok(db') => db'
    case Err(_) => db
  }

  function CommitAll(db: Db, c: Invoices.FundCall, retries: seq<Retry>): (db': Db)
    requires c.id < |db.invoices|
    ensures |db'.invoices| == |db.invoices|
  {
    if retries == [] then db
    else
      var n := |retries| - 1;
      CommitOne(CommitAll(db, c, retries[..n]), c, retries[n])
  }

  ghost function KeysUsed(retries: seq<Retry>): set<string> {
    if retries == [] then {} else KeysUsed(retries[..|retries| - 1]) + {retries[|retries| - 1].key}
  }

  // ---- Request keys that have not been used

  /** The keys under which nothing has been seen yet. */
  ghost function Unseen(keys: set<string>, seen: iset<string>): set<string> {
    set key | key in keys && key !in seen
  }

  lemma UnseenWithOne(keys: set<string>, key: string, seen: iset<string>)
    ensures |Unseen(keys + {key}, seen)| == |Unseen(keys, seen)| + if key in keys || key in seen then 0 else 1
  {
    if key in keys || key in seen {
      assert Unseen(keys + {key}, seen) == Unseen(keys, seen);
    } else {
      assert Unseen(keys + {key}, seen) == Unseen(keys, seen) + {key};
    }
  }

  lemma AllUnseen(keys: set<string>, seen: iset<string>)
    requires forall key :: key in keys ==> key !in seen
    ensures Unseen(keys, seen) == keys
  {
  }

  ghost function PaidUnder(db: Db): iset<string> {
    iset key: string | HasKey(db.ledger, FundKeysOf(key).disbursement)
  }

  ghost function HeldUnder(db: Db): iset<string> {
    iset key: string | HasKey(db.ledger, FundKeysOf(key).reserveHold)
  }

  ghost function CountedUnder(db: Db): iset<string> {
    iset key: string | LogHasKey(db.credit.changeLog, FundKeysOf(key).credit)
  }

  /** Nothing has been written under what fund derives from the key. */
  ghost predicate Unused(db: Db, key: string) {
    key !in PaidUnder(db) && key !in HeldUnder(db) && key !in CountedUnder(db)
  }

  /** The keys derived from two different keys are different, and the two ledger keys never meet. */
  lemma DerivedKeysApart(a: string, b: string)
    ensures FundKeysOf(a).disbursement != FundKeysOf(b).reserveHold
    ensures a != b ==> FundKeysOf(a).disbursement != FundKeysOf(b).disbursement
    ensures a != b ==> FundKeysOf(a).reserveHold != FundKeysOf(b).reserveHold
    ensures a != b ==> FundKeysOf(a).credit != FundKeysOf(b).credit
  {
    var d, h := FundKeysOf(a).disbursement, FundKeysOf(b).reserveHold;
    assert d[|d| - 1] == 't' && h[|h| - 1] == 'd';
    SamePrefix(a, b, ":disbursement");
    SamePrefix(a, b, ":reserve-hold");
    SamePrefix(a, b, ":credit-limit");
  }

  lemma SamePrefix(a: string, b: string, suffix: string)
    ensures a + suffix == b + suffix ==> a == b
  {
    if a + suffix == b + suffix {
      assert a == (a + suffix)[..|a|];
      assert b == (b + suffix)[..|b|];
    }
  }

  // ---- What the transactions write

  lemma CommitWrites(db: Db, c: Invoices.FundCall, retry: Retry)
    requires c.id < |db.invoices| && c.mcId in db.credit.limits
    ensures var db', keys := CommitOne(db, c, retry), FundKeysOf(retry.key);
            && db'.ledger == Record(Record(db.ledger, Invoices.DisbursementEntry(c, keys.disbursement)),
                                    Invoices.ReserveHoldEntry(c, keys.reserveHold))
            && ApplyDelta(db.credit, Invoices.FundingDelta(c, keys.credit)) == Ok(db'.credit)
            && db'.invoices == db.invoices[c.id := db'.invoices[c.id]]
            && db'.invoices[c.id] == db.invoices[c.id].(status := Funded, advanceAmount := Some(c.advance), reserveAmount := Some(c.reserve))
  {
    var db' := CommitOne(db, c, retry);
    assert db'.invoices == db.invoices[c.id := db'.invoices[c.id]];
  }

  /** The given keys have been used in addition to those used before. */
  ghost predicate KeyState(db: Db, db': Db, key: string, keys: set<string>) {
    && (key in PaidUnder(db') <==> key in PaidUnder(db) || key in keys)
    && (key in HeldUnder(db') <==> key in HeldUnder(db) || key in keys)
    && (key in CountedUnder(db') <==> key in CountedUnder(db) || key in keys)
  }

  ghost predicate KeysWritten(db: Db, db': Db, keys: set<string>) {
    forall key :: KeyState(db, db', key, keys)
  }

  /** The funding's records, once for each key under which there was none. */
  ghost predicate RecordedOncePerKey(db: Db, db': Db, c: Invoices.FundCall, keys: set<string>) {
    && |AmountsFor(db'.ledger, FundingDisbursement, c.id)|
       == |AmountsFor(db.ledger, FundingDisbursement, c.id)| + |Unseen(keys, PaidUnder(db))|
    && |AmountsFor(db'.ledger, ReserveHold, c.id)| == |AmountsFor(db.ledger, ReserveHold, c.id)| + |Unseen(keys, HeldUnder(db))|
    && c.mcId in db'.credit.limits
    && Used(db'.credit, c.mcId) == Used(db.credit, c.mcId) + |Unseen(keys, CountedUnder(db))| * c.totalAmount
  }

  lemma KeyStateAfter(db: Db, before: Db, c: Invoices.FundCall, retry: Retry, keys: set<string>, key: string)
    requires c.id < |before.invoices| && c.mcId in before.credit.limits && KeyState(db, before, key, keys)
    ensures KeyState(db, CommitOne(before, c, retry), key, keys + {retry.key})
  {
    CommitWrites(before, c, retry);
    DerivedKeysApart(retry.key, key);
    DerivedKeysApart(key, retry.key);
    var derived, asked := FundKeysOf(retry.key), FundKeysOf(key);
    var d, h := Invoices.DisbursementEntry(c, derived.disbursement), Invoices.ReserveHoldEntry(c, derived.reserveHold);
    RecordKeys(before.ledger, d, asked.disbursement);
    RecordKeys(before.ledger, d, asked.reserveHold);
    RecordKeys(Record(before.ledger, d), h, asked.disbursement);
    RecordKeys(Record(before.ledger, d), h, asked.reserveHold);
    Exposure.AppliedKeys(before.credit, Invoices.FundingDelta(c, derived.credit), asked.credit);
  }

  /** A transaction adds one of each record whose derived key is new. */
  lemma AddsUnderNewKey(db: Db, c: Invoices.FundCall, retry: Retry)
    requires c.id < |db.invoices| && c.mcId in db.credit.limits
    ensures var db', key := CommitOne(db, c, retry), retry.key;
            && |AmountsFor(db'.ledger, FundingDisbursement, c.id)|
               == |AmountsFor(db.ledger, FundingDisbursement, c.id)| + (if key in PaidUnder(db) then 0 else 1)
            && |AmountsFor(db'.ledger, ReserveHold, c.id)|
               == |AmountsFor(db.ledger, ReserveHold, c.id)| + (if key in HeldUnder(db) then 0 else 1)
            && c.mcId in db'.credit.limits
            && Used(db'.credit, c.mcId) == Used(db.credit, c.mcId) + (if key in CountedUnder(db) then 0 else c.totalAmount)
  {
    CommitWrites(db, c, retry);
    var keys := FundKeysOf(retry.key);
    var d, h := Invoices.DisbursementEntry(c, keys.disbursement), Invoices.ReserveHoldEntry(c, keys.reserveHold);
    DerivedKeysApart(retry.key, retry.key);
    RecordKeys(db.ledger, d, keys.reserveHold);
    AmountsAppend(db.ledger, d, FundingDisbursement, c.id);
    AmountsAppend(db.ledger, d, ReserveHold, c.id);
    AmountsAppend(Record(db.ledger, d), h, FundingDisbursement, c.id);
    AmountsAppend(Record(db.ledger, d), h, ReserveHold, c.id);
  }

  lemma OneMoreTime(n: int, amount: int)
    ensures (n + 1) * amount == n * amount + amount
  {
  }

  lemma OneMoreRetry(db: Db, before: Db, c: Invoices.FundCall, retry: Retry, keys: set<string>)
    requires c.id < |before.invoices| && RecordedOncePerKey(db, before, c, keys) && KeyState(db, before, retry.key, keys)
    ensures RecordedOncePerKey(db, CommitOne(before, c, retry), c, keys + {retry.key})
  {
    AddsUnderNewKey(before, c, retry);
    UnseenWithOne(keys, retry.key, PaidUnder(db));
    UnseenWithOne(keys, retry.key, HeldUnder(db));
    UnseenWithOne(keys, retry.key, CountedUnder(db));
    OneMoreTime(|Unseen(keys, CountedUnder(db))|, c.totalAmount);
  }

  /** The money moves once for each different key among the retries that was not used before. */
  lemma {:induction false} MovesOncePerKey(db: Db, c: Invoices.FundCall, retries: seq<Retry>)
    requires c.id < |db.invoices| && c.mcId in db.credit.limits
    ensures RecordedOncePerKey(db, CommitAll(db, c, retries), c, KeysUsed(retries))
    ensures KeysWritten(db, CommitAll(db, c, retries), KeysUsed(retries))
  {
    if retries == [] {
      AllUnseen({}, PaidUnder(db));
      AllUnseen({}, HeldUnder(db));
      AllUnseen({}, CountedUnder(db));
    } else {
      var n := |retries| - 1;
      var before := CommitAll(db, c, retries[..n]);
      MovesOncePerKey(db, c, retries[..n]);
      OneMoreRetry(db, before, c, retries[n], KeysUsed(retries[..n]));
      forall key ensures KeyState(db, CommitAll(db, c, retries), key, KeysUsed(retries)) {
        KeyStateAfter(db, before, c, retries[n], KeysUsed(retries[..n]), key);
      }
    }
  }

  lemma {:induction false} FundedByFirst(db: Db, c: Invoices.FundCall, retries: seq<Retry>)
    requires c.id < |db.invoices| && c.mcId in db.credit.limits && retries != []
    ensures var db' := CommitAll(db, c, retries);
            && c.mcId in db'.credit.limits
            && db'.invoices == db.invoices[
                 c.id := db.invoices[c.id].(status := Funded, advanceAmount := Some(c.advance), reserveAmount := Some(c.reserve))]
  {
    var n := |retries| - 1;
    if n > 0 {
      FundedByFirst(db, c, retries[..n]);
    }
    CommitWrites(CommitAll(db, c, retries[..n]), c, retries[n]);
  }

  lemma {:induction false} SomeKeyUsed(retries: seq<Retry>)
    ensures forall j :: 0 <= j < |retries| ==> retries[j].key in KeysUsed(retries)
    ensures forall key :: key in KeysUsed(retries) ==> exists j :: 0 <= j < |retries| && retries[j].key == key
  {
    if retries != [] {
      var n := |retries| - 1;
      SomeKeyUsed(retries[..n]);
      forall key | key in KeysUsed(retries) ensures exists j :: 0 <= j < |retries| && retries[j].key == key {
        if key != retries[n].key {
          var j :| 0 <= j < n && retries[..n][j].key == key;
          assert retries[j].key == key;
        }
      }
    }
  }

  lemma AllTheSame(keys: set<string>, one: string)
    requires one in keys
    ensures |keys| == 1 <==> forall key :: key in keys ==> key == one
  {
    if forall key :: key in keys ==> key == one {
      assert keys == {one};
    }
    if |keys| == 1 {
      assert |keys - {one}| == 0;
      assert keys == (keys - {one}) + {one};
    }
  }

  /** What retries that all passed the checks on the tables leave behind, by the number of their new keys. */
  lemma PaidPerKey(db: Db, c: Invoices.FundCall, retries: seq<Retry>)
    requires c.id < |db.invoices| && c.mcId in db.credit.limits && retries != []
    requires db.invoices[c.id].status == ApprovedForFunding && Exposure.CountersAgree(db)
    requires db.invoices[c.id].mcId == c.mcId && db.invoices[c.id].totalAmount == c.totalAmount
    ensures var db', keys := CommitAll(db, c, retries), KeysUsed(retries);
            && |AmountsFor(db'.ledger, FundingDisbursement, c.id)|
               == |AmountsFor(db.ledger, FundingDisbursement, c.id)| + |Unseen(keys, PaidUnder(db))|
            && Used(db'.credit, c.mcId) == Used(db.credit, c.mcId) + |Unseen(keys, CountedUnder(db))| * c.totalAmount
            && Exposure.FundedTotal(db'.invoices, c.mcId) == Used(db.credit, c.mcId) + c.totalAmount
  {
    MovesOncePerKey(db, c, retries);
    FundedByFirst(db, c, retries);
    TotalGrows(db, CommitAll(db, c, retries), c);
  }

  /** Retries that all passed the checks pay an invoice out once, and leave the counter at the funded total, if and only if
      exactly one of their keys was not used before: each further new key pays again, and without a new key the invoice is
      FUNDED and neither paid nor counted. */
  lemma FundsOnceIffOneNewKey(db: Db, advancePct: int, id: nat, retries: seq<Retry>)
    requires Invoices.FundGuard(db, id, advancePct).Ok? && Exposure.CountersAgree(db) && retries != []
    ensures var c := Invoices.FundGuard(db, id, advancePct).value;
            var db', paid := CommitAll(db, c, retries), |AmountsFor(db.ledger, FundingDisbursement, id)|;
            && db'.invoices[id].status == Funded
            && (|AmountsFor(db'.ledger, FundingDisbursement, id)| == paid + 1 <==> |Unseen(KeysUsed(retries), PaidUnder(db))| == 1)
            && (|AmountsFor(db'.ledger, FundingDisbursement, id)| == paid <==> AllPaid(db, retries))
            && (Used(db'.credit, c.mcId) == Exposure.FundedTotal(db'.invoices, c.mcId) <==>
                |Unseen(KeysUsed(retries), CountedUnder(db))| == 1 || c.totalAmount == 0)
  {
    var c := Invoices.FundGuard(db, id, advancePct).value;
    PaidPerKey(db, c, retries);
    FundedByFirst(db, c, retries);
    NonePaidIff(db, retries);
    NotOnce(|Unseen(KeysUsed(retries), CountedUnder(db))|, c.totalAmount);
  }

  ghost predicate AllPaid(db: Db, retries: seq<Retry>) {
    forall j :: 0 <= j < |retries| ==> retries[j].key in PaidUnder(db)
  }

  lemma NonePaidIff(db: Db, retries: seq<Retry>)
    ensures |Unseen(KeysUsed(retries), PaidUnder(db))| == 0 <==> AllPaid(db, retries)
  {
    SomeKeyUsed(retries);
    var unseen := Unseen(KeysUsed(retries), PaidUnder(db));
    if AllPaid(db, retries) {
      assert unseen == {};
    } else {
      var j :| 0 <= j < |retries| && retries[j].key !in PaidUnder(db);
      assert retries[j].key in unseen;
    }
  }

  ghost predicate SameKey(retries: seq<Retry>)
    requires retries != []
  {
    forall j :: 0 <= j < |retries| ==> retries[j].key == retries[0].key
  }

  lemma OneKeyIffSame(retries: seq<Retry>)
    requires retries != []
    ensures |KeysUsed(retries)| == 1 <==> SameKey(retries)
  {
    SomeKeyUsed(retries);
    AllTheSame(KeysUsed(retries), retries[0].key);
  }

  /** Under keys that were all unused that is: if and only if they carry the same key. A caller that sends a key of its own
      with each retry pays out once per key. */
  lemma FundsOnceIffSameKey(db: Db, advancePct: int, id: nat, retries: seq<Retry>)
    requires Invoices.FundGuard(db, id, advancePct).Ok? && Exposure.CountersAgree(db) && retries != []
    requires forall j :: 0 <= j < |retries| ==> Unused(db, retries[j].key)
    ensures var c := Invoices.FundGuard(db, id, advancePct).value;
            var db' := CommitAll(db, c, retries);
            && (|AmountsFor(db'.ledger, FundingDisbursement, id)| == |AmountsFor(db.ledger, FundingDisbursement, id)| + 1 <==>
                SameKey(retries))
            && (Used(db'.credit, c.mcId) == Exposure.FundedTotal(db'.invoices, c.mcId) <==> SameKey(retries) || c.totalAmount == 0)
  {
    FundsOnceIffOneNewKey(db, advancePct, id, retries);
    SomeKeyUsed(retries);
    AllUnseen(KeysUsed(retries), PaidUnder(db));
    AllUnseen(KeysUsed(retries), CountedUnder(db));
    OneKeyIffSame(retries);
  }

  /** A single funding that goes through, under whatever key: the invoice is FUNDED in any case, it is paid out if and only
      if nothing was paid under the key before, and counted if and only if nothing was counted under it, which other
      invoices' fundings may have done. */
  lemma PaidIffKeyUnused(db: Db, advancePct: int, id: nat, key: string, now: int)
    requires Invoices.Fund(db, id, advancePct, FundKeysOf(key), now).Ok? && Exposure.CountersAgree(db)
    ensures var db' := Invoices.Fund(db, id, advancePct, FundKeysOf(key), now).value;
            && id < |db.invoices| == |db'.invoices| && db'.invoices[id].status == Funded
            && |AmountsFor(db'.ledger, FundingDisbursement, id)|
               == |AmountsFor(db.ledger, FundingDisbursement, id)| + (if key in PaidUnder(db) then 0 else 1)
            && var mcId := db.invoices[id].mcId;
               (Used(db'.credit, mcId) == Exposure.FundedTotal(db'.invoices, mcId) <==>
                key !in CountedUnder(db) || db.invoices[id].totalAmount == 0)
  {
    var c, retry := Invoices.FundGuard(db, id, advancePct).value, Retry(key, now);
    var db' := Invoices.Fund(db, id, advancePct, FundKeysOf(key), now).value;
    assert db' == CommitOne(db, c, retry);
    CommitWrites(db, c, retry);
    AddsUnderNewKey(db, c, retry);
    TotalGrows(db, db', c);
  }

  /** A funding under a new key keeps the counters agreeing with the funded invoices. */
  lemma FundKeepsCounters(db: Db, advancePct: int, id: nat, key: string, now: int)
    requires Invoices.Fund(db, id, advancePct, FundKeysOf(key), now).Ok? && Exposure.CountersAgree(db) && key !in CountedUnder(db)
    ensures Exposure.CountersAgree(Invoices.Fund(db, id, advancePct, FundKeysOf(key), now).value)
  {
    var c, retry := Invoices.FundGuard(db, id, advancePct).value, Retry(key, now);
    var db' := CommitOne(db, c, retry);
    CommitWrites(db, c, retry);
    forall m: nat ensures Used(db'.credit, m) == Exposure.FundedTotal(db'.invoices, m) {
      assert Used(db.credit, m) == Exposure.FundedTotal(db.invoices, m);
      Exposure.TotalAfterMove(db.invoices, c.id, db'.invoices[c.id], m);
    }
  }

  lemma TotalGrows(db: Db, db': Db, c: Invoices.FundCall)
    requires c.id < |db.invoices| && db.invoices[c.id].status == ApprovedForFunding && Exposure.CountersAgree(db)
    requires db.invoices[c.id].mcId == c.mcId && db.invoices[c.id].totalAmount == c.totalAmount
    requires db'.invoices == db.invoices[
               c.id := db.invoices[c.id].(status := Funded, advanceAmount := Some(c.advance), reserveAmount := Some(c.reserve))]
    ensures Exposure.FundedTotal(db'.invoices, c.mcId) == Used(db.credit, c.mcId) + c.totalAmount
  {
    Exposure.TotalAfterMove(db.invoices, c.id, db'.invoices[c.id], c.mcId);
  }

  lemma NotOnce(n: int, amount: int)
    ensures n * amount == amount <==> n == 1 || amount == 0
  {
    assert n * amount - amount == (n - 1) * amount;
  }
}
