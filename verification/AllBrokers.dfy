/** The fee run over all brokers: how far it gets, and that brokers do not influence each other's fees. */
module AllBrokers {
  import opened Wrappers
  import opened Sums
  import opened Ledger
  import opened FeeCalculator
  import opened Keys
  import opened Period
  import opened Schema
  import opened Fees
  import FeeRuns
  import Reruns
  import Histories

  predicate IsFinal(db: Db, brokerId: nat, month: int) {
    (brokerId, month) in db.feeInvoices && db.feeInvoices[(brokerId, month)].status != FeeDraft
  }

  ghost predicate Distinct(brokers: seq<nat>) {
    forall i, j :: 0 <= i < j < |brokers| ==> brokers[i] != brokers[j]
  }

  // ---- What one broker's run leaves to the others

  /** The fee an invoice has been charged for a month, if any. */
  function StoredFee(accruals: seq<Accrual>, id: nat, month: int): Option<int> {
    match FindFirst(accruals, AccrualFor(id, month))
    case Some(j) => Some(accruals[j].feeAmount)
    case None => None
  }

  lemma StoredAppend(accruals: seq<Accrual>, a: Accrual, id: nat, month: int)
    ensures StoredFee(accruals + [a], id, month)
         == (if StoredFee(accruals, id, month).Some? then StoredFee(accruals, id, month)
             else if a.invoiceId == id && a.periodMonth == month then Some(a.feeAmount) else None)
  {
    assert (accruals + [a])[..|accruals|] == accruals;
  }

  lemma StoredAfterTurn(ks: KeyScheme, s: Accruing, inv: Invoice, brokerId: nat, month: int, tier: Option<FeeTier>, id: nat)
    ensures var s' := AccrueOne(ks, s, inv, brokerId, month, tier);
            var due := RoundHalfAway(inv.totalAmount * FeePctOf(tier), FEE_SCALE);
            var charged := if StoredFee(s.accruals, inv.id, month).Some? then StoredFee(s.accruals, inv.id, month).value else due;
            && StoredFee(s'.accruals, id, month) == (if id == inv.id then Some(charged) else StoredFee(s.accruals, id, month))
            && s'.calculatedFee == s.calculatedFee + charged
  {
    StoredAppend(s.accruals, NewAccrual(inv, brokerId, month, tier), id, month);
    StoredAppend(s.accruals, NewAccrual(inv, brokerId, month, tier), inv.id, month);
  }

  /** The tables agree on what each of the broker's invoices has been charged. */
  ghost predicate SameCharges(invoices: seq<Invoice>, a: seq<Accrual>, b: seq<Accrual>, brokerId: nat, month: int) {
    forall id: nat :: id < |invoices| && invoices[id].brokerId == brokerId ==> StoredFee(a, id, month) == StoredFee(b, id, month)
  }

  ghost predicate AllOf(invoices: seq<Invoice>, selected: seq<Invoice>, brokerId: nat) {
    forall j :: 0 <= j < |selected| ==> selected[j].id < |invoices| && invoices[selected[j].id].brokerId == brokerId
  }

  lemma {:induction false} OthersUntouched(ks: KeyScheme, s: Accruing, invoices: seq<Invoice>, selected: seq<Invoice>,
                                           brokerId: nat, month: int, tier: Option<FeeTier>, other: nat)
    requires AllOf(invoices, selected, brokerId) && other != brokerId
    ensures SameCharges(invoices, s.accruals, AccrueAll(ks, s, selected, brokerId, month, tier).accruals, other, month)
  {
    if selected != [] {
      var n := |selected| - 1;
      OthersUntouched(ks, s, invoices, selected[..n], brokerId, month, tier, other);
      var before := AccrueAll(ks, s, selected[..n], brokerId, month, tier);
      forall id: nat | id < |invoices| && invoices[id].brokerId == other
        ensures StoredFee(AccrueOne(ks, before, selected[n], brokerId, month, tier).accruals, id, month)
             == StoredFee(before.accruals, id, month)
      {
        StoredAfterTurn(ks, before, selected[n], brokerId, month, tier, id);
      }
    }
  }

  lemma {:induction false} SameFeeFromSameCharges(ks: KeyScheme, a: Accruing, b: Accruing, invoices: seq<Invoice>,
                                                  selected: seq<Invoice>, brokerId: nat, month: int, tier: Option<FeeTier>)
    requires AllOf(invoices, selected, brokerId) && a.calculatedFee == b.calculatedFee
    requires SameCharges(invoices, a.accruals, b.accruals, brokerId, month)
    ensures var a', b' := AccrueAll(ks, a, selected, brokerId, month, tier), AccrueAll(ks, b, selected, brokerId, month, tier);
            a'.calculatedFee == b'.calculatedFee && SameCharges(invoices, a'.accruals, b'.accruals, brokerId, month)
  {
    if selected != [] {
      var n := |selected| - 1;
      SameFeeFromSameCharges(ks, a, b, invoices, selected[..n], brokerId, month, tier);
      var a', b' := AccrueAll(ks, a, selected[..n], brokerId, month, tier), AccrueAll(ks, b, selected[..n], brokerId, month, tier);
      StoredAfterTurn(ks, a', selected[n], brokerId, month, tier, 0);
      StoredAfterTurn(ks, b', selected[n], brokerId, month, tier, 0);
      forall id: nat | id < |invoices| && invoices[id].brokerId == brokerId
        ensures StoredFee(AccrueOne(ks, a', selected[n], brokerId, month, tier).accruals, id, month)
             == StoredFee(AccrueOne(ks, b', selected[n], brokerId, month, tier).accruals, id, month)
      {
        StoredAfterTurn(ks, a', selected[n], brokerId, month, tier, id);
        StoredAfterTurn(ks, b', selected[n], brokerId, month, tier, id);
      }
    }
  }

  /** db' reads the same as db when the broker's month is run. */
  ghost predicate ReadsTheSame(db: Db, db': Db, brokerId: nat, month: int) {
    && db'.invoices == db.invoices && db'.history == db.history && db'.tiers == db.tiers && db'.feeConfigs == db.feeConfigs
    && ExistingFeeInvoice(db', brokerId, month) == ExistingFeeInvoice(db, brokerId, month)
    && SameCharges(db.invoices, db.accruals, db'.accruals, brokerId, month)
  }

  lemma SelectedAreTheBrokers(db: Db, brokerId: nat, month: int)
    requires Histories.PathsOk(db)
    ensures AllOf(db.invoices, Outstanding(db, brokerId, month), brokerId)
  {
    FeeRuns.SelectionIsExact(db, brokerId, month);
    var selected := Outstanding(db, brokerId, month);
    forall j | 0 <= j < |selected| ensures selected[j].id < |db.invoices| && db.invoices[selected[j].id].brokerId == brokerId {
      assert selected[j] in selected;
    }
  }

  lemma RunLeavesOthers(ks: KeyScheme, db: Db, brokerId: nat, month: int, other: nat)
    requires Histories.PathsOk(db) && other != brokerId && RunMonth(ks, db, brokerId, month).Ok?
    ensures ReadsTheSame(db, RunMonth(ks, db, brokerId, month).value, other, month)
  {
    var selected := Outstanding(db, brokerId, month);
    SelectedAreTheBrokers(db, brokerId, month);
    OthersUntouched(ks, Accruing(db.accruals, db.ledger, 0), db.invoices, selected, brokerId, month, TierFor(db, selected), other);
  }

  lemma SameReadsSameFee(ks: KeyScheme, db: Db, db': Db, brokerId: nat, month: int)
    requires Histories.PathsOk(db) && ReadsTheSame(db, db', brokerId, month)
    ensures RunMonth(ks, db', brokerId, month).Ok? <==> RunMonth(ks, db, brokerId, month).Ok?
    ensures RunMonth(ks, db, brokerId, month).Ok? ==>
              ExistingFeeInvoice(RunMonth(ks, db', brokerId, month).value, brokerId, month)
              == ExistingFeeInvoice(RunMonth(ks, db, brokerId, month).value, brokerId, month)
  {
    var selected := Outstanding(db, brokerId, month);
    assert Outstanding(db', brokerId, month) == selected;
    SelectedAreTheBrokers(db, brokerId, month);
    SameFeeFromSameCharges(ks, Accruing(db.accruals, db.ledger, 0), Accruing(db'.accruals, db'.ledger, 0), db.invoices, selected,
                           brokerId, month, TierFor(db, selected));
  }

  // ---- The run over all brokers

  /** The position of the first broker whose fee invoice is no draft any more, or the number of brokers. */
  function FirstFinal(db: Db, brokers: seq<nat>, month: int): (k: nat)
    ensures k <= |brokers| && (k < |brokers| ==> IsFinal(db, brokers[k], month))
    ensures forall j :: 0 <= j < k ==> !IsFinal(db, brokers[j], month)
  {
    if brokers == [] then 0
    else
      var n := |brokers| - 1;
      var k := FirstFinal(db, brokers[..n], month);
      if k == n && !IsFinal(db, brokers[n], month) then n + 1 else k
  }

  /** The fee invoice the broker's run alone would write. */
  function FeeAlone(ks: KeyScheme, db: Db, brokerId: nat, month: int): Option<FeeInvoice> {
    match RunMonth(ks, db, brokerId, month)
    case Ok(db') => ExistingFeeInvoice(db', brokerId, month)
    case Err(_) => None
  }

  /** How the tables stand after the run: brokers before position k have the fee they would have alone, the others have
      what they had. */
  ghost predicate RunUpTo(ks: KeyScheme, db: Db, db': Db, brokers: seq<nat>, k: nat, month: int)
    requires k <= |brokers|
  {
    && (forall j :: 0 <= j < k ==> ExistingFeeInvoice(db', brokers[j], month) == FeeAlone(ks, db, brokers[j], month))
    && (forall b: nat :: b !in brokers[..k] ==> ReadsTheSame(db, db', b, month))
  }

  lemma SamePaths(db: Db, db': Db)
    requires Histories.PathsOk(db) && db'.invoices == db.invoices && db'.history == db.history
    ensures Histories.PathsOk(db')
  {
    Reruns.SamePathsOk(db, db');
  }

  lemma RunUpToNext(ks: KeyScheme, db: Db, db': Db, brokers: seq<nat>, n: nat, month: int)
    requires Histories.PathsOk(db) && Distinct(brokers) && n < |brokers| && RunUpTo(ks, db, db', brokers, n, month)
    requires Histories.PathsOk(db') && RunMonth(ks, db', brokers[n], month).Ok?
    requires ExistingFeeInvoice(RunMonth(ks, db', brokers[n], month).value, brokers[n], month) == FeeAlone(ks, db, brokers[n], month)
    ensures RunUpTo(ks, db, RunMonth(ks, db', brokers[n], month).value, brokers, n + 1, month)
  {
    var b := brokers[n];
    var db'' := RunMonth(ks, db', b, month).value;
    assert brokers[..n + 1] == brokers[..n] + [b];
    forall j | 0 <= j < n + 1 ensures ExistingFeeInvoice(db'', brokers[j], month) == FeeAlone(ks, db, brokers[j], month) {
      if j < n {
        RunLeavesOthers(ks, db', b, month, brokers[j]);
      }
    }
    forall c: nat | c !in brokers[..n + 1] ensures ReadsTheSame(db, db'', c, month) {
      RunLeavesOthers(ks, db', b, month, c);
    }
  }

  lemma OneMoreBroker(ks: KeyScheme, db: Db, db': Db, brokers: seq<nat>, n: nat, month: int)
    requires Histories.PathsOk(db) && Distinct(brokers) && n < |brokers| && RunUpTo(ks, db, db', brokers, n, month)
    ensures RunMonth(ks, db', brokers[n], month).Ok? <==> !IsFinal(db, brokers[n], month)
    ensures RunMonth(ks, db', brokers[n], month).Ok? ==>
              RunUpTo(ks, db, RunMonth(ks, db', brokers[n], month).value, brokers, n + 1, month)
  {
    assert brokers[n] !in brokers[..n];
    SamePaths(db, db');
    SameReadsSameFee(ks, db, db', brokers[n], month);
    if RunMonth(ks, db', brokers[n], month).Ok? {
      RunUpToNext(ks, db, db', brokers, n, month);
    }
  }

  /** The results are the fees the brokers would have alone. */
  ghost predicate ResultsAlone(ks: KeyScheme, db: Db, brokers: seq<nat>, month: int, results: seq<FeeInvoice>) {
    AreResults((b: nat) => FeeAlone(ks, db, b, month), brokers, results)
  }

  ghost predicate AreResults(fee: nat -> Option<FeeInvoice>, brokers: seq<nat>, results: seq<FeeInvoice>) {
    |results| == |brokers| && forall j :: 0 <= j < |results| ==> fee(brokers[j]) == Some(results[j])
  }

  /** How the whole ends, when the first k brokers are run. */
  ghost predicate EndsAt(ks: KeyScheme, db: Db, done: AllRuns, brokers: seq<nat>, k: nat, month: int)
    requires k <= |brokers|
  {
    && RunUpTo(ks, db, done.db, brokers, k, month)
    && (if k < |brokers| then done.results == Err(FeeInvoiceFinal)
        else done.results.Ok? && ResultsAlone(ks, db, brokers, month, done.results.value))
  }

  /** The last broker's turn, given how the ones before it went. */
  lemma LastTurn(ks: KeyScheme, db: Db, before: AllRuns, brokers: seq<nat>, date: int)
    requires Histories.PathsOk(db) && Distinct(brokers) && brokers != []
    requires EndsAt(ks, db, before, brokers[..|brokers| - 1], |brokers| - 1, PeriodMonth(date))
    ensures var n := |brokers| - 1;
            EndsAt(ks, db, RunNext(ks, before, brokers[n], date), brokers,
                   if IsFinal(db, brokers[n], PeriodMonth(date)) then n else n + 1, PeriodMonth(date))
  {
    var n, month := |brokers| - 1, PeriodMonth(date);
    LongerList(ks, db, before.db, brokers, n, n, month);
    OneMoreBroker(ks, db, before.db, brokers, n, month);
    if !IsFinal(db, brokers[n], month) {
      var db' := RunMonth(ks, before.db, brokers[n], month).value;
      OneMoreResult(ks, db, db', brokers, before.results.value, month);
    }
  }

  lemma ResultsExtend(fee: nat -> Option<FeeInvoice>, brokers: seq<nat>, results: seq<FeeInvoice>, last: FeeInvoice)
    requires brokers != [] && AreResults(fee, brokers[..|brokers| - 1], results) && fee(brokers[|brokers| - 1]) == Some(last)
    ensures AreResults(fee, brokers, results + [last])
  {
    forall j | 0 <= j < |brokers| - 1 ensures fee(brokers[j]) == Some(results[j]) {
      assert brokers[..|brokers| - 1][j] == brokers[j];
    }
  }

  lemma OneMoreResult(ks: KeyScheme, db: Db, db': Db, brokers: seq<nat>, results: seq<FeeInvoice>, month: int)
    requires brokers != [] && ResultsAlone(ks, db, brokers[..|brokers| - 1], month, results)
    requires RunUpTo(ks, db, db', brokers, |brokers|, month) && (brokers[|brokers| - 1], month) in db'.feeInvoices
    ensures ResultsAlone(ks, db, brokers, month, results + [db'.feeInvoices[(brokers[|brokers| - 1], month)]])
  {
    var n := |brokers| - 1;
    assert FeeAlone(ks, db, brokers[n], month) == ExistingFeeInvoice(db', brokers[n], month);
    ResultsExtend((b: nat) => FeeAlone(ks, db, b, month), brokers, results, db'.feeInvoices[(brokers[n], month)]);
  }

  lemma StaysStopped(ks: KeyScheme, db: Db, before: AllRuns, brokers: seq<nat>, k: nat, date: int)
    requires brokers != [] && k < |brokers| - 1 && EndsAt(ks, db, before, brokers[..|brokers| - 1], k, PeriodMonth(date))
    ensures EndsAt(ks, db, RunNext(ks, before, brokers[|brokers| - 1], date), brokers, k, PeriodMonth(date))
  {
    LongerList(ks, db, before.db, brokers, |brokers| - 1, k, PeriodMonth(date));
  }

  lemma LongerList(ks: KeyScheme, db: Db, db': Db, brokers: seq<nat>, n: nat, k: nat, month: int)
    requires k <= n <= |brokers| && RunUpTo(ks, db, db', brokers[..n], k, month)
    ensures RunUpTo(ks, db, db', brokers, k, month)
  {
    assert brokers[..n][..k] == brokers[..k];
    forall j | 0 <= j < k ensures ExistingFeeInvoice(db', brokers[j], month) == FeeAlone(ks, db, brokers[j], month) {
      assert brokers[j] == brokers[..n][j];
    }
  }

  /** The run reaches the first broker whose fee invoice has left DRAFT and stops there with an error, or completes if
      there is none. Every broker reached gets, and the run returns, exactly the fee its own run would give it on the
      tables at the start, in whatever order the brokers come; every other broker's fee invoice and charges stay as they
      were. */
  lemma {:induction false} AllBrokersRun(ks: KeyScheme, db: Db, brokers: seq<nat>, date: int)
    requires Histories.PathsOk(db) && Distinct(brokers)
    ensures EndsAt(ks, db, RunForAllBrokers(ks, db, brokers, date), brokers, FirstFinal(db, brokers, PeriodMonth(date)), PeriodMonth(date))
  {
    if brokers != [] {
      var n := |brokers| - 1;
      AllBrokersRun(ks, db, brokers[..n], date);
      var before := RunForAllBrokers(ks, db, brokers[..n], date);
      var k := FirstFinal(db, brokers[..n], PeriodMonth(date));
      if k == n {
        LastTurn(ks, db, before, brokers, date);
      } else {
        StaysStopped(ks, db, before, brokers, k, date);
      }
    }
  }
}
