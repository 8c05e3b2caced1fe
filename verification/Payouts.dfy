/** What a funding pays out and what it holds back, from the call to the ledger. */
module Payouts {
  import opened Wrappers
  import opened Sums
  import opened StateMachine
  import opened Ledger
  import opened FeeCalculator
  import opened Keys
  import opened Schema
  import opened Engine
  import opened MoneyTrail
  import Invoices
  import Outcomes

  /** The amount is the percentage of the total, in hundredths of a percent, to the nearest cent and upwards on a tie. */
  predicate IsShare(amount: int, total: int, pct: int) {
    -10_000 < 2 * (amount * 10_000 - total * pct) <= 10_000
  }

  /** Advance and reserve share the total, and one cent more on an exact half-cent tie. */
  predicate SharesTotal(advance: int, reserve: int, total: int, pct: int) {
    && IsShare(advance, total, pct) && IsShare(reserve, total, 100_00 - pct)
    && 0 <= advance <= total && 0 <= reserve <= total
    && advance + reserve == total + (if (total * pct) % 10_000 == 5_000 then 1 else 0)
  }

  lemma TermsShareTotal(inv: Invoice, id: nat, advancePct: int)
    requires 0 <= advancePct <= 100_00
    ensures var c := Invoices.FundingTerms(inv, id, advancePct); SharesTotal(c.advance, c.reserve, inv.totalAmount, advancePct)
  {
    var total := inv.totalAmount;
    assert 0 <= total * advancePct <= total * ADVANCE_SCALE;
    assert total * (100_00 - advancePct) == total * ADVANCE_SCALE - total * advancePct;
    RoundsToNearest(total * advancePct, ADVANCE_SCALE);
    RoundsToNearest(total * ADVANCE_SCALE - total * advancePct, ADVANCE_SCALE);
    AdvanceSplit(total, advancePct);
  }

  /** The invoice's stored amounts share its total. */
  ghost predicate HasShares(inv: Invoice, pct: int) {
    && inv.advanceAmount.Some? && inv.reserveAmount.Some?
    && SharesTotal(inv.advanceAmount.value, inv.reserveAmount.value, inv.totalAmount, pct)
  }

  /** A funding that goes through stores the percentage of the total as the advance and the rest as the reserve. */
  lemma FundStoresShares(ks: KeyScheme, db: Db, id: nat, advancePct: int, now: int)
    requires 0 <= advancePct <= 100_00 && Attempt(ks, db, Call(Fund(id, advancePct), now)).Ok?
    ensures var db' := Attempt(ks, db, Call(Fund(id, advancePct), now)).value;
            && id < |db.invoices| == |db'.invoices| && db'.invoices[id].totalAmount == db.invoices[id].totalAmount
            && HasShares(db'.invoices[id], advancePct)
  {
    TermsShareTotal(db.invoices[id], id, advancePct);
    Outcomes.FundOutcome(ks, db, id, advancePct, now);
  }

  // ---- Over whole runs

  /** Every funding of the run is made at one percentage, as the service is configured with. */
  ghost predicate FundsAt(calls: seq<Call>, pct: int) {
    forall j :: 0 <= j < |calls| && calls[j].event.Fund? ==> calls[j].event.advancePct == pct
  }

  ghost predicate SharesOk(db: Db, pct: int) {
    forall i :: 0 <= i < |db.invoices| && EverFunded(db.invoices[i].status) ==> HasShares(db.invoices[i], pct)
  }

  lemma SharesAfterMove(db: Db, db': Db, id: nat, from: Status, to: Status, now: int, pct: int)
    requires SharesOk(db, pct) && Moves(db, db', id, from, to, now) && SameTerms(db, db', id)
    requires EverFunded(to) ==> EverFunded(from)
    ensures SharesOk(db', pct)
  {
  }

  lemma SharesAfterOther(ks: KeyScheme, db: Db, c: Call, pct: int)
    requires SharesOk(db, pct) && StartsWhereItSays(db, c.event) && Attempt(ks, db, c).Ok? && !c.event.Fund?
    ensures SharesOk(Attempt(ks, db, c).value, pct)
  {
    var db' := Attempt(ks, db, c).value;
    ShapeOfStep(ks, db, c);
    if IsMove(c.event) {
      OnlyFundFunds(db, c.event);
      SharesAfterMove(db, db', c.event.id, EdgeOf(db, c.event).from, EdgeOf(db, c.event).to, c.now, pct);
    } else if c.event.Create? {
      assert forall i :: 0 <= i < |db.invoices| ==> db'.invoices[i] == db'.invoices[..|db.invoices|][i];
    }
  }

  lemma OnlyFundFunds(db: Db, e: Event)
    requires IsMove(e) && !e.Fund?
    ensures EverFunded(EdgeOf(db, e).to) ==> EverFunded(EdgeOf(db, e).from)
  {
  }

  lemma SharesAfterFund(ks: KeyScheme, db: Db, c: Call, pct: int)
    requires SharesOk(db, pct) && 0 <= pct <= 100_00
    requires Attempt(ks, db, c).Ok? && c.event.Fund? && c.event.advancePct == pct
    ensures SharesOk(Attempt(ks, db, c).value, pct)
  {
    FundStoresShares(ks, db, c.event.id, pct, c.now);
    Outcomes.FundOutcome(ks, db, c.event.id, pct, c.now);
  }

  lemma {:induction false} SharesInRun(ks: KeyScheme, calls: seq<Call>, pct: int)
    requires Orderly(ks, calls) && FundsAt(calls, pct) && 0 <= pct <= 100_00
    ensures SharesOk(After(ks, calls), pct)
  {
    if calls != [] {
      var n := |calls| - 1;
      var before, c := After(ks, calls[..n]), calls[n];
      SharesInRun(ks, calls[..n], pct);
      if Attempt(ks, before, c).Ok? {
        if c.event.Fund? {
          SharesAfterFund(ks, before, c, pct);
        } else {
          SharesAfterOther(ks, before, c, pct);
        }
      }
    }
  }

  /** After any orderly run, an invoice that has been funded was paid out its share of the total once and the rest was held
      back once, each to the nearest cent; a settled one was paid the held rest, too. */
  lemma PayoutsOfRun(ks: KeyScheme, calls: seq<Call>, id: nat, pct: int) returns (advance: int, reserve: int)
    requires Injective(ks) && Orderly(ks, calls) && FundsAt(calls, pct) && 0 <= pct <= 100_00
    requires id < |After(ks, calls).invoices| && EverFunded(After(ks, calls).invoices[id].status)
    ensures var db := After(ks, calls);
            && AmountsFor(db.ledger, FundingDisbursement, id) == [advance]
            && AmountsFor(db.ledger, ReserveHold, id) == [reserve]
            && AmountsFor(db.ledger, ReserveRelease, id) == (if db.invoices[id].status == Settled then [reserve] else [])
            && SharesTotal(advance, reserve, db.invoices[id].totalAmount, pct)
  {
    var db := After(ks, calls);
    SharesInRun(ks, calls, pct);
    TrailsOfRun(ks, calls);
    assert TrailOf(db.ledger, id) == ExpectedTrail(db, id);
    advance, reserve := db.invoices[id].advanceAmount.value, db.invoices[id].reserveAmount.value;
  }

  /** At 95 percent an invoice of 1000 dollars pays out 950 and holds 50. */
  lemma KnownShares(advance: int, reserve: int)
    requires SharesTotal(advance, reserve, 100_000, 95_00)
    ensures advance == 95_000 && reserve == 5_000
  {
  }

  // ---- The calculator's preview

  /** The preview of a volume: advance and reserve make it up and round to shares, the fee is floored by the minimum, and the
      flag says whether the floor was needed. Fees are in thousandths of a percent of a cent, advances in hundredths. */
  lemma PreviewMeans(tiers: seq<FeeTier>, gallons: int, volume: nat, minimum: nat, advancePct: nat)
    requires advancePct <= 100_00
    ensures var e := CalculateFee(tiers, gallons, volume, minimum, advancePct);
            && e.estimatedAdvance + e.estimatedReserve == volume * 10_000
            && IsShare(RoundHalfAway(e.estimatedAdvance, 10_000), volume, advancePct)
            && e.tier == FindTierForGallons(tiers, gallons)
            && e.calculatedFee == volume * (if e.tier.Some? then e.tier.value.feePct else 0)
            && e.estimatedFee == Max(e.calculatedFee, minimum * 100_000)
            && (e.minimumFeeShortfallApplied <==> e.calculatedFee < e.estimatedFee)
  {
    assert 0 <= volume * advancePct;
    RoundsToNearest(volume * advancePct, 10_000);
  }
}
