/** Tier lookup by gallons and the exact fee calculation. Money is in cents, gallons in thousandths, fee percentages in
    thousandths of a percent, advance percentages in hundredths of a percent. */
module FeeCalculator {
  import opened Wrappers
  import opened Sums

  datatype FeeTier = FeeTier(id: nat, gallonsFrom: nat, gallonsTo: Option<nat>, feePct: nat, isActive: bool)

  /** Units per cent in which a fee percentage of a cent amount is a whole number. */
  const FEE_SCALE := 100_000

  /** Units per cent for an advance percentage of a cent amount. */
  const ADVANCE_SCALE := 10_000

  /** Rounding of numerator/scale to a whole number, half away from zero, as a write to a cents column does. */
  function RoundHalfAway(numerator: int, scale: int): int
    requires 0 < scale
  {
    if 0 <= numerator then (2 * numerator + scale) / (2 * scale) else -((-2 * numerator + scale) / (2 * scale))
  }

  predicate InBand(tier: FeeTier, gallons: int) {
    tier.gallonsFrom <= gallons && (tier.gallonsTo.None? || gallons < tier.gallonsTo.value)
  }

  function Contains(gallons: int): FeeTier -> bool {
    (tier: FeeTier) => InBand(tier, gallons)
  }

  function FindTierForGallons(tiers: seq<FeeTier>, gallons: int): Option<FeeTier> {
    match FindFirst(tiers, Contains(gallons))
    case Some(j) => Some(tiers[j])
    case None => None
  }

  function FeePctOf(tier: Option<FeeTier>): nat {
    if tier.Some? then tier.value.feePct else 0
  }

  /** calculatedFee, estimatedFee are in 1/FEE_SCALE cents; the advance and reserve in 1/ADVANCE_SCALE cents. */
  datatype FeeEstimate = FeeEstimate(tier: Option<FeeTier>, feePct: nat, volume: int, calculatedFee: int,
    minimumFeeShortfallApplied: bool, estimatedFee: int, estimatedAdvance: int, estimatedReserve: int)

  function CalculateFee(tiers: seq<FeeTier>, gallons: int, volume: int, minimumMonthlyFee: int, advancePct: int): FeeEstimate {
    var tier := FindTierForGallons(tiers, gallons);
    var feePct := FeePctOf(tier);
    var calculatedFee := volume * feePct;
    var shortfall := calculatedFee < minimumMonthlyFee * FEE_SCALE;
    var advance := volume * advancePct;
    FeeEstimate(tier, feePct, volume, calculatedFee, shortfall,
                if shortfall then minimumMonthlyFee * FEE_SCALE else calculatedFee,
                advance, volume * ADVANCE_SCALE - advance)
  }

  // ---- Tier lookup

  ghost predicate SortedByFrom(tiers: seq<FeeTier>) {
    forall i, j :: 0 <= i < j < |tiers| ==> tiers[i].gallonsFrom <= tiers[j].gallonsFrom
  }

  /** Bands that follow each other without gap or overlap, from zero gallons to an open top. */
  ghost predicate Contiguous(tiers: seq<FeeTier>) {
    && tiers != []
    && tiers[0].gallonsFrom == 0
    && tiers[|tiers| - 1].gallonsTo.None?
    && forall j :: 0 <= j < |tiers| - 1 ==> tiers[j].gallonsTo == Some(tiers[j + 1].gallonsFrom)
  }

  /** The last band that starts at or below the volume. */
  ghost predicate IsLastStarted(tiers: seq<FeeTier>, gallons: int, k: nat) {
    && k < |tiers|
    && tiers[k].gallonsFrom <= gallons
    && forall j :: k < j < |tiers| ==> gallons < tiers[j].gallonsFrom
  }

  lemma {:induction false} LastStartedExists(tiers: seq<FeeTier>, gallons: int, n: nat) returns (k: nat)
    requires 0 < n <= |tiers| && tiers[0].gallonsFrom <= gallons
    ensures k < n && tiers[k].gallonsFrom <= gallons
    ensures forall j :: k < j < n ==> gallons < tiers[j].gallonsFrom
  {
    if n == 1 || tiers[n - 1].gallonsFrom <= gallons {
      k := n - 1;
    } else {
      k := LastStartedExists(tiers, gallons, n - 1);
    }
  }

  lemma EarlierBandEnds(tiers: seq<FeeTier>, gallons: int, j: nat, k: nat)
    requires SortedByFrom(tiers) && Contiguous(tiers)
    requires j < k < |tiers| && tiers[k].gallonsFrom <= gallons
    ensures !InBand(tiers[j], gallons)
  {
    assert tiers[j].gallonsTo == Some(tiers[j + 1].gallonsFrom);
    assert j + 1 == k || tiers[j + 1].gallonsFrom <= tiers[k].gallonsFrom;
  }

  /** On a contiguous sorted table exactly one band contains a volume, and it is the last one that has started. */
  lemma ContainingBandIsUnique(tiers: seq<FeeTier>, gallons: int) returns (k: nat)
    requires SortedByFrom(tiers) && Contiguous(tiers) && 0 <= gallons
    ensures IsLastStarted(tiers, gallons, k) && InBand(tiers[k], gallons)
    ensures forall j :: 0 <= j < |tiers| && InBand(tiers[j], gallons) ==> j == k
  {
    k := LastStartedExists(tiers, gallons, |tiers|);
    assert k < |tiers| - 1 ==> tiers[k].gallonsTo == Some(tiers[k + 1].gallonsFrom);
    forall j | 0 <= j < |tiers| && InBand(tiers[j], gallons) ensures j == k {
      if j < k {
        EarlierBandEnds(tiers, gallons, j, k);
      }
    }
  }

  /** The lookup on a contiguous table, in whatever order the table is given, finds the last band started in sorted
      order; a negative volume finds none. */
  lemma TierLookup(tiers: seq<FeeTier>, shuffled: seq<FeeTier>, gallons: int)
    requires SortedByFrom(tiers) && Contiguous(tiers)
    requires multiset(shuffled) == multiset(tiers)
    ensures 0 <= gallons ==>
              exists k: nat :: IsLastStarted(tiers, gallons, k) && FindTierForGallons(shuffled, gallons) == Some(tiers[k])
    ensures gallons < 0 ==> FindTierForGallons(shuffled, gallons) == None
  {
    if 0 <= gallons {
      var k := ContainingBandIsUnique(tiers, gallons);
      assert tiers[k] in multiset(tiers);
      assert tiers[k] in shuffled;
      var j := FindFirst(shuffled, Contains(gallons)).value;
      assert shuffled[j] in multiset(shuffled);
      assert shuffled[j] in tiers;
    }
  }

  /** Bands may overlap: on a sorted table the lookup still finds a containing band with the least start, and finds
      one whenever there is one. */
  lemma TierLookupOverlapping(tiers: seq<FeeTier>, gallons: int)
    requires SortedByFrom(tiers)
    ensures match FindTierForGallons(tiers, gallons)
            case Some(t) => t in tiers && InBand(t, gallons)
                            && forall u :: u in tiers && InBand(u, gallons) ==> t.gallonsFrom <= u.gallonsFrom
            case None => forall u :: u in tiers ==> !InBand(u, gallons)
  {
    var found := FindFirst(tiers, Contains(gallons));
    forall u | u in tiers && InBand(u, gallons)
      ensures found.Some? && tiers[found.value].gallonsFrom <= u.gallonsFrom
    {
      var i :| 0 <= i < |tiers| && tiers[i] == u;
      assert Contains(gallons)(tiers[i]);
    }
  }

  // ---- Rounding

  lemma RoundingError(numerator: int, scale: int)
    requires 0 < scale
    ensures -scale <= 2 * (RoundHalfAway(numerator, scale) * scale - numerator) <= scale
  {
    var m := if 0 <= numerator then numerator else -numerator;
    DivideBounds(2 * m + scale, 2 * scale);
    assert ((2 * m + scale) / (2 * scale)) * (2 * scale) == 2 * (((2 * m + scale) / (2 * scale)) * scale);
  }

  /** The rounded number is the nearest one, the greater of two as near, and rounding treats both signs alike. */
  lemma RoundsToNearest(numerator: nat, scale: int)
    requires 0 < scale
    ensures -scale < 2 * (RoundHalfAway(numerator, scale) * scale - numerator) <= scale
    ensures RoundHalfAway(0 - numerator, scale) == -RoundHalfAway(numerator, scale)
  {
    DivideBounds(2 * numerator + scale, 2 * scale);
    assert ((2 * numerator + scale) / (2 * scale)) * (2 * scale) == 2 * (((2 * numerator + scale) / (2 * scale)) * scale);
    if numerator == 0 {
      assert scale / (2 * scale) == 0;
    }
  }

  lemma DivideBounds(a: int, b: int)
    requires 0 < b
    ensures (a / b) * b <= a < (a / b) * b + b
  {
  }

  /** The stored advance and the stored reserve add up to the total, except that an exact half-cent tie rounds both
      up and they exceed it by one cent; each lies between zero and the total. */
  lemma AdvanceSplit(total: nat, advancePct: nat)
    requires advancePct <= 100_00
    ensures var advance := RoundHalfAway(total * advancePct, ADVANCE_SCALE);
            var reserve := RoundHalfAway(total * ADVANCE_SCALE - total * advancePct, ADVANCE_SCALE);
            && 0 <= advance <= total && 0 <= reserve <= total
            && advance + reserve == total + (if (total * advancePct) % ADVANCE_SCALE == 5_000 then 1 else 0)
  {
    var x := total * advancePct;
    assert 0 <= x <= total * ADVANCE_SCALE;
    SplitTenThousand(total, x);
  }

  lemma SplitTenThousand(total: nat, x: nat)
    requires x <= total * 10_000
    ensures var a := RoundHalfAway(x, 10_000);
            var r := RoundHalfAway(total * 10_000 - x, 10_000);
            0 <= a <= total && 0 <= r <= total && a + r == total + (if x % 10_000 == 5_000 then 1 else 0)
  {
    var q, m := x / 10_000, x % 10_000;
    assert x == q * 10_000 + m;
    assert (2 * x + 10_000) / 20_000 == q + (if 5_000 <= m then 1 else 0);
    var y := total * 10_000 - x;
    assert y == (total - q) * 10_000 - m;
    assert (2 * y + 10_000) / 20_000 == total - q - (if 5_000 < m then 1 else 0);
  }

  // ---- The rounded monthly fee against the exact one

  /** Rounding each of n fees to cents moves their sum by at most n half-cents. */
  lemma {:induction false} RoundedFeesNearExact<T>(rows: seq<T>, amount: T -> int, rounded: T -> int, feePct: nat)
    requires forall j :: 0 <= j < |rows| ==> rounded(rows[j]) == RoundHalfAway(amount(rows[j]) * feePct, FEE_SCALE)
    ensures -|rows| * FEE_SCALE <= 2 * (Sum(rows, rounded) * FEE_SCALE - Sum(rows, amount) * feePct) <= |rows| * FEE_SCALE
  {
    if rows != [] {
      var n := |rows| - 1;
      RoundedFeesNearExact(rows[..n], amount, rounded, feePct);
      RoundingError(amount(rows[n]) * feePct, FEE_SCALE);
      assert (Sum(rows[..n], amount) + amount(rows[n])) * feePct
          == Sum(rows[..n], amount) * feePct + amount(rows[n]) * feePct;
    }
  }
}
