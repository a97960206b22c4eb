/**
 * The gear-upgrade engine: the tier and cost tables, tier lookup, the cost and
 * success-rate interpolations, the cumulative weighted choice, and one upgrade
 * attempt as a transition on the user's row.
 */
module UpgradeService {
  import opened Basics
  import opened Db

  // ---------------------------------------------------------------- tables

  datatype TierName = Rookie | Common | Rare | Epic | Legendary | Mythic | Ascension

  /**
   * One row of `TIERS`: the inclusive level range, the success rate at the first and
   * at the last level of the range, the weights of gaining 1, 2 or 3 levels, the
   * optional (maintain, drop 1, deeper drop) weights, and the destroy probability.
   */
  datatype Tier = Tier(name: TierName, lo: int, hi: int, successStart: real, successEnd: real,
                       gains: seq<real>, drops: Option<seq<real>>, destroy: real)

  const TIERS: seq<Tier> := [
    Tier(Rookie,     1,  20, 1.00, 0.85, [0.40, 0.35, 0.25], None,                     0.00),
    Tier(Common,    21,  40, 0.80, 0.60, [0.40, 0.35, 0.25], Some([0.60, 0.40, 0.00]), 0.00),
    Tier(Rare,      41,  60, 0.55, 0.35, [0.60, 0.30, 0.10], Some([0.70, 0.25, 0.05]), 0.00),
    Tier(Epic,      61,  70, 0.30, 0.20, [0.60, 0.30, 0.10], Some([0.70, 0.25, 0.05]), 0.01),
    Tier(Legendary, 71,  80, 0.18, 0.12, [0.80, 0.15, 0.05], Some([0.50, 0.35, 0.15]), 0.03),
    Tier(Mythic,    81,  90, 0.10, 0.05, [0.80, 0.15, 0.05], Some([0.30, 0.40, 0.30]), 0.07),
    Tier(Ascension, 91, 100, 0.03, 0.01, [1.00, 0.00, 0.00], None,                     1.00)
  ]

  /** One entry of `COST_RANGES`: an inclusive level bracket and its cost at either end. */
  datatype CostRange = CostRange(lo: int, hi: int, minCost: int, maxCost: int)

  const COST_RANGES: seq<CostRange> := [
    CostRange( 1,  20,      500,      7000),
    CostRange(21,  40,    10000,     40000),
    CostRange(41,  60,    60000,    150000),
    CostRange(61,  70,   250000,    600000),
    CostRange(71,  80,  1000000,   3000000),
    CostRange(81,  90,  7000000,  20000000),
    CostRange(91, 100, 50000000, 100000000)
  ]

  /** What `calculate_cost` returns for a level no bracket contains. */
  const FALLBACK_COST: int := 50000000

  /**
   * What the upgrade code relies on from a tier row: three gain weights, three drop
   * weights, a range of more than one level, and a rate that falls from at most 1 to
   * a positive value.
   */
  predicate TierShape(t: Tier) {
    && |t.gains| == 3 && (t.drops.Some? ==> |t.drops.value| == 3)
    && t.lo < t.hi
    && 1.0 >= t.successStart >= t.successEnd > 0.0
  }

  // ---------------------------------------------------------------- tier lookup

  predicate TierContains(t: Tier, level: int) { t.lo <= level <= t.hi }

  /** The first-match scan of `get_tier_name`, from index `i` on: the index of the match, or |TIERS|. */
  function FirstTier(level: int, i: nat): (k: nat)
    requires i <= |TIERS|
    decreases |TIERS| - i
    ensures i <= k <= |TIERS|
    ensures k < |TIERS| ==> TierContains(TIERS[k], level)
    ensures forall j :: i <= j < k ==> !TierContains(TIERS[j], level)
  {
    if i == |TIERS| then i
    else if TierContains(TIERS[i], level) then i
    else FirstTier(level, i + 1)
  }

  /** `get_tier_name`: the first tier whose range contains the level, else "Ascension". */
  function GetTierName(level: int): (r: TierName)
    ensures (forall j :: 0 <= j < |TIERS| ==> !TierContains(TIERS[j], level)) ==> r == Ascension
    ensures (exists j :: 0 <= j < |TIERS| && TierContains(TIERS[j], level)) ==>
              exists k :: 0 <= k < |TIERS| && TierContains(TIERS[k], level) && r == TIERS[k].name
                          && forall j :: 0 <= j < k ==> !TierContains(TIERS[j], level)
  {
    var k := FirstTier(level, 0);
    if k < |TIERS| then TIERS[k].name else Ascension
  }

  /** The seven bands 1-20, 21-40, 41-60, 61-70, 71-80, 81-90 and 91-100, written out independently of the table scan. */
  function Band(level: int): TierName {
    if 1 <= level <= 20 then Rookie
    else if 21 <= level <= 40 then Common
    else if 41 <= level <= 60 then Rare
    else if 61 <= level <= 70 then Epic
    else if 71 <= level <= 80 then Legendary
    else if 81 <= level <= 90 then Mythic
    else Ascension
  }

  /** The table scan agrees with the seven bands; every level outside 1..100 is "Ascension". */
  lemma GetTierNameIsBand(level: int)
    ensures GetTierName(level) == Band(level)
    ensures (level < 1 || level > 100) ==> GetTierName(level) == Ascension
  {
    var k := FirstTier(level, 0);
    if 1 <= level <= 100 {
      assert k < |TIERS|;
    }
  }

  /** Where each name sits in `TIERS`. */
  function TierIndex(name: TierName): nat {
    match name
    case Rookie => 0
    case Common => 1
    case Rare => 2
    case Epic => 3
    case Legendary => 4
    case Mythic => 5
    case Ascension => 6
  }

  /** `get_tier_info`: the row of `TIERS` filed under the name `get_tier_name` reports. */
  function GetTierInfo(level: int): (t: Tier)
    ensures t in TIERS && TierShape(t)
    ensures t.name == GetTierName(level)
    ensures 1 <= level <= 100 ==> TierContains(t, level)
  {
    GetTierNameIsBand(level);
    TIERS[TierIndex(GetTierName(level))]
  }

  // ---------------------------------------------------------------- cost

  predicate BracketContains(c: CostRange, level: int) { c.lo <= level <= c.hi }

  /** The first-match scan of `calculate_cost`, from index `i` on. */
  function FirstBracket(level: int, i: nat): (k: nat)
    requires i <= |COST_RANGES|
    decreases |COST_RANGES| - i
    ensures i <= k <= |COST_RANGES|
    ensures k < |COST_RANGES| ==> BracketContains(COST_RANGES[k], level)
    ensures forall j :: i <= j < k ==> !BracketContains(COST_RANGES[j], level)
  {
    if i == |COST_RANGES| then i
    else if BracketContains(COST_RANGES[i], level) then i
    else FirstBracket(level, i + 1)
  }

  /**
   * The cost inside one bracket: `min_cost + (max_cost - min_cost) * progress`,
   * truncated, with `progress = (level - lo) / max(1, hi - lo)`, computed exactly.
   */
  function BracketCost(c: CostRange, level: int): (r: int)
    requires BracketContains(c, level)
    // the interpolation is exact at both ends of a bracket
    ensures level == c.lo ==> r == c.minCost
    ensures level == c.hi && c.lo < c.hi ==> r == c.maxCost
  {
    var span, d, x := c.maxCost - c.minCost, Max(1, c.hi - c.lo), level - c.lo;
    MulDivCancel(span, d);
    assert x == 0 ==> span * x == 0;
    assert level == c.hi && c.lo < c.hi ==> x == d;
    c.minCost + span * x / d
  }

  /** `calculate_cost`. */
  function CalculateCost(level: int): (r: int)
    ensures 500 <= r <= 100000000
    ensures FirstBracket(level, 0) < |COST_RANGES| ==>
              COST_RANGES[FirstBracket(level, 0)].minCost <= r <= COST_RANGES[FirstBracket(level, 0)].maxCost
  {
    var k := FirstBracket(level, 0);
    if k < |COST_RANGES| then
      var c := COST_RANGES[k];
      BracketCostWithin(c, level);
      BracketCost(c, level)
    else FALLBACK_COST
  }

  lemma MulMonotone(c: int, x: int, y: int)
    requires c >= 0 && x <= y
    ensures c * x <= c * y
  {
    assert c * y - c * x == c * (y - x);
  }

  lemma DivMonotone(a: int, b: int, d: int)
    requires 0 <= a <= b && d > 0
    ensures a / d <= b / d
  {
    var qa, qb := a / d, b / d;
    if qa > qb {
      MulMonotone(d, qb + 1, qa);
      assert false;
    }
  }

  lemma MulDivCancel(s: int, d: int)
    requires d > 0
    ensures s * d / d == s
  {
    var q, r := s * d / d, s * d % d;
    assert s * d == d * q + r && 0 <= r < d;
    if q < s { MulMonotone(d, q + 1, s); }
    if q > s { MulMonotone(d, s + 1, q); }
  }

  /** A bracket's cost lies between its two ends, and reaches them at its first and last level. */
  lemma BracketCostWithin(c: CostRange, level: int)
    requires BracketContains(c, level) && c.minCost <= c.maxCost
    ensures c.minCost <= BracketCost(c, level) <= c.maxCost
    ensures level == c.lo ==> BracketCost(c, level) == c.minCost
    ensures level == c.hi && c.lo < c.hi ==> BracketCost(c, level) == c.maxCost
  {
    var span, d, x := c.maxCost - c.minCost, Max(1, c.hi - c.lo), level - c.lo;
    assert 0 <= x <= d;
    MulMonotone(span, 0, x);
    MulMonotone(span, x, d);
    DivMonotone(0, span * x, d);
    DivMonotone(span * x, span * d, d);
    MulDivCancel(span, d);
    assert BracketCost(c, level) == c.minCost + span * x / d;
  }

  /** Inside one bracket the cost never decreases with the level. */
  lemma BracketCostMonotone(c: CostRange, l1: int, l2: int)
    requires BracketContains(c, l1) && BracketContains(c, l2) && l1 <= l2 && c.minCost <= c.maxCost
    ensures BracketCost(c, l1) <= BracketCost(c, l2)
  {
    var span, d := c.maxCost - c.minCost, Max(1, c.hi - c.lo);
    MulMonotone(span, 0, l1 - c.lo);
    MulMonotone(span, l1 - c.lo, l2 - c.lo);
    DivMonotone(span * (l1 - c.lo), span * (l2 - c.lo), d);
  }

  /** The brackets are disjoint, so the scan stops at the one bracket containing the level. */
  lemma BracketOf(k: nat, level: int)
    requires k < |COST_RANGES| && BracketContains(COST_RANGES[k], level)
    ensures FirstBracket(level, 0) == k
  {
    var j := FirstBracket(level, 0);
    assert forall a, b :: 0 <= a < b < |COST_RANGES| ==> COST_RANGES[a].hi < COST_RANGES[b].lo;
    if j < k {
      assert false;
    }
  }

  /** Inside bracket `k` the cost is that bracket's interpolation. */
  lemma CostInBracket(k: nat, level: int)
    requires k < |COST_RANGES| && BracketContains(COST_RANGES[k], level)
    ensures CalculateCost(level) == BracketCost(COST_RANGES[k], level)
  {
    BracketOf(k, level);
  }

  /**
   * Within each bracket the cost is `min_cost` at the first level, `max_cost` at the
   * last, and non-decreasing in between.
   */
  lemma CostBrackets(k: nat, l1: int, l2: int)
    requires k < |COST_RANGES|
    requires COST_RANGES[k].lo <= l1 <= l2 <= COST_RANGES[k].hi
    ensures CalculateCost(COST_RANGES[k].lo) == COST_RANGES[k].minCost
    ensures CalculateCost(COST_RANGES[k].hi) == COST_RANGES[k].maxCost
    ensures CalculateCost(l1) <= CalculateCost(l2)
  {
    var c := COST_RANGES[k];
    CostInBracket(k, c.lo);
    CostInBracket(k, c.hi);
    CostInBracket(k, l1);
    CostInBracket(k, l2);
    BracketCostWithin(c, c.lo);
    BracketCostWithin(c, c.hi);
    BracketCostMonotone(c, l1, l2);
  }

  /** A level outside every bracket costs 50,000,000. */
  lemma CostOutsideBrackets(level: int)
    requires level < 1 || level > 100
    ensures CalculateCost(level) == FALLBACK_COST
  {
    assert FirstBracket(level, 0) == |COST_RANGES|;
  }

  /** Over the whole ladder 1..100 the cost never decreases: each bracket ends below the next one starts. */
  lemma CostMonotone(l1: int, l2: int)
    requires 1 <= l1 <= l2 <= 100
    ensures CalculateCost(l1) <= CalculateCost(l2)
  {
    var k1, k2 := FirstBracket(l1, 0), FirstBracket(l2, 0);
    assert k1 < |COST_RANGES| && k2 < |COST_RANGES|;
    if k1 == k2 {
      BracketCostMonotone(COST_RANGES[k1], l1, l2);
    } else {
      assert k1 < k2;
      assert COST_RANGES[k1].maxCost < COST_RANGES[k2].minCost;
    }
  }

  // ---------------------------------------------------------------- success rate

  /** How far a level sits into its tier: 0 at the first level, 1 at the last. */
  function Progress(t: Tier, level: int): (r: real)
    ensures level == t.lo ==> r == 0.0
    ensures t.lo < t.hi && level == t.hi ==> r == 1.0
    ensures t.lo <= level <= t.hi ==> 0.0 <= r <= 1.0
  {
    if t.lo <= level <= t.hi then
      ProgressBounds(level - t.lo, t.hi - t.lo);
      (level - t.lo) as real / Max(1, t.hi - t.lo) as real
    else
      (level - t.lo) as real / Max(1, t.hi - t.lo) as real
  }

  /** The interpolated rate of a tier before the bonus and the cap: it starts at the tier's first value and never rises above it. */
  function BaseRate(t: Tier, level: int): (r: real)
    ensures level == t.lo ==> r == t.successStart
    ensures t.lo <= level <= t.hi && t.successEnd <= t.successStart ==> r <= t.successStart
  {
    var p := Progress(t, level);
    if t.lo <= level <= t.hi && t.successEnd <= t.successStart then
      RealMulMonotone(t.successStart - t.successEnd, 0.0, p);
      t.successStart - (t.successStart - t.successEnd) * p
    else
      t.successStart - (t.successStart - t.successEnd) * p
  }

  /** `calculate_success_rate`: the tier's rate interpolated by position, plus the bonus, capped at 1.0. */
  function CalculateSuccessRate(level: int, bonus: real): (r: real)
    ensures r <= 1.0
    ensures 1 <= level <= 100 && bonus >= 0.0 ==> r >= GetTierInfo(level).successEnd > 0.0
  {
    var t := GetTierInfo(level);
    var r := MinReal(1.0, BaseRate(t, level) + bonus);
    if 1 <= level <= 100 then
      BaseRateAboveEnd(t, level);
      r
    else
      r
  }

  lemma ProgressBounds(x: int, span: int)
    requires 0 <= x <= span
    ensures 0.0 <= x as real / Max(1, span) as real <= 1.0
  {
    var d := Max(1, span) as real;
    RealDivMonotone(0.0, x as real, d);
    RealDivMonotone(x as real, d, d);
  }

  lemma RealMulMonotone(c: real, x: real, y: real)
    requires c >= 0.0 && x <= y
    ensures c * x <= c * y
  {
    assert c * y - c * x == c * (y - x);
  }

  lemma RealDivMonotone(x: real, y: real, d: real)
    requires x <= y && d > 0.0
    ensures x / d <= y / d
  {
    assert y / d - x / d == (y - x) / d;
  }

  /** Inside its range a tier's interpolated rate never falls below its last value. */
  lemma BaseRateAboveEnd(t: Tier, level: int)
    requires TierShape(t) && TierContains(t, level)
    ensures BaseRate(t, level) >= t.successEnd
  {
    var p, c := Progress(t, level), t.successStart - t.successEnd;
    RealMulMonotone(c, p, 1.0);
    assert c * p <= c;
    assert BaseRate(t, level) == t.successStart - c * p;
  }

  /** Each tier's first and last level are looked up as that tier. */
  lemma TierInfoAtEnds(k: nat)
    requires k < |TIERS|
    ensures GetTierInfo(TIERS[k].lo) == TIERS[k] && GetTierInfo(TIERS[k].hi) == TIERS[k]
  {
    GetTierNameIsBand(TIERS[k].lo);
    GetTierNameIsBand(TIERS[k].hi);
  }

  /** A tier's interpolation starts at its first value and ends at its second. */
  lemma BaseRateAtEnds(t: Tier)
    requires TierShape(t)
    ensures BaseRate(t, t.lo) == t.successStart && BaseRate(t, t.hi) == t.successEnd
  {
    assert Progress(t, t.lo) == 0.0;
    assert Progress(t, t.hi) == 1.0;
  }

  /** With no bonus the rate is each tier's first value at its first level and its second value at its last. */
  lemma SuccessRateTierEnds(k: nat)
    requires k < |TIERS|
    ensures CalculateSuccessRate(TIERS[k].lo, 0.0) == TIERS[k].successStart
    ensures CalculateSuccessRate(TIERS[k].hi, 0.0) == TIERS[k].successEnd
  {
    TierInfoAtEnds(k);
    BaseRateAtEnds(TIERS[k]);
  }

  /** Within one tier the rate never increases with the level, whatever the bonus. */
  lemma SuccessRateNonIncreasing(l1: int, l2: int, bonus: real)
    requires 1 <= l1 <= l2 <= 100 && GetTierName(l1) == GetTierName(l2)
    ensures CalculateSuccessRate(l2, bonus) <= CalculateSuccessRate(l1, bonus)
  {
    var t := GetTierInfo(l1);
    assert GetTierInfo(l2) == t;
    BaseRateNonIncreasing(t, l1, l2);
  }

  /** Inside one tier the interpolated rate never increases with the level. */
  lemma BaseRateNonIncreasing(t: Tier, l1: int, l2: int)
    requires TierShape(t) && t.lo <= l1 <= l2 <= t.hi
    ensures BaseRate(t, l2) <= BaseRate(t, l1)
  {
    var c, p1, p2 := t.successStart - t.successEnd, Progress(t, l1), Progress(t, l2);
    RealDivMonotone((l1 - t.lo) as real, (l2 - t.lo) as real, Max(1, t.hi - t.lo) as real);
    assert p1 <= p2;
    RealMulMonotone(c, p1, p2);
    assert BaseRate(t, l1) == t.successStart - c * p1;
    assert BaseRate(t, l2) == t.successStart - c * p2;
  }

  // ---------------------------------------------------------------- weighted choice

  /** Sum of the first `k` weights. */
  function PrefixSum(w: seq<real>, k: nat): real
    requires k <= |w|
  {
    if k == 0 then 0.0 else PrefixSum(w, k - 1) + w[k - 1]
  }

  /** The running sum after position `j` exceeds the roll. */
  predicate Exceeds(w: seq<real>, j: nat, roll: real)
    requires j < |w|
  {
    roll < PrefixSum(w, j + 1)
  }

  /** The first position at or after `i`, among the first `n`, whose running sum exceeds the roll; `n` if none. */
  function FirstExceeding(w: seq<real>, n: nat, roll: real, i: nat): (k: nat)
    requires n <= |w| && i <= n
    decreases n - i
    ensures i <= k <= n
    ensures k < n ==> Exceeds(w, k, roll)
    ensures forall j :: i <= j < k ==> !Exceeds(w, j, roll)
  {
    if i == n then n
    else if Exceeds(w, i, roll) then i
    else FirstExceeding(w, n, roll, i + 1)
  }

  /** What `_weighted_choice` returns for a given roll. */
  function ChosenValue(weights: seq<real>, values: seq<int>, roll: real): (v: int)
    requires |values| > 0
    ensures v in values
    ensures var n := Min(|weights|, |values|);
            var k := FirstExceeding(weights, n, roll, 0);
            (k < n && v == values[k]) || (k == n && v == values[|values| - 1])
  {
    var n := Min(|weights|, |values|);
    var k := FirstExceeding(weights, n, roll, 0);
    if k < n then values[k] else values[|values| - 1]
  }

  /**
   * `_weighted_choice`: accumulate the weights in order and return the first value
   * whose running sum exceeds the roll, or the last value if none does.
   */
  method WeightedChoice(weights: seq<real>, values: seq<int>, roll: real) returns (v: int)
    requires |values| > 0
    ensures v == ChosenValue(weights, values, roll)
  {
    var n := Min(|weights|, |values|);
    var cumulative := 0.0;
    var i := 0;
    while i < n
      invariant 0 <= i <= n
      invariant cumulative == PrefixSum(weights, i)
      invariant forall j :: 0 <= j < i ==> !Exceeds(weights, j, roll)
    {
      cumulative := cumulative + weights[i];
      if roll < cumulative {
        FirstExceedingSkips(weights, n, roll, i);
        return values[i];
      }
      i := i + 1;
    }
    FirstExceedingSkips(weights, n, roll, n);
    return values[|values| - 1];
  }

  /** When none of the first `i` running sums exceeds the roll, the scan may start at `i`. */
  lemma {:induction false} FirstExceedingSkips(w: seq<real>, n: nat, roll: real, i: nat)
    requires n <= |w| && i <= n
    requires forall j :: 0 <= j < i ==> !Exceeds(w, j, roll)
    ensures FirstExceeding(w, n, roll, 0) == FirstExceeding(w, n, roll, i)
  {
    if i > 0 {
      FirstExceedingSkips(w, n, roll, i - 1);
      assert !Exceeds(w, i - 1, roll);
    }
  }

  /** Over weights summing to 1, a roll in [0, 1) always lands inside the table, never on the fallback. */
  lemma ChoiceCoversUnitRoll(weights: seq<real>, values: seq<int>, roll: real)
    requires |weights| == |values| > 0 && PrefixSum(weights, |weights|) == 1.0 && 0.0 <= roll < 1.0
    ensures FirstExceeding(weights, |weights|, roll, 0) < |weights|
  {
    assert Exceeds(weights, |weights| - 1, roll);
  }

  // ---------------------------------------------------------------- one attempt

  /** The `random.random()` draws an attempt may consume, each in [0, 1). */
  datatype Draws = Draws(roll: real, gainRoll: real, destroyRoll: real, dropRoll: real, deepRoll: real)

  predicate ValidDraws(d: Draws) {
    && 0.0 <= d.roll < 1.0 && 0.0 <= d.gainRoll < 1.0 && 0.0 <= d.destroyRoll < 1.0
    && 0.0 <= d.dropRoll < 1.0 && 0.0 <= d.deepRoll < 1.0
  }

  datatype UpgradeError = InsufficientBalance | MaxLevel

  /** The dictionary `upgrade` returns; `error` is absent on an attempt that went ahead. */
  datatype UpgradeResult = UpgradeResult(
    success: bool, destroyed: bool, oldLevel: int, newLevel: int, cost: int,
    rate: real, change: int, newRecord: bool, error: Option<UpgradeError>)

  /** Python's `x or 1` on an integer column. */
  function OrOne(x: int): (r: int)
    ensures r != 0 && (x != 0 ==> r == x) && (x == 0 ==> r == 1)
  {
    if x == 0 then 1 else x
  }

  /** The deeper-drop size of a tier: its own secondary weighted choice, or 1. */
  function DeepDrop(name: TierName, roll: real): (drop: int)
    ensures drop in {1, 2, 3}
    ensures name !in {Rare, Epic, Legendary, Mythic} ==> drop == 1
  {
    if name == Rare || name == Epic then ChosenValue([0.70, 0.25, 0.05], [1, 2, 3], roll)
    else if name == Legendary then ChosenValue([0.50, 0.35, 0.15], [1, 2, 3], roll)
    else if name == Mythic then ChosenValue([0.30, 0.40, 0.30], [1, 2, 3], roll)
    else 1
  }

  /** The level and destroyed flag after a failed roll. */
  function FailedLevel(t: Tier, oldLevel: int, d: Draws): (r: (int, bool))
    requires TierShape(t)
    ensures r.1 <==> d.destroyRoll < t.destroy
    ensures r.1 ==> r.0 == 1
    ensures !r.1 && oldLevel >= 1 ==> 1 <= r.0 <= oldLevel
    ensures !r.1 && t.drops.None? ==> r.0 == oldLevel
    ensures !r.1 && oldLevel >= 1 ==> r.0 >= oldLevel - 3
  {
    if d.destroyRoll < t.destroy then (1, true)
    else if t.drops.Some? then
      var maintain, drop1 := t.drops.value[0], t.drops.value[1];
      if d.dropRoll < maintain then (oldLevel, false)
      else if d.dropRoll < maintain + drop1 then (Max(1, oldLevel - 1), false)
      else (Max(1, oldLevel - DeepDrop(t.name, d.deepRoll)), false)
    else (oldLevel, false)
  }

  /** The level and destroyed flag after the success roll. */
  function RollOutcome(t: Tier, oldLevel: int, rate: real, d: Draws): (r: (int, bool))
    requires TierShape(t)
    ensures oldLevel >= 1 ==> 1 <= r.0 <= Max(100, oldLevel)
    ensures d.roll < rate ==> !r.1 && r.0 in {Min(100, oldLevel + 1), Min(100, oldLevel + 2), Min(100, oldLevel + 3)}
    ensures d.roll >= rate ==> r == FailedLevel(t, oldLevel, d)
  {
    if d.roll < rate then (Min(100, oldLevel + ChosenValue(t.gains, [1, 2, 3], d.gainRoll)), false)
    else FailedLevel(t, oldLevel, d)
  }

  /** The row `upgrade` creates for an unknown user: 10000 coins and gear level 1, other columns at their defaults. */
  const UPGRADE_NEW_USER: User :=
    User(10000, 0, 0, 0, 0.0, [], None, 1, 1, "", 0, 0, None)

  /** One upgrade attempt on a row: the new row and the reported result. */
  function Attempt(u: User, bonus: real, d: Draws): (r: (User, UpgradeResult))
    // the balance is checked before the level, and neither error changes the row
    ensures r.1.oldLevel == OrOne(u.gearLevel) && r.1.cost == CalculateCost(r.1.oldLevel)
    ensures r.1.error == Some(InsufficientBalance) <==> u.balance < r.1.cost
    ensures r.1.error == Some(MaxLevel) <==> u.balance >= r.1.cost && r.1.oldLevel >= 100
    ensures r.1.error.Some? ==> r.0 == u && r.1.newLevel == r.1.oldLevel && r.1.change == 0
    // an attempt that goes ahead debits exactly the cost and touches only the gear columns
    ensures r.1.error.None? ==>
              && r.0 == u.(balance := u.balance - r.1.cost, gearLevel := r.1.newLevel,
                           maxGearLevel := r.0.maxGearLevel)
              && r.0.balance >= 0
              && r.1.rate == CalculateSuccessRate(r.1.oldLevel, bonus)
              && (r.1.newLevel, r.1.destroyed) == RollOutcome(GetTierInfo(r.1.oldLevel), r.1.oldLevel, r.1.rate, d)
    // the reported flags
    ensures r.1.change == r.1.newLevel - r.1.oldLevel && (r.1.success <==> r.1.change > 0)
    ensures r.1.newRecord <==> r.1.error.None? && r.1.newLevel > OrOne(u.maxGearLevel)
    ensures r.0.maxGearLevel == (if r.1.newRecord then r.1.newLevel else u.maxGearLevel)
  {
    var oldLevel := OrOne(u.gearLevel);
    var cost := CalculateCost(oldLevel);
    if u.balance < cost then
      (u, UpgradeResult(false, false, oldLevel, oldLevel, cost, 0.0, 0, false, Some(InsufficientBalance)))
    else if oldLevel >= 100 then
      (u, UpgradeResult(false, false, oldLevel, oldLevel, cost, 0.0, 0, false, Some(MaxLevel)))
    else
      var rate := CalculateSuccessRate(oldLevel, bonus);
      var outcome := RollOutcome(GetTierInfo(oldLevel), oldLevel, rate, d);
      var newLevel := outcome.0;
      var newRecord := newLevel > OrOne(u.maxGearLevel);
      var row := u.(balance := u.balance - cost, gearLevel := newLevel,
                    maxGearLevel := if newRecord then newLevel else u.maxGearLevel);
      (row, UpgradeResult(newLevel - oldLevel > 0, outcome.1, oldLevel, newLevel, cost, rate,
                          newLevel - oldLevel, newRecord, None))
  }

  // ---------------------------------------------------------------- properties of an attempt

  /** An attempt keeps the account invariant: the balance stays non-negative and 1 <= level <= max <= 100. */
  lemma AttemptKeepsValid(u: User, bonus: real, d: Draws)
    requires ValidUser(u)
    ensures ValidUser(Attempt(u, bonus, d).0)
  {
  }

  /** A winning roll gains 1 to 3 levels, capped at 100, and is reported as a success. */
  lemma AttemptWinningRoll(u: User, bonus: real, d: Draws)
    requires OrOne(u.gearLevel) >= 1
    requires Attempt(u, bonus, d).1.error.None? && d.roll < Attempt(u, bonus, d).1.rate
    ensures var r := Attempt(u, bonus, d).1;
            && r.success && !r.destroyed && r.oldLevel < r.newLevel <= 100
            && r.newLevel in {Min(100, r.oldLevel + 1), Min(100, r.oldLevel + 2), Min(100, r.oldLevel + 3)}
  {
  }

  /** A losing roll never gains: it keeps the level, drops it by at most 3 (not below 1), or destroys to 1. */
  lemma AttemptLosingRoll(u: User, bonus: real, d: Draws)
    requires OrOne(u.gearLevel) >= 1
    requires Attempt(u, bonus, d).1.error.None? && d.roll >= Attempt(u, bonus, d).1.rate
    ensures var r := Attempt(u, bonus, d).1;
            && !r.success && 1 <= r.newLevel <= r.oldLevel
            && (r.destroyed ==> r.newLevel == 1)
            && (!r.destroyed ==> r.newLevel >= r.oldLevel - 3)
  {
  }

  /** A Rookie failure keeps the level: the tier has no destroy chance and no drop table. */
  lemma RookieFailureKeeps(u: User, bonus: real, d: Draws)
    requires 1 <= u.gearLevel <= 20 && ValidDraws(d)
    requires Attempt(u, bonus, d).1.error.None? && d.roll >= Attempt(u, bonus, d).1.rate
    ensures var r := Attempt(u, bonus, d).1;
            r.newLevel == r.oldLevel && r.change == 0 && !r.destroyed && !r.success
  {
    GetTierNameIsBand(u.gearLevel);
  }

  /** An Ascension failure always destroys: its destroy chance is 1.0 and every draw is below 1. */
  lemma AscensionFailureDestroys(u: User, bonus: real, d: Draws)
    requires 91 <= u.gearLevel <= 100 && ValidDraws(d)
    requires Attempt(u, bonus, d).1.error.None? && d.roll >= Attempt(u, bonus, d).1.rate
    ensures var r := Attempt(u, bonus, d).1;
            r.destroyed && r.newLevel == 1 && r.change == 1 - r.oldLevel
  {
    GetTierNameIsBand(u.gearLevel);
  }

  /**
   * A Common failure keeps the level or drops it by one: the tier never destroys and its
   * maintain and drop-1 weights already sum to 1, so the deeper drop is never reached.
   */
  lemma CommonFailureDropsAtMostOne(u: User, bonus: real, d: Draws)
    requires 21 <= u.gearLevel <= 40 && ValidDraws(d)
    requires Attempt(u, bonus, d).1.error.None? && d.roll >= Attempt(u, bonus, d).1.rate
    ensures var r := Attempt(u, bonus, d).1;
            !r.destroyed && r.newLevel in {r.oldLevel, r.oldLevel - 1}
  {
    GetTierNameIsBand(u.gearLevel);
  }

  /** At level 1 the rate is 1.0, so an attempt that can be paid for always succeeds. */
  lemma FirstLevelAlwaysSucceeds(u: User, bonus: real, d: Draws)
    requires u.gearLevel == 1 && u.balance >= 500 && bonus >= 0.0 && ValidDraws(d)
    ensures Attempt(u, bonus, d).1.success
  {
    GetTierNameIsBand(1);
    assert CalculateCost(1) == 500 by { CostBrackets(0, 1, 1); }
    assert Progress(TIERS[0], 1) == 0.0;
  }

  /** At level 100 an account short of 100,000,000 is told it lacks funds, not that it is at the top. */
  lemma BalanceCheckedBeforeLevel(u: User, bonus: real, d: Draws)
    requires u.gearLevel == 100 && u.balance < 100000000
    ensures Attempt(u, bonus, d).1.error == Some(InsufficientBalance)
    ensures Attempt(u, bonus, d).0 == u
  {
    CostBrackets(6, 100, 100);
  }

  /**
   * The users table after one `upgrade` of `userId`: only that row changes, a refused
   * attempt stores the loaded (possibly newly created) row as it was, and one that goes
   * ahead debits exactly the reported cost.
   */
  function AfterUpgrade(rows: map<int, User>, userId: int, bonus: real, d: Draws): (r: map<int, User>)
    ensures r.Keys == rows.Keys + {userId}
    ensures forall k :: k in rows && k != userId ==> r[k] == rows[k]
    ensures UpgradeReport(rows, userId, bonus, d).error.Some? ==> r[userId] == Loaded(rows, userId, UPGRADE_NEW_USER)
    ensures UpgradeReport(rows, userId, bonus, d).error.None? ==>
              r[userId].balance == Loaded(rows, userId, UPGRADE_NEW_USER).balance - UpgradeReport(rows, userId, bonus, d).cost
              && r[userId].gearLevel == UpgradeReport(rows, userId, bonus, d).newLevel
  {
    rows[userId := Attempt(Loaded(rows, userId, UPGRADE_NEW_USER), bonus, d).0]
  }

  /**
   * The report of one `upgrade` of `userId`: an unknown user starts at level 1 with
   * 10000 coins, which covers the 500-coin first step, so a new user is never refused.
   */
  function UpgradeReport(rows: map<int, User>, userId: int, bonus: real, d: Draws): (r: UpgradeResult)
    ensures r.oldLevel == OrOne(Loaded(rows, userId, UPGRADE_NEW_USER).gearLevel)
    ensures r.error == Some(InsufficientBalance) <==> Loaded(rows, userId, UPGRADE_NEW_USER).balance < CalculateCost(r.oldLevel)
    ensures userId !in rows ==> r.oldLevel == 1 && r.cost == 500 && r.error.None?
  {
    CostBrackets(0, 1, 1);
    Attempt(Loaded(rows, userId, UPGRADE_NEW_USER), bonus, d).1
  }

  // ---------------------------------------------------------------- the service

  /** `UpgradeService` over the users table. */
  class UpgradeService {
    const db: UserTable

    constructor (db: UserTable)
      ensures this.db == db
    {
      this.db := db;
    }

    /** `get_user_gear`: current level, best level and gear name, each with its default. */
    function GetUserGear(userId: int): (r: (int, int, string))
      reads db
      ensures r.0 != 0 && r.1 != 0 && r.2 != ""
      ensures userId !in db.rows ==> r == (1, 1, DEFAULT_GEAR_NAME)
      ensures userId in db.rows && db.rows[userId].gearLevel != 0 ==> r.0 == db.rows[userId].gearLevel
      ensures userId in db.rows && db.rows[userId].maxGearLevel != 0 ==> r.1 == db.rows[userId].maxGearLevel
      ensures userId in db.rows && db.rows[userId].gearName != "" ==> r.2 == db.rows[userId].gearName
      // a stored 0 or empty name falls back to the same default as a missing row
      ensures userId in db.rows && db.rows[userId].gearLevel == 0 ==> r.0 == 1
      ensures userId in db.rows && db.rows[userId].maxGearLevel == 0 ==> r.1 == 1
      ensures userId in db.rows && db.rows[userId].gearName == "" ==> r.2 == DEFAULT_GEAR_NAME
    {
      if userId in db.rows then
        var u := db.rows[userId];
        (OrOne(u.gearLevel), OrOne(u.maxGearLevel), if u.gearName == "" then DEFAULT_GEAR_NAME else u.gearName)
      else (1, 1, DEFAULT_GEAR_NAME)
    }

    /** `get_balance`: the stored balance, or 0 for an unknown user (no row is created). */
    function GetBalance(userId: int): (r: int)
      reads db
      ensures userId in db.rows ==> r == db.rows[userId].balance
      ensures userId !in db.rows ==> r == 0
    {
      if userId in db.rows then db.rows[userId].balance else 0
    }

    /** The deeper-drop size, drawn with the tier's own weights. */
    method DrawDeepDrop(name: TierName, roll: real) returns (drop: int)
      ensures drop == DeepDrop(name, roll)
    {
      if name == Rare || name == Epic {
        drop := WeightedChoice([0.70, 0.25, 0.05], [1, 2, 3], roll);
      } else if name == Legendary {
        drop := WeightedChoice([0.50, 0.35, 0.15], [1, 2, 3], roll);
      } else if name == Mythic {
        drop := WeightedChoice([0.30, 0.40, 0.30], [1, 2, 3], roll);
      } else {
        drop := 1;
      }
    }

    /** The success roll and, on failure, the destroy and drop rolls. */
    method RollLevel(tier: Tier, oldLevel: int, rate: real, d: Draws) returns (newLevel: int, destroyed: bool)
      requires TierShape(tier)
      ensures (newLevel, destroyed) == RollOutcome(tier, oldLevel, rate, d)
    {
      newLevel, destroyed := oldLevel, false;
      if d.roll < rate {
        var gain := WeightedChoice(tier.gains, [1, 2, 3], d.gainRoll);
        newLevel := Min(100, oldLevel + gain);
      } else if d.destroyRoll < tier.destroy {
        destroyed := true;
        newLevel := 1;
      } else if tier.drops.Some? {
        var maintain, drop1 := tier.drops.value[0], tier.drops.value[1];
        if d.dropRoll < maintain {
        } else if d.dropRoll < maintain + drop1 {
          newLevel := Max(1, oldLevel - 1);
        } else {
          var drop := DrawDeepDrop(tier.name, d.deepRoll);
          newLevel := Max(1, oldLevel - drop);
        }
      }
    }

    /**
     * The checks, rolls and row updates of `upgrade` on the loaded row, step by step:
     * they compute exactly one attempt.
     */
    method AttemptSteps(user: User, bonus: real, d: Draws) returns (row: User, r: UpgradeResult)
      ensures (row, r) == Attempt(user, bonus, d)
    {
      row := user;
      var oldLevel := OrOne(user.gearLevel);
      var cost := CalculateCost(oldLevel);
      if user.balance < cost {
        return user, UpgradeResult(false, false, oldLevel, oldLevel, cost, 0.0, 0, false, Some(InsufficientBalance));
      }
      if oldLevel >= 100 {
        return user, UpgradeResult(false, false, oldLevel, oldLevel, cost, 0.0, 0, false, Some(MaxLevel));
      }
      row := row.(balance := row.balance - cost);
      var tier := GetTierInfo(oldLevel);
      var rate := CalculateSuccessRate(oldLevel, bonus);
      var newLevel, destroyed := RollLevel(tier, oldLevel, rate, d);
      row := row.(gearLevel := newLevel);
      var newRecord := false;
      if newLevel > OrOne(row.maxGearLevel) {
        row := row.(maxGearLevel := newLevel);
        newRecord := true;
      }
      r := UpgradeResult(newLevel - oldLevel > 0, destroyed, oldLevel, newLevel, cost, rate,
                         newLevel - oldLevel, newRecord, None);
    }

    /**
     * `upgrade`: create the row if missing, then run one attempt on it;
     * the stored row and the report are those of `Attempt`.
     */
    method Upgrade(userId: int, bonus: real, d: Draws) returns (r: UpgradeResult)
      modifies db
      ensures db.rows == AfterUpgrade(old(db.rows), userId, bonus, d)
      ensures r == UpgradeReport(old(db.rows), userId, bonus, d)
    {
      var user := Loaded(db.rows, userId, UPGRADE_NEW_USER);
      db.rows := db.rows[userId := user];
      var row;
      row, r := AttemptSteps(user, bonus, d);
      db.rows := db.rows[userId := row];
    }
  }

  /** The gear name reported when none is stored. */
  const DEFAULT_GEAR_NAME: string := "기본 장비"
}
