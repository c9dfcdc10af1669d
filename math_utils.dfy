// Probability and balance helpers of the game (services/mathUtils.ts).
// Every `Math.random()` draw is an explicit parameter `u` in [0, 1);
// `Math.exp` is passed in as a function where a bound depends on it.

module MathUtils {
  import opened GameTypes

  // ---------------------------------------------------------------------
  // Probability distributions
  // ---------------------------------------------------------------------

  /**
   * Poisson probability of k events at rate lambda. Negative k or lambda
   * give 0; otherwise the result is the closed-form value `formula`
   * (lambda^k * e^-lambda / k!), whose arithmetic is not modelled.
   */
  function PoissonProbability(k: real, lambda: real, formula: real): (r: real)
    ensures k < 0.0 || lambda < 0.0 ==> r == 0.0
    ensures k >= 0.0 && lambda >= 0.0 ==> r == formula
  {
    if k < 0.0 || lambda < 0.0 then 0.0 else formula
  }

  /**
   * Chance of at least one event in `hours` at rate `lambda`: 1 - e^(-lambda*hours).
   * A non-positive rate or period gives 0; for any exp that maps the
   * non-positive reals into (0, 1] the result is a probability below 1.
   */
  function PoissonEventChance(lambda: real, hours: real, exp: real -> real): (r: real)
    ensures lambda <= 0.0 || hours <= 0.0 ==> r == 0.0
    ensures (forall x :: x <= 0.0 ==> 0.0 < exp(x) <= 1.0) ==> 0.0 <= r < 1.0
  {
    if lambda <= 0.0 || hours <= 0.0 then 0.0
    else
      assert -lambda * hours <= 0.0 by { assert lambda * hours > 0.0; }
      1.0 - exp(-lambda * hours)
  }

  /**
   * baseChance * e^(-value/scale); a non-positive scale gives 0. With a
   * non-negative value and base chance, the result never exceeds the base.
   */
  function ExponentialDecay(baseChance: real, value: real, scale: real, exp: real -> real): (r: real)
    ensures scale <= 0.0 ==> r == 0.0
    ensures (forall x :: x <= 0.0 ==> 0.0 < exp(x) <= 1.0) && baseChance >= 0.0 && value >= 0.0
            ==> 0.0 <= r <= baseChance
  {
    if scale <= 0.0 then 0.0
    else
      var e := exp(-value / scale);
      NegatedQuotient(value, scale);
      ScaleBound(e, baseChance);
      baseChance * e
  }

  /** Dividing a negated non-negative value by a positive scale gives a non-positive exponent. */
  lemma NegatedQuotient(value: real, scale: real)
    requires scale > 0.0
    ensures value >= 0.0 ==> -value / scale <= 0.0
  {
    if value >= 0.0 {
      assert (-value / scale) * scale == -value;
    }
  }

  /** A factor in (0, 1] keeps a non-negative amount within [0, amount]. */
  lemma ScaleBound(f: real, d: real)
    ensures 0.0 < f <= 1.0 && d >= 0.0 ==> 0.0 <= d * f <= d
  {
    if 0.0 < f <= 1.0 && d >= 0.0 {
      UnitScale(f, d);
    }
  }

  /** A factor in [0, 1] scales a non-negative amount into [0, amount]. */
  lemma UnitScale(f: real, d: real)
    requires 0.0 <= f <= 1.0 && d >= 0.0
    ensures 0.0 <= d * f <= d
  {
    assert d * f <= d * 1.0;
  }

  /** A factor in [0, 1) scales a positive amount strictly below it. */
  lemma UnitScaleStrict(f: real, d: real)
    requires 0.0 <= f < 1.0 && d > 0.0
    ensures 0.0 <= f * d < d
  {
    assert f * d < 1.0 * d;
  }

  /** A real in [0, n + 1) has its floor in [0, n]. */
  lemma FloorWithin(x: real, n: int)
    requires 0.0 <= x < (n + 1) as real
    ensures 0 <= x.Floor <= n
  {
  }

  /** A uniform real in [min, max]. */
  function Uniform(min: real, max: real, u: real): (r: real)
    ensures 0.0 <= u < 1.0 && min <= max ==> min <= r <= max
  {
    if 0.0 <= u < 1.0 && min <= max then
      var s := u * (max - min);
      UnitScale(u, max - min);
      assert s <= max - min;
      s + min
    else u * (max - min) + min
  }

  /** A uniform integer in [min, max], both ends included. */
  function UniformInt(min: int, max: int, u: real): (r: int)
    ensures 0.0 <= u < 1.0 && min <= max ==> min <= r <= max
  {
    var span := (max - min + 1) as real;
    if 0.0 <= u < 1.0 && min <= max then
      UnitScaleStrict(u, span);
      FloorWithin(u * span, max - min);
      (u * span).Floor + min
    else (u * span).Floor + min
  }

  /** Succeeds with `percent` percent chance. */
  function PercentChance(percent: real, u: real): (r: bool)
    ensures 0.0 <= u < 1.0 && percent >= 100.0 ==> r
    ensures u >= 0.0 && percent <= 0.0 ==> !r
  {
    u * 100.0 < percent
  }

  /** A roll of a die with `sides` faces: 1..sides. */
  function RollDice(sides: int, u: real): (r: int)
    ensures 0.0 <= u < 1.0 && sides >= 1 ==> 1 <= r <= sides
  {
    UniformInt(1, sides, u)
  }

  // ---------------------------------------------------------------------
  // Clamp and interpolation
  // ---------------------------------------------------------------------

  /** max(lo, min(hi, value)). */
  function Clamp(value: real, lo: real, hi: real): (r: real)
    ensures lo <= hi ==> lo <= r <= hi
    ensures lo <= value <= hi ==> r == value
    ensures value < lo ==> r == lo
    ensures lo <= hi < value ==> r == hi
    ensures r >= lo
  {
    Max(lo, Min(hi, value))
  }

  /** Linear interpolation with the factor clamped into [0, 1]. */
  function Lerp(start: real, end: real, t: real): (r: real)
    ensures t <= 0.0 ==> r == start
    ensures t >= 1.0 ==> r == end
    ensures Min(start, end) <= r <= Max(start, end)
  {
    var f := Clamp(t, 0.0, 1.0);
    InterpolationBetween(start, end, f);
    start + (end - start) * f
  }

  /** A factor in [0, 1] keeps the interpolated value between both ends. */
  lemma InterpolationBetween(a: real, b: real, f: real)
    requires 0.0 <= f <= 1.0
    ensures Min(a, b) <= a + (b - a) * f <= Max(a, b)
  {
    var d := b - a;
    if d >= 0.0 {
      UnitScale(f, d);
    } else {
      UnitScale(f, -d);
      assert d * f == -((-d) * f);
    }
  }

  // ---------------------------------------------------------------------
  // Factorial with its module-level memo table
  // ---------------------------------------------------------------------

  /** n! */
  function Fact(n: nat): (r: nat)
    ensures r >= 1
    ensures n >= 1 ==> r >= n
  {
    if n <= 1 then 1 else n * Fact(n - 1)
  }

  /** A factorial result: a number, or Infinity above 170. */
  datatype FactorialValue = Finite(value: nat) | Infinite

  /** The memo table the source keeps beside `factorial`. */
  class FactorialCache {
    var cache: map<int, nat>

    /** Every cached entry is the true factorial of its key. */
    ghost predicate Valid()
      reads this
    {
      0 in cache && 1 in cache &&
      forall k :: k in cache ==> 0 <= k <= 170 && cache[k] == Fact(k)
    }

    constructor()
      ensures Valid()
      ensures cache == map[0 := 1, 1 := 1]
    {
      cache := map[0 := 1, 1 := 1];
    }

    /**
     * n!: 0 for negative n, Infinity above 170, a cached entry when there
     * is one; otherwise computed by a loop that caches every i! on the way.
     */
    method Factorial(n: int) returns (r: FactorialValue)
      requires Valid()
      modifies this
      ensures Valid()
      ensures n < 0 ==> r == Finite(0)
      ensures n > 170 ==> r == Infinite
      ensures 0 <= n <= 170 ==> r == Finite(Fact(n))
      ensures n < 0 || n > 170 || n in old(cache) ==> cache == old(cache)
      ensures 0 <= n <= 170 && n !in old(cache) ==>
                forall k :: k in cache <==> k in old(cache) || 2 <= k <= n
    {
      if n < 0 {
        return Finite(0);
      }
      if n > 170 {
        return Infinite;
      }
      if n in cache {
        return Finite(cache[n]);
      }
      var result: nat := 1;
      var i := 2;
      while i <= n
        invariant 2 <= i <= n + 1
        invariant result == Fact(i - 1)
        invariant forall k :: k in cache <==> k in old(cache) || 2 <= k < i
        invariant Valid()
      {
        result := result * i;
        assert result == Fact(i);
        cache := cache[i := result];
        i := i + 1;
      }
      return Finite(result);
    }
  }

  // ---------------------------------------------------------------------
  // Weighted random choice
  // ---------------------------------------------------------------------

  datatype Weighted<T> = Weighted(item: T, weight: real)

  datatype WeightedError = EmptyItems | NonPositiveTotal

  /** Sum of the first n weights. */
  function PrefixWeight<T>(items: seq<Weighted<T>>, n: nat): real
    requires n <= |items|
  {
    if n == 0 then 0.0 else PrefixWeight(items, n - 1) + items[n - 1].weight
  }

  /** Sum of all weights (the source's `reduce`). */
  function TotalWeight<T>(items: seq<Weighted<T>>): real
  {
    PrefixWeight(items, |items|)
  }

  /**
   * The index the subtraction walk stops at, searching from k: the first
   * index whose running weight reaches `target`, or the last index.
   */
  function FirstReaching<T>(items: seq<Weighted<T>>, target: real, k: nat): (r: nat)
    requires k < |items|
    decreases |items| - k
    ensures k <= r < |items|
    ensures r < |items| - 1 ==> PrefixWeight(items, r + 1) >= target
  {
    if k == |items| - 1 || PrefixWeight(items, k + 1) >= target then k
    else FirstReaching(items, target, k + 1)
  }

  /** When the walk moves past its start, the running weight where it stops is still below the target. */
  lemma {:induction false} FirstReachingPassed<T>(items: seq<Weighted<T>>, target: real, k: nat)
    requires k < |items|
    decreases |items| - k
    ensures FirstReaching(items, target, k) > k ==> PrefixWeight(items, FirstReaching(items, target, k)) < target
  {
    if k < |items| - 1 && PrefixWeight(items, k + 1) < target {
      FirstReachingPassed(items, target, k + 1);
    }
  }

  /** One step of the walk: stop at k if its running weight reaches the target, else move on. */
  lemma FirstReachingStep<T>(items: seq<Weighted<T>>, target: real, k: nat)
    requires k < |items|
    ensures PrefixWeight(items, k + 1) >= target ==> FirstReaching(items, target, k) == k
    ensures k == |items| - 1 ==> FirstReaching(items, target, k) == k
    ensures PrefixWeight(items, k + 1) < target && k < |items| - 1 ==>
              FirstReaching(items, target, k) == FirstReaching(items, target, k + 1)
  {
  }

  /**
   * Picks an item with probability proportional to its weight: throws on an
   * empty list or a non-positive total; otherwise subtracts weights from
   * u * total until the remainder drops to 0 or below, falling back to the
   * last item.
   */
  method WeightedRandom<T>(items: seq<Weighted<T>>, u: real) returns (r: Result<T, WeightedError>)
    ensures |items| == 0 ==> r == Err(EmptyItems)
    ensures |items| > 0 && TotalWeight(items) <= 0.0 ==> r == Err(NonPositiveTotal)
    ensures |items| > 0 && TotalWeight(items) > 0.0 ==>
              r == Ok(items[FirstReaching(items, u * TotalWeight(items), 0)].item)
  {
    if |items| == 0 {
      return Err(EmptyItems);
    }
    var total := TotalWeight(items);
    if total <= 0.0 {
      return Err(NonPositiveTotal);
    }
    var random := u * total;
    assert random == u * TotalWeight(items);
    var index := WalkWeights(items, random);
    return Ok(items[index].item);
  }

  /**
   * The subtraction walk of weightedRandom: subtracts each weight from the
   * target until the remainder drops to 0 or below, stopping at the last
   * index otherwise.
   */
  method WalkWeights<T>(items: seq<Weighted<T>>, target: real) returns (k: nat)
    requires |items| > 0
    ensures k == FirstReaching(items, target, 0)
  {
    var random := target;
    var i := 0;
    while i < |items| - 1
      invariant 0 <= i <= |items| - 1
      invariant random == target - PrefixWeight(items, i)
      invariant FirstReaching(items, target, i) == FirstReaching(items, target, 0)
    {
      random := random - items[i].weight;
      FirstReachingStep(items, target, i);
      if random <= 0.0 {
        return i;
      }
      i := i + 1;
    }
    // The last item is returned whether or not the remainder reached 0
    // (the source's fallback after the walk).
    FirstReachingStep(items, target, i);
    return i;
  }

  /**
   * With positive weights and a target inside (0, total], the chosen index
   * owns the slice of the weight line that holds the target, so each item
   * is chosen for a slice exactly as wide as its weight.
   */
  lemma WeightedIndexOwnsTarget<T>(items: seq<Weighted<T>>, target: real)
    requires |items| > 0
    requires 0.0 < target <= TotalWeight(items)
    ensures var k := FirstReaching(items, target, 0);
            PrefixWeight(items, k) < target <= PrefixWeight(items, k + 1)
  {
    FirstReachingPassed(items, target, 0);
  }

  // ---------------------------------------------------------------------
  // Expected value
  // ---------------------------------------------------------------------

  datatype Outcome = Outcome(prob: real, reward: real)

  /** Sum of prob * reward over the outcomes (a left fold). */
  function ExpectedValue(outcomes: seq<Outcome>): real
  {
    if |outcomes| == 0 then 0.0
    else ExpectedValue(outcomes[..|outcomes| - 1]) + outcomes[|outcomes| - 1].prob * outcomes[|outcomes| - 1].reward
  }

  /** Sum of the probabilities. */
  function ProbabilityMass(outcomes: seq<Outcome>): real
  {
    if |outcomes| == 0 then 0.0
    else ProbabilityMass(outcomes[..|outcomes| - 1]) + outcomes[|outcomes| - 1].prob
  }

  /** A non-negative weight keeps a reward's bounds. */
  lemma ProductBetween(p: real, v: real, lo: real, hi: real)
    requires p >= 0.0 && lo <= v <= hi
    ensures lo * p <= p * v <= hi * p
  {
    assert p * (v - lo) >= 0.0;
    assert p * (hi - v) >= 0.0;
  }

  /** Two lower bounds scaled by the same factor add up. */
  lemma ScaledSumBelow(c: real, m: real, p: real, x: real, y: real)
    requires c * m <= x && c * p <= y
    ensures c * (m + p) <= x + y
  {
    assert c * (m + p) == c * m + c * p;
  }

  /** Two upper bounds scaled by the same factor add up. */
  lemma ScaledSumAbove(c: real, m: real, p: real, x: real, y: real)
    requires x <= c * m && y <= c * p
    ensures x + y <= c * (m + p)
  {
    assert c * (m + p) == c * m + c * p;
  }

  /** One more outcome with weight p and reward v in [lo, hi] keeps the scaled bounds. */
  lemma BoundsStep(lo: real, hi: real, m: real, e: real, p: real, v: real)
    requires lo * m <= e <= hi * m
    requires p >= 0.0 && lo <= v <= hi
    ensures lo * (m + p) <= e + p * v <= hi * (m + p)
  {
    ProductBetween(p, v, lo, hi);
    ScaledSumBelow(lo, m, p, e, p * v);
    ScaledSumAbove(hi, m, p, e, p * v);
  }

  /** The expected value of a concatenation is the sum of both parts'. */
  lemma {:induction false} ExpectedValueAppend(a: seq<Outcome>, b: seq<Outcome>)
    ensures ExpectedValue(a + b) == ExpectedValue(a) + ExpectedValue(b)
    decreases |b|
  {
    if |b| > 0 {
      var b' := b[..|b| - 1];
      assert (a + b)[..|a + b| - 1] == a + b';
      ExpectedValueAppend(a, b');
    } else {
      assert a + b == a;
    }
  }

  /**
   * With non-negative probabilities and rewards in [lo, hi], the expected
   * value lies between lo and hi times the probability mass.
   */
  lemma {:induction false} ExpectedValueBounds(outcomes: seq<Outcome>, lo: real, hi: real)
    requires forall i :: 0 <= i < |outcomes| ==> outcomes[i].prob >= 0.0
    requires forall i :: 0 <= i < |outcomes| ==> lo <= outcomes[i].reward <= hi
    ensures lo * ProbabilityMass(outcomes) <= ExpectedValue(outcomes) <= hi * ProbabilityMass(outcomes)
  {
    if |outcomes| > 0 {
      var init := outcomes[..|outcomes| - 1];
      var last := outcomes[|outcomes| - 1];
      assert forall i :: 0 <= i < |init| ==> init[i] == outcomes[i];
      ExpectedValueBounds(init, lo, hi);
      BoundsStep(lo, hi, ProbabilityMass(init), ExpectedValue(init), last.prob, last.reward);
    }
  }
}
