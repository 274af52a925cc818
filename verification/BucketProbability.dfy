/** Bucket probabilities from the distribution of forecast residuals. */
module BucketProbability {
  import opened Model
  import opened Temperature

  /** A cumulative distribution function. */
  type Cdf = real -> real

  ghost predicate IsCdf(cdf: Cdf) {
    && (forall x :: 0.0 <= cdf(x) <= 1.0)
    && forall x, y :: x <= y ==> cdf(x) <= cdf(y)
  }

  const TOLERANCE := 0.000000000000001

  /** The probability mass of a bucket around a forecast, before it is checked. */
  function Mass(cdf: Cdf, forecast: real, b: Bucket): real
    requires b.Valid()
  {
    if b.lower.None? then cdf(b.upper.value as real + 0.5 - forecast)
    else if b.upper.None? then 1.0 - cdf(b.lower.value as real - 0.5 - forecast)
    else cdf(b.upper.value as real + 0.5 - forecast) - cdf(b.lower.value as real - 0.5 - forecast)
  }

  /** `_bucket_probability`: none where the source raises. */
  function Probability(cdf: Cdf, forecast: real, b: Bucket): Option<real>
    requires b.Valid()
  {
    var mass := Mass(cdf, forecast, b);
    if mass < 0.0 && -mass <= TOLERANCE then Some(0.0)
    else if 1.0 < mass && mass - 1.0 <= TOLERANCE then Some(1.0)
    else if 0.0 <= mass <= 1.0 then Some(mass) else None
  }

  /** A bucket of a distribution always has a probability, and it is its mass. */
  lemma ProbabilityIsMass(cdf: Cdf, forecast: real, b: Bucket)
    requires IsCdf(cdf) && b.Valid()
    ensures Probability(cdf, forecast, b) == Some(Mass(cdf, forecast, b))
  {
    if b.lower.Some? && b.upper.Some? {
      var low, high := b.lower.value as real - 0.5 - forecast, b.upper.value as real + 0.5 - forecast;
      assert low <= high;
      assert cdf(low) <= cdf(high);
    }
  }

  function TotalProbability(cdf: Cdf, forecast: real, buckets: seq<Bucket>): real
    requires AllValid(buckets)
  {
    if buckets == [] then 0.0
    else
      var last := Probability(cdf, forecast, buckets[|buckets| - 1]);
      TotalProbability(cdf, forecast, buckets[..|buckets| - 1]) + if last.Some? then last.value else 0.0
  }

  /** The probabilities of the first buckets add up to the distribution at their last edge. */
  lemma {:induction false} PrefixProbability(cdf: Cdf, forecast: real, ordered: seq<Bucket>, n: nat)
    requires IsCdf(cdf) && Chained(ordered) && AllValid(ordered) && 0 < n <= |ordered|
    ensures AllValid(ordered[..n])
    ensures var last := ordered[n - 1].upper;
            TotalProbability(cdf, forecast, ordered[..n])
            == if last.Some? then cdf(last.value as real + 0.5 - forecast) else 1.0
  {
    var prefix := ordered[..n - 1];
    assert ordered[..n][..n - 1] == prefix;
    ProbabilityIsMass(cdf, forecast, ordered[n - 1]);
    hide Probability, IsCdf;
    if n == 1 {
      assert TotalProbability(cdf, forecast, prefix) == 0.0;
      assert Follows(ordered[0], ordered[1]);
    } else {
      PrefixProbability(cdf, forecast, ordered, n - 1);
      assert Follows(ordered[n - 2], ordered[n - 1]);
      SameEdge(ordered[n - 2], ordered[n - 1], forecast);
    }
  }

  lemma SameEdge(previous: Bucket, current: Bucket, forecast: real)
    requires Follows(previous, current)
    ensures current.lower.value as real - 0.5 - forecast == previous.upper.value as real + 0.5 - forecast
  {}

  /** The buckets of an accepted partition have probabilities that add up to exactly one. */
  lemma ProbabilitiesSumToOne(cdf: Cdf, forecast: real, ordered: seq<Bucket>)
    requires IsCdf(cdf) && Chained(ordered) && AllValid(ordered)
    ensures forall i :: 0 <= i < |ordered| ==> Probability(cdf, forecast, ordered[i]).Some?
    ensures TotalProbability(cdf, forecast, ordered) == 1.0
  {
    assert ordered[..|ordered|] == ordered;
    PrefixProbability(cdf, forecast, ordered, |ordered|);
    forall i | 0 <= i < |ordered| ensures Probability(cdf, forecast, ordered[i]).Some? {
      ProbabilityIsMass(cdf, forecast, ordered[i]);
    }
  }

  // ---- Empirical distributions ----

  predicate Ordered(xs: seq<real>) {
    forall i, j :: 0 <= i <= j < |xs| ==> xs[i] <= xs[j]
  }

  /** How many residuals lie strictly below a value. */
  function CountBelow(xs: seq<real>, x: real): nat {
    if xs == [] then 0 else CountBelow(xs[..|xs| - 1], x) + if xs[|xs| - 1] < x then 1 else 0
  }

  /** How many residuals put the forecast inside the bucket. */
  function CountSpanned(xs: seq<real>, forecast: real, b: Bucket): nat {
    if xs == [] then 0
    else CountSpanned(xs[..|xs| - 1], forecast, b) + if b.Spans(forecast + xs[|xs| - 1]) then 1 else 0
  }

  /** The insertion point to the left of equal residuals. */
  method BisectLeft(xs: seq<real>, x: real) returns (k: nat)
    requires Ordered(xs)
    ensures k == CountBelow(xs, x)
  {
    var lo, hi := 0, |xs|;
    while lo < hi
      invariant 0 <= lo <= hi <= |xs|
      invariant forall i :: 0 <= i < lo ==> xs[i] < x
      invariant forall i :: hi <= i < |xs| ==> x <= xs[i]
    {
      var mid := (lo + hi) / 2;
      if xs[mid] < x {
        lo := mid + 1;
      } else {
        hi := mid;
      }
    }
    SplitCounts(xs, x, lo);
    return lo;
  }

  lemma {:induction false} SplitCounts(xs: seq<real>, x: real, k: nat)
    requires k <= |xs|
    requires forall i :: 0 <= i < k ==> xs[i] < x
    requires forall i :: k <= i < |xs| ==> x <= xs[i]
    ensures CountBelow(xs, x) == k
    decreases |xs|
  {
    if xs != [] {
      var n := |xs| - 1;
      SplitCounts(xs[..n], x, if k <= n then k else n);
    }
  }

  function EmpiricalCdf(xs: seq<real>): Cdf
    requires xs != []
  {
    (x: real) => CountBelow(xs, x) as real / |xs| as real
  }

  lemma {:induction false} CountsGrow(xs: seq<real>, x: real, y: real)
    requires x <= y
    ensures CountBelow(xs, x) <= CountBelow(xs, y) <= |xs|
    decreases |xs|
  {
    if xs != [] {
      CountsGrow(xs[..|xs| - 1], x, y);
    }
  }

  lemma QuotientsGrow(a: nat, b: nat, n: nat)
    requires a <= b <= n && 0 < n
    ensures 0.0 <= a as real / n as real <= b as real / n as real <= 1.0
  {
    QuotientGrows(0.0, a as real, n as real);
    QuotientGrows(a as real, b as real, n as real);
    QuotientGrows(b as real, n as real, n as real);
  }

  lemma QuotientGrows(x: real, y: real, d: real)
    requires x <= y && 0.0 < d
    ensures x / d <= y / d
  {
    var p, q := x / d, y / d;
    assert p * d == x && q * d == y;
    if q < p {
      ProductGrowsStrictly(q, p, d);
    }
  }

  lemma ProductGrowsStrictly(a: real, b: real, d: real)
    requires a < b && 0.0 < d
    ensures a * d < b * d
  {}

  lemma EmpiricalIsCdf(xs: seq<real>)
    requires xs != []
    ensures IsCdf(EmpiricalCdf(xs))
  {
    var cdf := EmpiricalCdf(xs);
    forall x, y | x <= y ensures 0.0 <= cdf(x) <= cdf(y) <= 1.0 {
      CountsGrow(xs, x, y);
      QuotientsGrow(CountBelow(xs, x), CountBelow(xs, y), |xs|);
    }
    forall x ensures 0.0 <= cdf(x) <= 1.0 {
      assert x <= x;
    }
  }

  /** Residuals below the upper edge are those below the lower edge and those between. */
  lemma {:induction false} CountsBetween(xs: seq<real>, forecast: real, b: Bucket)
    requires b.Valid()
    ensures var low := if b.lower.Some? then CountBelow(xs, b.lower.value as real - 0.5 - forecast) else 0;
            var high := if b.upper.Some? then CountBelow(xs, b.upper.value as real + 0.5 - forecast) else |xs|;
            high - low == CountSpanned(xs, forecast, b)
    decreases |xs|
  {
    if xs != [] {
      CountsBetween(xs[..|xs| - 1], forecast, b);
    }
  }

  /** Under an empirical distribution the probability of a bucket is the
      fraction of residuals that put the forecast inside it. */
  lemma EmpiricalProbabilityIsFraction(xs: seq<real>, forecast: real, b: Bucket)
    requires xs != [] && b.Valid()
    ensures Probability(EmpiricalCdf(xs), forecast, b)
            == Some(CountSpanned(xs, forecast, b) as real / |xs| as real)
  {
    hide CountBelow, CountSpanned;
    EmpiricalIsCdf(xs);
    ProbabilityIsMass(EmpiricalCdf(xs), forecast, b);
    CountsBetween(xs, forecast, b);
    var low := if b.lower.Some? then CountBelow(xs, b.lower.value as real - 0.5 - forecast) else 0;
    var high := if b.upper.Some? then CountBelow(xs, b.upper.value as real + 0.5 - forecast) else |xs|;
    FractionsSubtract(high, low, |xs|);
  }

  lemma FractionsSubtract(a: nat, b: nat, n: nat)
    requires 0 < n
    ensures a as real / n as real - b as real / n as real == (a - b) as real / n as real
    ensures n as real / n as real == 1.0 && 0 as real / n as real == 0.0
  {}
}
