/** The continuous ranked probability score of an empirical distribution, in
    one pass over its sorted residuals. */
module Crps {

  function Abs(x: real): real {
    if x < 0.0 then -x else x
  }

  predicate Ordered(xs: seq<real>) {
    forall i, j :: 0 <= i <= j < |xs| ==> xs[i] <= xs[j]
  }

  function Sum(xs: seq<real>): real {
    if xs == [] then 0.0 else Sum(xs[..|xs| - 1]) + xs[|xs| - 1]
  }

  /** The sum of distances from the residuals to a value. */
  function DistanceTo(xs: seq<real>, y: real): real {
    if xs == [] then 0.0 else DistanceTo(xs[..|xs| - 1], y) + Abs(xs[|xs| - 1] - y)
  }

  /** The sum of distances over all ordered pairs that start in `starts`. */
  function PairDistances(starts: seq<real>, xs: seq<real>): real {
    if starts == [] then 0.0
    else PairDistances(starts[..|starts| - 1], xs) + DistanceTo(xs, starts[|starts| - 1])
  }

  /** The `i`-th of `n` sorted residuals with its weight. */
  function Weighted(i: int, n: int, x: real): real {
    (2 * i - n + 1) as real * x
  }

  function WeightedSum(xs: seq<real>, n: int): real {
    if xs == [] then 0.0
    else WeightedSum(xs[..|xs| - 1], n) + Weighted(|xs| - 1, n, xs[|xs| - 1])
  }

  /** The score by its definition: the mean distance to the observation less
      half the mean distance between two residuals. */
  function Score(xs: seq<real>, y: real): real
    requires xs != []
  {
    var n := |xs| as real;
    DistanceTo(xs, y) / n - PairDistances(xs, xs) / (n * n) / 2.0
  }

  /** `empirical_crps`. */
  function FastScore(xs: seq<real>, y: real): real
    requires xs != []
  {
    var n := |xs| as real;
    DistanceTo(xs, y) / n - WeightedSum(xs, |xs|) / (n * n)
  }

  lemma {:induction false} PairsWithOneMoreEnd(starts: seq<real>, xs: seq<real>, last: real)
    ensures PairDistances(starts, xs + [last]) == PairDistances(starts, xs) + DistanceTo(starts, last)
    decreases |starts|
  {
    if starts != [] {
      PairsWithOneMoreEnd(starts[..|starts| - 1], xs, last);
      assert (xs + [last])[..|xs|] == xs;
    }
  }

  /** One more residual adds its distance to each of the others, twice. */
  lemma PairsWithOneMore(xs: seq<real>, last: real)
    ensures PairDistances(xs + [last], xs + [last])
            == PairDistances(xs, xs) + 2.0 * DistanceTo(xs, last)
  {
    PairsWithOneMoreEnd(xs, xs, last);
    assert (xs + [last])[..|xs|] == xs;
  }

  function Times(k: nat, a: real): real {
    k as real * a
  }

  lemma TimesOneMore(k: nat, a: real)
    ensures Times(k + 1, a) == Times(k, a) + a && Times(0, a) == 0.0
  {}

  lemma TimesAdds(k: nat, a: real, b: real)
    ensures Times(k, a + b) == Times(k, a) + Times(k, b)
  {}

  lemma DistanceUnfolds(xs: seq<real>, y: real)
    requires xs != []
    ensures DistanceTo(xs, y) == DistanceTo(xs[..|xs| - 1], y) + Abs(xs[|xs| - 1] - y)
  {}

  lemma {:induction false} DistanceToLargest(xs: seq<real>, last: real)
    requires forall i :: 0 <= i < |xs| ==> xs[i] <= last
    ensures DistanceTo(xs, last) == Times(|xs|, last) - Sum(xs)
    decreases |xs|
  {
    hide Times;
    if xs == [] {
      TimesOneMore(0, last);
    } else {
      DistanceToLargest(xs[..|xs| - 1], last);
      TimesOneMore(|xs| - 1, last);
    }
  }

  lemma WeightFacts(i: nat, n: int, x: real)
    ensures Weighted(i, n + 1, x) == Weighted(i, n, x) - x
    ensures Weighted(i, i + 1, x) == Times(i, x)
  {}

  /** Counting one more residual lowers every weight by one. */
  lemma {:induction false} WeightsShift(xs: seq<real>, n: int)
    ensures WeightedSum(xs, n + 1) == WeightedSum(xs, n) - Sum(xs)
    decreases |xs|
  {
    hide Weighted;
    if xs != [] {
      WeightsShift(xs[..|xs| - 1], n);
      WeightFacts(|xs| - 1, n, xs[|xs| - 1]);
    }
  }

  lemma WeightedSumOfOneMore(xs: seq<real>, last: real)
    ensures WeightedSum(xs + [last], |xs| + 1) == WeightedSum(xs, |xs|) - Sum(xs) + Times(|xs|, last)
  {
    hide Weighted, Times;
    WeightsShift(xs, |xs|);
    WeightFacts(|xs|, |xs|, last);
    assert (xs + [last])[..|xs|] == xs;
  }

  /** For sorted residuals the weighted sum is half the sum over all pairs. */
  lemma {:induction false} WeightsCountPairs(xs: seq<real>)
    requires Ordered(xs)
    ensures 2.0 * WeightedSum(xs, |xs|) == PairDistances(xs, xs)
    decreases |xs|
  {
    if xs != [] {
      hide WeightedSum, PairDistances, DistanceTo, Sum, Times;
      var prefix, last := xs[..|xs| - 1], xs[|xs| - 1];
      assert xs == prefix + [last];
      WeightsCountPairs(prefix);
      PairsWithOneMore(prefix, last);
      DistanceToLargest(prefix, last);
      WeightedSumOfOneMore(prefix, last);
    }
  }

  /** The one-pass form equals the definition. */
  lemma FastScoreIsScore(xs: seq<real>, y: real)
    requires xs != [] && Ordered(xs)
    ensures FastScore(xs, y) == Score(xs, y)
  {
    WeightsCountPairs(xs);
    HalfOfQuotient(WeightedSum(xs, |xs|), PairDistances(xs, xs), |xs| as real * |xs| as real);
  }

  lemma HalfOfQuotient(a: real, b: real, d: real)
    requires d != 0.0 && 2.0 * a == b
    ensures a / d == b / d / 2.0
  {
    assert b / d == 2.0 * (a / d) by {
      assert b / d * d == b && a / d * d == a;
      SameProduct(b / d, 2.0 * (a / d), d);
    }
  }

  lemma SameProduct(x: real, y: real, d: real)
    requires d != 0.0 && x * d == y * d
    ensures x == y
  {
    assert (x - y) * d == 0.0;
  }

  lemma {:induction false} DistanceTriangle(xs: seq<real>, x: real, y: real)
    ensures DistanceTo(xs, x) <= DistanceTo(xs, y) + Times(|xs|, Abs(x - y))
    decreases |xs|
  {
    hide Times;
    TimesOneMore(0, Abs(x - y));
    if xs != [] {
      DistanceTriangle(xs[..|xs| - 1], x, y);
      DistanceUnfolds(xs, x);
      DistanceUnfolds(xs, y);
      TimesOneMore(|xs| - 1, Abs(x - y));
    }
  }

  /** Any two residuals are no further apart than both are from the observation. */
  lemma {:induction false} PairsThroughObservation(starts: seq<real>, xs: seq<real>, y: real)
    ensures PairDistances(starts, xs) <= Times(|starts|, DistanceTo(xs, y)) + Times(|xs|, DistanceTo(starts, y))
    decreases |starts|
  {
    hide Times;
    if starts == [] {
      TimesOneMore(0, DistanceTo(xs, y));
      NoDistance(xs, y);
    } else {
      var k := |starts| - 1;
      PairsThroughObservation(starts[..k], xs, y);
      DistanceTriangle(xs, starts[k], y);
      TimesOneMore(k, DistanceTo(xs, y));
      TimesAdds(|xs|, DistanceTo(starts[..k], y), Abs(starts[k] - y));
    }
  }

  lemma NoDistance(xs: seq<real>, y: real)
    ensures Times(|xs|, DistanceTo([], y)) == 0.0
  {}

  /** The score is never negative. */
  lemma ScoreIsNonNegative(xs: seq<real>, y: real)
    requires xs != []
    ensures 0.0 <= Score(xs, y)
  {
    PairsThroughObservation(xs, xs, y);
    MeansCompare(DistanceTo(xs, y), PairDistances(xs, xs), |xs| as real);
  }

  lemma MeansCompare(first: real, pairs: real, n: real)
    requires 0.0 < n && pairs <= n * first + n * first
    ensures pairs / (n * n) / 2.0 <= first / n
  {
    var mean := first / n;
    var square := n * n;
    ProductIsPositive(n, n, square);
    MeanOfSquare(first, n, mean, square);
    QuotientAtMost(pairs, 2.0 * mean, square);
  }

  lemma MeanOfSquare(first: real, n: real, mean: real, square: real)
    requires mean * n == first && square == n * n
    ensures 2.0 * mean * square == n * first + n * first
  {
    assert mean * square == n * (mean * n);
  }

  lemma ProductIsPositive(a: real, b: real, d: real)
    requires 0.0 < a && 0.0 < b && d == a * b
    ensures 0.0 < d
  {}

  lemma QuotientAtMost(a: real, bound: real, d: real)
    requires 0.0 < d
    requires a <= bound * d
    ensures a / d <= bound
  {
    var q := a / d;
    assert q * d == a;
    if bound < q {
      Increasing(bound, q, d);
    }
  }

  lemma Increasing(a: real, b: real, d: real)
    requires a < b && 0.0 < d
    ensures a * d < b * d
  {}
}
