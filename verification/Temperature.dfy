/** Whole-degree temperature buckets and the partitions a market accepts. */
module Temperature {
  import opened Model

  /** At least one bound; both bounds are reported whole degrees. */
  datatype Bucket = Bucket(lower: Option<int>, upper: Option<int>) {
    predicate Valid() {
      && (lower.Some? || upper.Some?)
      && (lower.Some? && upper.Some? ==> lower.value <= upper.value)
    }

    predicate Contains(reported: int) {
      && (lower.Some? ==> lower.value <= reported)
      && (upper.Some? ==> reported <= upper.value)
    }

    /** Half a degree to either side of the whole degrees. */
    predicate Spans(x: real) {
      && (lower.Some? ==> lower.value as real - 0.5 <= x)
      && (upper.Some? ==> x < upper.value as real + 0.5)
    }

    /** A forecast is rounded to whole degrees first. */
    predicate ContainsForecast(x: real) {
      Contains(HalfUp(x))
    }
  }

  /** The nearest whole number, ties away from zero. */
  function HalfUp(x: real): int {
    if 0.0 <= x then (x + 0.5).Floor else -((0.5 - x).Floor)
  }

  predicate AllValid(buckets: seq<Bucket>) {
    forall i :: 0 <= i < |buckets| ==> buckets[i].Valid()
  }

  function CountIf(buckets: seq<Bucket>, p: Bucket -> bool): nat {
    if buckets == [] then 0
    else CountIf(buckets[..|buckets| - 1], p) + if p(buckets[|buckets| - 1]) then 1 else 0
  }

  function Holding(reported: int): Bucket -> bool {
    (b: Bucket) => b.Contains(reported)
  }

  function LowerTail(): Bucket -> bool {
    (b: Bucket) => b.lower.None?
  }

  function UpperTail(): Bucket -> bool {
    (b: Bucket) => b.upper.None?
  }

  /** Every whole degree lies in exactly one bucket. */
  ghost predicate CoversExactly(buckets: seq<Bucket>) {
    forall t :: CountIf(buckets, Holding(t)) == 1
  }

  // ---- Sorting by lower bound ----

  /** The order of the lower bounds, a lower tail first. */
  predicate Below(a: Bucket, b: Bucket) {
    a.lower.None? || (b.lower.Some? && a.lower.value <= b.lower.value)
  }

  function Insert(sorted: seq<Bucket>, b: Bucket): seq<Bucket> {
    if sorted == [] || Below(sorted[|sorted| - 1], b) then sorted + [b]
    else Insert(sorted[..|sorted| - 1], b) + [sorted[|sorted| - 1]]
  }

  function Sorted(buckets: seq<Bucket>): seq<Bucket> {
    if buckets == [] then [] else Insert(Sorted(buckets[..|buckets| - 1]), buckets[|buckets| - 1])
  }

  predicate Ascending(buckets: seq<Bucket>) {
    forall i, j :: 0 <= i < j < |buckets| ==> Below(buckets[i], buckets[j])
  }

  lemma CountAppend(buckets: seq<Bucket>, b: Bucket, p: Bucket -> bool)
    ensures CountIf(buckets + [b], p) == CountIf(buckets, p) + if p(b) then 1 else 0
  {
    assert (buckets + [b])[..|buckets|] == buckets;
  }

  lemma {:induction false} InsertFacts(sorted: seq<Bucket>, b: Bucket)
    requires Ascending(sorted) && AllValid(sorted) && b.Valid()
    ensures var r := Insert(sorted, b);
            && Ascending(r) && AllValid(r) && |r| == |sorted| + 1
            && (forall x :: x in r ==> x == b || x in sorted)
    decreases |sorted|
  {
    if sorted != [] && !Below(sorted[|sorted| - 1], b) {
      var prefix, last := sorted[..|sorted| - 1], sorted[|sorted| - 1];
      InsertFacts(prefix, b);
      var r := Insert(prefix, b);
      forall i | 0 <= i < |r| ensures Below(r[i], last) {
        assert r[i] in r;
        if r[i] != b {
          var j :| 0 <= j < |prefix| && prefix[j] == r[i];
          assert Below(sorted[j], sorted[|prefix|]);
        }
      }
    }
  }

  lemma {:induction false} InsertCounts(sorted: seq<Bucket>, b: Bucket, p: Bucket -> bool)
    ensures CountIf(Insert(sorted, b), p) == CountIf(sorted, p) + if p(b) then 1 else 0
    decreases |sorted|
  {
    if sorted == [] || Below(sorted[|sorted| - 1], b) {
      CountAppend(sorted, b, p);
    } else {
      InsertCounts(sorted[..|sorted| - 1], b, p);
      CountAppend(Insert(sorted[..|sorted| - 1], b), sorted[|sorted| - 1], p);
    }
  }

  lemma {:induction false} SortingFacts(buckets: seq<Bucket>)
    requires AllValid(buckets)
    ensures Ascending(Sorted(buckets)) && AllValid(Sorted(buckets)) && |Sorted(buckets)| == |buckets|
    decreases |buckets|
  {
    if buckets != [] {
      SortingFacts(buckets[..|buckets| - 1]);
      InsertFacts(Sorted(buckets[..|buckets| - 1]), buckets[|buckets| - 1]);
    }
  }

  lemma {:induction false} SortingCounts(buckets: seq<Bucket>, p: Bucket -> bool)
    ensures CountIf(Sorted(buckets), p) == CountIf(buckets, p)
    decreases |buckets|
  {
    if buckets != [] {
      SortingCounts(buckets[..|buckets| - 1], p);
      InsertCounts(Sorted(buckets[..|buckets| - 1]), buckets[|buckets| - 1], p);
    }
  }

  // ---- Chains ----

  /** Tails at both ends, and every bucket one degree above the one before. */
  predicate Chained(ordered: seq<Bucket>) {
    && |ordered| >= 2
    && ordered[0].lower.None? && ordered[|ordered| - 1].upper.None?
    && forall i :: 0 <= i < |ordered| - 1 ==> Follows(ordered[i], ordered[i + 1])
  }

  predicate Follows(previous: Bucket, current: Bucket) {
    previous.upper.Some? && current.lower == Some(previous.upper.value + 1)
  }

  /** The first `n` buckets of a chain hold each degree up to the last upper
      bound once, and one lower tail. */
  lemma {:induction false} ChainPrefix(ordered: seq<Bucket>, n: nat, t: int)
    requires Chained(ordered) && AllValid(ordered) && 0 < n <= |ordered|
    ensures var last := ordered[n - 1].upper;
            CountIf(ordered[..n], Holding(t)) == if last.Some? && last.value < t then 0 else 1
    ensures CountIf(ordered[..n], LowerTail()) == 1
    ensures CountIf(ordered[..n], UpperTail()) == if n == |ordered| then 1 else 0
  {
    assert ordered[..n] == ordered[..n - 1] + [ordered[n - 1]];
    CountAppend(ordered[..n - 1], ordered[n - 1], Holding(t));
    CountAppend(ordered[..n - 1], ordered[n - 1], LowerTail());
    CountAppend(ordered[..n - 1], ordered[n - 1], UpperTail());
    if n == 1 {
      assert ordered[..0] == [];
      assert n < |ordered| && Follows(ordered[0], ordered[1]);
    } else {
      ChainPrefix(ordered, n - 1, t);
      assert Follows(ordered[n - 2], ordered[n - 1]);
      if n < |ordered| {
        assert Follows(ordered[n - 1], ordered[n]);
      }
    }
  }

  lemma ChainCovers(ordered: seq<Bucket>)
    requires Chained(ordered) && AllValid(ordered)
    ensures CoversExactly(ordered)
    ensures CountIf(ordered, LowerTail()) == 1 && CountIf(ordered, UpperTail()) == 1
  {
    assert ordered[..|ordered|] == ordered;
    ChainPrefix(ordered, |ordered|, 0);
    forall t ensures CountIf(ordered, Holding(t)) == 1 {
      ChainPrefix(ordered, |ordered|, t);
    }
  }

  lemma {:induction false} OneHolds(buckets: seq<Bucket>, p: Bucket -> bool) returns (i: nat)
    requires 0 < CountIf(buckets, p)
    ensures i < |buckets| && p(buckets[i])
    decreases |buckets|
  {
    if p(buckets[|buckets| - 1]) {
      i := |buckets| - 1;
    } else {
      i := OneHolds(buckets[..|buckets| - 1], p);
    }
  }

  lemma {:induction false} EachCounts(buckets: seq<Bucket>, p: Bucket -> bool, i: nat)
    requires i < |buckets| && p(buckets[i])
    ensures 0 < CountIf(buckets, p)
    decreases |buckets|
  {
    if i < |buckets| - 1 {
      EachCounts(buckets[..|buckets| - 1], p, i);
    }
  }

  lemma {:induction false} TwoCount(buckets: seq<Bucket>, p: Bucket -> bool, i: nat, j: nat)
    requires i < j < |buckets| && p(buckets[i]) && p(buckets[j])
    ensures 2 <= CountIf(buckets, p)
    decreases |buckets|
  {
    var prefix := buckets[..|buckets| - 1];
    if j == |buckets| - 1 {
      EachCounts(prefix, p, i);
    } else {
      TwoCount(prefix, p, i, j);
    }
  }

  /** In an exact cover no two buckets share a degree. */
  lemma NoSharedDegree(buckets: seq<Bucket>, i: nat, j: nat, t: int)
    requires CoversExactly(buckets) && i < j < |buckets|
    ensures !(buckets[i].Contains(t) && buckets[j].Contains(t))
  {
    if buckets[i].Contains(t) && buckets[j].Contains(t) {
      TwoCount(buckets, Holding(t), i, j);
    }
  }

  lemma HolderOf(buckets: seq<Bucket>, t: int) returns (i: nat)
    requires CoversExactly(buckets)
    ensures i < |buckets| && buckets[i].Contains(t)
  {
    assert CountIf(buckets, Holding(t)) == 1;
    i := OneHolds(buckets, Holding(t));
  }

  /** A bucket that starts no higher and holds a later degree overlaps. */
  lemma ReachingPast(ordered: seq<Bucket>, k: nat, i: nat)
    requires CoversExactly(ordered) && Ascending(ordered) && AllValid(ordered)
    requires k < i < |ordered| && ordered[i].upper.Some?
    ensures !ordered[k].Contains(ordered[i].upper.value + 1)
  {
    assert Below(ordered[k], ordered[i]);
    NoSharedDegree(ordered, k, i, ordered[i].upper.value);
  }

  lemma CoverStartsWithTail(ordered: seq<Bucket>)
    requires CoversExactly(ordered) && Ascending(ordered)
    ensures |ordered| > 0 && ordered[0].lower.None?
  {
    var t := if |ordered| > 0 && ordered[0].lower.Some? then ordered[0].lower.value - 1 else 0;
    var i := HolderOf(ordered, t);
    if 0 < i {
      assert Below(ordered[0], ordered[i]);
    }
  }

  lemma CoverEndsWithTail(ordered: seq<Bucket>)
    requires CoversExactly(ordered) && Ascending(ordered) && AllValid(ordered) && |ordered| > 0
    ensures ordered[|ordered| - 1].upper.None?
  {
    var last := |ordered| - 1;
    if ordered[last].upper.Some? {
      var i := HolderOf(ordered, ordered[last].upper.value + 1);
      if i < last {
        ReachingPast(ordered, i, last);
      }
    }
  }

  lemma CoverIsContiguous(ordered: seq<Bucket>, i: nat)
    requires CoversExactly(ordered) && Ascending(ordered) && AllValid(ordered) && i < |ordered| - 1
    ensures Follows(ordered[i], ordered[i + 1])
  {
    var a, b := ordered[i], ordered[i + 1];
    assert Below(a, b) && a.Valid() && b.Valid();
    if b.lower.None? {
      var t := if a.upper.value < b.upper.value then a.upper.value else b.upper.value;
      NoSharedDegree(ordered, i, i + 1, t);
      assert false;
    } else {
      NoSharedDegree(ordered, i, i + 1, b.lower.value);
      if a.upper.value + 1 < b.lower.value {
        var k := HolderOf(ordered, a.upper.value + 1);
        if k < i {
          ReachingPast(ordered, k, i);
        }
      }
    }
  }

  /** Sorted buckets cover every whole degree exactly once just when they chain. */
  lemma CoversExactlyWhenChained(ordered: seq<Bucket>)
    requires Ascending(ordered) && AllValid(ordered) && |ordered| >= 2
    ensures CoversExactly(ordered) <==> Chained(ordered)
  {
    if CoversExactly(ordered) {
      CoverStartsWithTail(ordered);
      CoverEndsWithTail(ordered);
      forall i | 0 <= i < |ordered| - 1 ensures Follows(ordered[i], ordered[i + 1]) {
        CoverIsContiguous(ordered, i);
      }
    }
    if Chained(ordered) {
      ChainCovers(ordered);
    }
  }

  // ---- The constructor ----

  predicate HasDuplicates(buckets: seq<Bucket>) {
    exists i, j :: 0 <= i < j < |buckets| && buckets[i] == buckets[j]
  }

  /** A degree every valid bucket of this kind holds. */
  function Inside(b: Bucket): int {
    if b.lower.Some? then b.lower.value else if b.upper.Some? then b.upper.value else 0
  }

  /** An exact cover passes every check on the buckets as they were given. */
  lemma CoverPassesChecks(buckets: seq<Bucket>)
    requires CoversExactly(buckets) && AllValid(buckets) && |buckets| >= 2
    ensures !HasDuplicates(buckets)
    ensures CountIf(buckets, LowerTail()) == 1 && CountIf(buckets, UpperTail()) == 1
  {
    forall i, j | 0 <= i < j < |buckets| ensures buckets[i] != buckets[j] {
      NoSharedDegree(buckets, i, j, Inside(buckets[i]));
    }
    SortingFacts(buckets);
    SortingCovers(buckets);
    CoversExactlyWhenChained(Sorted(buckets));
    ChainCovers(Sorted(buckets));
    SortingCounts(buckets, LowerTail());
    SortingCounts(buckets, UpperTail());
  }

  lemma SortingCovers(buckets: seq<Bucket>)
    ensures CoversExactly(Sorted(buckets)) <==> CoversExactly(buckets)
  {
    forall t ensures CountIf(Sorted(buckets), Holding(t)) == CountIf(buckets, Holding(t)) {
      SortingCounts(buckets, Holding(t));
    }
  }

  /** The constructor of a partition: accepts two or more buckets exactly when
      they put every whole degree in exactly one of them, and keeps them sorted. */
  method BuildPartition(buckets: seq<Bucket>) returns (r: Option<seq<Bucket>>)
    requires AllValid(buckets)
    ensures r.Some? <==> |buckets| >= 2 && CoversExactly(buckets)
    ensures r.Some? ==> r.value == Sorted(buckets) && Chained(r.value) && AllValid(r.value)
  {
    hide CoversExactly, Sorted, CountIf, HasDuplicates, Ascending;
    if |buckets| < 2 {
      return None;
    }
    var ordered := Sorted(buckets);
    SortingFacts(buckets);
    SortingCovers(buckets);
    CoversExactlyWhenChained(ordered);
    if CoversExactly(buckets) {
      CoverPassesChecks(buckets);
    }
    if CountIf(buckets, LowerTail()) != 1 || CountIf(buckets, UpperTail()) != 1 || HasDuplicates(buckets) {
      return None;
    }
    if ordered[0].lower.Some? || ordered[|ordered| - 1].upper.Some? {
      return None;
    }
    for i := 0 to |ordered| - 1
      invariant forall j :: 0 <= j < i ==> Follows(ordered[j], ordered[j + 1])
    {
      var previous, current := ordered[i], ordered[i + 1];
      if previous.upper.None? || current.lower.None? {
        return None;
      }
      if current.lower.value < previous.upper.value + 1 || current.lower.value > previous.upper.value + 1 {
        return None;
      }
    }
    return Some(ordered);
  }

  /** `bucket_for_reported` of an accepted partition: the one bucket that holds the degree. */
  method BucketFor(ordered: seq<Bucket>, reported: int) returns (r: Option<Bucket>)
    requires CoversExactly(ordered)
    ensures r.Some? && r.value in ordered && r.value.Contains(reported)
    ensures forall b :: b in ordered && b.Contains(reported) ==> b == r.value
  {
    var matches: seq<Bucket> := [];
    for i := 0 to |ordered|
      invariant |matches| == CountIf(ordered[..i], Holding(reported))
      invariant forall b :: b in matches <==> b in ordered[..i] && b.Contains(reported)
    {
      assert ordered[..i + 1][..i] == ordered[..i];
      assert ordered[..i + 1] == ordered[..i] + [ordered[i]];
      if ordered[i].Contains(reported) {
        matches := matches + [ordered[i]];
      }
    }
    assert ordered[..|ordered|] == ordered;
    assert CountIf(ordered, Holding(reported)) == 1;
    if |matches| != 1 {
      return None;
    }
    assert matches[0] in matches;
    return Some(matches[0]);
  }

  // ---- Forecasts ----

  /** A forecast half a degree below a whole number below zero, on the edge of the bucket. */
  predicate OnNegativeTie(b: Bucket, x: real) {
    x < 0.0
    && ((b.lower.Some? && x == b.lower.value as real - 0.5) || (b.upper.Some? && x == b.upper.value as real + 0.5))
  }

  /** Rounding a forecast to whole degrees agrees with the half-open interval
      around the bucket, except exactly on a negative tie at its edge. */
  lemma ForecastAgrees(b: Bucket, x: real)
    requires b.Valid()
    ensures (b.ContainsForecast(x) <==> b.Spans(x)) <==> !OnNegativeTie(b, x)
  {
    var n := HalfUp(x);
    HalfUpIsNear(x);
    if b.lower.Some? {
      EdgeBelow(b.lower.value, x);
    }
    if b.upper.Some? {
      EdgeBelow(b.upper.value + 1, x);
    }
  }

  lemma HalfUpIsNear(x: real)
    ensures -0.5 <= HalfUp(x) as real - x <= 0.5
    ensures HalfUp(x) as real - x == 0.5 ==> 0.0 <= x
    ensures HalfUp(x) as real - x == -0.5 ==> x < 0.0
  {}

  /** When rounding reaches a degree: from half a degree below it, or just past a negative tie. */
  lemma EdgeBelow(n: int, x: real)
    ensures n <= HalfUp(x) <==>
            if x < 0.0 && x == n as real - 0.5 then false else n as real - 0.5 <= x
  {
    HalfUpIsNear(x);
  }
}
