/** Sums over the values of a finite map. */
module MapSums {

  ghost function Total<K, V>(m: map<K, V>, f: V -> int): int
    decreases |m|
  {
    if m == map[] then 0
    else
      var k :| k in m;
      f(m[k]) + Total(m - {k}, f)
  }

  lemma {:induction false} TotalSplit<K, V>(m: map<K, V>, f: V -> int, k: K)
    requires k in m
    ensures Total(m, f) == f(m[k]) + Total(m - {k}, f)
    decreases |m|
  {
    var j :| j in m && Total(m, f) == f(m[j]) + Total(m - {j}, f);
    if j != k {
      TotalSplit(m - {j}, f, k);
      TotalSplit(m - {k}, f, j);
      assert m - {j} - {k} == m - {k} - {j};
    }
  }

  /** Writing one key moves the total by the difference at that key. */
  lemma TotalUpdate<K, V>(m: map<K, V>, f: V -> int, k: K, v: V)
    ensures Total(m[k := v], f) == Total(m, f) + f(v) - (if k in m then f(m[k]) else 0)
  {
    TotalSplit(m[k := v], f, k);
    if k in m {
      TotalSplit(m, f, k);
      assert m[k := v] - {k} == m - {k};
    } else {
      assert m[k := v] - {k} == m;
    }
  }

  lemma {:induction false} TotalNonNegative<K, V>(m: map<K, V>, f: V -> int)
    requires forall k :: k in m ==> 0 <= f(m[k])
    ensures 0 <= Total(m, f)
    decreases |m|
  {
    if m != map[] {
      var k :| k in m;
      TotalSplit(m, f, k);
      TotalNonNegative(m - {k}, f);
    }
  }

  /** One value of a sum of non-negative values is no larger than the sum. */
  lemma TotalBoundsEach<K, V>(m: map<K, V>, f: V -> int, k: K)
    requires k in m && forall j :: j in m ==> 0 <= f(m[j])
    ensures f(m[k]) <= Total(m, f)
  {
    TotalSplit(m, f, k);
    TotalNonNegative(m - {k}, f);
  }

  lemma {:induction false} TotalAgrees<K, V>(m: map<K, V>, f: V -> int, g: V -> int)
    requires forall k :: k in m ==> f(m[k]) == g(m[k])
    ensures Total(m, f) == Total(m, g)
    decreases |m|
  {
    if m != map[] {
      var k :| k in m;
      TotalSplit(m, f, k);
      TotalSplit(m, g, k);
      TotalAgrees(m - {k}, f, g);
    }
  }
}
