/** Taking shares from the levels of an order book, cheapest first.

Sizes and costs are in micro-units and prices are per unit, so a take of `n`
micro-shares at price `p` costs `n * p`. Takes are whole micro-shares; sizes,
prices and caps are any numbers. A sale is the same walk over negated prices.
 */
module DepthWalk {

  datatype Level = Level(price: real, size: real)

  function Min(a: real, b: real): real {
    if a < b then a else b
  }

  function Max(a: real, b: real): real {
    if a > b then a else b
  }

  /** Cheapest first, and every level has something to take. */
  predicate Ascending(levels: seq<Level>) {
    && (forall i :: 0 <= i < |levels| ==> 0.0 < levels[i].size)
    && (forall i, j :: 0 <= i < j < |levels| ==> levels[i].price < levels[j].price)
  }

  /** `spend` is absent for a sale, which has no budget. */
  datatype Caps = Caps(quantity: int, average: real, worst: real, hasSpend: bool, spend: real)

  function Shares(takes: seq<int>): int {
    if takes == [] then 0 else Shares(takes[..|takes| - 1]) + takes[|takes| - 1]
  }

  function Cost(levels: seq<Level>, takes: seq<int>): real
    requires |takes| <= |levels|
  {
    if takes == [] then 0.0
    else
      var last := |takes| - 1;
      Cost(levels, takes[..last]) + takes[last] as real * levels[last].price
  }

  lemma TakeOneMore(levels: seq<Level>, takes: seq<int>, take: int)
    requires |takes| < |levels|
    ensures Shares(takes + [take]) == Shares(takes) + take
    ensures Cost(levels, takes + [take])
            == Cost(levels, takes) + take as real * levels[|takes|].price
  {
    assert (takes + [take])[..|takes|] == takes;
  }

  /** Whole micro-shares from the first levels that respect every level's size. */
  predicate WithinSizes(levels: seq<Level>, takes: seq<int>) {
    && |takes| <= |levels|
    && forall i :: 0 <= i < |takes| ==> 0 <= takes[i] && takes[i] as real <= levels[i].size
  }

  /** An allocation that respects sizes, quantity, budget, average price and worst price. */
  predicate Feasible(levels: seq<Level>, caps: Caps, takes: seq<int>) {
    && WithinSizes(levels, takes)
    && Shares(takes) <= caps.quantity
    && Cost(levels, takes) <= caps.average * Shares(takes) as real
    && (caps.hasSpend && 0 < Shares(takes) ==> Cost(levels, takes) <= caps.spend)
    && (forall i :: 0 <= i < |takes| && 0 < takes[i] ==> levels[i].price <= caps.worst)
  }

  /** One more micro-share at price `p` would break a cap. */
  predicate NoRoomAt(caps: Caps, shares: int, cost: real, p: real) {
    || caps.quantity <= shares
    || caps.worst < p
    || (caps.hasSpend && caps.spend < cost + p)
    || (caps.average < p && caps.average * (shares + 1) as real < cost + p)
  }

  /** Every level before `k` is emptied, none after it is touched, and level `k`
      has no room for one more micro-share. */
  predicate StopsAt(levels: seq<Level>, caps: Caps, takes: seq<int>, k: nat) {
    && WithinSizes(levels, takes)
    && k <= |levels|
    && k <= |takes| <= k + 1
    && (forall i :: 0 <= i < k ==> takes[i] as real == levels[i].size)
    && (k < |levels| ==>
          NoRoomAt(caps, Shares(takes), Cost(levels, takes), levels[k].price))
  }

  // ---- Greedy is maximal ----

  /** `Cost - p * Shares` of an allocation: what it pays above price `p`. */
  function Excess(levels: seq<Level>, takes: seq<int>, p: real): real
    requires |takes| <= |levels|
  {
    Cost(levels, takes) - p * Shares(takes) as real
  }

  /** What an allocation takes at prices of at least `p` pays no less than `p` a share. */
  lemma {:induction false} ExcessGrows(levels: seq<Level>, k: nat, p: real, x: seq<int>, n: nat)
    requires WithinSizes(levels, x) && k <= n <= |x|
    requires forall i :: k <= i < n ==> x[i] == 0 || p <= levels[i].price
    ensures Excess(levels, x[..k], p) <= Excess(levels, x[..n], p)
    decreases n
  {
    hide Excess, Above;
    if k < n {
      ExcessGrows(levels, k, p, x, n - 1);
      OneMoreExceeds(levels, x, n, p);
      DearerPaysAbove(x[n - 1], levels[n - 1].price, p);
    }
  }

  /** What a take pays above price `p`. */
  function Above(take: int, price: real, p: real): real {
    take as real * (price - p)
  }

  lemma OneMoreExceeds(levels: seq<Level>, x: seq<int>, n: nat, p: real)
    requires 0 < n <= |x| <= |levels|
    ensures Excess(levels, x[..n], p) == Excess(levels, x[..n - 1], p) + Above(x[n - 1], levels[n - 1].price, p)
  {
    assert x[..n][..n - 1] == x[..n - 1];
    var more, price := x[n - 1] as real, levels[n - 1].price;
    assert more * (price - p) == more * price - p * more;
  }

  lemma DearerPaysAbove(take: int, price: real, p: real)
    requires 0 <= take && (take == 0 || p <= price)
    ensures 0.0 <= Above(take, price, p)
  {
    if take != 0 {
      ProductNonNegative(take as real, price - p);
    }
  }

  /** At a price of at most `p`, taking more pays less above `p`. */
  lemma CheaperPaysLess(less: int, more: int, price: real, p: real)
    requires less <= more && price <= p
    ensures Above(more, price, p) <= Above(less, price, p)
  {
    var a, b, d := less as real, more as real, p - price;
    ProductNonNegative(b - a, d);
    assert (b - a) * d == a * (price - p) - b * (price - p);
  }

  /** Taking every whole micro-share of levels priced at most `p` pays the least above `p`. */
  lemma {:induction false} EmptyingPaysLeast(
    levels: seq<Level>, p: real, takes: seq<int>, x: seq<int>, n: nat)
    requires WithinSizes(levels, takes) && WithinSizes(levels, x)
    requires n <= |takes|
    requires forall i :: 0 <= i < n ==> levels[i].size < takes[i] as real + 1.0 && levels[i].price <= p
    ensures Excess(levels, takes[..n], p)
            <= Excess(levels, x[..if n <= |x| then n else |x|], p)
    decreases n
  {
    hide Excess, Above;
    if n > 0 {
      EmptyingPaysLeast(levels, p, takes, x, n - 1);
      OneMoreExceeds(levels, takes, n, p);
      if n <= |x| {
        OneMoreExceeds(levels, x, n, p);
        assert x[n - 1] <= takes[n - 1];
        CheaperPaysLess(x[n - 1], takes[n - 1], levels[n - 1].price, p);
      } else {
        CheaperPaysLess(0, takes[n - 1], levels[n - 1].price, p);
        NothingAbove(levels[n - 1].price, p);
      }
    }
  }

  lemma NothingAbove(price: real, p: real)
    ensures Above(0, price, p) == 0.0
  {}

  /** An allocation that takes no more of any level takes no more in all. */
  lemma {:induction false} SharesWithin(levels: seq<Level>, takes: seq<int>, x: seq<int>)
    requires WithinSizes(levels, takes) && WithinSizes(levels, x)
    requires forall i :: 0 <= i < |x| && 0 < x[i] ==> i < |takes| && x[i] <= takes[i]
    ensures Shares(x) <= Shares(takes)
    decreases |takes| + |x|
  {
    if x == [] {
      SharesNonNegative(levels, takes);
    } else if |takes| < |x| {
      SharesWithin(levels, takes, x[..|x| - 1]);
    } else if |x| < |takes| {
      SharesWithin(levels, takes[..|takes| - 1], x);
    } else {
      SharesWithin(levels, takes[..|takes| - 1], x[..|x| - 1]);
    }
  }

  lemma {:induction false} SharesNonNegative(levels: seq<Level>, takes: seq<int>)
    requires WithinSizes(levels, takes)
    ensures 0 <= Shares(takes)
    decreases |takes|
  {
    if takes != [] {
      SharesNonNegative(levels, takes[..|takes| - 1]);
    }
  }

  /** No whole micro-share is left before level `k`, and level `k` has no room for one. */
  predicate StopsFor(levels: seq<Level>, caps: Caps, takes: seq<int>, k: nat) {
    && WithinSizes(levels, takes)
    && k <= |levels| && |takes| <= k + 1
    && (forall i :: 0 <= i < k ==> levels[i].size < (if i < |takes| then takes[i] else 0) as real + 1.0)
    && (k < |levels| ==>
          NoRoomAt(caps, Shares(takes), Cost(levels, takes), levels[k].price))
  }

  /** The marginal price bounds from below what any other allocation costs. */
  lemma CostBeyond(levels: seq<Level>, caps: Caps, takes: seq<int>, k: nat, x: seq<int>)
    requires Ascending(levels) && StopsFor(levels, caps, takes, k) && k < |levels|
    requires WithinSizes(levels, x)
    ensures Excess(levels, takes, levels[k].price) <= Excess(levels, x, levels[k].price)
  {
    var p := levels[k].price;
    var n := if |takes| <= k then |takes| else k;
    EmptyingPaysLeast(levels, p, takes, x, n);
    if |takes| == k + 1 {
      assert takes[..k + 1] == takes && takes[..k + 1][..k] == takes[..k];
    }
    assert takes[..n] == takes || takes[..k + 1] == takes;
    assert x[..|x|] == x;
    if n <= |x| {
      forall i | n <= i < |x| ensures x[i] == 0 || p <= levels[i].price {
        assert i < k ==> levels[i].size < 1.0;
      }
      ExcessGrows(levels, n, p, x, |x|);
    }
  }

  /** No allocation of whole micro-shares that respects every cap takes strictly
      more than a walk that took all it could of the cheaper levels. */
  lemma GreedyIsMaximal(levels: seq<Level>, caps: Caps, takes: seq<int>, k: nat, x: seq<int>)
    requires Ascending(levels) && StopsFor(levels, caps, takes, k) && Feasible(levels, caps, x)
    requires caps.hasSpend ==> forall i :: 0 <= i < |levels| ==> 0.0 < levels[i].price
    ensures Shares(x) <= Shares(takes)
  {
    hide Shares, Cost;
    if k == |levels| || caps.worst < levels[k].price {
      forall i | 0 <= i < |x| && 0 < x[i] ensures i < |takes| && x[i] <= takes[i] {
        assert i < k;
      }
      SharesWithin(levels, takes, x);
    } else if Shares(takes) < Shares(x) {
      var p := levels[k].price;
      CostBeyond(levels, caps, takes, k, x);
      SharesNonNegative(levels, takes);
      BeyondBreaksACap(caps, p, Shares(takes), Cost(levels, takes), Shares(x), Cost(levels, x));
    }
  }

  lemma ProductNonNegative(a: real, b: real)
    requires 0.0 <= a && 0.0 <= b
    ensures 0.0 <= a * b
  {}

  lemma BeyondBreaksACap(caps: Caps, p: real, shares: int, cost: real, shares': int, cost': real)
    requires 0 <= shares < shares' && NoRoomAt(caps, shares, cost, p) && p <= caps.worst
    requires cost - p * shares as real <= cost' - p * shares' as real
    requires caps.hasSpend ==> 0.0 < p
    ensures || caps.quantity < shares'
            || (caps.hasSpend && caps.spend < cost')
            || caps.average * shares' as real < cost'
  {
    var more := (shares' - shares) as real;
    assert p * shares' as real == p * shares as real + p * more;
    assert cost + p * more <= cost';
    if caps.hasSpend {
      ProductNonNegative(p, more - 1.0);
      assert p * more == p + p * (more - 1.0);
    }
    if caps.average < p {
      ProductNonNegative(p - caps.average, more - 1.0);
      assert caps.average * shares' as real
             == caps.average * (shares + 1) as real + caps.average * (more - 1.0);
    }
  }
}
