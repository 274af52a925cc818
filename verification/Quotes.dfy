/** Executable quotes: walking the asks for shares, or for a budget. */
module Quotes {
  import opened Model
  import opened DepthWalk
  import opened OrderBook

  predicate PositiveSizes(levels: seq<Level>) {
    forall i :: 0 <= i < |levels| ==> 0.0 < levels[i].size
  }

  predicate PositivePrices(levels: seq<Level>) {
    forall i :: 0 <= i < |levels| ==> 0.0 < levels[i].price
  }

  /** Everything the levels offer. */
  function Offered(levels: seq<Level>): real {
    if levels == [] then 0.0 else levels[0].size + Offered(levels[1..])
  }

  /** What `shares` cost when each level is emptied before the next is touched. */
  function WalkCost(levels: seq<Level>, shares: real): real {
    if levels == [] || shares <= 0.0 then 0.0
    else
      var take := Min(shares, levels[0].size);
      take * levels[0].price + WalkCost(levels[1..], shares - take)
  }

  /** The last price such a walk touches. */
  function WalkWorst(levels: seq<Level>, shares: real): real
    requires levels != []
  {
    if |levels| == 1 || shares <= levels[0].size then levels[0].price
    else WalkWorst(levels[1..], shares - levels[0].size)
  }

  // ---- The walk is the cheapest allocation ----

  function Sum(xs: seq<real>): real {
    if xs == [] then 0.0 else xs[0] + Sum(xs[1..])
  }

  /** What an allocation of shares to the levels costs. */
  function Spend(levels: seq<Level>, xs: seq<real>): real
    requires |xs| == |levels|
  {
    if xs == [] then 0.0 else xs[0] * levels[0].price + Spend(levels[1..], xs[1..])
  }

  predicate Allocates(levels: seq<Level>, xs: seq<real>, shares: real) {
    && |xs| == |levels|
    && (forall i :: 0 <= i < |xs| ==> 0.0 <= xs[i] <= levels[i].size)
    && Sum(xs) == shares
  }

  predicate NoCheaperThan(levels: seq<Level>, p: real) {
    forall i :: 0 <= i < |levels| ==> p <= levels[i].price
  }

  predicate Sorted(levels: seq<Level>) {
    forall i, j :: 0 <= i <= j < |levels| ==> levels[i].price <= levels[j].price
  }

  lemma WalkUnfolds(levels: seq<Level>, shares: real)
    requires levels != [] && PositiveSizes(levels) && 0.0 <= shares
    ensures shares <= levels[0].size ==> WalkCost(levels, shares) == shares * levels[0].price
    ensures levels[0].size <= shares ==>
              WalkCost(levels, shares)
              == levels[0].size * levels[0].price + WalkCost(levels[1..], shares - levels[0].size)
  {
    NothingCostsNothing(levels[1..]);
  }

  lemma NothingCostsNothing(levels: seq<Level>)
    ensures WalkCost(levels, 0.0) == 0.0
  {}

  lemma PriceTimes(n: real, p: real, q: real)
    requires 0.0 <= n && p <= q
    ensures n * p <= n * q
  {
    ProductNonNegative(n, q - p);
    assert n * (q - p) == n * q - n * p;
  }

  lemma WithinFirstLevel(levels: seq<Level>, a: real, more: real, p: real)
    requires levels != [] && PositiveSizes(levels) && p <= levels[0].price
    requires 0.0 <= a && 0.0 <= more && a + more <= levels[0].size
    ensures more * p <= WalkCost(levels, a + more) - WalkCost(levels, a)
  {
    hide WalkCost;
    WalkUnfolds(levels, a);
    WalkUnfolds(levels, a + more);
    AtOnePrice(a, more, p, levels[0].price, WalkCost(levels, a), WalkCost(levels, a + more));
  }

  lemma AtOnePrice(a: real, more: real, p: real, q: real, before: real, after: real)
    requires 0.0 <= more && p <= q && before == a * q && after == (a + more) * q
    ensures more * p <= after - before
  {
    PriceTimes(more, p, q);
    assert (a + more) * q == a * q + more * q;
  }

  lemma PastFirstLevel(levels: seq<Level>, a: real, more: real, p: real)
    requires levels != [] && PositiveSizes(levels) && p <= levels[0].price
    requires 0.0 <= a <= levels[0].size <= a + more
    requires (a + more - levels[0].size) * p <= WalkCost(levels[1..], a + more - levels[0].size)
    ensures more * p <= WalkCost(levels, a + more) - WalkCost(levels, a)
  {
    hide WalkCost;
    var left := levels[0].size - a;
    WalkUnfolds(levels, a + more);
    WithinFirstLevel(levels, a, left, p);
    WalkUnfolds(levels, levels[0].size);
    NothingCostsNothing(levels[1..]);
    assert more * p == (a + more - levels[0].size) * p + left * p;
  }

  /** More shares cost at least the cheapest price each. */
  lemma {:induction false} MoreSharesCostMore(levels: seq<Level>, a: real, more: real, p: real)
    requires PositiveSizes(levels) && NoCheaperThan(levels, p)
    requires 0.0 <= a && 0.0 <= more && a + more <= Offered(levels)
    ensures more * p <= WalkCost(levels, a + more) - WalkCost(levels, a)
    decreases |levels|
  {
    if levels == [] {
      assert more == 0.0;
    } else {
      hide WalkCost;
      var rest, s0 := levels[1..], levels[0].size;
      OfferedNonNegative(rest);
      if a + more <= s0 {
        WithinFirstLevel(levels, a, more, p);
      } else if a <= s0 {
        MoreSharesCostMore(rest, 0.0, a + more - s0, p);
        NothingCostsNothing(rest);
        PastFirstLevel(levels, a, more, p);
      } else {
        MoreSharesCostMore(rest, a - s0, more, p);
        assert a - s0 + more == a + more - s0;
        WalkUnfolds(levels, a);
        WalkUnfolds(levels, a + more);
      }
    }
  }

  lemma {:induction false} AllocationFits(levels: seq<Level>, xs: seq<real>, shares: real)
    requires PositiveSizes(levels) && Allocates(levels, xs, shares)
    ensures 0.0 <= shares <= Offered(levels)
    decreases |levels|
  {
    if levels != [] {
      AllocationFits(levels[1..], xs[1..], shares - xs[0]);
    }
  }

  function Bill(shares: real, price: real): real {
    shares * price
  }

  lemma WalkTakes(levels: seq<Level>, shares: real)
    requires levels != [] && PositiveSizes(levels) && 0.0 <= shares
    ensures var take := Min(shares, levels[0].size);
            WalkCost(levels, shares) == Bill(take, levels[0].price) + WalkCost(levels[1..], shares - take)
  {
    NothingCostsNothing(levels[1..]);
  }

  lemma SpendUnfolds(levels: seq<Level>, xs: seq<real>)
    requires |xs| == |levels| && levels != []
    ensures Spend(levels, xs) == Bill(xs[0], levels[0].price) + Spend(levels[1..], xs[1..])
  {}

  lemma BillsSubtract(a: real, b: real, p: real)
    ensures Bill(a - b, p) == Bill(a, p) - Bill(b, p)
  {}

  lemma RestAllocates(levels: seq<Level>, xs: seq<real>, shares: real)
    requires levels != [] && PositiveSizes(levels) && Sorted(levels) && Allocates(levels, xs, shares)
    ensures Allocates(levels[1..], xs[1..], shares - xs[0]) && 0.0 <= xs[0] <= levels[0].size
    ensures PositiveSizes(levels[1..]) && Sorted(levels[1..]) && NoCheaperThan(levels[1..], levels[0].price)
  {}

  /** What is left to take after `x0` shares of the first level costs at least
      what is left after as many as possible, at the first price a share. */
  lemma TakingEarlierLeavesLess(levels: seq<Level>, shares: real, x0: real)
    requires levels != [] && PositiveSizes(levels) && NoCheaperThan(levels[1..], levels[0].price)
    requires 0.0 <= x0 <= Min(shares, levels[0].size) && shares - x0 <= Offered(levels[1..])
    ensures var take := Min(shares, levels[0].size);
            Bill(take - x0, levels[0].price)
            <= WalkCost(levels[1..], shares - x0) - WalkCost(levels[1..], shares - take)
  {
    hide WalkCost;
    var take := Min(shares, levels[0].size);
    MoreSharesCostMore(levels[1..], shares - take, take - x0, levels[0].price);
    assert shares - take + (take - x0) == shares - x0;
  }

  /** No way of taking the same shares from the levels costs less. */
  lemma {:induction false} WalkIsCheapest(levels: seq<Level>, xs: seq<real>, shares: real)
    requires PositiveSizes(levels) && Sorted(levels) && Allocates(levels, xs, shares)
    ensures WalkCost(levels, shares) <= Spend(levels, xs)
    decreases |levels|
  {
    AllocationFits(levels, xs, shares);
    if levels != [] {
      RestAllocates(levels, xs, shares);
      AllocationFits(levels[1..], xs[1..], shares - xs[0]);
      WalkIsCheapest(levels[1..], xs[1..], shares - xs[0]);
      hide WalkCost, Spend, Bill;
      TakingEarlierLeavesLess(levels, shares, xs[0]);
      WalkTakes(levels, shares);
      SpendUnfolds(levels, xs);
      BillsSubtract(Min(shares, levels[0].size), xs[0], levels[0].price);
    }
  }

  // ---- The average ----

  lemma AverageOfTwo(p0: real, s0: real, shares: real, low: real, above: real, worst: real)
    requires 0.0 <= s0 <= shares && p0 <= low && p0 <= worst
    requires low * (shares - s0) <= above <= worst * (shares - s0)
    ensures p0 * shares <= s0 * p0 + above <= worst * shares
  {
    PriceTimes(shares - s0, p0, low);
    PriceTimes(s0, p0, worst);
    assert (shares - s0) * p0 == p0 * shares - s0 * p0;
    assert worst * (shares - s0) == worst * shares - s0 * worst;
  }

  lemma {:induction false} AverageBetween(levels: seq<Level>, shares: real)
    requires PositiveSizes(levels) && Sorted(levels) && 0.0 < shares <= Offered(levels)
    ensures levels != []
    ensures levels[0].price * shares <= WalkCost(levels, shares) <= WalkWorst(levels, shares) * shares
    ensures levels[0].price <= WalkWorst(levels, shares)
    decreases |levels|
  {
    hide WalkCost;
    WalkUnfolds(levels, shares);
    var rest := levels[1..];
    if levels[0].size < shares {
      AverageBetween(rest, shares - levels[0].size);
      AverageOfTwo(levels[0].price, levels[0].size, shares, rest[0].price,
                   WalkCost(rest, shares - levels[0].size), WalkWorst(levels, shares));
    }
  }

  // ---- Budgets ----

  /** The shares a budget buys. */
  function BudgetShares(levels: seq<Level>, budget: real): real
    requires PositivePrices(levels)
  {
    if levels == [] || budget <= 0.0 then 0.0
    else
      var levelCost := levels[0].size * levels[0].price;
      if levelCost <= budget then levels[0].size + BudgetShares(levels[1..], budget - levelCost)
      else budget / levels[0].price
  }

  /** The last price the budget reaches. */
  function BudgetWorst(levels: seq<Level>, budget: real): real
    requires levels != []
  {
    var levelCost := levels[0].size * levels[0].price;
    if |levels| == 1 || budget <= levelCost then levels[0].price
    else BudgetWorst(levels[1..], budget - levelCost)
  }

  lemma BudgetUnfolds(levels: seq<Level>, budget: real)
    requires levels != [] && PositiveSizes(levels) && PositivePrices(levels) && 0.0 <= budget
    ensures var levelCost := levels[0].size * levels[0].price;
            && 0.0 < levelCost
            && BudgetShares(levels, budget)
               == if levelCost <= budget then levels[0].size + BudgetShares(levels[1..], budget - levelCost)
                  else budget / levels[0].price
  {
    ProductPositive(levels[0].size, levels[0].price);
  }

  /** A budget below the cost of the first level is spent there. */
  lemma PartialBudget(levels: seq<Level>, budget: real)
    requires levels != [] && PositiveSizes(levels) && PositivePrices(levels)
    requires 0.0 <= budget < levels[0].size * levels[0].price
    ensures 0.0 <= BudgetShares(levels, budget) < levels[0].size
    ensures WalkCost(levels, BudgetShares(levels, budget)) == budget
  {
    hide WalkCost, BudgetShares;
    BudgetUnfolds(levels, budget);
    QuotientBelow(budget, levels[0].size, levels[0].price);
    WalkUnfolds(levels, budget / levels[0].price);
  }

  /** Buying what a budget buys costs the budget. */
  lemma {:induction false} BudgetIsSpent(levels: seq<Level>, budget: real)
    requires PositiveSizes(levels) && PositivePrices(levels)
    requires 0.0 <= budget <= WalkCost(levels, Offered(levels))
    ensures 0.0 <= BudgetShares(levels, budget) <= Offered(levels)
    ensures WalkCost(levels, BudgetShares(levels, budget)) == budget
    decreases |levels|
  {
    OfferedNonNegative(levels);
    if levels != [] {
      hide WalkCost, BudgetShares;
      var rest, levelCost := levels[1..], levels[0].size * levels[0].price;
      OfferedNonNegative(rest);
      if levelCost <= budget {
        WalkUnfolds(levels, Offered(levels));
        assert Offered(levels) - levels[0].size == Offered(rest);
        BudgetUnfolds(levels, budget);
        BudgetIsSpent(rest, budget - levelCost);
        var more := BudgetShares(rest, budget - levelCost);
        WalkUnfolds(levels, levels[0].size + more);
        assert levels[0].size + more - levels[0].size == more;
      } else {
        PartialBudget(levels, budget);
      }
    }
  }

  lemma ProductStrict(a: real, b: real, p: real)
    requires a < b && 0.0 < p
    ensures a * p < b * p
  {
    ProductPositive(b - a, p);
    assert (b - a) * p == b * p - a * p;
  }

  lemma QuotientBelow(budget: real, s: real, p: real)
    requires 0.0 < p && 0.0 <= budget < s * p
    ensures 0.0 <= budget / p < s && budget / p * p == budget
  {
    var q := budget / p;
    assert q * p == budget;
    if s < q {
      ProductStrict(s, q, p);
    }
    if q < 0.0 {
      ProductStrict(q, 0.0, p);
    }
  }

  lemma ProductPositive(a: real, b: real)
    requires 0.0 < a && 0.0 < b
    ensures 0.0 < a * b
  {}

  lemma {:induction false} OfferedNonNegative(levels: seq<Level>)
    requires PositiveSizes(levels)
    ensures 0.0 <= Offered(levels)
    ensures levels != [] ==> 0.0 < Offered(levels)
    decreases |levels|
  {
    if levels != [] {
      OfferedNonNegative(levels[1..]);
    }
  }

  lemma WorstUnfolds(levels: seq<Level>, shares: real, budget: real)
    requires levels != []
    ensures shares <= levels[0].size ==> WalkWorst(levels, shares) == levels[0].price
    ensures budget <= levels[0].size * levels[0].price ==> BudgetWorst(levels, budget) == levels[0].price
    ensures |levels| > 1 && levels[0].size < shares ==>
              WalkWorst(levels, shares) == WalkWorst(levels[1..], shares - levels[0].size)
    ensures |levels| > 1 && levels[0].size * levels[0].price < budget ==>
              BudgetWorst(levels, budget)
              == BudgetWorst(levels[1..], budget - levels[0].size * levels[0].price)
  {}

  /** A budget of exactly what shares cost buys those shares, up to the same price. */
  lemma {:induction false} CostBuysBack(levels: seq<Level>, shares: real)
    requires PositiveSizes(levels) && PositivePrices(levels) && 0.0 < shares <= Offered(levels)
    ensures levels != []
    ensures 0.0 < WalkCost(levels, shares)
    ensures BudgetShares(levels, WalkCost(levels, shares)) == shares
    ensures BudgetWorst(levels, WalkCost(levels, shares)) == WalkWorst(levels, shares)
    decreases |levels|
  {
    hide WalkCost, BudgetShares, BudgetWorst, WalkWorst;
    var rest, p0, s0 := levels[1..], levels[0].price, levels[0].size;
    var cost, levelCost := WalkCost(levels, shares), s0 * p0;
    WalkUnfolds(levels, shares);
    ProductPositive(s0, p0);
    NothingCostsNothing(rest);
    if shares <= s0 {
      ProductPositive(shares, p0);
      assert cost == shares * p0;
      WorstUnfolds(levels, shares, cost);
      BudgetUnfolds(levels, cost);
      if shares < s0 {
        ProductStrict(shares, s0, p0);
        assert shares * p0 / p0 == shares;
      } else {
        NoBudgetNoShares(rest);
      }
    } else {
      CostBuysBack(rest, shares - s0);
      assert cost - levelCost == WalkCost(rest, shares - s0);
      WorstUnfolds(levels, shares, cost);
      BudgetUnfolds(levels, cost);
    }
  }

  lemma NoBudgetNoShares(levels: seq<Level>)
    requires PositivePrices(levels)
    ensures BudgetShares(levels, 0.0) == 0.0
  {}

  // ---- Quotes ----

  datatype Quote = Quote(
    shares: real, totalCost: real, averagePrice: real, worstPrice: real, bestBid: real, bestAsk: real)

  /** The quote for taking shares from the asks, when they offer enough. */
  function QuoteFor(book: Book, shares: real): Option<Quote>
    requires book.Valid()
  {
    if shares < book.minimumOrderSize || Offered(book.asks) < shares then None
    else
      var cost := WalkCost(book.asks, shares);
      Some(Quote(shares, cost, cost / shares, WalkWorst(book.asks, shares),
                 book.bids[0].price, book.asks[0].price))
  }

  /** The quote for spending a budget on the asks, when they can take it. */
  function BudgetQuoteFor(book: Book, budget: real): Option<Quote>
    requires book.Valid()
  {
    if budget <= 0.0 || WalkCost(book.asks, Offered(book.asks)) < budget then None
    else
      var shares := BudgetShares(book.asks, budget);
      if shares < book.minimumOrderSize then None
      else
        Some(Quote(shares, budget, budget / shares, BudgetWorst(book.asks, budget),
                   book.bids[0].price, book.asks[0].price))
  }

  lemma AsksAreOrdered(book: Book)
    requires book.Valid()
    ensures PositiveSizes(book.asks) && PositivePrices(book.asks) && Sorted(book.asks)
  {}

  lemma AverageAtLeastBest(book: Book, shares: real)
    requires book.Valid() && 0.0 < shares <= Offered(book.asks)
    ensures book.asks[0].price <= WalkCost(book.asks, shares) / shares <= WalkWorst(book.asks, shares)
  {
    AsksAreOrdered(book);
    AverageBetween(book.asks, shares);
    QuotientBetween(WalkCost(book.asks, shares), shares, book.asks[0].price, WalkWorst(book.asks, shares));
  }

  lemma QuotientBetween(cost: real, shares: real, low: real, high: real)
    requires 0.0 < shares && low * shares <= cost <= high * shares
    ensures low <= cost / shares <= high
  {
    var average := cost / shares;
    assert average * shares == cost;
    if average < low {
      ProductStrict(average, low, shares);
    }
    if high < average {
      ProductStrict(high, average, shares);
    }
  }

  lemma SuffixStep(levels: seq<Level>, i: nat)
    requires i < |levels|
    ensures levels[i..][0] == levels[i] && levels[i..][1..] == levels[i + 1..]
  {}

  /** `quote_buy`. */
  method QuoteBuy(book: Book, requested: real) returns (r: Option<Quote>)
    requires book.Valid()
    ensures r == QuoteFor(book, requested)
  {
    hide WalkCost, WalkWorst, Offered;
    if requested < book.minimumOrderSize {
      return None;
    }
    AsksAreOrdered(book);
    var asks, remaining, cost, worst: Option<real> := book.asks, requested, 0.0, None;
    var i := 0;
    assert asks[0..] == asks;
    while i < |asks| && remaining != 0.0
      invariant 0 <= i <= |asks| && 0.0 <= remaining
      invariant cost + WalkCost(asks[i..], remaining) == WalkCost(asks, requested)
      invariant 0.0 < remaining ==> Offered(asks) - requested == Offered(asks[i..]) - remaining
      invariant remaining == 0.0 ==> requested <= Offered(asks)
      invariant remaining == 0.0 ==> worst == Some(WalkWorst(asks, requested))
      invariant 0.0 < remaining && i < |asks| ==> WalkWorst(asks[i..], remaining) == WalkWorst(asks, requested)
    {
      var level := asks[i];
      var take := Min(remaining, level.size);
      SuffixStep(asks, i);
      SuffixOffers(asks, i + 1);
      TakeStep(asks[i..], remaining);
      cost, remaining, worst := cost + take * level.price, remaining - take, Some(level.price);
      i := i + 1;
    }
    NothingCostsNothing(asks[i..]);
    SuffixOffers(asks, i);
    if remaining > 0.0 {
      return None;
    }
    AverageAtLeastBest(book, requested);
    var average := if cost / requested > asks[0].price then cost / requested else asks[0].price;
    return Some(Quote(requested, cost, average, worst.value, book.bids[0].price, asks[0].price));
  }

  /** One turn of the walk. */
  lemma TakeStep(levels: seq<Level>, remaining: real)
    requires levels != [] && PositiveSizes(levels) && 0.0 < remaining
    ensures var take := Min(remaining, levels[0].size);
            && 0.0 < take
            && WalkCost(levels, remaining) == take * levels[0].price + WalkCost(levels[1..], remaining - take)
            && Offered(levels) == levels[0].size + Offered(levels[1..])
            && (remaining - take == 0.0 ==> WalkWorst(levels, remaining) == levels[0].price)
            && (0.0 < remaining - take && |levels| > 1 ==>
                  WalkWorst(levels, remaining) == WalkWorst(levels[1..], remaining - take))
            && (remaining - take == 0.0 || take == levels[0].size)
  {}

  lemma SuffixOffers(levels: seq<Level>, i: nat)
    requires i <= |levels| && PositiveSizes(levels)
    ensures 0.0 <= Offered(levels[i..]) && (i == |levels| ==> Offered(levels[i..]) == 0.0)
  {
    OfferedNonNegative(levels[i..]);
  }

  lemma BudgetStep(levels: seq<Level>, remaining: real)
    requires levels != [] && PositiveSizes(levels) && PositivePrices(levels) && 0.0 < remaining
    ensures var levelCost := levels[0].size * levels[0].price;
            && 0.0 < levelCost
            && WalkCost(levels, Offered(levels)) == levelCost + WalkCost(levels[1..], Offered(levels[1..]))
            && 0.0 <= WalkCost(levels[1..], Offered(levels[1..]))
            && (remaining < levelCost ==>
                  BudgetShares(levels, remaining) == remaining / levels[0].price
                  && BudgetWorst(levels, remaining) == levels[0].price)
            && (levelCost <= remaining ==>
                  BudgetShares(levels, remaining) == levels[0].size + BudgetShares(levels[1..], remaining - levelCost))
            && (levelCost == remaining ==>
                  BudgetWorst(levels, remaining) == levels[0].price && BudgetShares(levels[1..], 0.0) == 0.0)
            && (levelCost < remaining && |levels| > 1 ==>
                  BudgetWorst(levels, remaining) == BudgetWorst(levels[1..], remaining - levelCost))
  {
    hide WalkCost, BudgetShares;
    BudgetUnfolds(levels, remaining);
    OfferedNonNegative(levels[1..]);
    WalkUnfolds(levels, Offered(levels));
    NoBudgetNoShares(levels[1..]);
    assert Offered(levels) - levels[0].size == Offered(levels[1..]);
    FullCostNonNegative(levels[1..]);
  }

  lemma FullCostNonNegative(levels: seq<Level>)
    requires PositiveSizes(levels) && PositivePrices(levels)
    ensures 0.0 <= WalkCost(levels, Offered(levels))
  {
    OfferedNonNegative(levels);
    MoreSharesCostMore(levels, 0.0, Offered(levels), 0.0);
    NothingCostsNothing(levels);
  }

  /** `quote_buy_budget`. */
  method QuoteBudget(book: Book, budget: real) returns (r: Option<Quote>)
    requires book.Valid()
    ensures r == BudgetQuoteFor(book, budget)
  {
    hide WalkCost, BudgetShares, BudgetWorst, Offered;
    if budget <= 0.0 {
      return None;
    }
    AsksAreOrdered(book);
    var asks, remaining, shares, cost, worst: Option<real> := book.asks, budget, 0.0, 0.0, None;
    var i := 0;
    assert asks[0..] == asks;
    while i < |asks| && remaining != 0.0
      invariant 0 <= i <= |asks| && 0.0 <= remaining && cost == budget - remaining
      invariant shares + BudgetShares(asks[i..], remaining) == BudgetShares(asks, budget)
      invariant 0.0 < remaining ==>
                  WalkCost(asks, Offered(asks)) == cost + WalkCost(asks[i..], Offered(asks[i..]))
      invariant remaining == 0.0 ==> budget <= WalkCost(asks, Offered(asks))
      invariant remaining == 0.0 ==> worst == Some(BudgetWorst(asks, budget))
      invariant 0.0 < remaining && i < |asks| ==> BudgetWorst(asks[i..], remaining) == BudgetWorst(asks, budget)
    {
      var level := asks[i];
      var levelCost := level.size * level.price;
      SuffixStep(asks, i);
      BudgetStep(asks[i..], remaining);
      NoBudgetNoShares(asks[i + 1..]);
      if levelCost <= remaining {
        shares, cost, remaining := shares + level.size, cost + levelCost, remaining - levelCost;
      } else {
        shares, cost, remaining := shares + remaining / level.price, cost + remaining, 0.0;
      }
      worst := Some(level.price);
      i := i + 1;
    }
    NoBudgetNoShares(asks[i..]);
    SuffixOffers(asks, i);
    NothingCostsNothing(asks[i..]);
    if remaining > 0.0 {
      return None;
    }
    if shares < book.minimumOrderSize {
      return None;
    }
    BudgetIsSpent(asks, budget);
    AverageAtLeastBest(book, shares);
    var average := if cost / shares > asks[0].price then cost / shares else asks[0].price;
    return Some(Quote(shares, cost, average, worst.value, book.bids[0].price, asks[0].price));
  }

  // ---- What a quote promises ----

  /** A quote is the cheapest way to take its shares from the asks, and its
      average lies between the best ask and its worst price. */
  lemma QuoteIsCheapest(book: Book, shares: real, xs: seq<real>)
    requires book.Valid() && QuoteFor(book, shares).Some? && Allocates(book.asks, xs, shares)
    ensures var quote := QuoteFor(book, shares).value;
            && quote.totalCost <= Spend(book.asks, xs)
            && quote.bestAsk <= quote.averagePrice <= quote.worstPrice
            && quote.averagePrice * quote.shares == quote.totalCost
  {
    AsksAreOrdered(book);
    WalkIsCheapest(book.asks, xs, shares);
    AverageAtLeastBest(book, shares);
  }

  /** Quoting the cost of a quote gives the quote back. */
  lemma BudgetInvertsQuote(book: Book, shares: real)
    requires book.Valid() && QuoteFor(book, shares).Some?
    ensures BudgetQuoteFor(book, QuoteFor(book, shares).value.totalCost) == QuoteFor(book, shares)
  {
    hide WalkCost, BudgetShares, BudgetWorst, WalkWorst;
    AsksAreOrdered(book);
    CostBuysBack(book.asks, shares);
    OfferedNonNegative(book.asks);
    MoreSharesCostMore(book.asks, shares, Offered(book.asks) - shares, 0.0);
  }

  /** Quoting the shares a budget buys gives the budget's quote back. */
  lemma QuoteInvertsBudget(book: Book, budget: real)
    requires book.Valid() && BudgetQuoteFor(book, budget).Some?
    ensures QuoteFor(book, BudgetQuoteFor(book, budget).value.shares) == BudgetQuoteFor(book, budget)
  {
    hide WalkCost, BudgetShares, BudgetWorst, WalkWorst;
    AsksAreOrdered(book);
    var shares := BudgetShares(book.asks, budget);
    BudgetIsSpent(book.asks, budget);
    CostBuysBack(book.asks, shares);
  }

  // ---- When there is a quote, and what it names ----

  /** What the walk takes of each level. */
  function Greedy(levels: seq<Level>, shares: real): seq<real> {
    if levels == [] then []
    else
      var take := if shares <= 0.0 then 0.0 else Min(shares, levels[0].size);
      [take] + Greedy(levels[1..], shares - take)
  }

  /** The walk is itself a way to take the shares, at its own cost. */
  lemma {:induction false} GreedyAllocates(levels: seq<Level>, shares: real)
    requires PositiveSizes(levels) && 0.0 <= shares <= Offered(levels)
    ensures Allocates(levels, Greedy(levels, shares), shares)
    ensures Spend(levels, Greedy(levels, shares)) == WalkCost(levels, shares)
    decreases |levels|
  {
    if levels != [] {
      OfferedNonNegative(levels[1..]);
      var take := if shares <= 0.0 then 0.0 else Min(shares, levels[0].size);
      GreedyAllocates(levels[1..], shares - take);
      var rest := Greedy(levels[1..], shares - take);
      assert Greedy(levels, shares)[1..] == rest;
      NothingCostsNothing(levels[1..]);
    }
  }

  /** What the first `k` levels offer. */
  function OfferedBy(levels: seq<Level>, k: nat): real
    requires k <= |levels|
  {
    if k == 0 then 0.0 else OfferedBy(levels, k - 1) + levels[k - 1].size
  }

  lemma {:induction false} OfferedByTail(levels: seq<Level>, k: nat)
    requires levels != [] && k < |levels|
    ensures OfferedBy(levels, k + 1) == levels[0].size + OfferedBy(levels[1..], k)
    decreases k
  {
    if k > 0 {
      OfferedByTail(levels, k - 1);
    }
  }

  /** The walk ends in level `k`. */
  predicate EndsIn(levels: seq<Level>, shares: real, k: nat) {
    k < |levels| && OfferedBy(levels, k) < shares <= OfferedBy(levels, k + 1)
  }

  /** The worst price is that of the level in which the walk ends. */
  lemma {:induction false} WorstIsTheLast(levels: seq<Level>, shares: real) returns (k: nat)
    requires levels != [] && PositiveSizes(levels) && 0.0 < shares <= Offered(levels)
    ensures EndsIn(levels, shares, k) && levels[k].price == WalkWorst(levels, shares)
    decreases |levels|
  {
    if shares <= levels[0].size {
      k := 0;
      assert OfferedBy(levels, 1) == OfferedBy(levels, 0) + levels[0].size;
    } else {
      k := WorstIsTheLast(levels[1..], shares - levels[0].size);
      OfferedByTail(levels, k);
      OfferedByTail(levels, k + 1);
      k := k + 1;
    }
  }

  /** There is a quote exactly for a quantity the market admits and the asks can
      supply; it names the cost of some way to take the shares, the level in
      which that ends, and the best prices of both sides. */
  lemma QuotedExactly(book: Book, shares: real)
    requires book.Valid()
    ensures QuoteFor(book, shares).Some? <==>
            book.minimumOrderSize <= shares && exists xs :: Allocates(book.asks, xs, shares)
    ensures QuoteFor(book, shares).Some? ==>
              var quote := QuoteFor(book, shares).value;
              && quote.shares == shares
              && (exists xs :: Allocates(book.asks, xs, shares) && Spend(book.asks, xs) == quote.totalCost)
              && (exists k :: 0 <= k < |book.asks| && EndsIn(book.asks, shares, k) && quote.worstPrice == book.asks[k].price)
              && (forall i :: 0 <= i < |book.asks| ==> quote.bestAsk <= book.asks[i].price)
              && (forall i :: 0 <= i < |book.bids| ==> book.bids[i].price <= quote.bestBid)
              && quote.bestAsk == book.asks[0].price && quote.bestBid == book.bids[0].price
  {
    hide WalkCost, WalkWorst, Spend, Offered, Sum, EndsIn;
    AsksAreOrdered(book);
    BestBidIsFirst(book);
    if exists xs :: Allocates(book.asks, xs, shares) {
      var xs :| Allocates(book.asks, xs, shares);
      AllocationFits(book.asks, xs, shares);
    }
    if QuoteFor(book, shares).Some? {
      GreedyAllocates(book.asks, shares);
      var k := WorstIsTheLast(book.asks, shares);
      EndsInside(book.asks, shares, k);
    }
  }

  lemma EndsInside(levels: seq<Level>, shares: real, k: nat)
    requires EndsIn(levels, shares, k)
    ensures k < |levels|
  {}

  lemma BestBidIsFirst(book: Book)
    requires book.Valid()
    ensures forall i :: 0 <= i < |book.bids| ==> book.bids[i].price <= book.bids[0].price
  {
    forall i | 0 < i < |book.bids| ensures book.bids[i].price <= book.bids[0].price {
      assert Negated(book.bids)[0].price < Negated(book.bids)[i].price;
    }
  }

  /** A budget has a quote exactly if it is the cost of one. */
  lemma BudgetQuotedExactly(book: Book, budget: real)
    requires book.Valid()
    ensures BudgetQuoteFor(book, budget).Some? <==>
            exists shares :: QuoteFor(book, shares).Some? && QuoteFor(book, shares).value.totalCost == budget
  {
    hide QuoteFor;
    if BudgetQuoteFor(book, budget).Some? {
      QuoteInvertsBudget(book, budget);
      BudgetIsTheCost(book, budget);
    }
    forall shares | QuoteFor(book, shares).Some? && QuoteFor(book, shares).value.totalCost == budget
      ensures BudgetQuoteFor(book, budget).Some?
    {
      BudgetInvertsQuote(book, shares);
    }
  }

  lemma BudgetIsTheCost(book: Book, budget: real)
    requires book.Valid() && BudgetQuoteFor(book, budget).Some?
    ensures BudgetQuoteFor(book, budget).value.totalCost == budget
  {}
}
