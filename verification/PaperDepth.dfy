/** The depth walks of the paper executor. */
module PaperDepth {
  import opened Rounding
  import opened Model
  import opened DepthWalk
  import opened OrderBook

  /** Rates and slippages are plain numbers; the transaction cost is in micro-units. */
  datatype CostPolicy = CostPolicy(
    platformFeeRate: real,
    transactionCost: real,
    maximumAverageSlippage: real,
    maximumWorstSlippage: real)
  {
    predicate Valid() {
      && 0.0 <= platformFeeRate
      && 0.0 <= transactionCost
      && 0.0 <= maximumAverageSlippage <= maximumWorstSlippage
    }
  }

  datatype FillLevel = FillLevel(price: Price, quantity: Quantity)

  function FloorQuantity(x: real): int {
    if x <= 0.0 then 0 else x.Floor
  }

  function BuyCaps(intent: OrderIntent, book: Book, policy: CostPolicy): Caps
    requires book.Valid() && policy.Valid()
  {
    var ask := book.asks[0].price;
    Caps(intent.quantity,
         Min(FromMicro(intent.limitPrice), ask + policy.maximumAverageSlippage),
         ask + policy.maximumWorstSlippage,
         true,
         (intent.CashReservation() as real - policy.transactionCost)
         / (1.0 + policy.platformFeeRate) - 1.0)
  }

  /** The caps of a sale, on negated prices. */
  function SellCaps(intent: OrderIntent, book: Book, policy: CostPolicy): Caps
    requires book.Valid()
  {
    var bid := book.bids[0].price;
    Caps(intent.quantity,
         -Max(FromMicro(intent.limitPrice), bid - policy.maximumAverageSlippage),
         -(bid - policy.maximumWorstSlippage),
         false, 0.0)
  }

  function Quantities(fills: seq<FillLevel>): (takes: seq<int>)
    ensures |takes| == |fills|
    ensures forall i :: 0 <= i < |fills| ==> takes[i] == fills[i].quantity
  {
    seq(|fills|, i requires 0 <= i < |fills| => fills[i].quantity)
  }

  /** Level `k`, the first not emptied, has less than one micro-share left. */
  predicate StopsInFraction(levels: seq<Level>, takes: seq<int>, k: nat) {
    && k < |levels| && k <= |takes| <= k + 1
    && (forall i :: 0 <= i < k ==> takes[i] as real == levels[i].size)
    && var taken := if |takes| == k then 0 else takes[k];
       taken as real < levels[k].size < taken as real + 1.0
  }

  /** What a depth walk returns: a feasible allocation, every level of it priced
      in micro-units, that stopped for lack of room or at a fractional size. */
  predicate Walked(levels: seq<Level>, caps: Caps, fills: seq<FillLevel>) {
    var takes := Quantities(fills);
    && Feasible(levels, caps, takes)
    && (forall i :: 0 <= i < |fills| - 1 ==> takes[i] as real == levels[i].size)
    && exists k :: 0 <= k <= |levels|
                   && (StopsAt(levels, caps, takes, k) || StopsInFraction(levels, takes, k))
  }

  /** The fills of a walk so far: every level emptied. */
  predicate Emptied(levels: seq<Level>, caps: Caps, takes: seq<int>, n: nat) {
    && |takes| == n <= |levels|
    && Feasible(levels, caps, takes)
    && forall i :: 0 <= i < n ==> takes[i] as real == levels[i].size
  }

  function Ratio(head: real, unit: real): (q: real)
    requires 0.0 < unit
    ensures q * unit == head
  {
    head / unit
  }

  lemma TimesUnit(a: real, b: real, unit: real)
    requires 0.0 < unit && a < b
    ensures a * unit < b * unit
  {}

  /** A take no larger than `head / unit` stays within `head`. */
  lemma TakeWithin(head: real, unit: real, take: real)
    requires 0.0 < unit && take <= Ratio(head, unit)
    ensures take * unit <= head
  {
    hide Ratio;
    var q := Ratio(head, unit);
    assert q * unit == head;
    if take < q {
      TimesUnit(take, q, unit);
    }
  }

  /** One more micro-share than the whole part of `head / unit` does not. */
  lemma TakePast(head: real, unit: real, take: real)
    requires 0.0 < unit && Ratio(head, unit) < take + 1.0
    ensures head < take * unit + unit
  {
    hide Ratio;
    var q, above := Ratio(head, unit), take + 1.0;
    TimesUnit(q, above, unit);
    assert q * unit < above * unit;
    assert q * unit == head;
    assert above * unit == take * unit + unit;
  }

  /** The largest take the average cap allows at a price above it. */
  function AverageHeadroom(average: real, p: real, shares: int, cost: real): real
    requires average < p
  {
    Ratio(average * shares as real - cost, p - average)
  }

  /** The largest take a level allows under the caps. */
  function Allowed(level: Level, caps: Caps, shares: int, cost: real): real
    requires caps.hasSpend ==> 0.0 < level.price
  {
    var bySize := Min((caps.quantity - shares) as real, level.size);
    var bySpend := if caps.hasSpend then Min(bySize, Ratio(caps.spend - cost, level.price))
                   else bySize;
    if caps.average < level.price
    then Min(bySpend, AverageHeadroom(caps.average, level.price, shares, cost))
    else bySpend
  }

  /** A take within the average cap keeps it; one more micro-share than the
      whole part of the headroom breaks it. */
  lemma TakeWithinAverage(average: real, p: real, shares: int, cost: real, take: int)
    requires cost <= average * shares as real && 0 <= take
    requires average < p ==> take as real <= AverageHeadroom(average, p, shares, cost)
    ensures cost + take as real * p <= average * (shares + take) as real
    ensures average < p && AverageHeadroom(average, p, shares, cost) < take as real + 1.0 ==>
              average * (shares + take + 1) as real < cost + take as real * p + p
  {
    hide Ratio;
    var n := take as real;
    assert average * (shares + take) as real == average * shares as real + average * n;
    assert average * (shares + take + 1) as real == average * (shares + take) as real + average;
    if average < p {
      var head, unit := average * shares as real - cost, p - average;
      TakeWithin(head, unit, n);
      if AverageHeadroom(average, p, shares, cost) < n + 1.0 {
        TakePast(head, unit, n);
      }
      assert n * (p - average) == n * p - average * n;
    } else {
      ProductNonNegative(average - p, n);
      assert (average - p) * n == average * n - n * p;
    }
  }

  /** Taking `take` of a level keeps every cap, and leaves room for no more
      unless it takes all of the level, or all but a fraction. Taking none
      keeps the second half. */
  lemma TakingAllowedAt(level: Level, caps: Caps, shares: int, cost: real, take: int)
    requires cost <= caps.average * shares as real && 0 <= take
    requires caps.hasSpend ==> 0.0 < level.price
    requires take > 0 ==> take as real <= Allowed(level, caps, shares, cost)
    requires take == 0 && caps.average < level.price ==>
               0.0 <= AverageHeadroom(caps.average, level.price, shares, cost)
    ensures 0 < take ==>
              && shares + take <= caps.quantity && take as real <= level.size
              && (caps.hasSpend ==> cost + take as real * level.price <= caps.spend)
              && cost + take as real * level.price <= caps.average * (shares + take) as real
    ensures Allowed(level, caps, shares, cost) < take as real + 1.0 ==>
              || NoRoomAt(caps, shares + take, cost + take as real * level.price, level.price)
              || level.size < take as real + 1.0
  {
    hide Ratio, AverageHeadroom;
    TakeWithinAverage(caps.average, level.price, shares, cost, take);
    if caps.hasSpend {
      if 0 < take {
        TakeWithin(caps.spend - cost, level.price, take as real);
      }
      if Ratio(caps.spend - cost, level.price) < take as real + 1.0 {
        TakePast(caps.spend - cost, level.price, take as real);
      }
    }
  }

  lemma HeadroomNonNegative(average: real, p: real, shares: int, cost: real)
    requires average < p && cost <= average * shares as real
    ensures 0.0 <= AverageHeadroom(average, p, shares, cost)
  {
    var q := AverageHeadroom(average, p, shares, cost);
    if q < 0.0 {
      ProductNonNegative(-q, p - average);
      assert -q * (p - average) == -(q * (p - average));
      TimesUnit(q, 0.0, p - average);
    }
  }

  /** Taking the whole part of what a level allows keeps every cap. */
  lemma TakingAllowed(levels: seq<Level>, caps: Caps, takes: seq<int>, take: int)
    requires Feasible(levels, caps, takes) && |takes| < |levels|
    requires caps.hasSpend ==> 0.0 < levels[|takes|].price
    requires levels[|takes|].price <= caps.worst && 0 < take
    requires take as real <= Allowed(levels[|takes|], caps, Shares(takes), Cost(levels, takes))
    ensures Feasible(levels, caps, takes + [take])
  {
    hide Shares, Cost, Allowed, NoRoomAt, AverageHeadroom;
    TakeOneMore(levels, takes, take);
    TakingAllowedAt(levels[|takes|], caps, Shares(takes), Cost(levels, takes), take);
  }

  /** Fills priced at their level's price, rounded to micro-units. */
  predicate PricedInMicro(levels: seq<Level>, fills: seq<FillLevel>) {
    && |fills| <= |levels|
    && forall i :: 0 <= i < |fills| ==> fills[i].price == ToMicro(levels[i].price)
  }

  lemma QuantitiesGrow(fills: seq<FillLevel>, fill: FillLevel)
    ensures Quantities(fills + [fill]) == Quantities(fills) + [fill.quantity]
  {}

  /** A level that cannot be taken, or not even for one whole micro-share. */
  lemma StopsBefore(levels: seq<Level>, caps: Caps, fills: seq<FillLevel>)
    requires var takes := Quantities(fills);
             && Emptied(levels, caps, takes, |fills|)
             && |fills| < |levels| && 0.0 < levels[|fills|].size
             && (|| NoRoomAt(caps, Shares(takes), Cost(levels, takes), levels[|fills|].price)
                 || levels[|fills|].size < 1.0)
    ensures Walked(levels, caps, fills)
  {
    hide NoRoomAt, Shares, Cost;
    var takes, k := Quantities(fills), |fills|;
    assert StopsAt(levels, caps, takes, k) || StopsInFraction(levels, takes, k);
  }

  /** A level taken in part. */
  lemma StopsInside(levels: seq<Level>, caps: Caps, fills: seq<FillLevel>, fill: FillLevel)
    requires var takes, more := Quantities(fills), Quantities(fills + [fill]);
             && Emptied(levels, caps, takes, |fills|)
             && |fills| < |levels| && fill.quantity as real < levels[|fills|].size
             && Feasible(levels, caps, more)
             && (|| NoRoomAt(caps, Shares(more), Cost(levels, more), levels[|fills|].price)
                 || levels[|fills|].size < fill.quantity as real + 1.0)
    ensures Walked(levels, caps, fills + [fill])
  {
    hide NoRoomAt, Shares, Cost;
    var takes, k := Quantities(fills + [fill]), |fills|;
    assert StopsAt(levels, caps, takes, k) || StopsInFraction(levels, takes, k);
  }

  lemma StopsAtTheEnd(levels: seq<Level>, caps: Caps, fills: seq<FillLevel>)
    requires Emptied(levels, caps, Quantities(fills), |levels|)
    ensures Walked(levels, caps, fills)
  {
    hide Shares, Cost;
    assert StopsAt(levels, caps, Quantities(fills), |levels|);
  }

  /** `take` is the whole part of what the level allows; when that is nothing,
      the level has no room for a whole micro-share. */
  predicate TakesWhole(level: Level, caps: Caps, shares: int, cost: real, take: int)
    requires caps.hasSpend ==> 0.0 < level.price
  {
    && 0 <= take
    && (take == 0 ==> NoRoomAt(caps, shares, cost, level.price) || level.size < 1.0)
    && (0 < take ==>
          && level.price <= caps.worst
          && take as real <= Allowed(level, caps, shares, cost) < take as real + 1.0)
  }

  lemma WholePartTaken(level: Level, caps: Caps, shares: int, cost: real)
    requires caps.hasSpend ==> 0.0 < level.price
    requires cost <= caps.average * shares as real && level.price <= caps.worst
    ensures var take := FloorQuantity(Allowed(level, caps, shares, cost));
            0 <= take && TakesWhole(level, caps, shares, cost, take)
  {
    hide Allowed, AverageHeadroom;
    var take := FloorQuantity(Allowed(level, caps, shares, cost));
    if take == 0 {
      if caps.average < level.price {
        HeadroomNonNegative(caps.average, level.price, shares, cost);
      }
      TakingAllowedAt(level, caps, shares, cost, 0);
    }
  }

  lemma NoRoomReasons(caps: Caps, shares: int, cost: real, p: real)
    requires caps.quantity <= shares || caps.worst < p || (caps.hasSpend && caps.spend < cost + p)
    ensures NoRoomAt(caps, shares, cost, p)
  {}

  lemma NothingAllowed(level: Level, caps: Caps, shares: int, cost: real)
    requires caps.hasSpend ==> 0.0 < level.price
    requires NoRoomAt(caps, shares, cost, level.price)
    ensures TakesWhole(level, caps, shares, cost, 0)
  {}

  lemma HeadroomIs(average: real, p: real, shares: int, cost: real, headroom: real)
    requires average < p && headroom == average * shares as real - cost
    ensures Ratio(headroom, p - average) == AverageHeadroom(average, p, shares, cost)
  {
    hide Ratio;
  }

  /** How much of an ask to take, zero where the walk breaks off
      (`_buy_levels` within one level). */
  method BuyTake(level: Level, caps: Caps, remaining: int, shares: int, cost: real)
    returns (whole: int)
    requires caps.hasSpend && 0.0 < level.price && cost <= caps.average * shares as real
    requires remaining == caps.quantity - shares
    ensures 0 <= whole && TakesWhole(level, caps, shares, cost, whole)
  {
    hide Ratio, NoRoomAt, TakesWhole, FloorQuantity, AverageHeadroom;
    if remaining <= 0 || caps.worst < level.price {
      NoRoomReasons(caps, shares, cost, level.price);
      NothingAllowed(level, caps, shares, cost);
      return 0;
    }
    var take := Min(remaining as real, level.size);
    var headroom := caps.spend - cost;
    if headroom <= 0.0 {
      NoRoomReasons(caps, shares, cost, level.price);
      NothingAllowed(level, caps, shares, cost);
      return 0;
    }
    take := Min(take, Ratio(headroom, level.price));
    if caps.average < level.price {
      var averageHeadroom := caps.average * shares as real - cost;
      if averageHeadroom <= 0.0 {
        AverageSpent(caps, shares, cost, level.price);
        NothingAllowed(level, caps, shares, cost);
        return 0;
      }
      HeadroomIs(caps.average, level.price, shares, cost, averageHeadroom);
      take := Min(take, Ratio(averageHeadroom, level.price - caps.average));
    }
    WholePartTaken(level, caps, shares, cost);
    assert take == Allowed(level, caps, shares, cost);
    return FloorQuantity(take);
  }

  /** How much of a bid to sell into, zero where the walk breaks off
      (`_sell_levels` within one level). `caps` is on negated prices. */
  method SellTake(
    level: Level, averageFloor: real, worstFloor: real, remaining: int, shares: int, gross: real,
    ghost caps: Caps)
    returns (whole: int)
    requires !caps.hasSpend && caps.average == -averageFloor && caps.worst == -worstFloor
    requires -gross <= caps.average * shares as real && remaining == caps.quantity - shares
    ensures 0 <= whole
    ensures TakesWhole(Level(-level.price, level.size), caps, shares, -gross, whole)
  {
    hide Ratio, NoRoomAt, TakesWhole, FloorQuantity;
    ghost var negated := Level(-level.price, level.size);
    if remaining <= 0 || level.price < worstFloor {
      NoRoomReasons(caps, shares, -gross, negated.price);
      NothingAllowed(negated, caps, shares, -gross);
      return 0;
    }
    var take := Min(remaining as real, level.size);
    if level.price < averageFloor {
      var averageHeadroom := gross - averageFloor * shares as real;
      SameHeadroom(averageFloor, caps.average, shares, gross);
      if averageHeadroom <= 0.0 {
        AverageSpent(caps, shares, -gross, negated.price);
        NothingAllowed(negated, caps, shares, -gross);
        return 0;
      }
      var perShare := averageFloor - level.price;
      assert perShare == negated.price - caps.average;
      assert averageHeadroom == caps.average * shares as real - -gross;
      assert Ratio(averageHeadroom, perShare)
             == AverageHeadroom(caps.average, negated.price, shares, -gross);
      take := Min(take, Ratio(averageHeadroom, perShare));
    }
    WholePartTaken(negated, caps, shares, -gross);
    assert take == Allowed(negated, caps, shares, -gross);
    return FloorQuantity(take);
  }

  /** A walk that takes the whole part of what the next level allows goes on
      with that level emptied, or may stop there. */
  lemma LevelTaken(levels: seq<Level>, caps: Caps, fills: seq<FillLevel>, fill: FillLevel)
    requires var takes := Quantities(fills);
             && Emptied(levels, caps, takes, |fills|)
             && |fills| < |levels|
             && (caps.hasSpend ==> 0.0 < levels[|fills|].price)
             && TakesWhole(
                  levels[|fills|], caps, Shares(takes), Cost(levels, takes), fill.quantity)
    ensures var more, take, size := fills + [fill], fill.quantity as real, levels[|fills|].size;
            && Quantities(more) == Quantities(fills) + [fill.quantity]
            && Shares(Quantities(more)) == Shares(Quantities(fills)) + fill.quantity
            && Cost(levels, Quantities(more))
               == Cost(levels, Quantities(fills)) + take * levels[|fills|].price
            && take <= size
            && (take < size ==> Walked(levels, caps, more))
            && (take == size ==> Emptied(levels, caps, Quantities(more), |more|))
  {
    hide Shares, Cost, Allowed, NoRoomAt, Ratio, AverageHeadroom, Walked;
    var takes, level, take := Quantities(fills), levels[|fills|], fill.quantity;
    var shares, cost := Shares(takes), Cost(levels, takes);
    TakingAllowedAt(level, caps, shares, cost, take);
    TakingAllowed(levels, caps, takes, take);
    TakeOneMore(levels, takes, take);
    QuantitiesGrow(fills, fill);
    var cost' := cost + take as real * level.price;
    assert Cost(levels, takes + [take]) == cost' && Shares(takes + [take]) == shares + take;
    if take as real < level.size {
      StopsInside(levels, caps, fills, fill);
    }
  }

  lemma LevelRefused(levels: seq<Level>, caps: Caps, fills: seq<FillLevel>)
    requires var takes := Quantities(fills);
             && Emptied(levels, caps, takes, |fills|)
             && |fills| < |levels| && 0.0 < levels[|fills|].size
             && (caps.hasSpend ==> 0.0 < levels[|fills|].price)
             && TakesWhole(levels[|fills|], caps, Shares(takes), Cost(levels, takes), 0)
    ensures Walked(levels, caps, fills)
  {
    hide Shares, Cost, Allowed, NoRoomAt, Emptied;
    StopsBefore(levels, caps, fills);
  }

  lemma NegativeQuotient(a: real, b: real)
    requires a <= 0.0 && 0.0 < b
    ensures a / b <= 0.0
  {
    var q := a / b;
    assert q * b == a;
    if 0.0 < q {
      TimesUnit(0.0, q, b);
    }
  }

  lemma NothingToSpend(levels: seq<Level>, caps: Caps)
    requires levels != [] && 0.0 < levels[0].size && 0.0 < levels[0].price
    requires caps.hasSpend && caps.spend <= 0.0 && 0 <= caps.quantity
    ensures Walked(levels, caps, [])
  {
    hide Walked;
    assert Quantities([]) == [];
    StopsBefore(levels, caps, []);
  }

  /** A walk that empties `k` levels and takes from the next, whose price rounds
      to nothing. `book` holds the prices that `levels` may hold negated. */
  predicate ReachesUnpriceable(book: seq<Level>, levels: seq<Level>, caps: Caps, k: nat)
    requires k < |levels| == |book|
  {
    var takes := FullTakes(levels, k);
    && ToMicro(book[k].price) == 0
    && Emptied(levels, caps, takes, k)
    && RoomFor(levels[k], caps, Shares(takes), Cost(levels, takes))
  }

  predicate Unpriceable(book: seq<Level>, levels: seq<Level>, caps: Caps)
    requires |levels| == |book|
  {
    exists k :: 0 <= k < |levels| && ReachesUnpriceable(book, levels, caps, k)
  }

  lemma TakesWholeHasRoom(level: Level, caps: Caps, shares: int, cost: real, take: int)
    requires caps.hasSpend ==> 0.0 < level.price
    requires cost <= caps.average * shares as real && 0 < take
    requires TakesWhole(level, caps, shares, cost, take)
    ensures RoomFor(level, caps, shares, cost)
  {
    hide Ratio, AverageHeadroom, Allowed;
    TakingAllowedAt(level, caps, shares, cost, take);
    var n, p, a := take as real, level.price, caps.average;
    assert a * (shares + take) as real == a * (shares + 1) as real + a * (n - 1.0);
    if a < p {
      ProductNonNegative(p - a, n - 1.0);
    }
    if caps.hasSpend {
      ProductNonNegative(p, n - 1.0);
    }
  }

  /** The walk comes to take from a level that has no price. */
  lemma TakenButUnpriceable(
    book: seq<Level>, levels: seq<Level>, caps: Caps, fills: seq<FillLevel>, whole: int)
    requires |book| == |levels| && |fills| < |levels| && 0 < whole
    requires ToMicro(book[|fills|].price) == 0
    requires caps.hasSpend ==> 0.0 < levels[|fills|].price
    requires var takes := Quantities(fills);
             && Emptied(levels, caps, takes, |fills|)
             && TakesWhole(levels[|fills|], caps, Shares(takes), Cost(levels, takes), whole)
    ensures Unpriceable(book, levels, caps)
  {
    hide Shares, Cost, TakesWhole, RoomFor, Feasible, NearestWhole;
    var takes, k := Quantities(fills), |fills|;
    WithinAverage(levels, caps, takes, k);
    TakesWholeHasRoom(levels[k], caps, Shares(takes), Cost(levels, takes), whole);
    assert takes == FullTakes(levels, k);
    assert ReachesUnpriceable(book, levels, caps, k);
  }

  /** A finished walk whose fills all have prices did not come to such a level. */
  lemma PricedWalkAvoids(book: seq<Level>, levels: seq<Level>, caps: Caps, fills: seq<FillLevel>)
    requires |book| == |levels| && Ascending(levels)
    requires caps.hasSpend ==> forall i :: 0 <= i < |levels| ==> 0.0 < levels[i].price
    requires Walked(levels, caps, fills) && PricedInMicro(book, fills)
    ensures !Unpriceable(book, levels, caps)
  {
    hide ReachesUnpriceable, Walked, PricedInMicro, Ascending;
    forall k | 0 <= k < |levels| ensures !ReachesUnpriceable(book, levels, caps, k) {
      if ReachesUnpriceable(book, levels, caps, k) {
        ReachingMeansTaking(book, levels, caps, fills, k);
      }
    }
  }

  /** What a finished purchase and a finished sale are. */
  lemma FinishedBuy(intent: OrderIntent, book: Book, policy: CostPolicy, fills: seq<FillLevel>)
    requires book.Valid() && policy.Valid() && Walked(book.asks, BuyCaps(intent, book, policy), fills)
    requires PricedInMicro(book.asks, fills)
    ensures BestBuy(intent, book, policy, fills)
    ensures !Unpriceable(book.asks, book.asks, BuyCaps(intent, book, policy))
  {
    hide Walked, BestBuy, Unpriceable, PricedInMicro, BuyCaps;
    WalkIsBestBuy(intent, book, policy, fills);
    PricedWalkAvoids(book.asks, book.asks, BuyCaps(intent, book, policy), fills);
  }

  lemma FinishedSell(intent: OrderIntent, book: Book, policy: CostPolicy, fills: seq<FillLevel>)
    requires book.Valid() && policy.Valid() && Walked(Negated(book.bids), SellCaps(intent, book, policy), fills)
    requires PricedInMicro(book.bids, fills)
    ensures BestSell(intent, book, policy, fills)
    ensures !Unpriceable(book.bids, Negated(book.bids), SellCaps(intent, book, policy))
  {
    hide Walked, BestSell, Unpriceable, PricedInMicro;
    WalkIsBestSell(intent, book, policy, fills);
    PricedWalkAvoids(book.bids, Negated(book.bids), SellCaps(intent, book, policy), fills);
  }

  lemma ReachingMeansTaking(
    book: seq<Level>, levels: seq<Level>, caps: Caps, fills: seq<FillLevel>, k: nat)
    requires |book| == |levels| && Ascending(levels)
    requires caps.hasSpend ==> forall i :: 0 <= i < |levels| ==> 0.0 < levels[i].price
    requires Walked(levels, caps, fills) && PricedInMicro(book, fills)
    requires k < |levels|
    ensures !ReachesUnpriceable(book, levels, caps, k)
  {
    hide Shares, Cost, NoRoomAt, NearestWhole, Feasible;
    if ReachesUnpriceable(book, levels, caps, k) {
      var takes, full := Quantities(fills), FullTakes(levels, k);
      assert |fills| <= k;
      OneMoreFits(levels, caps, full, k);
      var x := full + seq(0, _ => 0) + [1];
      FullTakesCover(levels, takes, k);
      var kk :| 0 <= kk <= |levels|
                && (StopsAt(levels, caps, takes, kk) || StopsInFraction(levels, takes, kk));
      if StopsAt(levels, caps, takes, kk) {
        GreedyIsMaximal(levels, caps, takes, kk, x);
      } else if kk < k {
        NothingBetween(if |takes| == kk then 0 else takes[kk], full[kk]);
      }
    }
  }

  lemma FullTakesCover(levels: seq<Level>, takes: seq<int>, k: nat)
    requires Ascending(levels) && WithinSizes(levels, takes) && |takes| <= k <= |levels|
    ensures Shares(takes) <= Shares(FullTakes(levels, k))
  {
    var full := FullTakes(levels, k);
    FullTakesFit(levels, k);
    forall i | 0 <= i < |takes| ensures takes[i] <= full[i] {
      WholeBelow(takes[i], levels[i].size);
    }
    SharesWithin(levels, full, takes);
  }

  /** `_buy_levels`: absent exactly where the walk comes to take from a level
      whose price rounds to no price at all. */
  method BuyLevels(intent: OrderIntent, book: Book, policy: CostPolicy)
    returns (r: Option<seq<FillLevel>>)
    requires book.Valid() && policy.Valid()
    ensures r.Some? ==>
              && BestBuy(intent, book, policy, r.value)
              && Walked(book.asks, BuyCaps(intent, book, policy), r.value)
              && PricedInMicro(book.asks, r.value)
    ensures r.None? <==> Unpriceable(book.asks, book.asks, BuyCaps(intent, book, policy))
  {
    hide Shares, Cost, Walked, NearestWhole, Emptied, Feasible, PricedInMicro, TakesWhole,
         Unpriceable, BestBuy, BestSell;
    var asks, caps := book.asks, BuyCaps(intent, book, policy);
    NothingTaken(asks, caps);
    var forGross := intent.CashReservation() as real - policy.transactionCost;
    if forGross <= 0.0 {
      NegativeQuotient(forGross, 1.0 + policy.platformFeeRate);
      NothingToSpend(asks, caps);
      FinishedBuy(intent, book, policy, []);
      return Some([]);
    }
    if caps.spend <= 0.0 {
      NothingToSpend(asks, caps);
      FinishedBuy(intent, book, policy, []);
      return Some([]);
    }
    var remaining: int, shares: int, cost: real := intent.quantity, 0, 0.0;
    var fills: seq<FillLevel> := [];
    SizesPositive(asks);
    while |fills| < |asks|
      invariant |fills| <= |asks| && Emptied(asks, caps, Quantities(fills), |fills|)
      invariant PricedInMicro(asks, fills)
      invariant shares == Shares(Quantities(fills)) && cost == Cost(asks, Quantities(fills))
      invariant remaining == intent.quantity - shares
      decreases |asks| - |fills|
    {
      var level := asks[|fills|];
      WithinAverage(asks, caps, Quantities(fills), |fills|);
      var whole := BuyTake(level, caps, remaining, shares, cost);
      if whole <= 0 {
        LevelRefused(asks, caps, fills);
        FinishedBuy(intent, book, policy, fills);
        return Some(fills);
      }
      var price := ToMicro(level.price);
      PriceFits(level.price);
      if price <= 0 {
        TakenButUnpriceable(asks, asks, caps, fills, whole);
        return None;
      }
      var fill := FillLevel(price, whole);
      LevelTaken(asks, caps, fills, fill);
      PricesGrow(asks, fills, fill);
      fills := fills + [fill];
      remaining := remaining - whole;
      shares := shares + whole;
      cost := cost + whole as real * level.price;
      if whole as real < level.size {
        FinishedBuy(intent, book, policy, fills);
        return Some(fills);
      }
    }
    StopsAtTheEnd(asks, caps, fills);
    FinishedBuy(intent, book, policy, fills);
    return Some(fills);
  }

  /** `_sell_levels`: absent exactly where the walk comes to take from a level
      whose price rounds to no price at all. */
  method SellLevels(intent: OrderIntent, book: Book, policy: CostPolicy)
    returns (r: Option<seq<FillLevel>>)
    requires book.Valid() && policy.Valid()
    ensures r.Some? ==>
              && BestSell(intent, book, policy, r.value)
              && Walked(Negated(book.bids), SellCaps(intent, book, policy), r.value)
              && PricedInMicro(book.bids, r.value)
    ensures r.None? <==> Unpriceable(book.bids, Negated(book.bids), SellCaps(intent, book, policy))
  {
    hide Shares, Cost, Walked, NearestWhole, Emptied, Feasible, PricedInMicro, TakesWhole,
         Unpriceable, BestBuy, BestSell;
    var bids, caps := book.bids, SellCaps(intent, book, policy);
    var averageFloor, worstFloor := -caps.average, -caps.worst;
    ghost var levels := Negated(bids);
    var remaining: int, shares: int, gross: real := intent.quantity, 0, 0.0;
    var fills: seq<FillLevel> := [];
    NothingTaken(levels, caps);
    SizesPositive(levels);
    assert PricedInMicro(bids, []) by { NothingTaken(bids, caps); }
    while |fills| < |bids|
      invariant |fills| <= |bids| && Emptied(levels, caps, Quantities(fills), |fills|)
      invariant PricedInMicro(bids, fills)
      invariant shares == Shares(Quantities(fills)) && gross == -Cost(levels, Quantities(fills))
      invariant remaining == intent.quantity - shares
      decreases |bids| - |fills|
    {
      var level := bids[|fills|];
      WithinAverage(levels, caps, Quantities(fills), |fills|);
      var whole := SellTake(level, averageFloor, worstFloor, remaining, shares, gross, caps);
      if whole <= 0 {
        LevelRefused(levels, caps, fills);
        FinishedSell(intent, book, policy, fills);
        return Some(fills);
      }
      var price := ToMicro(level.price);
      PriceFits(level.price);
      if price <= 0 {
        TakenButUnpriceable(bids, levels, caps, fills, whole);
        return None;
      }
      var fill := FillLevel(price, whole);
      LevelTaken(levels, caps, fills, fill);
      PricesGrow(bids, fills, fill);
      fills := fills + [fill];
      remaining := remaining - whole;
      shares := shares + whole;
      gross := gross + whole as real * level.price;
      if whole as real < level.size {
        FinishedSell(intent, book, policy, fills);
        return Some(fills);
      }
    }
    StopsAtTheEnd(levels, caps, fills);
    FinishedSell(intent, book, policy, fills);
    return Some(fills);
  }

  lemma SameHeadroom(floor: real, average: real, shares: int, gross: real)
    requires floor == -average
    ensures gross - floor * shares as real == average * shares as real - -gross
  {
    assert floor * shares as real == -(average * shares as real);
  }

  lemma WithinAverage(levels: seq<Level>, caps: Caps, takes: seq<int>, n: nat)
    requires Emptied(levels, caps, takes, n)
    ensures Cost(levels, takes) <= caps.average * Shares(takes) as real
  {}

  lemma SizesPositive(levels: seq<Level>)
    requires Ascending(levels)
    ensures forall i :: 0 <= i < |levels| ==> 0.0 < levels[i].size
  {}

  lemma PricesGrow(levels: seq<Level>, fills: seq<FillLevel>, fill: FillLevel)
    requires PricedInMicro(levels, fills) && |fills| < |levels|
    requires fill.price == ToMicro(levels[|fills|].price)
    ensures PricedInMicro(levels, fills + [fill])
  {}

  lemma NothingTaken(levels: seq<Level>, caps: Caps)
    requires 0 <= caps.quantity
    ensures Quantities([]) == [] && Emptied(levels, caps, [], 0)
    ensures Shares([]) == 0 && Cost(levels, []) == 0.0
    ensures PricedInMicro(levels, [])
  {}

  lemma AverageSpent(caps: Caps, shares: int, cost: real, p: real)
    requires caps.average < p && caps.average * shares as real <= cost
    ensures NoRoomAt(caps, shares, cost, p)
  {
    assert caps.average * (shares + 1) as real == caps.average * shares as real + caps.average;
  }

  lemma PriceFits(price: real)
    requires 0.0 < price < 1.0
    ensures 0 <= ToMicro(price) <= 1_000_000
  {}

  // ---- What the caps mean ----

  /** What an order to buy may take from the asks: no more than its quantity, at
      no more than its limit and the permitted average slippage on average, at
      no price past the permitted worst slippage, and, charged at the fee rate
      with a micro-unit to spare, within its cash reservation. */
  predicate BuyAllocation(intent: OrderIntent, book: Book, policy: CostPolicy, takes: seq<int>)
    requires book.Valid()
  {
    && WithinSizes(book.asks, takes)
    && Shares(takes) <= intent.quantity
    && var cost, shares, best := Cost(book.asks, takes), Shares(takes) as real, book.asks[0].price;
    && 1_000_000.0 * cost <= intent.limitPrice as real * shares
    && cost <= (best + policy.maximumAverageSlippage) * shares
    && (forall i :: 0 <= i < |takes| && 0 < takes[i] ==> book.asks[i].price <= best + policy.maximumWorstSlippage)
    && (0 < Shares(takes) ==>
          (cost + 1.0) * (1.0 + policy.platformFeeRate) + policy.transactionCost <= intent.CashReservation() as real)
  }

  /** What an order to sell may take from the bids: no more than its quantity, at
      no less than its limit and the permitted average slippage on average, and
      at no price past the permitted worst slippage. */
  predicate SellAllocation(intent: OrderIntent, book: Book, policy: CostPolicy, takes: seq<int>)
    requires book.Valid()
  {
    && WithinSizes(book.bids, takes)
    && Shares(takes) <= intent.quantity
    && var gross, shares, best := Cost(book.bids, takes), Shares(takes) as real, book.bids[0].price;
    && intent.limitPrice as real * shares <= 1_000_000.0 * gross
    && (best - policy.maximumAverageSlippage) * shares <= gross
    && (forall i :: 0 <= i < |takes| && 0 < takes[i] ==> best - policy.maximumWorstSlippage <= book.bids[i].price)
  }

  lemma SmallerOfTwo(a: real, b: real, n: real, cost: real)
    requires 0.0 <= n
    ensures cost <= Min(a, b) * n <==> cost <= a * n && cost <= b * n
  {
    if a < b {
      ProductNonNegative(b - a, n);
      assert (b - a) * n == b * n - a * n;
    } else {
      ProductNonNegative(a - b, n);
      assert (a - b) * n == a * n - b * n;
    }
  }

  lemma LimitInMicro(limit: int, n: real, cost: real)
    ensures cost <= FromMicro(limit) * n <==> 1_000_000.0 * cost <= limit as real * n
  {
    var unit := FromMicro(limit);
    assert 1_000_000.0 * unit == limit as real;
    assert 1_000_000.0 * (unit * n) == limit as real * n;
  }

  /** The budget before fees, and what it must cover with them. */
  lemma BudgetWithFees(available: real, rate: real, cost: real)
    requires 0.0 <= rate
    ensures cost <= available / (1.0 + rate) - 1.0 <==> (cost + 1.0) * (1.0 + rate) <= available
  {
    var unit := 1.0 + rate;
    var q := available / unit;
    assert q * unit == available;
    if q < cost + 1.0 {
      TimesUnit(q, cost + 1.0, unit);
    } else if cost + 1.0 < q {
      TimesUnit(cost + 1.0, q, unit);
    }
  }

  /** The caps of a purchase, one by one, for an allocation of `n` shares at `cost`. */
  lemma BuyCapsEach(intent: OrderIntent, book: Book, policy: CostPolicy, cost: real, n: real)
    requires book.Valid() && policy.Valid() && 0.0 <= n
    ensures var caps, best := BuyCaps(intent, book, policy), book.asks[0].price;
            && caps.quantity == intent.quantity && caps.hasSpend
            && caps.worst == best + policy.maximumWorstSlippage
            && (cost <= caps.average * n <==>
                  && 1_000_000.0 * cost <= intent.limitPrice as real * n
                  && cost <= (best + policy.maximumAverageSlippage) * n)
            && (cost <= caps.spend <==>
                  (cost + 1.0) * (1.0 + policy.platformFeeRate) + policy.transactionCost
                  <= intent.CashReservation() as real)
  {
    hide FromMicro, MoneyFromUnitPrice, Min;
    var best := book.asks[0].price;
    SmallerOfTwo(FromMicro(intent.limitPrice), best + policy.maximumAverageSlippage, n, cost);
    LimitInMicro(intent.limitPrice, n, cost);
    BudgetWithFees(intent.CashReservation() as real - policy.transactionCost, policy.platformFeeRate, cost);
  }

  /** The caps of a purchase admit exactly the allocations the order may take. */
  lemma BuyCapsMean(intent: OrderIntent, book: Book, policy: CostPolicy, takes: seq<int>)
    requires book.Valid() && policy.Valid()
    ensures Feasible(book.asks, BuyCaps(intent, book, policy), takes) <==> BuyAllocation(intent, book, policy, takes)
  {
    hide Shares, Cost, BuyCaps, MoneyFromUnitPrice;
    if WithinSizes(book.asks, takes) {
      SharesNonNegative(book.asks, takes);
      BuyCapsEach(intent, book, policy, Cost(book.asks, takes), Shares(takes) as real);
    }
  }

  lemma {:induction false} NegatedCost(bids: seq<Level>, takes: seq<int>)
    requires |takes| <= |bids|
    ensures Cost(Negated(bids), takes) == -Cost(bids, takes)
    decreases |takes|
  {
    if takes != [] {
      NegatedCost(bids, takes[..|takes| - 1]);
    }
  }

  lemma LargerOfTwo(a: real, b: real, n: real, gross: real)
    requires 0.0 <= n
    ensures -gross <= -Max(a, b) * n <==> a * n <= gross && b * n <= gross
  {
    if a > b {
      ProductNonNegative(a - b, n);
      assert (a - b) * n == a * n - b * n;
      assert -a * n == -(a * n);
    } else {
      ProductNonNegative(b - a, n);
      assert (b - a) * n == b * n - a * n;
      assert -b * n == -(b * n);
    }
  }

  lemma FloorInMicro(limit: int, n: real, gross: real)
    ensures FromMicro(limit) * n <= gross <==> limit as real * n <= 1_000_000.0 * gross
  {
    var unit := FromMicro(limit);
    assert 1_000_000.0 * unit == limit as real;
    assert 1_000_000.0 * (unit * n) == limit as real * n;
  }

  lemma NegatedSizes(bids: seq<Level>, takes: seq<int>)
    ensures WithinSizes(Negated(bids), takes) <==> WithinSizes(bids, takes)
  {}

  /** The caps of a sale admit exactly the allocations the order may take. */
  lemma SellCapsMean(intent: OrderIntent, book: Book, policy: CostPolicy, takes: seq<int>)
    requires book.Valid() && policy.Valid()
    ensures Feasible(Negated(book.bids), SellCaps(intent, book, policy), takes)
            <==> SellAllocation(intent, book, policy, takes)
  {
    hide Shares, Cost, FromMicro, Max;
    NegatedSizes(book.bids, takes);
    if WithinSizes(book.bids, takes) {
      SharesNonNegative(book.bids, takes);
      NegatedCost(book.bids, takes);
      var gross, n, best := Cost(book.bids, takes), Shares(takes) as real, book.bids[0].price;
      LargerOfTwo(FromMicro(intent.limitPrice), best - policy.maximumAverageSlippage, n, gross);
      FloorInMicro(intent.limitPrice, n, gross);
    }
  }

  /** The better levels are emptied first, and nothing the order may take fills
      more, unless the walk ended in the fraction of a level. */
  ghost predicate BestBuy(intent: OrderIntent, book: Book, policy: CostPolicy, fills: seq<FillLevel>)
    requires book.Valid()
  {
    var takes := Quantities(fills);
    && BuyAllocation(intent, book, policy, takes)
    && (forall i :: 0 <= i < |takes| - 1 ==> takes[i] as real == book.asks[i].size)
    && ((exists k :: 0 <= k < |book.asks| && StopsInFraction(book.asks, takes, k))
        || forall x :: BuyAllocation(intent, book, policy, x) ==> Shares(x) <= Shares(takes))
  }

  ghost predicate BestSell(intent: OrderIntent, book: Book, policy: CostPolicy, fills: seq<FillLevel>)
    requires book.Valid()
  {
    var takes := Quantities(fills);
    && SellAllocation(intent, book, policy, takes)
    && (forall i :: 0 <= i < |takes| - 1 ==> takes[i] as real == book.bids[i].size)
    && ((exists k :: 0 <= k < |book.bids| && StopsInFraction(book.bids, takes, k))
        || forall x :: SellAllocation(intent, book, policy, x) ==> Shares(x) <= Shares(takes))
  }

  lemma WalkEndsWell(levels: seq<Level>, caps: Caps, fills: seq<FillLevel>)
    requires Ascending(levels) && Walked(levels, caps, fills)
    requires caps.hasSpend ==> forall i :: 0 <= i < |levels| ==> 0.0 < levels[i].price
    ensures (exists k :: 0 <= k < |levels| && StopsInFraction(levels, Quantities(fills), k))
            || forall x :: Feasible(levels, caps, x) ==> Shares(x) <= Shares(Quantities(fills))
  {
    hide Shares, Cost, Feasible, NoRoomAt, StopsInFraction;
    var takes := Quantities(fills);
    var k :| 0 <= k <= |levels| && (StopsAt(levels, caps, takes, k) || StopsInFraction(levels, takes, k));
    if StopsAt(levels, caps, takes, k) {
      forall x | Feasible(levels, caps, x) ensures Shares(x) <= Shares(takes) {
        GreedyIsMaximal(levels, caps, takes, k, x);
      }
    } else {
      FractionIsWithin(levels, takes, k);
    }
  }

  lemma FractionIsWithin(levels: seq<Level>, takes: seq<int>, k: nat)
    requires StopsInFraction(levels, takes, k)
    ensures k < |levels|
  {}

  lemma WalkIsBestBuy(intent: OrderIntent, book: Book, policy: CostPolicy, fills: seq<FillLevel>)
    requires book.Valid() && policy.Valid() && Walked(book.asks, BuyCaps(intent, book, policy), fills)
    ensures BestBuy(intent, book, policy, fills)
  {
    hide BuyCaps, BuyAllocation, Feasible, Shares, Cost, StopsAt, StopsInFraction;
    var caps := BuyCaps(intent, book, policy);
    WalkEndsWell(book.asks, caps, fills);
    BuyCapsMean(intent, book, policy, Quantities(fills));
    forall x ensures BuyAllocation(intent, book, policy, x) <==> Feasible(book.asks, caps, x) {
      BuyCapsMean(intent, book, policy, x);
    }
  }

  lemma WalkIsBestSell(intent: OrderIntent, book: Book, policy: CostPolicy, fills: seq<FillLevel>)
    requires book.Valid() && policy.Valid() && Walked(Negated(book.bids), SellCaps(intent, book, policy), fills)
    ensures BestSell(intent, book, policy, fills)
  {
    hide SellCaps, SellAllocation, Feasible, Shares, Cost, StopsAt, StopsInFraction;
    var caps, levels, takes := SellCaps(intent, book, policy), Negated(book.bids), Quantities(fills);
    SalesHaveNoBudget(intent, book, policy);
    WalkEndsWell(levels, caps, fills);
    WalkIsFeasible(levels, caps, fills);
    SellCapsMean(intent, book, policy, takes);
    forall i | 0 <= i < |takes| - 1 ensures takes[i] as real == book.bids[i].size {
      assert levels[i].size == book.bids[i].size;
    }
    forall x ensures SellAllocation(intent, book, policy, x) <==> Feasible(levels, caps, x) {
      SellCapsMean(intent, book, policy, x);
    }
    forall k | 0 <= k < |levels| && StopsInFraction(levels, takes, k) ensures StopsInFraction(book.bids, takes, k) {
      SameFraction(book.bids, takes, k);
    }
  }

  lemma SalesHaveNoBudget(intent: OrderIntent, book: Book, policy: CostPolicy)
    requires book.Valid()
    ensures !SellCaps(intent, book, policy).hasSpend
  {}

  lemma SameFraction(bids: seq<Level>, takes: seq<int>, k: nat)
    requires StopsInFraction(Negated(bids), takes, k)
    ensures StopsInFraction(bids, takes, k)
  {}

  // ---- When the walk is maximal ----

  /** A level with a whole micro-share to take, and room for it under the caps. */
  predicate RoomFor(level: Level, caps: Caps, shares: int, cost: real) {
    1.0 <= level.size && !NoRoomAt(caps, shares, cost, level.price)
  }

  /** No level beyond the allocation has room for one more micro-share. */
  predicate NothingLeft(levels: seq<Level>, caps: Caps, takes: seq<int>) {
    && |takes| <= |levels|
    && forall j :: |takes| <= j < |levels| ==> !RoomFor(levels[j], caps, Shares(takes), Cost(levels, takes))
  }

  lemma NoRoomFurther(caps: Caps, shares: int, cost: real, p: real, p': real)
    requires NoRoomAt(caps, shares, cost, p) && p <= p'
    ensures NoRoomAt(caps, shares, cost, p')
  {}

  /** The first level from `n` on with a whole micro-share. */
  function FirstWhole(levels: seq<Level>, n: nat): (j: nat)
    requires n <= |levels|
    ensures n <= j <= |levels|
    ensures forall i :: n <= i < j ==> levels[i].size < 1.0
    ensures j < |levels| ==> 1.0 <= levels[j].size
    decreases |levels| - n
  {
    if n == |levels| || 1.0 <= levels[n].size then n else FirstWhole(levels, n + 1)
  }

  lemma WalkStopsFor(levels: seq<Level>, caps: Caps, fills: seq<FillLevel>) returns (k: nat)
    requires Walked(levels, caps, fills) && NothingLeft(levels, caps, Quantities(fills))
    ensures StopsFor(levels, caps, Quantities(fills), k)
  {
    hide Shares, Cost, NoRoomAt;
    var takes := Quantities(fills);
    k :| 0 <= k <= |levels| && (StopsAt(levels, caps, takes, k) || StopsInFraction(levels, takes, k));
    if !StopsAt(levels, caps, takes, k) {
      k := FirstWhole(levels, |takes|);
    }
  }

  lemma {:induction false} PaddingTakesNothing(levels: seq<Level>, takes: seq<int>, n: nat)
    requires |takes| + n <= |levels|
    ensures var padded := takes + seq(n, _ => 0);
            Shares(padded) == Shares(takes) && Cost(levels, padded) == Cost(levels, takes)
    decreases n
  {
    hide Shares, Cost;
    if n == 0 {
      assert takes + seq(n, _ => 0) == takes;
    } else {
      PaddingTakesNothing(levels, takes, n - 1);
      TakeOneMore(levels, takes + seq(n - 1, _ => 0), 0);
      assert takes + seq(n, _ => 0) == takes + seq(n - 1, _ => 0) + [0];
    }
  }

  /** Where a level has room, one more micro-share fits. */
  lemma OneMoreFits(levels: seq<Level>, caps: Caps, takes: seq<int>, j: nat)
    requires Ascending(levels) && Feasible(levels, caps, takes) && |takes| <= j < |levels|
    requires RoomFor(levels[j], caps, Shares(takes), Cost(levels, takes))
    ensures var x := takes + seq(j - |takes|, _ => 0) + [1];
            Feasible(levels, caps, x) && Shares(x) == Shares(takes) + 1
  {
    hide Shares, Cost;
    var padded := takes + seq(j - |takes|, _ => 0);
    PaddingTakesNothing(levels, takes, j - |takes|);
    TakeOneMore(levels, padded, 1);
    var s, x := Shares(takes), padded + [1];
    assert WithinSizes(levels, x) by {
      assert forall i :: 0 <= i < |takes| ==> x[i] == takes[i];
    }
    assert forall i :: 0 <= i < |x| && 0 < x[i] ==> i == j || (i < |takes| && x[i] == takes[i]);
    assert caps.average * (s + 1) as real == caps.average * s as real + caps.average;
  }

  /** No allocation of whole micro-shares that respects every cap fills strictly
      more than the walk, if and only if no level beyond the walk has room for
      one micro-share. */
  lemma WalkIsMaximal(levels: seq<Level>, caps: Caps, fills: seq<FillLevel>)
    requires Ascending(levels) && Walked(levels, caps, fills)
    requires caps.hasSpend ==> forall i :: 0 <= i < |levels| ==> 0.0 < levels[i].price
    ensures (forall x :: Feasible(levels, caps, x) ==> Shares(x) <= Shares(Quantities(fills)))
            <==> NothingLeft(levels, caps, Quantities(fills))
  {
    hide Shares, Cost, Feasible, Ascending, Walked, StopsFor, RoomFor;
    var takes := Quantities(fills);
    WalkIsFeasible(levels, caps, fills);
    if NothingLeft(levels, caps, takes) {
      var k := WalkStopsFor(levels, caps, fills);
      forall x | Feasible(levels, caps, x) ensures Shares(x) <= Shares(takes) {
        GreedyIsMaximal(levels, caps, takes, k, x);
      }
    } else {
      var j :| |takes| <= j < |levels| && RoomFor(levels[j], caps, Shares(takes), Cost(levels, takes));
      OneMoreFits(levels, caps, takes, j);
    }
  }

  lemma WalkIsFeasible(levels: seq<Level>, caps: Caps, fills: seq<FillLevel>)
    requires Walked(levels, caps, fills)
    ensures |fills| <= |levels| && Feasible(levels, caps, Quantities(fills))
  {}

  predicate Fractional(level: Level) {
    level.size != level.size.Floor as real
  }

  /** After a level of fractional size no level holds a whole micro-share. */
  predicate FractionsLast(levels: seq<Level>) {
    forall i, j :: 0 <= i < j < |levels| && Fractional(levels[i]) ==> levels[j].size < 1.0
  }

  lemma NothingBetween(n: int, m: int)
    ensures !(n as real < m as real < n as real + 1.0)
  {
    if n < m {
      assert (n + 1) as real <= m as real;
    }
  }

  /** On such a book every walk, under any caps, leaves nothing. */
  lemma FractionsLastLeaveNothing(levels: seq<Level>, caps: Caps, fills: seq<FillLevel>)
    requires Ascending(levels) && FractionsLast(levels) && Walked(levels, caps, fills)
    ensures NothingLeft(levels, caps, Quantities(fills))
  {
    hide Shares, Cost, NoRoomAt, Feasible;
    var takes := Quantities(fills);
    var k :| 0 <= k <= |levels|
             && (StopsAt(levels, caps, takes, k) || StopsInFraction(levels, takes, k));
    forall j | |takes| <= j < |levels|
      ensures !RoomFor(levels[j], caps, Shares(takes), Cost(levels, takes))
    {
      if StopsAt(levels, caps, takes, k) {
        NoRoomFurther(caps, Shares(takes), Cost(levels, takes), levels[k].price, levels[j].price);
      } else {
        NothingBetween(if |takes| == k then 0 else takes[k], levels[k].size.Floor);
      }
    }
  }

  // ---- A book that does not put its fractions last ----

  /** Every whole micro-share of the first `n` levels. */
  function FullTakes(levels: seq<Level>, n: nat): (takes: seq<int>)
    requires n <= |levels|
    ensures |takes| == n
  {
    seq(n, i requires 0 <= i < n => levels[i].size.Floor)
  }

  lemma FullTakesFit(levels: seq<Level>, n: nat)
    requires n <= |levels| && forall i :: 0 <= i < n ==> 0.0 < levels[i].size
    ensures WithinSizes(levels, FullTakes(levels, n))
  {}

  lemma WithinFullTakes(levels: seq<Level>, takes: seq<int>)
    requires Ascending(levels) && WithinSizes(levels, takes)
    ensures 0 <= Shares(takes) <= Shares(FullTakes(levels, |levels|))
  {
    SharesNonNegative(levels, takes);
    FullTakesCover(levels, takes, |levels|);
  }

  lemma WholeBelow(n: int, size: real)
    requires n as real <= size
    ensures n <= size.Floor
  {}

  lemma {:induction false} CostAtMostShares(levels: seq<Level>, takes: seq<int>)
    requires WithinSizes(levels, takes) && forall i :: 0 <= i < |levels| ==> levels[i].price < 1.0
    ensures Cost(levels, takes) <= Shares(takes) as real
    decreases |takes|
  {
    if takes != [] {
      var n := |takes| - 1;
      CostAtMostShares(levels, takes[..n]);
      ProductNonNegative(takes[n] as real, 1.0 - levels[n].price);
    }
  }

  /** An order for one micro-share more than a book offers, at any price. */
  function EagerIntent(book: Book): OrderIntent
    requires book.Valid()
  {
    WithinFullTakes(book.asks, []);
    OrderIntent("-", "-", "-", "-", "-", Buy, Shares(FullTakes(book.asks, |book.asks|)) + 1, 1_000_000, 2, 0)
  }

  const EAGER_POLICY := CostPolicy(0.0, 0.0, 1.0, 1.0)

  lemma EagerCaps(book: Book, takes: seq<int>, p: real)
    requires book.Valid() && WithinSizes(book.asks, takes) && 0.0 < p < 1.0
    ensures var caps := BuyCaps(EagerIntent(book), book, EAGER_POLICY);
            && Feasible(book.asks, caps, takes)
            && !NoRoomAt(caps, Shares(takes), Cost(book.asks, takes), p)
  {
    hide Shares, Cost, FullTakes, MoneyFromUnitPrice;
    var caps, q := BuyCaps(EagerIntent(book), book, EAGER_POLICY), EagerIntent(book).quantity;
    WithinFullTakes(book.asks, takes);
    CostAtMostShares(book.asks, takes);
    WholeValue(q);
    assert caps.average == 1.0 && caps.spend == (q + 1) as real;
    assert caps.average * Shares(takes) as real == Shares(takes) as real;
  }

  lemma WholeValue(q: int)
    ensures MoneyFromUnitPrice(1_000_000, q) == q
  {
    assert 1_000_000 * q == q * 1_000_000;
    RoundingWholeIsExact(q, 1_000_000);
  }

  /** The fills of a walk that ends in the fraction of level `k`. */
  function EagerFills(levels: seq<Level>, k: nat): (fills: seq<FillLevel>)
    requires k < |levels| && forall i :: 0 <= i <= k ==> 0.0 < levels[i].size
    requires forall i :: 0 <= i < k ==> !Fractional(levels[i])
  {
    var n := if levels[k].size < 1.0 then k else k + 1;
    seq(n, i requires 0 <= i < n => FillLevel(1, WholePart(levels[i])))
  }

  function WholePart(level: Level): Quantity
    requires 0.0 < level.size && (!Fractional(level) || 1.0 <= level.size)
  {
    level.size.Floor
  }

  lemma EagerWalk(book: Book, k: nat)
    requires book.Valid() && k < |book.asks| && Fractional(book.asks[k])
    requires forall i :: 0 <= i < k ==> !Fractional(book.asks[i])
    ensures Walked(book.asks, BuyCaps(EagerIntent(book), book, EAGER_POLICY), EagerFills(book.asks, k))
  {
    hide Shares, Cost, BuyCaps, NoRoomAt, Feasible;
    var takes := Quantities(EagerFills(book.asks, k));
    EagerCaps(book, takes, book.asks[0].price);
    assert StopsInFraction(book.asks, takes, k);
  }

  function FirstFractional(levels: seq<Level>, n: nat): (k: nat)
    requires n < |levels| && exists i :: n <= i < |levels| && Fractional(levels[i])
    ensures n <= k < |levels| && Fractional(levels[k])
    ensures forall i :: n <= i < k ==> !Fractional(levels[i])
    decreases |levels| - n
  {
    if Fractional(levels[n]) then n else FirstFractional(levels, n + 1)
  }

  /** Whatever is ordered, and under whatever policy, the walk over the asks is maximal. */
  ghost predicate AlwaysMaximal(book: Book)
    requires book.Valid()
  {
    forall intent: OrderIntent, policy: CostPolicy, fills ::
      policy.Valid() && Walked(book.asks, BuyCaps(intent, book, policy), fills) ==>
        NothingLeft(book.asks, BuyCaps(intent, book, policy), Quantities(fills))
  }

  /** Every walk over the asks of a book is maximal if and only if no level of
      fractional size is followed by one that holds a whole micro-share. */
  lemma MaximalForEveryOrder(book: Book)
    requires book.Valid()
    ensures AlwaysMaximal(book) <==> FractionsLast(book.asks)
  {
    hide BuyCaps, Walked, Ascending, NothingLeft, NoRoomAt, EagerFills;
    var asks := book.asks;
    SizesPositive(asks);
    if FractionsLast(asks) {
      forall intent: OrderIntent, policy: CostPolicy, fills |
        policy.Valid() && Walked(asks, BuyCaps(intent, book, policy), fills)
        ensures NothingLeft(asks, BuyCaps(intent, book, policy), Quantities(fills))
      {
        FractionsLastLeaveNothing(asks, BuyCaps(intent, book, policy), fills);
      }
    } else {
      var i, j :| 0 <= i < j < |asks| && Fractional(asks[i]) && !(asks[j].size < 1.0);
      var k := FirstFractional(asks, 0);
      EagerWalk(book, k);
      EagerWalkLeaves(book, k, j);
    }
  }

  lemma EagerWalkLeaves(book: Book, k: nat, j: nat)
    requires book.Valid() && k < j < |book.asks| && 1.0 <= book.asks[j].size
    requires forall i :: 0 <= i < k ==> !Fractional(book.asks[i])
    requires Fractional(book.asks[k])
    ensures !NothingLeft(book.asks, BuyCaps(EagerIntent(book), book, EAGER_POLICY), Quantities(EagerFills(book.asks, k)))
  {
    hide Shares, Cost, BuyCaps, NoRoomAt, Feasible;
    var takes := Quantities(EagerFills(book.asks, k));
    EagerCaps(book, takes, book.asks[j].price);
    assert RoomFor(book.asks[j], BuyCaps(EagerIntent(book), book, EAGER_POLICY), Shares(takes), Cost(book.asks, takes));
  }

  /** A fractional size ends the walk: after the one whole micro-share of the
      best ask it leaves the second ask untouched, and three more would fit. */
  lemma FractionsEndTheWalk(intent: OrderIntent)
    requires intent.side == Buy && intent.quantity == 4
    requires intent.limitPrice == 750_000 && intent.feeReserve == 100
    ensures var book := Book([Level(0.125, 1.0)], [Level(0.25, 1.5), Level(0.5, 4.0)], 1.0, 0);
            var policy := CostPolicy(0.0, 0.0, 0.5, 0.5);
            var fills := [FillLevel(250_000, 1)];
            && book.Valid() && policy.Valid()
            && Walked(book.asks, BuyCaps(intent, book, policy), fills)
            && PricedInMicro(book.asks, fills)
            && Feasible(book.asks, BuyCaps(intent, book, policy), [1, 3])
            && Shares(Quantities(fills)) < Shares([1, 3])
  {
    hide BuyCaps;
    var book := Book([Level(0.125, 1.0)], [Level(0.25, 1.5), Level(0.5, 4.0)], 1.0, 0);
    var policy := CostPolicy(0.0, 0.0, 0.5, 0.5);
    var fills, x := [FillLevel(250_000, 1)], [1, 3];
    var caps := BuyCaps(intent, book, policy);
    CapsOfFour(intent, book, policy);
    assert x[..1] == [1] && [1][..0] == [];
    assert Quantities(fills) == [1];
    assert Shares([1]) == 1 && Cost(book.asks, [1]) == 0.25;
    assert Shares(x) == 4 && Cost(book.asks, x) == 1.75;
    assert StopsInFraction(book.asks, [1], 0);
    assert Feasible(book.asks, caps, x) && Walked(book.asks, caps, fills);
  }

  lemma CapsOfFour(intent: OrderIntent, book: Book, policy: CostPolicy)
    requires intent.side == Buy && intent.quantity == 4
    requires intent.limitPrice == 750_000 && intent.feeReserve == 100
    requires book.Valid() && book.asks[0].price == 0.25 && policy == CostPolicy(0.0, 0.0, 0.5, 0.5)
    ensures BuyCaps(intent, book, policy) == Caps(4, 0.75, 0.75, true, 102.0)
  {
    assert MoneyFromUnitPrice(750_000, 4) == 3;
  }
}
