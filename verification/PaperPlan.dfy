/** From a depth walk to one immutable execution plan. */
module PaperPlan {
  import opened Rounding
  import opened Model
  import opened DepthWalk
  import opened OrderBook
  import opened PaperDepth

  datatype PlanStatus = FullFill | PartialFill | Refused

  /** Why a plan refuses the order, or what it did with it. */
  datatype PlanReason =
    | QuantityBelowMinimum | DepthBelowMinimum | AverageBeyondLimit
    | BeyondReservation | FeeBeyondProceeds | FilledInFull | RemainderCancelled

  datatype Plan = Plan(
    intentId: IntentId,
    status: PlanStatus,
    backendOrderId: Identifier,
    submittedAt: Timestamp,
    requestedQuantity: Quantity,
    filledQuantity: int,
    averagePrice: Option<Price>,
    worstPrice: Option<Price>,
    grossValue: int,
    fee: int,
    levels: seq<FillLevel>,
    reason: PlanReason)
  {
    /** What the constructor checks. */
    predicate Valid() {
      && 0 <= filledQuantity <= requestedQuantity
      && 0 <= grossValue && 0 <= fee
      && TotalFilled(levels) == filledQuantity
      && (if status == Refused then
            && filledQuantity == 0 && levels == []
            && averagePrice.None? && worstPrice.None?
            && grossValue == 0 && fee == 0
          else
            && 0 < filledQuantity && levels != []
            && averagePrice.Some? && worstPrice.Some?
            && 0 < grossValue
            && (status == FullFill <==> filledQuantity == requestedQuantity))
    }
  }

  function TotalFilled(fills: seq<FillLevel>): int {
    Shares(Quantities(fills))
  }

  /** The sum of quantity times price over the fills. */
  function Weighted(fills: seq<FillLevel>): int {
    if fills == [] then 0
    else
      var last := fills[|fills| - 1];
      Weighted(fills[..|fills| - 1]) + last.quantity * last.price
  }

  function Average(fills: seq<FillLevel>): int
    requires 0 < TotalFilled(fills)
  {
    RoundHalfEven(Weighted(fills), TotalFilled(fills))
  }

  /** A share of an amount, rounded to a whole number of micro-units. */
  function Portion(amount: real, rate: real): int {
    NearestWhole(amount * rate)
  }

  function FeeOf(gross: int, policy: CostPolicy): int {
    Portion(gross as real, policy.platformFeeRate) + NearestWhole(policy.transactionCost)
  }

  function RefusePlan(intent: OrderIntent, submittedAt: Timestamp, reason: PlanReason): Plan {
    Plan(intent.intentId, Refused, PaperId(OrderTag, intent.intentId), submittedAt,
         intent.quantity, 0, None, None, 0, 0, [], reason)
  }

  /** The result of building a plan; the last two are exceptions of the source. */
  datatype BuildResult = Built(plan: Plan) | StaleBook | Unrepresentable

  predicate Fresh(book: Book, now: Timestamp, maximumAge: int) {
    0 < maximumAge && -5_000_000 <= now - book.observedAt <= maximumAge
  }

  /** The plan a walk's fills lead to (`build_paper_execution_plan` past the walk). */
  function PlanFrom(
    intent: OrderIntent, book: Book, policy: CostPolicy, now: Timestamp, fills: seq<FillLevel>)
    : BuildResult
    requires 0.0 < book.minimumOrderSize
  {
    var filled := TotalFilled(fills);
    if filled as real < book.minimumOrderSize then
      Built(RefusePlan(intent, now, DepthBelowMinimum))
    else
      AveragesWithinUnit(fills);
      PlanAtAverage(intent, policy, now, fills, Average(fills))
  }

  function PlanAtAverage(
    intent: OrderIntent, policy: CostPolicy, now: Timestamp, fills: seq<FillLevel>, average: Price)
    : BuildResult
    requires fills != []
  {
    var filled := TotalFilled(fills);
    var gross := MoneyFromUnitPrice(average, filled);
    var fee := FeeOf(gross, policy);
    if intent.side == Buy && intent.limitPrice < average then
      Built(RefusePlan(intent, now, AverageBeyondLimit))
    else if intent.side == Sell && average < intent.limitPrice then
      Built(RefusePlan(intent, now, AverageBeyondLimit))
    else if intent.side == Buy && intent.CashReservation() < gross + fee then
      Built(RefusePlan(intent, now, BeyondReservation))
    else if intent.side == Sell && gross < fee then
      Built(RefusePlan(intent, now, FeeBeyondProceeds))
    else
      var full := filled == intent.quantity;
      var plan := Plan(
        intent.intentId, if full then FullFill else PartialFill,
        PaperId(OrderTag, intent.intentId), now, intent.quantity, filled,
        Some(average), Some(fills[|fills| - 1].price), gross, fee, fills,
        if full then FilledInFull else RemainderCancelled);
      if plan.Valid() then Built(plan) else Unrepresentable
  }

  // ---- Averages ----

  lemma {:induction false} WeightedBounds(fills: seq<FillLevel>)
    ensures TotalFilled(fills) <= Weighted(fills) <= 1_000_000 * TotalFilled(fills)
    ensures fills != [] ==> 0 < TotalFilled(fills)
    decreases |fills|
  {
    if fills != [] {
      var prefix, last := fills[..|fills| - 1], fills[|fills| - 1];
      WeightedBounds(prefix);
      assert fills == prefix + [last];
      QuantitiesGrow(prefix, last);
      assert Quantities(fills)[..|prefix|] == Quantities(prefix);
      ProductGrows(1, last.price, last.quantity);
      ProductGrows(last.price, 1_000_000, last.quantity);
    }
  }

  /** An average of prices is a price. */
  lemma AveragesWithinUnit(fills: seq<FillLevel>)
    requires 0 < TotalFilled(fills)
    ensures fills != [] && 0 < Average(fills) <= 1_000_000
  {
    hide RoundHalfEven;
    WeightedBounds(fills);
    var n := TotalFilled(fills);
    RoundingIsMonotone(1 * n, Weighted(fills), n);
    RoundingIsMonotone(Weighted(fills), 1_000_000 * n, n);
    RoundingWholeIsExact(1, n);
    RoundingWholeIsExact(1_000_000, n);
    assert Quantities([]) == [];
  }

  // ---- Building a plan ----

  /** What a plan owes to the intent it executes. */
  predicate Fits(intent: OrderIntent, plan: Plan) {
    && plan.Valid()
    && plan.intentId == intent.intentId
    && plan.requestedQuantity == intent.quantity
    && (plan.status != Refused ==>
          && var average := plan.averagePrice.value;
          && plan.grossValue == MoneyFromUnitPrice(average, plan.filledQuantity)
          && (if intent.side == Buy
              then average <= intent.limitPrice
                   && plan.grossValue + plan.fee <= intent.CashReservation()
              else intent.limitPrice <= average && plan.fee <= plan.grossValue))
  }

  lemma PlansFit(
    intent: OrderIntent, book: Book, policy: CostPolicy, now: Timestamp, fills: seq<FillLevel>)
    requires 0.0 < book.minimumOrderSize
    requires PlanFrom(intent, book, policy, now, fills).Built?
    ensures var plan := PlanFrom(intent, book, policy, now, fills).plan;
            Fits(intent, plan) && plan.submittedAt == now
  {
    hide MoneyFromUnitPrice, Average, FeeOf, Shares;
    assert Quantities([]) == [];
    ShareOfNothing();
    if book.minimumOrderSize <= TotalFilled(fills) as real {
      AveragesWithinUnit(fills);
    }
  }

  lemma ShareOfNothing()
    ensures Shares([]) == 0
  {}

  /** The levels a walk for this intent runs over, and its caps. */
  function SideLevels(intent: OrderIntent, book: Book): seq<Level> {
    if intent.side == Buy then book.asks else Negated(book.bids)
  }

  function SideCaps(intent: OrderIntent, book: Book, policy: CostPolicy): Caps
    requires book.Valid() && policy.Valid()
  {
    if intent.side == Buy then BuyCaps(intent, book, policy) else SellCaps(intent, book, policy)
  }

  function SideBook(intent: OrderIntent, book: Book): seq<Level> {
    if intent.side == Buy then book.asks else book.bids
  }

  predicate FollowsWalk(
    intent: OrderIntent, book: Book, policy: CostPolicy, now: Timestamp,
    walk: seq<FillLevel>, r: BuildResult)
    requires book.Valid() && policy.Valid()
  {
    && r == PlanFrom(intent, book, policy, now, walk)
    && Walked(SideLevels(intent, book), SideCaps(intent, book, policy), walk)
    && PricedInMicro(SideBook(intent, book), walk)
  }

  // ---- What a plan says of its walk ----

  /** The rated and the flat part of a fee, each rounded to whole micro-units. */
  predicate FeeParts(gross: int, policy: CostPolicy, rated: int, flat: int) {
    RoundsTo(gross as real * policy.platformFeeRate, rated) && RoundsTo(policy.transactionCost, flat)
  }

  ghost predicate Charges(gross: int, policy: CostPolicy, fee: int) {
    exists rated, flat :: FeeParts(gross, policy, rated, flat) && fee == rated + flat
  }

  /** A plan that books the whole walk, at its average price, charged as the policy says. */
  ghost predicate BooksWalk(
    intent: OrderIntent, policy: CostPolicy, now: Timestamp, walk: seq<FillLevel>, plan: Plan)
  {
    && plan.intentId == intent.intentId && plan.requestedQuantity == intent.quantity && plan.submittedAt == now
    && plan.backendOrderId == PaperId(OrderTag, intent.intentId)
    && walk != [] && plan.levels == walk
    && plan.filledQuantity == TotalFilled(walk) && 0 < TotalFilled(walk)
    && plan.worstPrice == Some(walk[|walk| - 1].price)
    && plan.averagePrice.Some? && Nearest(Weighted(walk), TotalFilled(walk), plan.averagePrice.value)
    && Nearest(plan.averagePrice.value * TotalFilled(walk), 1_000_000, plan.grossValue)
    && Charges(plan.grossValue, policy, plan.fee)
    && (if TotalFilled(walk) == intent.quantity then plan.status == FullFill && plan.reason == FilledInFull
        else plan.status == PartialFill && plan.reason == RemainderCancelled)
  }

  lemma PortionRounds(amount: real, rate: real, r: int)
    ensures RoundsTo(amount * rate, r) <==> r == Portion(amount, rate)
  {
    var x := amount * rate;
    if RoundsTo(x, r) {
      NearestWholeIsUnique(x, r);
    }
  }

  lemma PartsAre(gross: int, policy: CostPolicy, rated: int, flat: int)
    ensures FeeParts(gross, policy, rated, flat)
            <==> rated == Portion(gross as real, policy.platformFeeRate) && flat == NearestWhole(policy.transactionCost)
  {
    hide Portion, NearestWhole;
    PortionRounds(gross as real, policy.platformFeeRate, rated);
    if RoundsTo(policy.transactionCost, flat) {
      NearestWholeIsUnique(policy.transactionCost, flat);
    }
  }

  lemma ChargesAreFee(gross: int, policy: CostPolicy, fee: int)
    ensures Charges(gross, policy, fee) <==> fee == FeeOf(gross, policy)
  {
    hide NearestWhole, Portion, FeeParts;
    PartsAre(gross, policy, Portion(gross as real, policy.platformFeeRate), NearestWhole(policy.transactionCost));
    forall a, b | FeeParts(gross, policy, a, b) ensures a + b == FeeOf(gross, policy) {
      PartsAre(gross, policy, a, b);
    }
  }

  /** What becomes of every walk the market admits, given what its average, gross
      value and fee round to: each refusal under its exact condition, and
      otherwise a plan that books the walk. */
  lemma PlanFollowsWalk(
    intent: OrderIntent, book: Book, policy: CostPolicy, now: Timestamp, walk: seq<FillLevel>,
    average: int, gross: int, fee: int)
    requires 0.0 < book.minimumOrderSize && TotalFilled(walk) <= intent.quantity
    requires 0 < TotalFilled(walk) ==>
               && Nearest(Weighted(walk), TotalFilled(walk), average)
               && Nearest(average * TotalFilled(walk), 1_000_000, gross)
               && Charges(gross, policy, fee)
    ensures var r := PlanFrom(intent, book, policy, now, walk);
            if TotalFilled(walk) as real < book.minimumOrderSize then
              r == Built(RefusePlan(intent, now, DepthBelowMinimum))
            else if PastLimit(intent, average) then
              r == Built(RefusePlan(intent, now, AverageBeyondLimit))
            else if intent.side == Buy
                    && MoneyFromUnitPrice(intent.limitPrice, intent.quantity) + intent.feeReserve < gross + fee then
              r == Built(RefusePlan(intent, now, BeyondReservation))
            else if intent.side == Sell && gross < fee then
              r == Built(RefusePlan(intent, now, FeeBeyondProceeds))
            else if gross == 0 || fee < 0 then r == Unrepresentable
            else
              && r.Built? && BooksWalk(intent, policy, now, walk, r.plan)
              && r.plan.averagePrice == Some(average) && r.plan.grossValue == gross && r.plan.fee == fee
  {
    hide MoneyFromUnitPrice, FeeOf, Nearest, Charges, TotalFilled, RoundHalfEven, Average, PlanAtAverage, PastLimit;
    if book.minimumOrderSize <= TotalFilled(walk) as real {
      AveragesWithinUnit(walk);
      RoundingIsUnique(Weighted(walk), TotalFilled(walk), average);
      RoundingIsUnique(average * TotalFilled(walk), 1_000_000, gross);
      AverageIs(walk);
      MoneyIs(average, TotalFilled(walk));
      ChargesAreFee(gross, policy, fee);
      AtAverage(intent, policy, now, walk, average);
    }
  }

  lemma AtAverage(intent: OrderIntent, policy: CostPolicy, now: Timestamp, walk: seq<FillLevel>, average: Price)
    requires walk != [] && 0 < TotalFilled(walk) <= intent.quantity
    ensures var r := PlanAtAverage(intent, policy, now, walk, average);
            var gross := MoneyFromUnitPrice(average, TotalFilled(walk));
            var fee := FeeOf(gross, policy);
            if PastLimit(intent, average) then r == Built(RefusePlan(intent, now, AverageBeyondLimit))
            else if intent.side == Buy
                    && MoneyFromUnitPrice(intent.limitPrice, intent.quantity) + intent.feeReserve < gross + fee then
              r == Built(RefusePlan(intent, now, BeyondReservation))
            else if intent.side == Sell && gross < fee then
              r == Built(RefusePlan(intent, now, FeeBeyondProceeds))
            else if gross == 0 || fee < 0 then r == Unrepresentable
            else
              && r.Built? && r.plan.averagePrice == Some(average) && r.plan.grossValue == gross && r.plan.fee == fee
              && r.plan.intentId == intent.intentId && r.plan.requestedQuantity == intent.quantity
              && r.plan.backendOrderId == PaperId(OrderTag, intent.intentId)
              && r.plan.submittedAt == now && r.plan.levels == walk && r.plan.filledQuantity == TotalFilled(walk)
              && r.plan.worstPrice == Some(walk[|walk| - 1].price)
              && (if TotalFilled(walk) == intent.quantity then r.plan.status == FullFill && r.plan.reason == FilledInFull
                  else r.plan.status == PartialFill && r.plan.reason == RemainderCancelled)
  {
    hide MoneyFromUnitPrice, FeeOf, TotalFilled;
  }

  lemma MoneyIs(price: int, quantity: int)
    ensures MoneyFromUnitPrice(price, quantity) == RoundHalfEven(price * quantity, 1_000_000)
  {}

  /** The fee before rounding. */
  function ExactFee(gross: int, policy: CostPolicy): real {
    gross as real * policy.platformFeeRate + policy.transactionCost
  }

  lemma ChargeIsNear(gross: int, policy: CostPolicy, fee: int)
    requires Charges(gross, policy, fee)
    ensures -1.0 <= fee as real - ExactFee(gross, policy) <= 1.0
  {
    var rated, flat :| FeeParts(gross, policy, rated, flat) && fee == rated + flat;
  }

  /** A plan that books its walk records a gross value near the exact cost of the
      levels, and a fee within a micro-unit of what the rates make of it. */
  lemma BookedNearCost(
    intent: OrderIntent, policy: CostPolicy, now: Timestamp, levels: seq<Level>, walk: seq<FillLevel>, plan: Plan)
    requires BooksWalk(intent, policy, now, walk, plan) && PricedInMicro(levels, walk)
    ensures var off := 2.0 * 1_000_000.0 * (plan.grossValue as real - Cost(levels, Quantities(walk)));
            var shares := TotalFilled(walk) as real;
            && -2.0 * shares - 1_000_000.0 <= off <= 2.0 * shares + 1_000_000.0
            && (WholePrices(levels) ==> -shares - 1_000_000.0 <= off <= shares + 1_000_000.0)
    ensures -1.0 <= plan.fee as real - ExactFee(plan.grossValue, policy) <= 1.0
  {
    hide MoneyFromUnitPrice, Weighted, TotalFilled, Average, Cost, WholePrices, PricedInMicro, Nearest, RoundHalfEven,
         ExactFee, Charges;
    var average := plan.averagePrice.value;
    RoundingIsUnique(Weighted(walk), TotalFilled(walk), average);
    RoundingIsUnique(average * TotalFilled(walk), 1_000_000, plan.grossValue);
    AverageIs(walk);
    MoneyIs(average, TotalFilled(walk));
    GrossTracksCost(levels, walk);
    ChargeIsNear(plan.grossValue, policy, plan.fee);
  }

  /** The walk for this intent comes to take from a level whose price rounds to nothing. */
  predicate NoPrice(intent: OrderIntent, book: Book, policy: CostPolicy)
    requires book.Valid() && policy.Valid()
  {
    Unpriceable(SideBook(intent, book), SideLevels(intent, book), SideCaps(intent, book, policy))
  }

  /** `build_paper_execution_plan`. The ghost result is the walk behind a plan
      for a quantity the market admits. */
  method BuildPlan(
    intent: OrderIntent, book: Book, policy: CostPolicy, now: Timestamp, maximumAge: int)
    returns (r: BuildResult, ghost walk: seq<FillLevel>)
    requires book.Valid() && policy.Valid()
    ensures r == StaleBook <==>
            maximumAge <= 0 || now - book.observedAt < -5_000_000 || maximumAge < now - book.observedAt
    ensures r.Built? ==> Fits(intent, r.plan) && r.plan.submittedAt == now
    ensures Fresh(book, now, maximumAge) && intent.quantity as real < book.minimumOrderSize ==>
              r == Built(RefusePlan(intent, now, QuantityBelowMinimum))
    ensures Fresh(book, now, maximumAge) && book.minimumOrderSize <= intent.quantity as real ==>
              if NoPrice(intent, book, policy) then r == Unrepresentable
              else
                && FollowsWalk(intent, book, policy, now, walk, r)
                && (if intent.side == Buy then BestBuy(intent, book, policy, walk)
                    else BestSell(intent, book, policy, walk))
                && (r.Built? && r.plan.status != Refused ==> BooksWalk(intent, policy, now, walk, r.plan))
  {
    hide Walked, PricedInMicro, PlanFrom, Fits, BuyCaps, SellCaps, ToMicro, Unpriceable, BestBuy, BestSell, BooksWalk;
    walk := [];
    if !Fresh(book, now, maximumAge) {
      return StaleBook, walk;
    }
    if intent.quantity as real < book.minimumOrderSize {
      RefusalFits(intent, now, QuantityBelowMinimum);
      return Built(RefusePlan(intent, now, QuantityBelowMinimum)), walk;
    }
    var fills: Option<seq<FillLevel>>;
    if intent.side == Buy {
      fills := BuyLevels(intent, book, policy);
    } else {
      fills := SellLevels(intent, book, policy);
    }
    if fills.None? {
      return Unrepresentable, walk;
    }
    walk := fills.value;
    r := PlanFrom(intent, book, policy, now, fills.value);
    PlanIsNotStale(intent, book, policy, now, walk);
    if r.Built? {
      PlansFit(intent, book, policy, now, walk);
      BuiltBooks(intent, book, policy, now, walk);
    }
  }

  /** Every plan built from a walk and not refused books it. */
  lemma BuiltBooks(
    intent: OrderIntent, book: Book, policy: CostPolicy, now: Timestamp, walk: seq<FillLevel>)
    requires 0.0 < book.minimumOrderSize && PlanFrom(intent, book, policy, now, walk).Built?
    ensures var plan := PlanFrom(intent, book, policy, now, walk).plan;
            plan.status != Refused ==> BooksWalk(intent, policy, now, walk, plan)
  {
    hide MoneyFromUnitPrice, FeeOf, Charges, TotalFilled, RoundHalfEven, Average, Nearest;
    var plan := PlanFrom(intent, book, policy, now, walk).plan;
    if plan.status != Refused {
      AveragesWithinUnit(walk);
      AverageIs(walk);
      MoneyIs(plan.averagePrice.value, TotalFilled(walk));
      ChargesAreFee(plan.grossValue, policy, plan.fee);
    }
  }

  lemma RefusalFits(intent: OrderIntent, now: Timestamp, reason: PlanReason)
    ensures Fits(intent, RefusePlan(intent, now, reason))
  {
    assert Quantities([]) == [];
  }

  lemma PlanIsNotStale(
    intent: OrderIntent, book: Book, policy: CostPolicy, now: Timestamp, fills: seq<FillLevel>)
    requires 0.0 < book.minimumOrderSize
    ensures PlanFrom(intent, book, policy, now, fills) != StaleBook
  {
    hide MoneyFromUnitPrice, Average, FeeOf;
  }

  // ---- The average against the limit ----

  lemma OneMoreFill(levels: seq<Level>, fills: seq<FillLevel>, fill: FillLevel)
    requires |fills| < |levels|
    ensures TotalFilled(fills + [fill]) == TotalFilled(fills) + fill.quantity
    ensures Weighted(fills + [fill]) == Weighted(fills) + fill.quantity * fill.price
    ensures Cost(levels, Quantities(fills + [fill]))
            == Cost(levels, Quantities(fills)) + fill.quantity as real * levels[|fills|].price
  {
    hide Weighted, Shares, Cost;
    WeightedGrows(fills, fill);
    QuantitiesGrow(fills, fill);
    TakeOneMore(levels, Quantities(fills), fill.quantity);
  }

  lemma WeightedGrows(fills: seq<FillLevel>, fill: FillLevel)
    ensures Weighted(fills + [fill]) == Weighted(fills) + fill.quantity * fill.price
  {
    assert (fills + [fill])[..|fills|] == fills;
  }

  /** How far rounding the prices moved the weighted sum, in micro-units squared. */
  predicate HalfMicroEach(weighted: int, cost: real, filled: int) {
    -(filled as real) <= 2.0 * (weighted as real - 1_000_000.0 * cost) <= filled as real
  }

  lemma HalfMicroMore(
    weighted: int, cost: real, filled: int, q: int, price: int, p: real, weighted': int, cost': real)
    requires HalfMicroEach(weighted, cost, filled) && 0 <= q
    requires -0.5 <= p * 1_000_000.0 - price as real <= 0.5
    requires weighted' == weighted + q * price && cost' == cost + q as real * p
    ensures HalfMicroEach(weighted', cost', filled + q)
  {
    WholeProduct(q, price);
    HalfMicroStep(weighted as real, cost, filled as real, q as real, price as real, p,
                  (q * price) as real, q as real * p);
  }

  lemma WholeProduct(a: int, b: int)
    ensures (a * b) as real == a as real * b as real
  {}

  lemma HalfMicroStep(
    weighted: real, cost: real, filled: real, q: real, price: real, p: real, rounded: real, exact: real)
    requires rounded == q * price && exact == q * p && 0.0 <= q
    requires -filled <= 2.0 * (weighted - 1_000_000.0 * cost) <= filled
    requires -0.5 <= p * 1_000_000.0 - price <= 0.5
    ensures -(filled + q) <= 2.0 * (weighted + rounded - 1_000_000.0 * (cost + exact)) <= filled + q
  {
    var off := p * 1_000_000.0 - price;
    HalfOff(off, q);
    assert q * off == 1_000_000.0 * exact - rounded;
  }

  lemma HalfOff(off: real, q: real)
    requires -0.5 <= off <= 0.5 && 0.0 <= q
    ensures -q <= 2.0 * (q * off) <= q
  {
    ProductNonNegative(q, 0.5 - off);
    ProductNonNegative(q, off + 0.5);
    assert q * (0.5 - off) == 0.5 * q - q * off;
    assert q * (off + 0.5) == q * off + 0.5 * q;
  }

  /** Rounding each price moves the weighted sum by at most half a micro-unit a share. */
  lemma {:induction false} WeightedTracksCost(levels: seq<Level>, fills: seq<FillLevel>)
    requires PricedInMicro(levels, fills)
    ensures HalfMicroEach(Weighted(fills), Cost(levels, Quantities(fills)), TotalFilled(fills))
    decreases |fills|
  {
    hide NearestWhole, HalfMicroEach, Weighted, Cost, TotalFilled;
    if fills == [] {
      NoFills(levels, fills);
    } else {
      var n := |fills| - 1;
      var prefix, last := fills[..n], fills[n];
      assert fills == prefix + [last];
      WeightedTracksCost(levels, prefix);
      OneMoreFill(levels, prefix, last);
      HalfMicroMore(Weighted(prefix), Cost(levels, Quantities(prefix)), TotalFilled(prefix),
                    last.quantity, last.price, levels[n].price,
                    Weighted(fills), Cost(levels, Quantities(fills)));
    }
  }

  lemma NoFills(levels: seq<Level>, fills: seq<FillLevel>)
    requires fills == []
    ensures Weighted(fills) == TotalFilled(fills) == 0 && Cost(levels, Quantities(fills)) == 0.0
    ensures HalfMicroEach(Weighted(fills), Cost(levels, Quantities(fills)), TotalFilled(fills))
  {
    assert Quantities(fills) == [];
  }

  /** Prices that are whole micro-units are not rounded at all. */
  predicate WholePrices(levels: seq<Level>) {
    forall i :: 0 <= i < |levels| ==> levels[i].price * 1_000_000.0 == ToMicro(levels[i].price) as real
  }

  lemma {:induction false} WholePricesTrackExactly(levels: seq<Level>, fills: seq<FillLevel>)
    requires PricedInMicro(levels, fills) && WholePrices(levels)
    ensures Weighted(fills) as real == 1_000_000.0 * Cost(levels, Quantities(fills))
    decreases |fills|
  {
    hide NearestWhole, Weighted, Cost, TotalFilled;
    if fills == [] {
      NoFills(levels, fills);
    } else {
      var n := |fills| - 1;
      var prefix, last := fills[..n], fills[n];
      assert fills == prefix + [last];
      WholePricesTrackExactly(levels, prefix);
      OneMoreFill(levels, prefix, last);
      var q := last.quantity as real;
      assert (last.quantity * last.price) as real == q * (levels[n].price * 1_000_000.0);
    }
  }

  /** What a walk pays, or receives, a share stays on the right side of the limit. */
  lemma WalkRespectsLimit(
    intent: OrderIntent, book: Book, policy: CostPolicy, walk: seq<FillLevel>)
    requires book.Valid() && policy.Valid()
    requires Walked(SideLevels(intent, book), SideCaps(intent, book, policy), walk)
    requires 0 < TotalFilled(walk)
    ensures |walk| <= |SideBook(intent, book)|
    ensures var cost := 1_000_000.0 * Cost(SideBook(intent, book), Quantities(walk));
            var atLimit := intent.limitPrice as real * TotalFilled(walk) as real;
            if intent.side == Buy then cost <= atLimit else atLimit <= cost
  {
    hide Cost, Shares, Walked;
    var levels, caps := SideLevels(intent, book), SideCaps(intent, book, policy);
    WalkKeepsAverage(levels, caps, walk);
    var cost, filled := Cost(levels, Quantities(walk)), TotalFilled(walk) as real;
    var unit := FromMicro(intent.limitPrice);
    if intent.side == Buy {
      LimitTimes(caps.average, unit, filled);
    } else {
      NegatedCost(book.bids, Quantities(walk));
      LimitTimes(unit, -caps.average, filled);
      assert -caps.average * filled == -(caps.average * filled);
    }
    assert 1_000_000.0 * (unit * filled) == intent.limitPrice as real * filled by {
      assert 1_000_000.0 * unit == intent.limitPrice as real;
    }
  }

  lemma WalkKeepsAverage(levels: seq<Level>, caps: Caps, walk: seq<FillLevel>)
    requires Walked(levels, caps, walk)
    ensures |walk| <= |levels|
    ensures Cost(levels, Quantities(walk)) <= caps.average * TotalFilled(walk) as real
  {}

  lemma LimitTimes(a: real, b: real, filled: real)
    requires a <= b && 0.0 <= filled
    ensures a * filled <= b * filled
  {
    ProductNonNegative(b - a, filled);
    assert (b - a) * filled == b * filled - a * filled;
  }

  /** The average is past the limit. */
  predicate PastLimit(intent: OrderIntent, average: int) {
    if intent.side == Buy then intent.limitPrice < average else average < intent.limitPrice
  }

  /** The weighted sum sits exactly half a micro-unit a share past an odd limit. */
  predicate TiesPastOddLimit(intent: OrderIntent, walk: seq<FillLevel>) {
    var twice := if intent.side == Buy then 2 * intent.limitPrice + 1 else 2 * intent.limitPrice - 1;
    intent.limitPrice % 2 == 1 && 2 * Weighted(walk) == twice * TotalFilled(walk)
  }

  /** The average-versus-limit rejections fire exactly on a half-micro tie past
      an odd limit: the walk itself keeps the average, and rounding prices to
      micro-units can push it past the limit only there. */
  lemma AverageRejectionIsATie(
    intent: OrderIntent, book: Book, policy: CostPolicy, walk: seq<FillLevel>)
    requires book.Valid() && policy.Valid()
    requires Walked(SideLevels(intent, book), SideCaps(intent, book, policy), walk)
    requires PricedInMicro(SideBook(intent, book), walk) && 0 < TotalFilled(walk)
    ensures PastLimit(intent, Average(walk)) <==> TiesPastOddLimit(intent, walk)
  {
    hide Walked, PricedInMicro, Cost, TotalFilled, Weighted, Average;
    WalkRespectsLimit(intent, book, policy, walk);
    WeightedTracksCost(SideBook(intent, book), walk);
    var w, n, limit := Weighted(walk), TotalFilled(walk), intent.limitPrice;
    assert (limit * n) as real == limit as real * n as real;
    if intent.side == Buy {
      assert 2 * w <= 2 * (limit * n) + n;
      TieAbove(w, n, limit);
    } else {
      assert 2 * (limit * n) - n <= 2 * w;
      TieBelow(w, n, limit);
    }
    AverageIs(walk);
  }

  lemma AverageIs(walk: seq<FillLevel>)
    requires 0 < TotalFilled(walk)
    ensures Average(walk) == RoundHalfEven(Weighted(walk), TotalFilled(walk))
  {}

  /** `Nearest` with the product named. */
  lemma NearestBounds(w: int, n: int, r: int, rn: int)
    requires 0 < n && Nearest(w, n, r) && rn == r * n
    ensures -n <= 2 * (w - rn) <= n && (2 * (w - rn) in {-n, n} ==> r % 2 == 0)
  {}

  lemma NextProduct(a: int, n: int)
    ensures (a + 1) * n == a * n + n && (a - 1) * n == a * n - n
    ensures (2 * a + 1) * n == 2 * (a * n) + n && (2 * a - 1) * n == 2 * (a * n) - n
  {}

  lemma TieAbove(w: int, n: int, limit: int)
    requires 0 < n && 2 * w <= 2 * (limit * n) + n
    ensures limit < RoundHalfEven(w, n) <==> limit % 2 == 1 && 2 * w == (2 * limit + 1) * n
  {
    hide Nearest, RoundHalfEven;
    var r := RoundHalfEven(w, n);
    var rn, ln, next := r * n, limit * n, (limit + 1) * n;
    NearestBounds(w, n, r, rn);
    NextProduct(limit, n);
    if limit < r {
      ProductGrows(limit + 1, r, n);
      assert next <= rn && rn == next;
      OnlyFactor(r, limit + 1, n);
    } else if limit % 2 == 1 && 2 * w == 2 * ln + n {
      ProductGrows(r, limit, n);
      assert rn <= ln && rn == ln;
      OnlyFactor(r, limit, n);
      assert false;
    }
  }

  lemma TieBelow(w: int, n: int, limit: int)
    requires 0 < n && 2 * (limit * n) - n <= 2 * w
    ensures RoundHalfEven(w, n) < limit <==> limit % 2 == 1 && 2 * w == (2 * limit - 1) * n
  {
    hide Nearest, RoundHalfEven;
    var r := RoundHalfEven(w, n);
    var rn, ln, previous := r * n, limit * n, (limit - 1) * n;
    NearestBounds(w, n, r, rn);
    NextProduct(limit, n);
    if r < limit {
      ProductGrows(r, limit - 1, n);
      assert rn <= previous && rn == previous;
      OnlyFactor(r, limit - 1, n);
    } else if limit % 2 == 1 && 2 * w == 2 * ln - n {
      ProductGrows(limit, r, n);
      assert ln <= rn && rn == ln;
      OnlyFactor(r, limit, n);
      assert false;
    }
  }

  lemma OnlyFactor(a: int, b: int, n: int)
    requires 0 < n && a * n == b * n
    ensures a == b
  {
    assert (a - b) * n == 0;
  }

  /** A walk whose average is rejected: one micro-share at 0.0000015 and three at
      0.0000035, under a limit of three micro-units. Rounded to even, the prices
      become two and four micro-units, and the average becomes four. */
  lemma AverageRejectionHappens(intent: OrderIntent, now: Timestamp)
    requires intent.side == Buy && intent.quantity == 4
    requires intent.limitPrice == 3 && intent.feeReserve == 100
    ensures var book := Book([Level(0.000001, 1.0)], [Level(0.0000015, 1.0), Level(0.0000035, 9.0)], 1.0, now);
            var policy := CostPolicy(0.0, 0.0, 0.5, 0.5);
            var walk := [FillLevel(2, 1), FillLevel(4, 3)];
            && book.Valid() && policy.Valid()
            && Walked(SideLevels(intent, book), SideCaps(intent, book, policy), walk)
            && PricedInMicro(SideBook(intent, book), walk)
            && TotalFilled(walk) == 4 && PastLimit(intent, Average(walk))
            && PlanFrom(intent, book, policy, now, walk) == Built(RefusePlan(intent, now, AverageBeyondLimit))
  {
    hide MoneyFromUnitPrice;
    var book := Book([Level(0.000001, 1.0)], [Level(0.0000015, 1.0), Level(0.0000035, 9.0)], 1.0, now);
    var policy := CostPolicy(0.0, 0.0, 0.5, 0.5);
    var walk := [FillLevel(2, 1), FillLevel(4, 3)];
    var levels, caps, takes := SideLevels(intent, book), SideCaps(intent, book, policy), [1, 3];
    assert FromMicro(3) == 0.000003;
    SmallReservation(intent);
    assert caps == Caps(4, 0.000003, 0.5000015, true, intent.CashReservation() as real - 1.0);
    assert Quantities(walk) == takes && takes[..1] == [1] && [1][..0] == [];
    assert Shares([1]) == 1 && Cost(levels, [1]) == 0.0000015;
    assert Shares(takes) == 4 && Cost(levels, takes) == 0.000012;
    assert Feasible(levels, caps, takes);
    assert StopsAt(levels, caps, takes, 1);
    assert walk[..1] == [FillLevel(2, 1)] && [FillLevel(2, 1)][..0] == [];
    assert Weighted([FillLevel(2, 1)]) == 2 && Weighted(walk) == 14;
    assert RoundHalfEven(14, 4) == 4;
  }

  lemma SmallReservation(intent: OrderIntent)
    requires intent.side == Buy && intent.quantity == 4
    requires intent.limitPrice == 3 && intent.feeReserve == 100
    ensures intent.CashReservation() == 100
  {
    assert MoneyFromUnitPrice(3, 4) == 0;
  }

  /** With prices in whole micro-units the rejections never fire. */
  lemma WholePricesNeverReject(
    intent: OrderIntent, book: Book, policy: CostPolicy, walk: seq<FillLevel>)
    requires book.Valid() && policy.Valid() && WholePrices(SideBook(intent, book))
    requires Walked(SideLevels(intent, book), SideCaps(intent, book, policy), walk)
    requires PricedInMicro(SideBook(intent, book), walk) && 0 < TotalFilled(walk)
    ensures !PastLimit(intent, Average(walk))
  {
    hide Walked, PricedInMicro, Cost, TotalFilled, Weighted, Average, WholePrices;
    WalkRespectsLimit(intent, book, policy, walk);
    WholePricesTrackExactly(SideBook(intent, book), walk);
    AverageRejectionIsATie(intent, book, policy, walk);
    var n, limit := TotalFilled(walk), intent.limitPrice;
    assert (limit * n) as real == limit as real * n as real;
    assert (2 * limit + 1) * n == 2 * (limit * n) + n;
    assert (2 * limit - 1) * n == 2 * (limit * n) - n;
  }

  /** The recorded gross differs from the sum of the level costs by at most half
      a micro-unit a share plus half a micro-unit. */
  lemma GrossTracksLevels(walk: seq<FillLevel>)
    requires 0 < TotalFilled(walk)
    ensures var gross := MoneyFromUnitPrice(Average(walk), TotalFilled(walk));
            var off := 2 * (1_000_000 * gross - Weighted(walk));
            -TotalFilled(walk) - 1_000_000 <= off <= TotalFilled(walk) + 1_000_000
  {
    hide RoundHalfEven, MoneyFromUnitPrice, Weighted, TotalFilled;
  }

  /** Against what the levels exactly cost, the recorded gross is off by at most
      half a micro-unit, plus half a micro-unit a share for rounding the average
      and, where prices are finer than a micro-unit, as much again for rounding
      each price. */
  lemma GrossTracksCost(levels: seq<Level>, walk: seq<FillLevel>)
    requires PricedInMicro(levels, walk) && 0 < TotalFilled(walk)
    ensures var gross := MoneyFromUnitPrice(Average(walk), TotalFilled(walk));
            var off := 2.0 * 1_000_000.0 * (gross as real - Cost(levels, Quantities(walk)));
            var shares := TotalFilled(walk) as real;
            && -2.0 * shares - 1_000_000.0 <= off <= 2.0 * shares + 1_000_000.0
            && (WholePrices(levels) ==> -shares - 1_000_000.0 <= off <= shares + 1_000_000.0)
  {
    hide MoneyFromUnitPrice, Weighted, TotalFilled, Average, Cost, WholePrices, PricedInMicro;
    GrossTracksLevels(walk);
    WeightedTracksCost(levels, walk);
    if WholePrices(levels) {
      WholePricesTrackExactly(levels, walk);
    }
  }
}
