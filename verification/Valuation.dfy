/** Marks at liquidation value, and the status report of a paper account. */
module Valuation {
  import opened Rounding
  import opened MapSums
  import opened Model
  import opened Events
  import opened State
  import opened Reducers
  import opened LedgerRuns
  import opened Conservation
  import opened CostBasis
  import opened LedgerInvariants
  import opened InvariantCheck
  import opened Codec
  import opened DepthWalk
  import opened OrderBook
  import opened PaperDepth
  import opened PaperPlan
  import opened Quotes

  // ---- Liquidation ----

  /** What selling a quantity into the bids brings, before rounding. */
  function Proceeds(book: Book, quantity: real): real {
    WalkCost(book.bids, quantity)
  }

  /** The value of a quantity sold into the bids, net of exit fees. */
  function LiquidationValue(quantity: int, book: Book, policy: CostPolicy): (value: int)
    ensures 0 <= value
  {
    var gross := Proceeds(book, quantity as real);
    if gross <= 0.0 then 0
    else
      var money := NearestWhole(gross);
      var fee := FeeOf(money, policy);
      if money <= fee then 0 else money - fee
  }

  /** `_liquidation_value`. */
  method Liquidate(quantity: int, book: Book, policy: CostPolicy) returns (value: int)
    requires book.Valid()
    ensures value == LiquidationValue(quantity, book, policy)
    ensures policy.Valid() ==>
              forall money, fee :: RoundsTo(Proceeds(book, quantity as real), money) && Charges(money, policy, fee) ==>
                                     value == if money <= fee then 0 else money - fee
  {
    hide WalkCost, FeeOf, Charges;
    if policy.Valid() {
      forall money, fee | RoundsTo(Proceeds(book, quantity as real), money) && Charges(money, policy, fee)
        ensures LiquidationValue(quantity, book, policy) == if money <= fee then 0 else money - fee
      {
        MarkIsNetOfFees(quantity, book, policy, money, fee);
      }
    }
    var bids, remaining, gross := book.bids, quantity as real, 0.0;
    var i := 0;
    assert bids[0..] == bids;
    while i < |bids| && 0.0 < remaining
      invariant 0 <= i <= |bids|
      invariant gross + WalkCost(bids[i..], remaining) == WalkCost(bids, quantity as real)
    {
      var take := Min(remaining, bids[i].size);
      SuffixStep(bids, i);
      OneTake(bids[i..], remaining);
      gross, remaining := gross + take * bids[i].price, remaining - take;
      i := i + 1;
    }
    WalkEnds(bids[i..], remaining);
    if gross <= 0.0 {
      return 0;
    }
    var money := NearestWhole(gross);
    var fee := FeeOf(money, policy);
    return if fee >= money then 0 else money - fee;
  }

  lemma OneTake(levels: seq<Level>, remaining: real)
    requires levels != [] && 0.0 < remaining
    ensures var take := Min(remaining, levels[0].size);
            WalkCost(levels, remaining) == take * levels[0].price + WalkCost(levels[1..], remaining - take)
  {}

  lemma WalkEnds(levels: seq<Level>, remaining: real)
    requires levels == [] || remaining <= 0.0
    ensures WalkCost(levels, remaining) == 0.0
  {}

  lemma {:induction false} NegatedWalk(bids: seq<Level>, shares: real)
    ensures WalkCost(Negated(bids), shares) == -WalkCost(bids, shares)
    decreases |bids|
  {
    if bids != [] && 0.0 < shares {
      assert Negated(bids)[1..] == Negated(bids[1..]);
      NegatedWalk(bids[1..], shares - Min(shares, bids[0].size));
    }
  }

  lemma {:induction false} NegatedSpend(bids: seq<Level>, xs: seq<real>)
    requires |xs| == |bids|
    ensures Spend(Negated(bids), xs) == -Spend(bids, xs)
    decreases |bids|
  {
    if bids != [] {
      assert Negated(bids)[1..] == Negated(bids[1..]);
      NegatedSpend(bids[1..], xs[1..]);
    }
  }

  lemma {:induction false} WalkStopsAtOffer(levels: seq<Level>, shares: real)
    requires PositiveSizes(levels) && Offered(levels) <= shares
    ensures WalkCost(levels, shares) == WalkCost(levels, Offered(levels))
    decreases |levels|
  {
    OfferedNonNegative(levels);
    if levels != [] {
      var rest, s0 := levels[1..], levels[0].size;
      OfferedNonNegative(rest);
      WalkUnfolds(levels, shares);
      WalkUnfolds(levels, Offered(levels));
      WalkStopsAtOffer(rest, shares - s0);
      assert Offered(levels) - s0 == Offered(rest);
    }
  }

  /** No sale of at most the quantity brings more than the liquidation walk. */
  lemma LiquidationIsBest(book: Book, quantity: real, xs: seq<real>, sold: real)
    requires book.Valid() && Allocates(book.bids, xs, sold) && sold <= quantity
    ensures Spend(book.bids, xs) <= Proceeds(book, quantity)
  {
    hide WalkCost, Spend;
    var bids, asks := book.bids, Negated(book.bids);
    AllocationFits(bids, xs, sold);
    BidsAreOrdered(book);
    WalkIsCheapest(asks, xs, sold);
    NegatedSpend(bids, xs);
    NegatedWalk(bids, sold);
    var most := Min(quantity, Offered(bids));
    MoreSharesCostMore(bids, sold, most - sold, 0.0);
    assert sold + (most - sold) == most;
    if Offered(bids) <= quantity {
      WalkStopsAtOffer(bids, quantity);
    }
  }

  lemma BidsAreOrdered(book: Book)
    requires book.Valid()
    ensures PositiveSizes(book.bids) && PositivePrices(book.bids)
    ensures PositiveSizes(Negated(book.bids)) && Sorted(Negated(book.bids))
    ensures NoCheaperThan(book.bids, 0.0)
    ensures forall xs, sold :: Allocates(book.bids, xs, sold) ==> Allocates(Negated(book.bids), xs, sold)
  {
    forall i | 0 <= i < |book.bids| ensures 0.0 < book.bids[i].size {
      assert Negated(book.bids)[i].size == book.bids[i].size;
    }
  }

  /** The proceeds are what some sale of at most the quantity brings. */
  lemma ProceedsAreAttained(book: Book, quantity: real) returns (xs: seq<real>, sold: real)
    requires book.Valid() && 0.0 <= quantity
    ensures Allocates(book.bids, xs, sold) && sold <= quantity
    ensures Spend(book.bids, xs) == Proceeds(book, quantity)
  {
    hide WalkCost, Spend;
    BidsAreOrdered(book);
    OfferedNonNegative(book.bids);
    sold := Min(quantity, Offered(book.bids));
    xs := Greedy(book.bids, sold);
    GreedyAllocates(book.bids, sold);
    if Offered(book.bids) <= quantity {
      WalkStopsAtOffer(book.bids, quantity);
    }
  }

  /** A mark is the rounded proceeds less the charge on them, or nothing where
      the charge consumes them. */
  lemma MarkIsNetOfFees(quantity: int, book: Book, policy: CostPolicy, money: int, fee: int)
    requires book.Valid() && policy.Valid()
    requires RoundsTo(Proceeds(book, quantity as real), money) && Charges(money, policy, fee)
    ensures LiquidationValue(quantity, book, policy) == if money <= fee then 0 else money - fee
  {
    hide NearestWhole, FeeOf, Proceeds, Charges;
    var gross := Proceeds(book, quantity as real);
    ProceedsAreNotNegative(book, quantity as real);
    NearestWholeIsUnique(gross, money);
    ChargesAreFee(money, policy, fee);
    if gross <= 0.0 {
      NothingIsNothing(money, policy, fee);
    }
  }

  lemma {:induction false} WalkCostsNoLess(levels: seq<Level>, shares: real)
    requires PositiveSizes(levels) && PositivePrices(levels)
    ensures 0.0 <= WalkCost(levels, shares)
    decreases |levels|
  {
    if levels != [] && 0.0 < shares {
      var take := Min(shares, levels[0].size);
      WalkCostsNoLess(levels[1..], shares - take);
      ProductNonNegative(take, levels[0].price);
    }
  }

  lemma ProceedsAreNotNegative(book: Book, quantity: real)
    requires book.Valid()
    ensures 0.0 <= Proceeds(book, quantity)
  {
    BidsAreOrdered(book);
    WalkCostsNoLess(book.bids, quantity);
  }

  lemma NothingIsNothing(money: int, policy: CostPolicy, fee: int)
    requires policy.Valid() && RoundsTo(0.0, money) && Charges(money, policy, fee)
    ensures money == 0 <= fee
  {
    var rated, flat :| FeeParts(money, policy, rated, flat) && fee == rated + flat;
    assert money as real * policy.platformFeeRate == 0.0;
  }

  /** The proceeds less the rated and the flat part of the fee, unrounded. */
  function NetProceeds(book: Book, quantity: int, policy: CostPolicy): real {
    Proceeds(book, quantity as real) * (1.0 - policy.platformFeeRate) - policy.transactionCost
  }

  function Rated(amount: real, rate: real): real {
    amount * rate
  }

  /** A mark that is not nothing is within one and a half micro-units, and half a
      micro-unit charged at the fee rate, of the exact net proceeds. */
  lemma MarkIsNearNetProceeds(quantity: int, book: Book, policy: CostPolicy)
    requires book.Valid() && policy.Valid() && 0 < LiquidationValue(quantity, book, policy)
    ensures var off := LiquidationValue(quantity, book, policy) as real - NetProceeds(book, quantity, policy);
            -1.5 - policy.platformFeeRate / 2.0 <= off <= 1.5 + policy.platformFeeRate / 2.0
  {
    hide Proceeds, FeeOf, NearestWhole, Charges, NetProceeds, ExactFee, Rated;
    var gross, rate := Proceeds(book, quantity as real), policy.platformFeeRate;
    var money := NearestWhole(gross);
    var fee := FeeOf(money, policy);
    ChargesAreFee(money, policy, fee);
    ChargeIsNear(money, policy, fee);
    RatedApart(gross, money as real, rate);
    NetIs(book, quantity, policy);
    FeeIs(money, policy);
  }

  lemma NetIs(book: Book, quantity: int, policy: CostPolicy)
    ensures var gross := Proceeds(book, quantity as real);
            NetProceeds(book, quantity, policy)
            == gross - Rated(gross, policy.platformFeeRate) - policy.transactionCost
  {
    hide Proceeds;
  }

  lemma FeeIs(money: int, policy: CostPolicy)
    ensures ExactFee(money, policy) == Rated(money as real, policy.platformFeeRate) + policy.transactionCost
  {}

  lemma RatedApart(gross: real, money: real, rate: real)
    requires -0.5 <= gross - money <= 0.5 && 0.0 <= rate
    ensures -rate / 2.0 <= Rated(money, rate) - Rated(gross, rate) <= rate / 2.0
  {
    ProductNonNegative(gross - money + 0.5, rate);
    ProductNonNegative(money - gross + 0.5, rate);
    assert (gross - money + 0.5) * rate == gross * rate - money * rate + rate / 2.0;
    assert (money - gross + 0.5) * rate == money * rate - gross * rate + rate / 2.0;
  }

  /** Selling a holding in full at the best bid, of a price in whole micro-units,
      brings exactly what the holding was marked at. */
  lemma MarkIsWhatSellingBrings(
    intent: OrderIntent, book: Book, policy: CostPolicy, now: Timestamp, walk: seq<FillLevel>, plan: Plan)
    requires book.Valid() && policy.Valid() && BooksWalk(intent, policy, now, walk, plan)
    requires intent.side == Sell && plan.status == FullFill && plan.fee <= plan.grossValue
    requires |walk| == 1 && intent.quantity as real <= book.bids[0].size
    requires book.bids[0].price * 1_000_000.0 == walk[0].price as real
    ensures LiquidationValue(intent.quantity, book, policy) == plan.grossValue - plan.fee
  {
    hide Charges, FeeOf, NearestWhole, Nearest, BooksWalk, LiquidationValue, Proceeds;
    OneFillBooked(intent, policy, now, walk, plan);
    OneBid(book, intent.quantity, walk[0].price);
    NearestAsReal(walk[0].price * intent.quantity, plan.grossValue, Proceeds(book, intent.quantity as real));
    MarkIsNetOfFees(intent.quantity, book, policy, plan.grossValue, plan.fee);
  }

  lemma OneFillBooked(
    intent: OrderIntent, policy: CostPolicy, now: Timestamp, walk: seq<FillLevel>, plan: Plan)
    requires BooksWalk(intent, policy, now, walk, plan) && plan.status == FullFill && |walk| == 1
    ensures Nearest(walk[0].price * intent.quantity, 1_000_000, plan.grossValue)
    ensures Charges(plan.grossValue, policy, plan.fee)
  {
    hide Charges, Nearest, TotalFilled, Weighted, RoundHalfEven;
    var fill := walk[0];
    assert walk == [fill];
    OneFill(fill);
    assert fill.quantity * fill.price == fill.price * fill.quantity;
    RoundingWholeIsExact(fill.price, fill.quantity);
    RoundingIsUnique(Weighted(walk), TotalFilled(walk), plan.averagePrice.value);
  }

  lemma OneFill(fill: FillLevel)
    ensures TotalFilled([fill]) == fill.quantity && Weighted([fill]) == fill.quantity * fill.price
  {
    NoFills([], []);
    QuantitiesGrow([], fill);
    WeightedGrows([], fill);
    assert [] + [fill] == [fill];
    assert Quantities([fill])[..0] == Quantities([]);
  }

  lemma OneBid(book: Book, quantity: Quantity, price: int)
    requires book.Valid() && quantity as real <= book.bids[0].size
    requires book.bids[0].price * 1_000_000.0 == price as real
    ensures Proceeds(book, quantity as real) * 1_000_000.0 == (price * quantity) as real
  {
    var bid := book.bids[0];
    WalkUnfolds(book.bids, quantity as real);
    NothingCostsNothing(book.bids[1..]);
    assert (price * quantity) as real == price as real * quantity as real;
  }

  lemma NearestAsReal(n: int, r: int, x: real)
    requires Nearest(n, 1_000_000, r) && x * 1_000_000.0 == n as real
    ensures RoundsTo(x, r)
  {}

  // ---- Building a valuation ----

  type Books = map<PositionKey, Book>

  /** The last four are exceptions of the source. */
  datatype ValuationResult =
    | Valued(valuation: PortfolioValuation) | BrokenLedger | MissingBook | StaleMark | MarkFromTheFuture

  function Mark(s: LedgerState, books: Books, policy: CostPolicy, key: PositionKey): PositionValuation
    requires key in s.positions && key in books && 0 < s.positions[key].quantity
  {
    var quantity := s.positions[key].quantity;
    PositionValuation(key, quantity, LiquidationValue(quantity, books[key], policy), books[key].observedAt)
  }

  /** Every open position among the keys has a fresh book. */
  predicate AllMarkable(s: LedgerState, books: Books, now: Timestamp, maximumAge: int, keys: seq<PositionKey>) {
    forall key :: key in keys ==>
                    && key in s.positions
                    && (Held(s.positions[key]) ==> key in books && Fresh(books[key], now, maximumAge))
  }

  predicate Covers(s: LedgerState, books: Books, keys: seq<PositionKey>) {
    forall key :: key in keys ==> key in s.positions && (Held(s.positions[key]) ==> key in books)
  }

  /** The marks of the open positions among the keys, in their order. */
  function Marks(s: LedgerState, books: Books, policy: CostPolicy, keys: seq<PositionKey>): seq<PositionValuation>
    requires Covers(s, books, keys)
  {
    if keys == [] then []
    else
      var prefix, last := keys[..|keys| - 1], keys[|keys| - 1];
      Marks(s, books, policy, prefix)
      + if Held(s.positions[last]) then [Mark(s, books, policy, last)] else []
  }

  predicate NoRepeats(keys: seq<PositionKey>) {
    forall i, j :: 0 <= i < j < |keys| ==> keys[i] != keys[j]
  }

  /** `keys` lists the positions of the ledger once each, in the order in which they are marked. */
  ghost predicate Lists(s: LedgerState, keys: seq<PositionKey>) {
    && NoRepeats(keys)
    && forall key :: key in keys <==> key in s.positions
  }

  /** What a valuation says: the marks, and equity as cash plus their sum. */
  predicate Values(
    s: LedgerState, books: Books, policy: CostPolicy, now: Timestamp, keys: seq<PositionKey>,
    valuation: PortfolioValuation)
  {
    && Covers(s, books, keys)
    && valuation.positions == Marks(s, books, policy, keys)
    && valuation.equity == s.cash + MarkTotal(valuation.positions)
    && valuation.assembledAt == now
  }

  /** One mark for each open position, none for any other. */
  predicate MarksMatch(s: LedgerState, keys: seq<PositionKey>, marks: seq<PositionValuation>)
    requires forall key :: key in keys ==> key in s.positions
  {
    && (forall mark :: mark in marks ==>
                         && mark.key in keys && Held(s.positions[mark.key])
                         && mark.quantity == s.positions[mark.key].quantity)
    && (forall key :: key in keys && Held(s.positions[key]) ==> exists mark :: mark in marks && mark.key == key)
    && (forall i, j :: 0 <= i < j < |marks| ==> marks[i].key != marks[j].key)
  }

  lemma {:induction false} MarksCoverHeld(s: LedgerState, books: Books, policy: CostPolicy, keys: seq<PositionKey>)
    requires NoRepeats(keys) && Covers(s, books, keys)
    ensures MarksMatch(s, keys, Marks(s, books, policy, keys))
    decreases |keys|
  {
    hide LiquidationValue, MarksMatch, NoRepeats;
    if keys == [] {
      NoMarks(s);
    } else {
      var prefix, last := keys[..|keys| - 1], keys[|keys| - 1];
      LastIsNotBefore(keys);
      assert keys == prefix + [last];
      MarksCoverHeld(s, books, policy, prefix);
      var marks := Marks(s, books, policy, prefix);
      if Held(s.positions[last]) {
        OneMoreMark(s, prefix, marks, Mark(s, books, policy, last));
      } else {
        NoMarkNeeded(s, prefix, marks, last);
        assert marks + [] == marks;
      }
    }
  }

  lemma NoMarks(s: LedgerState)
    ensures MarksMatch(s, [], [])
  {}

  lemma LastIsNotBefore(keys: seq<PositionKey>)
    requires NoRepeats(keys) && keys != []
    ensures NoRepeats(keys[..|keys| - 1]) && keys[|keys| - 1] !in keys[..|keys| - 1]
  {}

  lemma NoMarkNeeded(s: LedgerState, keys: seq<PositionKey>, marks: seq<PositionValuation>, key: PositionKey)
    requires forall k :: k in keys + [key] ==> k in s.positions
    requires (forall k :: k in keys ==> k in s.positions) && MarksMatch(s, keys, marks) && !Held(s.positions[key])
    ensures MarksMatch(s, keys + [key], marks)
  {
    forall k | k in keys + [key] && Held(s.positions[k]) ensures exists mark :: mark in marks && mark.key == k {
      assert k in keys;
    }
  }

  lemma OneMoreMark(s: LedgerState, keys: seq<PositionKey>, marks: seq<PositionValuation>, mark: PositionValuation)
    requires forall key :: key in keys + [mark.key] ==> key in s.positions
    requires MarksMatch(s, keys, marks) && mark.key !in keys
    requires Held(s.positions[mark.key]) && mark.quantity == s.positions[mark.key].quantity
    ensures MarksMatch(s, keys + [mark.key], marks + [mark])
  {
    forall key | key in keys + [mark.key] && Held(s.positions[key])
      ensures exists m :: m in marks + [mark] && m.key == key
    {
      if key == mark.key {
        assert mark in marks + [mark];
      } else {
        var m :| m in marks && m.key == key;
        assert m in marks + [mark];
      }
    }
  }

  /** The loop over the positions. */
  method CollectMarks(
    s: LedgerState, books: Books, policy: CostPolicy, now: Timestamp, maximumAge: int, keys: seq<PositionKey>)
    returns (failure: Option<ValuationResult>, marks: seq<PositionValuation>)
    requires forall key :: key in keys ==> key in s.positions
    requires forall key :: key in books ==> books[key].Valid()
    ensures failure in {None, Some(MissingBook), Some(StaleMark)}
    ensures failure.None? <==> AllMarkable(s, books, now, maximumAge, keys)
    ensures failure.None? ==> Covers(s, books, keys) && marks == Marks(s, books, policy, keys)
  {
    hide LiquidationValue, Fresh;
    marks := [];
    for i := 0 to |keys|
      invariant AllMarkable(s, books, now, maximumAge, keys[..i])
      invariant Covers(s, books, keys[..i]) && marks == Marks(s, books, policy, keys[..i])
    {
      var key := keys[i];
      assert keys[..i + 1] == keys[..i] + [key];
      assert keys[..i + 1][..i] == keys[..i];
      if Held(s.positions[key]) {
        if key !in books {
          return Some(MissingBook), [];
        }
        if !Fresh(books[key], now, maximumAge) {
          return Some(StaleMark), [];
        }
        var value := Liquidate(s.positions[key].quantity, books[key], policy);
        marks := marks + [PositionValuation(key, s.positions[key].quantity, value, books[key].observedAt)];
      }
    }
    assert keys[..|keys|] == keys;
    return None, marks;
  }

  method SumMarks(marks: seq<PositionValuation>) returns (total: nat)
    ensures total == MarkTotal(marks)
  {
    total := 0;
    for i := 0 to |marks|
      invariant total == MarkTotal(marks[..i])
    {
      assert marks[..i + 1][..i] == marks[..i];
      total := total + marks[i].liquidationValue;
    }
    assert marks[..|marks|] == marks;
  }

  /** The total is the sum of the marks, however they are split. */
  lemma {:induction false} MarksAddUp(first: seq<PositionValuation>, second: seq<PositionValuation>)
    ensures MarkTotal(first + second) == MarkTotal(first) + MarkTotal(second)
    ensures |first| == 1 ==> MarkTotal(first) == first[0].liquidationValue
    decreases |second|
  {
    if second == [] {
      assert first + second == first;
    } else {
      var prefix := second[..|second| - 1];
      MarksAddUp(first, prefix);
      assert (first + second)[..|first + second| - 1] == first + prefix;
    }
  }

  predicate NoneAfter(marks: seq<PositionValuation>, now: Timestamp) {
    forall i :: 0 <= i < |marks| ==> marks[i].observedAt <= now
  }

  /** No book that a valuation would mark an open position with is ahead of the clock. */
  predicate NoBookAhead(s: LedgerState, books: Books, now: Timestamp, keys: seq<PositionKey>) {
    forall key :: key in keys && key in s.positions && Held(s.positions[key]) && key in books ==>
                    books[key].observedAt <= now
  }

  lemma {:induction false} MarksAreAsOldAsBooks(
    s: LedgerState, books: Books, policy: CostPolicy, now: Timestamp, keys: seq<PositionKey>)
    requires Covers(s, books, keys)
    ensures NoneAfter(Marks(s, books, policy, keys), now) <==> NoBookAhead(s, books, now, keys)
    decreases |keys|
  {
    hide LiquidationValue;
    if keys != [] {
      var prefix, last := keys[..|keys| - 1], keys[|keys| - 1];
      MarksAreAsOldAsBooks(s, books, policy, now, prefix);
      assert keys == prefix + [last];
      var before, marks := Marks(s, books, policy, prefix), Marks(s, books, policy, keys);
      assert NoneAfter(marks, now) ==> NoneAfter(before, now) by {
        assert forall i :: 0 <= i < |before| ==> before[i] == marks[i];
      }
      if Held(s.positions[last]) {
        assert marks[|before|] == Mark(s, books, policy, last);
      }
    }
  }

  /** `build_paper_valuation`. The keys come sorted from the caller. A book is
      fresh up to five seconds ahead of the clock, but a mark that is ahead of
      it cannot be assembled. */
  method BuildValuation(
    s: LedgerState, books: Books, policy: CostPolicy, now: Timestamp, maximumAge: int,
    keys: seq<PositionKey>, source: Text)
    returns (r: ValuationResult)
    requires Lists(s, keys) && forall key :: key in books ==> books[key].Valid()
    ensures r.BrokenLedger? <==> !Invariant(s)
    ensures r.Valued? <==>
            && Invariant(s)
            && AllMarkable(s, books, now, maximumAge, keys)
            && NoBookAhead(s, books, now, keys)
    ensures r.Valued? ==> Values(s, books, policy, now, keys, r.valuation) && ValidValuation(r.valuation)
    ensures r.MarkFromTheFuture? <==>
            && Invariant(s)
            && AllMarkable(s, books, now, maximumAge, keys)
            && !NoBookAhead(s, books, now, keys)
  {
    hide InvariantButAvailable, Marks, MarkTotal, AllMarkable, Covers, NoRepeats, NoBookAhead;
    var ok := AssertInvariants(s);
    if !ok {
      return BrokenLedger;
    }
    var failure, marks := CollectMarks(s, books, policy, now, maximumAge, keys);
    if failure.Some? {
      return failure.value;
    }
    var total := SumMarks(marks);
    MarksAreAsOldAsBooks(s, books, policy, now, keys);
    if !NoneAfter(marks, now) {
      return MarkFromTheFuture;
    }
    MarksCoverHeld(s, books, policy, keys);
    CashIsNonNegative(s);
    return Valued(PortfolioValuation(marks, s.cash + total, now, source));
  }

  /** Buy one order in full; its book, five seconds ahead of the clock, is fresh
      for any age limit, and no valuation of the ledger can be built from it. */
  lemma BookAheadBlocksValuation(
    intent: OrderIntent, opening: LedgerEvent, created: LedgerEvent, submitted: LedgerEvent, filled: LedgerEvent,
    book: Book, now: Timestamp, maximumAge: int)
    requires intent.side == Buy && opening.eventId != created.eventId
    requires opening.body == AccountOpened(intent.CashReservation())
    requires created.body == OrderIntentCreated(intent)
    requires submitted.eventId !in {opening.eventId, created.eventId}
    requires submitted.body.OrderSubmitted? && submitted.body.intentId == intent.intentId
    requires filled.eventId !in {opening.eventId, created.eventId, submitted.eventId}
    requires filled.body.FillReceived? && filled.body.fill.intentId == intent.intentId
    requires filled.body.fill.quantity == intent.quantity
    requires filled.body.fill.price == intent.limitPrice && filled.body.fill.fee == 0
    requires 0 < maximumAge && book.observedAt == now + 5_000_000
    ensures var r, key := Replay([opening, created, submitted, filled]), intent.Key();
            && r.Ok? && Invariant(r.value) && Lists(r.value, [key])
            && AllMarkable(r.value, map[key := book], now, maximumAge, [key])
            && !NoBookAhead(r.value, map[key := book], now, [key])
  {
    hide InvariantButAvailable, Replay, MoneyFromUnitPrice;
    var log := [opening, created, submitted];
    var s := TightOrder(intent, opening, created, submitted);
    assert NewFill(s, filled.body.fill, Buy);
    AcceptedExactly(s, filled);
    ReplayOneMore(log, filled);
    assert log + [filled] == [opening, created, submitted, filled];
    ReachedIsOk(log + [filled]);
  }

  lemma CashIsNonNegative(s: LedgerState)
    requires Invariant(s)
    ensures 0 <= s.cash
  {}

  /** The ledger records the valuation built from it. */
  lemma BuiltValuationIsRecorded(
    s: LedgerState, books: Books, policy: CostPolicy, now: Timestamp, keys: seq<PositionKey>,
    valuation: PortfolioValuation)
    requires s.isOpen && Lists(s, keys) && Values(s, books, policy, now, keys, valuation)
    ensures ApplyValuation(s, valuation) == Ok(s)
  {
    hide LiquidationValue, NoRepeats, MarkTotal, Marks, Covers;
    MarksCoverHeld(s, books, policy, keys);
    var marks := valuation.positions;
    forall key ensures key in (set mark | mark in marks :: mark.key) <==> key in OpenKeys(s) {
      if key in OpenKeys(s) {
        var mark :| mark in marks && mark.key == key;
      }
    }
  }

  // ---- The status report ----

  datatype Status = Status(
    startingCash: int, cash: int, reservedCash: int, availableCash: int, marketValue: int,
    realizedPnl: int, unrealizedPnl: int, fees: int, exposure: int, equity: int,
    highWaterMark: int, drawdown: int, openPositions: nat)

  function HeldCost(p: Position): int {
    if Held(p) then p.costBasis else 0
  }

  function CountsOpen(p: Position): int {
    if Held(p) then 1 else 0
  }

  function FeesOf(o: OrderAggregate): int {
    o.fees
  }

  function ActiveReservation(o: OrderAggregate): int {
    if o.intent.side == Buy && !o.state.Terminal() then o.reservedCash else 0
  }

  function Larger(a: int, b: int): int {
    if a < b then b else a
  }

  /** The best equity a log records, starting from the initial cash. */
  function HighWater(events: seq<LedgerEvent>): Option<int> {
    if events == [] then None
    else
      var prefix, last := events[..|events| - 1], events[|events| - 1].body;
      var before := HighWater(prefix);
      if last.AccountOpened? && InitialCash(prefix).None? then Some(last.initialCash)
      else if last.PortfolioValuationRecorded? then
        Some(if before.None? then last.valuation.equity else Larger(before.value, last.valuation.equity))
      else before
  }

  ghost function StatusOf(s: LedgerState, events: seq<LedgerEvent>, valuation: PortfolioValuation): Option<Status> {
    if InitialCash(events).None? || HighWater(events).None? then None
    else
      var market, cost := MarkTotal(valuation.positions), Total(s.positions, HeldCost);
      var high := Larger(HighWater(events).value, valuation.equity);
      var open := Total(s.positions, CountsOpen);
      OpenCountIsNatural(s);
      Some(Status(
             InitialCash(events).value, s.cash, s.reservedCash, s.AvailableCash(), market,
             Total(s.positions, PnlOf), market - cost, Total(s.orders, FeesOf),
             cost + Total(s.orders, ActiveReservation), valuation.equity, high,
             Larger(0, high - valuation.equity), open))
  }

  lemma OpenCountIsNatural(s: LedgerState)
    ensures 0 <= Total(s.positions, CountsOpen)
  {
    TotalNonNegative(s.positions, CountsOpen);
  }

  /** The loop over the log. */
  method ScanLog(events: seq<LedgerEvent>) returns (initial: Option<nat>, high: Option<int>)
    ensures initial == InitialCash(events) && high == HighWater(events)
  {
    initial, high := None, None;
    for i := 0 to |events|
      invariant initial == InitialCash(events[..i]) && high == HighWater(events[..i])
    {
      assert events[..i + 1][..i] == events[..i];
      match events[i].body
      case AccountOpened(cash) =>
        if initial.None? {
          initial, high := Some(cash), Some(cash);
        }
      case PortfolioValuationRecorded(valuation) =>
        if high.None? || valuation.equity > high.value {
          high := Some(valuation.equity);
        }
      case _ =>
    }
    assert events[..|events|] == events;
  }

  /** The loop over the positions. */
  method ScanPositions(positions: map<PositionKey, Position>) returns (realized: int, cost: int, open: nat)
    ensures realized == Total(positions, PnlOf)
    ensures cost == Total(positions, HeldCost) && open == Total(positions, CountsOpen)
  {
    realized, cost, open := 0, 0, 0;
    var left := positions.Keys;
    ghost var done: map<PositionKey, Position> := map[];
    while left != {}
      invariant left <= positions.Keys && done.Keys == positions.Keys - left
      invariant forall key :: key in done ==> done[key] == positions[key]
      invariant realized == Total(done, PnlOf)
      invariant cost == Total(done, HeldCost) && open == Total(done, CountsOpen)
      decreases left
    {
      var key :| key in left;
      var p := positions[key];
      TotalUpdate(done, PnlOf, key, p);
      TotalUpdate(done, HeldCost, key, p);
      TotalUpdate(done, CountsOpen, key, p);
      realized := realized + p.realizedPnl;
      if Held(p) {
        cost, open := cost + p.costBasis, open + 1;
      }
      left, done := left - {key}, done[key := p];
    }
    assert done == positions;
  }

  /** The loops over the orders. */
  method ScanOrders(orders: map<IntentId, OrderAggregate>) returns (fees: int, reserved: int)
    ensures fees == Total(orders, FeesOf) && reserved == Total(orders, ActiveReservation)
  {
    fees, reserved := 0, 0;
    var left := orders.Keys;
    ghost var done: map<IntentId, OrderAggregate> := map[];
    while left != {}
      invariant left <= orders.Keys && done.Keys == orders.Keys - left
      invariant forall id :: id in done ==> done[id] == orders[id]
      invariant fees == Total(done, FeesOf) && reserved == Total(done, ActiveReservation)
      decreases left
    {
      var id :| id in left;
      var o := orders[id];
      TotalUpdate(done, FeesOf, id, o);
      TotalUpdate(done, ActiveReservation, id, o);
      fees := fees + o.fees;
      if o.intent.side == Buy && !o.state.Terminal() {
        reserved := reserved + o.reservedCash;
      }
      left, done := left - {id}, done[id := o];
    }
    assert done == orders;
  }

  /** `paper_status`. */
  method ReportStatus(s: LedgerState, events: seq<LedgerEvent>, valuation: PortfolioValuation)
    returns (r: Option<Status>)
    ensures r == if Invariant(s) then StatusOf(s, events, valuation) else None
  {
    hide InvariantButAvailable, InitialCash, HighWater, MarkTotal;
    var ok := AssertInvariants(s);
    if !ok {
      return None;
    }
    var initial, high := ScanLog(events);
    if initial.None? || high.None? {
      return None;
    }
    var market := SumMarks(valuation.positions);
    var realized, cost, open := ScanPositions(s.positions);
    var fees, reserved := ScanOrders(s.orders);
    var best := Larger(high.value, valuation.equity);
    return Some(Status(
                  initial.value, s.cash, s.reservedCash, s.AvailableCash(), market, realized, market - cost,
                  fees, cost + reserved, valuation.equity, best, Larger(0, best - valuation.equity), open));
  }

  // ---- The accounting identity ----

  /** An event that records a valuation worth this much. */
  predicate RecordsEquity(e: LedgerEvent, equity: int) {
    e.body.PortfolioValuationRecorded? && e.body.valuation.equity == equity
  }

  /** No valuation is recorded before the account is opened. */
  lemma {:induction false} NothingValuedBeforeOpening(events: seq<LedgerEvent>)
    requires Replay(events).Ok? && InitialCash(events).None?
    ensures HighWater(events).None?
    ensures forall e :: e in events ==> !e.body.PortfolioValuationRecorded?
    decreases |events|
  {
    hide ApplyEvent, ApplyBody, InvariantButAvailable;
    if events != [] {
      var prefix, last := events[..|events| - 1], events[|events| - 1];
      assert events == prefix + [last];
      ReplaySplitsAtLast(EMPTY_LEDGER, events);
      NothingValuedBeforeOpening(prefix);
      CashIsConserved(prefix);
      AcceptedStep(Replay(prefix).value, last);
      ReplayRecords(prefix);
      if last.body.PortfolioValuationRecorded? {
        ValuingNeedsAnAccount(Replay(prefix).value, last.body);
      }
    }
  }

  lemma ValuingNeedsAnAccount(s: LedgerState, body: EventBody)
    requires body.PortfolioValuationRecorded? && !s.isOpen
    ensures ApplyBody(s, body).Err?
  {}

  /** The high-water mark of an accepted log is the largest of the opening cash
      and all recorded equities. */
  lemma {:induction false} HighWaterIsTheLargest(events: seq<LedgerEvent>)
    requires Replay(events).Ok? && InitialCash(events).Some?
    ensures HighWater(events).Some? && InitialCash(events).value <= HighWater(events).value
    ensures forall e, equity :: e in events && RecordsEquity(e, equity) ==> equity <= HighWater(events).value
    ensures HighWater(events).value == InitialCash(events).value
            || exists e :: e in events && RecordsEquity(e, HighWater(events).value)
    decreases |events|
  {
    hide ApplyEvent;
    var prefix, last := events[..|events| - 1], events[|events| - 1];
    assert events == prefix + [last];
    ReplaySplitsAtLast(EMPTY_LEDGER, events);
    if InitialCash(prefix).Some? {
      HighWaterIsTheLargest(prefix);
      if HighWater(events) == HighWater(prefix) {
        if HighWater(prefix).value != InitialCash(prefix).value {
          var e :| e in prefix && RecordsEquity(e, HighWater(prefix).value);
          assert e in events;
        }
      } else {
        assert last in events && RecordsEquity(last, HighWater(events).value);
      }
    } else {
      NothingValuedBeforeOpening(prefix);
    }
  }

  lemma HeldCostIsAllCost(s: LedgerState)
    requires Invariant(s) && EmptyIsFree(s)
    ensures Total(s.positions, HeldCost) == Total(s.positions, CostOf)
  {
    hide OrdersOk, EvidenceAgrees, ObservationsOk;
    TotalAgrees(s.positions, HeldCost, CostOf);
  }

  lemma {:induction false} OpenKeysAreCounted(positions: map<PositionKey, Position>)
    ensures Total(positions, CountsOpen) == |set key | key in positions && Held(positions[key])|
    decreases |positions|
  {
    if positions != map[] {
      var key :| key in positions;
      var rest := positions - {key};
      TotalSplit(positions, CountsOpen, key);
      OpenKeysAreCounted(rest);
      var held := set k | k in positions && Held(positions[k]);
      var heldRest := set k | k in rest && Held(rest[k]);
      assert held == if Held(positions[key]) then heldRest + {key} else heldRest;
    }
  }

  lemma ActiveReservationsAreAll(s: LedgerState)
    requires Invariant(s)
    ensures Total(s.orders, ActiveReservation) == s.reservedCash
  {
    hide PositionsOk, EvidenceAgrees, ObservationsOk;
    TotalAgrees(s.orders, ActiveReservation, CashHeldBy);
  }

  /** In every reachable ledger, with any valuation built from it: equity is
      the starting cash plus realized plus unrealized profit and loss; exposure
      is what open positions cost plus all reserved cash; and the drawdown is
      measured from a high-water mark no lower than equity or starting cash. */
  lemma AccountingIdentity(
    events: seq<LedgerEvent>, books: Books, policy: CostPolicy, now: Timestamp, keys: seq<PositionKey>,
    valuation: PortfolioValuation)
    requires Replay(events).Ok? && InitialCash(events).Some?
    requires Values(Replay(events).value, books, policy, now, keys, valuation)
    ensures var s := Replay(events).value;
            var r := StatusOf(s, events, valuation);
            && r.Some?
            && r.value.equity == r.value.startingCash + r.value.realizedPnl + r.value.unrealizedPnl
            && r.value.startingCash == InitialCash(events).value
            && r.value.cash == s.cash && r.value.reservedCash == s.reservedCash
            && r.value.availableCash == s.cash - s.reservedCash
            && r.value.equity == valuation.equity == s.cash + r.value.marketValue
            && r.value.realizedPnl == Total(s.positions, (p: Position) => p.realizedPnl)
            && r.value.unrealizedPnl == r.value.marketValue - Total(s.positions, CostOf)
            && r.value.fees == Total(s.orders, (o: OrderAggregate) => o.fees)
            && r.value.openPositions == |OpenKeys(s)|
            && r.value.exposure == Total(s.positions, CostOf) + s.reservedCash
            && 0 <= r.value.availableCash
            && r.value.startingCash <= r.value.highWaterMark
            && HighWater(events).Some?
            && r.value.highWaterMark
               == (if HighWater(events).value < r.value.equity then r.value.equity else HighWater(events).value)
            && r.value.drawdown == r.value.highWaterMark - r.value.equity
  {
    hide Replay, InvariantButAvailable, InitialCash, HighWater, MarkTotal, Marks;
    var s := Replay(events).value;
    ReachedIsOk(events);
    CashIsConserved(events);
    EmptyPositionsCostNothing(events);
    HeldCostIsAllCost(s);
    ActiveReservationsAreAll(s);
    OpenKeysAreCounted(s.positions);
    TotalAgrees(s.positions, PnlOf, (p: Position) => p.realizedPnl);
    TotalAgrees(s.orders, FeesOf, (o: OrderAggregate) => o.fees);
    HighWaterIsTheLargest(events);
  }
}
