/** What the reducers guarantee without the closing `assert_invariants`, and
    exactly where that check is needed. */
module LedgerInvariants {
  import opened Rounding
  import opened MapSums
  import opened Model
  import opened Events
  import opened State
  import opened Reducers

  type Orders = map<IntentId, OrderAggregate>
  type Positions = map<PositionKey, Position>

  // ---- Writing one order ----

  function CashHeldAt(orders: Orders, id: IntentId): int {
    if id in orders then CashHeldBy(orders[id]) else 0
  }

  function QuantityHeldAt(orders: Orders, id: IntentId, key: PositionKey): int {
    if id in orders then QuantityHeldOf(key)(orders[id]) else 0
  }

  lemma OrderWritten(orders: Orders, reserved: int, o: OrderAggregate)
    requires OrdersOk(orders, reserved) && OrderOk(o.intent.intentId, o)
    ensures var id := o.intent.intentId;
            var reserved' := reserved + CashHeldBy(o) - CashHeldAt(orders, id);
            OrdersOk(orders[id := o], reserved') && 0 <= reserved'
  {
    var id := o.intent.intentId;
    TotalUpdate(orders, CashHeldBy, id, o);
    TotalNonNegative(orders[id := o], CashHeldBy);
  }

  lemma HoldingsWritten(
    orders: Orders, positions: Positions, positions': Positions, id: IntentId, o: OrderAggregate)
    requires PositionsOk(orders, positions)
    requires forall key :: key in positions' ==> PositionOk(key, positions'[key])
    requires forall key ::
               ReservedAt(positions', key) - ReservedAt(positions, key)
               == QuantityHeldOf(key)(o) - QuantityHeldAt(orders, id, key)
    ensures PositionsOk(orders[id := o], positions')
  {
    forall key ensures SellReserved(orders[id := o], key) == ReservedAt(positions', key) {
      TotalUpdate(orders, QuantityHeldOf(key), id, o);
    }
  }

  /** The intent an identifier stands for never changes. */
  predicate SameIntent(orders: Orders, o: OrderAggregate) {
    o.intent.intentId in orders ==> orders[o.intent.intentId].intent == o.intent
  }

  lemma OnlyOrderWritten(orders: Orders, positions: Positions, o: OrderAggregate)
    requires PositionsOk(orders, positions) && SameIntent(orders, o)
    requires o.intent.side == Sell ==>
               && o.intent.intentId in orders
               && o.reservedQuantity == orders[o.intent.intentId].reservedQuantity
    ensures PositionsOk(orders[o.intent.intentId := o], positions)
  {
    HoldingsWritten(orders, positions, positions, o.intent.intentId, o);
  }

  lemma OrderAndPositionWritten(
    orders: Orders, positions: Positions, o: OrderAggregate, p: Position)
    requires PositionsOk(orders, positions) && PositionOk(p.key, p)
    requires SameIntent(orders, o) && o.intent.Key() == p.key
    requires p.reservedQuantity - ReservedAt(positions, p.key)
             == QuantityHeldOf(p.key)(o) - QuantityHeldAt(orders, o.intent.intentId, p.key)
    ensures PositionsOk(orders[o.intent.intentId := o], positions[p.key := p])
  {
    HoldingsWritten(orders, positions, positions[p.key := p], o.intent.intentId, o);
  }

  lemma OnlyPositionWritten(orders: Orders, positions: Positions, p: Position)
    requires PositionsOk(orders, positions) && PositionOk(p.key, p)
    requires p.reservedQuantity == ReservedAt(positions, p.key)
    ensures PositionsOk(orders, positions[p.key := p])
  {
    var positions' := positions[p.key := p];
    forall key ensures SellReserved(orders, key) == ReservedAt(positions', key) {
      assert SellReserved(orders, key) == ReservedAt(positions, key);
    }
  }

  /** An order of the ledger satisfies its clauses, and holds no more than the
      ledger or its position has set aside. */
  lemma OrderFacts(s: LedgerState, id: IntentId)
    requires InvariantButAvailable(s) && id in s.orders
    ensures s.isOpen
    ensures var o := s.orders[id];
            && OrderOk(id, o)
            && CashHeldBy(o) <= s.reservedCash
            && (o.intent.Key() in s.positions ==>
                  PositionOk(o.intent.Key(), s.positions[o.intent.Key()]))
            && (o.intent.side == Sell ==>
                  o.reservedQuantity <= ReservedAt(s.positions, o.intent.Key()))
  {
    TotalBoundsEach(s.orders, CashHeldBy, id);
    var key := s.orders[id].intent.Key();
    TotalBoundsEach(s.orders, QuantityHeldOf(key), id);
    assert SellReserved(s.orders, key) == ReservedAt(s.positions, key);
  }

  lemma PositionFacts(s: LedgerState, key: PositionKey)
    requires InvariantButAvailable(s) && key in s.positions
    ensures s.isOpen && PositionOk(key, s.positions[key])
  {}

  /** A rewritten order that holds exactly what it held before. */
  predicate HoldsTheSame(orders: Orders, o: OrderAggregate) {
    && o.intent.intentId in orders
    && var before := orders[o.intent.intentId];
    && o.intent == before.intent
    && o.reservedCash == before.reservedCash
    && o.reservedQuantity == before.reservedQuantity
  }

  lemma OrderRelabelled(s: LedgerState, o: OrderAggregate)
    requires InvariantButAvailable(s) && s.isOpen
    requires HoldsTheSame(s.orders, o) && OrderOk(o.intent.intentId, o)
    ensures InvariantButAvailable(ReplaceOrder(s, o))
  {
    hide OrdersOk, PositionsOk, OrderOk, EvidenceAgrees, ObservationsOk;
    OrderWritten(s.orders, s.reservedCash, o);
    OnlyOrderWritten(s.orders, s.positions, o);
  }

  lemma RelabelKeeps(s: LedgerState, body: EventBody)
    requires Invariant(s) && ApplyBody(s, body).Ok?
    requires body.OrderSubmitted? || body.OrderAcknowledged? || body.OrderOutcomeUnknown?
    ensures Invariant(ApplyBody(s, body).value)
  {
    hide OrdersOk, PositionsOk, EvidenceAgrees, ObservationsOk, MoneyFromUnitPrice;
    OrderFacts(s, body.intentId);
    OrderRelabelled(s, ApplyBody(s, body).value.orders[body.intentId]);
  }

  // ---- Reaching a terminal state ----

  /** `done` is `o` in a terminal state, holding nothing. */
  predicate Closes(o: OrderAggregate, done: OrderAggregate) {
    && done.intent == o.intent
    && done.state.Terminal()
    && done.reservedCash == 0
    && done.reservedQuantity == 0
    && OrderOk(o.intent.intentId, done)
  }

  lemma ReleaseKeeps(s: LedgerState, o: OrderAggregate, done: OrderAggregate)
    requires InvariantButAvailable(s)
    requires HoldsTheSame(s.orders, o) && Closes(o, done)
    requires ReleaseReservations(s, o).Ok?
    ensures var t := ReplaceOrder(ReleaseReservations(s, o).value.0, done);
            && InvariantButAvailable(t)
            && t.AvailableCash() == s.AvailableCash() + CashHeldBy(o)
  {
    hide OrdersOk, PositionsOk, EvidenceAgrees, ObservationsOk, MoneyFromUnitPrice;
    var id := o.intent.intentId;
    OrderFacts(s, id);
    OrderWritten(s.orders, s.reservedCash, done);
    if o.intent.side == Buy {
      OnlyOrderWritten(s.orders, s.positions, done);
    } else {
      var p := s.positions[o.intent.Key()];
      OrderAndPositionWritten(
        s.orders, s.positions, done,
        p.(reservedQuantity := p.reservedQuantity - o.reservedQuantity));
    }
  }

  lemma TerminalKeeps(s: LedgerState, id: IntentId, target: OrderState, reason: Text)
    requires Invariant(s) && target.Terminal()
    requires ApplyTerminal(s, id, target, reason).Ok?
    ensures Invariant(ApplyTerminal(s, id, target, reason).value)
  {
    hide OrdersOk, PositionsOk, EvidenceAgrees, ObservationsOk, MoneyFromUnitPrice;
    var o := s.orders[id];
    OrderFacts(s, id);
    var done := ReleaseReservations(s, o).value.1.(
      state := target, terminalReason := Some(reason), unknownReason := None);
    ReleaseKeeps(s, o, done);
  }

  // ---- New intents ----

  lemma NewOrderIsOk(intent: OrderIntent)
    ensures OrderOk(intent.intentId, NewOrder(intent))
    ensures intent.side == Buy ==> CashHeldBy(NewOrder(intent)) == intent.CashReservation()
  {}

  /** Reserving for a new intent sets aside what its order holds. */
  lemma BuyIntentKeeps(s: LedgerState, intent: OrderIntent)
    requires Invariant(s) && s.isOpen && intent.intentId !in s.orders && intent.side == Buy
    requires intent.CashReservation() <= s.AvailableCash()
    ensures Invariant(ReplaceOrder(s.(reservedCash := s.reservedCash + intent.CashReservation()), NewOrder(intent)))
  {
    hide OrdersOk, OrderOk, PositionsOk, EvidenceAgrees, ObservationsOk, MoneyFromUnitPrice;
    NewOrderIsOk(intent);
    OrderWritten(s.orders, s.reservedCash, NewOrder(intent));
    OnlyOrderWritten(s.orders, s.positions, NewOrder(intent));
  }

  lemma SellIntentKeeps(s: LedgerState, intent: OrderIntent, p: Position)
    requires Invariant(s) && s.isOpen && intent.intentId !in s.orders && intent.side == Sell
    requires intent.Key() in s.positions && p == s.positions[intent.Key()]
    requires p.status == Open && intent.quantity <= p.Available()
    ensures Invariant(ReplaceOrder(
                        ReplacePosition(s, p.(reservedQuantity := p.reservedQuantity + intent.quantity)),
                        NewOrder(intent)))
  {
    hide OrdersOk, OrderOk, PositionsOk, EvidenceAgrees, ObservationsOk, MoneyFromUnitPrice;
    NewOrderIsOk(intent);
    OrderWritten(s.orders, s.reservedCash, NewOrder(intent));
    PositionFacts(s, intent.Key());
    OrderAndPositionWritten(
      s.orders, s.positions, NewOrder(intent),
      p.(reservedQuantity := p.reservedQuantity + intent.quantity));
  }

  lemma IntentKeeps(s: LedgerState, intent: OrderIntent)
    requires Invariant(s) && ApplyIntentCreated(s, intent).Ok?
    ensures Invariant(ApplyIntentCreated(s, intent).value)
  {
    hide InvariantButAvailable, MoneyFromUnitPrice, NewOrder, ReplaceOrder, ReplacePosition;
    if intent.intentId !in s.orders {
      if intent.side == Buy {
        BuyIntentKeeps(s, intent);
      } else {
        SellIntentKeeps(s, intent, s.positions[intent.Key()]);
      }
    }
  }

  // ---- Fills ----

  /** What a BUY fill frees beyond what it spends, had it been charged no fee. */
  function RoundingSlack(o: OrderAggregate, fill: FillData): int {
    MoneyFromUnitPrice(o.intent.limitPrice, o.Remaining())
    - MoneyFromUnitPrice(o.intent.limitPrice, o.Remaining() - fill.quantity)
    - MoneyFromUnitPrice(fill.price, fill.quantity)
  }

  /** Rounding can cost a partial fill one micro-unit, and a completing fill nothing. */
  lemma SlackBounds(o: OrderAggregate, fill: FillData)
    requires fill.price <= o.intent.limitPrice && fill.quantity <= o.Remaining()
    ensures -1 <= RoundingSlack(o, fill)
    ensures fill.quantity == o.Remaining() ==> 0 <= RoundingSlack(o, fill)
  {
    hide MoneyFromUnitPrice;
    var limit := o.intent.limitPrice;
    SplittingMovesOneMicro(limit, o.Remaining(), fill.quantity);
    ValueIsMonotone(fill.price, limit, fill.quantity, fill.quantity);
  }

  /** A fill the order has not seen, on an order of the given side. */
  predicate NewFill(s: LedgerState, fill: FillData, side: Side) {
    && fill.intentId in s.orders
    && s.orders[fill.intentId].intent.side == side
    && fill.fillId !in s.orders[fill.intentId].fills
  }

  /** The order with a fill booked on it but its reservation not yet closed out. */
  function Booked(o: OrderAggregate, fill: FillData, gross: int): OrderAggregate {
    WithFill(o, fill, gross).(state := PartiallyFilled)
  }

  /** What a BUY fill leaves in the order's reservation. */
  function StillReserved(o: OrderAggregate, fill: FillData): int {
    MoneyFromUnitPrice(o.intent.limitPrice, o.Remaining() - fill.quantity)
    + (o.intent.feeReserve - o.fees - fill.fee)
  }

  lemma BuyFillResult(s: LedgerState, o: OrderAggregate, fill: FillData, gross: int)
    requires ApplyBuyFill(s, o, fill, gross).Ok?
    ensures var (s', o') := ApplyBuyFill(s, o, fill, gross).value;
            var p := PositionOrEmpty(s, o.intent.Key());
            var debit := gross + fill.fee;
            && p.status == Open && debit <= s.cash && fill.price <= o.intent.limitPrice
            && fill.fee <= o.intent.feeReserve - o.fees
            && o' == o.(reservedCash := StillReserved(o, fill))
            && s' == ReplacePosition(
                       s.(cash := s.cash - debit,
                          reservedCash := s.reservedCash - (o.reservedCash - StillReserved(o, fill))),
                       p.(quantity := p.quantity + fill.quantity, costBasis := p.costBasis + debit))
  {
    hide MoneyFromUnitPrice, ReplacePosition, PositionOrEmpty;
  }

  lemma BookedBuyIsOk(o: OrderAggregate, fill: FillData, gross: int)
    requires OrderOk(o.intent.intentId, o) && o.intent.side == Buy && 0 <= gross
    requires fill.quantity <= o.Remaining() && fill.fee <= o.intent.feeReserve - o.fees
    ensures OrderOk(o.intent.intentId, Booked(o.(reservedCash := StillReserved(o, fill)), fill, gross))
  {
    hide MoneyFromUnitPrice;
    StillReservedIsNonNegative(o, fill);
  }

  lemma StillReservedIsNonNegative(o: OrderAggregate, fill: FillData)
    requires fill.quantity <= o.Remaining() && fill.fee <= o.intent.feeReserve - o.fees
    ensures 0 <= StillReserved(o, fill)
  {}

  lemma BoughtPositionIsOk(s: LedgerState, key: PositionKey, quantity: Quantity, debit: nat)
    requires InvariantButAvailable(s)
    ensures var p := PositionOrEmpty(s, key);
            var p' := p.(quantity := p.quantity + quantity, costBasis := p.costBasis + debit);
            && p'.key == key && p'.reservedQuantity == ReservedAt(s.positions, key)
            && (p.status == Open ==> PositionOk(key, p'))
  {
    hide OrdersOk, EvidenceAgrees, ObservationsOk;
  }

  lemma BuyFillBooked(s: LedgerState, o: OrderAggregate, fill: FillData, gross: int)
    requires InvariantButAvailable(s) && !o.state.Terminal()
    requires fill.intentId in s.orders && o == s.orders[fill.intentId] && o.intent.side == Buy
    requires fill.quantity <= o.Remaining() && gross == MoneyFromUnitPrice(fill.price, fill.quantity)
    requires ApplyBuyFill(s, o, fill, gross).Ok?
    ensures var (s', o') := ApplyBuyFill(s, o, fill, gross).value;
            var t := ReplaceOrder(s', Booked(o', fill, gross));
            && OrderOk(fill.intentId, Booked(o', fill, gross))
            && InvariantButAvailable(t)
            && t.AvailableCash() == s.AvailableCash() + RoundingSlack(o, fill)
  {
    hide OrdersOk, PositionsOk, EvidenceAgrees, ObservationsOk, MoneyFromUnitPrice, ApplyBuyFill, PositionOrEmpty,
         PositionOk;
    OrderFacts(s, fill.intentId);
    BuyFillResult(s, o, fill, gross);
    BookedBuyIsOk(o, fill, gross);
    BoughtPositionIsOk(s, o.intent.Key(), fill.quantity, gross + fill.fee);
    var booked := Booked(o.(reservedCash := StillReserved(o, fill)), fill, gross);
    var p := PositionOrEmpty(s, o.intent.Key());
    OrderWritten(s.orders, s.reservedCash, booked);
    OrderAndPositionWritten(
      s.orders, s.positions, booked,
      p.(quantity := p.quantity + fill.quantity, costBasis := p.costBasis + gross + fill.fee));
  }

  lemma RewriteOnce(orders: Orders, id: IntentId, first: OrderAggregate, second: OrderAggregate)
    ensures orders[id := first][id := second] == orders[id := second]
  {}

  lemma BuyFillKeeps(s: LedgerState, fill: FillData)
    requires Invariant(s) && NewFill(s, fill, Buy) && ApplyFill(s, fill).Ok?
    ensures var o, t := s.orders[fill.intentId], ApplyFill(s, fill).value;
            && InvariantButAvailable(t)
            && -1 <= t.AvailableCash()
            && (if fill.quantity == o.Remaining() then 0 <= t.AvailableCash()
                else t.AvailableCash() == s.AvailableCash() + RoundingSlack(o, fill))
  {
    hide OrdersOk, PositionsOk, EvidenceAgrees, ObservationsOk, MoneyFromUnitPrice, InvariantButAvailable, PositionOrEmpty;
    var o := s.orders[fill.intentId];
    var gross := MoneyFromUnitPrice(fill.price, fill.quantity);
    BuyFillBooked(s, o, fill, gross);
    SlackBounds(o, fill);
    if fill.quantity == o.Remaining() {
      var (s', o') := ApplyBuyFill(s, o, fill, gross).value;
      var filled := WithFill(o', fill, gross);
      var booked := Booked(o', fill, gross);
      var done := filled.(reservedCash := 0);
      ReleaseKeeps(ReplaceOrder(s', booked), booked, done);
      RewriteOnce(s'.orders, fill.intentId, booked, done);
    }
  }

  /** The position a sale leaves. */
  function SoldPosition(p: Position, quantity: Quantity, net: int): Position
    requires quantity <= p.quantity
  {
    var cost := AllocatedCost(p, quantity);
    p.(quantity := p.quantity - quantity,
       reservedQuantity := p.reservedQuantity - quantity,
       costBasis := if p.quantity == quantity then 0 else p.costBasis - cost,
       realizedPnl := p.realizedPnl + net - cost)
  }

  lemma SellFillResult(s: LedgerState, o: OrderAggregate, fill: FillData, gross: int)
    requires ApplySellFill(s, o, fill, gross).Ok?
    ensures o.intent.Key() in s.positions
    ensures var (s', o') := ApplySellFill(s, o, fill, gross).value;
            var p := s.positions[o.intent.Key()];
            && p.status == Open && fill.fee <= gross
            && fill.quantity <= p.quantity && fill.quantity <= p.reservedQuantity
            && fill.quantity <= o.reservedQuantity
            && o' == o.(reservedQuantity := o.reservedQuantity - fill.quantity)
            && s' == ReplacePosition(s.(cash := s.cash + gross - fill.fee),
                                     SoldPosition(p, fill.quantity, gross - fill.fee))
  {
    hide AllocatedCost, ReplacePosition;
  }

  lemma BookedSaleIsOk(o: OrderAggregate, fill: FillData, gross: int)
    requires OrderOk(o.intent.intentId, o) && o.intent.side == Sell && !o.state.Terminal() && 0 <= gross
    requires fill.quantity <= o.Remaining()
    ensures OrderOk(o.intent.intentId,
                    Booked(o.(reservedQuantity := o.reservedQuantity - fill.quantity), fill, gross))
  {}

  lemma SoldPositionIsOk(p: Position, quantity: Quantity, net: int)
    requires PositionOk(p.key, p) && p.status == Open && quantity <= p.reservedQuantity
    ensures PositionOk(p.key, SoldPosition(p, quantity, net))
    ensures SoldPosition(p, quantity, net).reservedQuantity == p.reservedQuantity - quantity
    ensures SoldPosition(p, quantity, net).key == p.key
  {}

  lemma SellFillBooked(s: LedgerState, o: OrderAggregate, fill: FillData, gross: int)
    requires InvariantButAvailable(s) && !o.state.Terminal() && 0 <= gross
    requires fill.intentId in s.orders && o == s.orders[fill.intentId] && o.intent.side == Sell
    requires fill.quantity <= o.Remaining()
    requires ApplySellFill(s, o, fill, gross).Ok?
    ensures var (s', o') := ApplySellFill(s, o, fill, gross).value;
            var t := ReplaceOrder(s', Booked(o', fill, gross));
            && OrderOk(fill.intentId, Booked(o', fill, gross))
            && InvariantButAvailable(t)
            && s.AvailableCash() <= t.AvailableCash()
  {
    hide OrdersOk, PositionsOk, EvidenceAgrees, ObservationsOk, ApplySellFill, PositionOk, OrderOk, SoldPosition;
    var key := o.intent.Key();
    OrderFacts(s, fill.intentId);
    SellFillResult(s, o, fill, gross);
    PositionFacts(s, key);
    var p := s.positions[key];
    PositionKeyed(key, p);
    var booked := Booked(o.(reservedQuantity := o.reservedQuantity - fill.quantity), fill, gross);
    BookedSaleIsOk(o, fill, gross);
    SoldPositionIsOk(p, fill.quantity, gross - fill.fee);
    OrderWritten(s.orders, s.reservedCash, booked);
    OrderAndPositionWritten(s.orders, s.positions, booked, SoldPosition(p, fill.quantity, gross - fill.fee));
  }

  lemma PositionKeyed(key: PositionKey, p: Position)
    requires PositionOk(key, p)
    ensures p.key == key
  {}

  lemma SellFillKeeps(s: LedgerState, fill: FillData)
    requires Invariant(s) && NewFill(s, fill, Sell) && ApplyFill(s, fill).Ok?
    ensures Invariant(ApplyFill(s, fill).value)
  {
    hide OrdersOk, PositionsOk, EvidenceAgrees, ObservationsOk, MoneyFromUnitPrice, InvariantButAvailable, Scale;
    var o := s.orders[fill.intentId];
    var gross := MoneyFromUnitPrice(fill.price, fill.quantity);
    SellFillBooked(s, o, fill, gross);
    if fill.quantity == o.Remaining() {
      var (s', o') := ApplySellFill(s, o, fill, gross).value;
      var filled := WithFill(o', fill, gross);
      var booked := Booked(o', fill, gross);
      var done := filled.(reservedQuantity := 0);
      ReleaseKeeps(ReplaceOrder(s', booked), booked, done);
      RewriteOnce(s'.orders, fill.intentId, booked, done);
    }
  }

  // ---- Settlement, observations, resolutions ----

  lemma SettlementKeeps(s: LedgerState, key: PositionKey, fee: nat)
    requires Invariant(s) && ApplySettlement(s, key, fee).Ok?
    ensures Invariant(ApplySettlement(s, key, fee).value)
  {
    hide OrdersOk, PositionsOk, EvidenceAgrees, ObservationsOk, MoneyFromUnitPrice;
    PositionFacts(s, key);
    OnlyPositionWritten(s.orders, s.positions, ApplySettlement(s, key, fee).value.positions[key]);
  }

  lemma TerminalsGrow(history: seq<Observation>, o: Observation)
    ensures Terminals(history + [o])
            == Terminals(history) + if o.LearningEligible() then [o] else []
  {
    assert (history + [o])[..|history|] == history;
  }

  lemma RevisionsGrow(history: seq<Observation>, o: Observation)
    requires LinearRevisions(Terminals(history)) && ObservationExtends(history, o).Ok?
    ensures LinearRevisions(Terminals(history + [o]))
  {
    hide Terminals;
    TerminalsGrow(history, o);
    if o.LearningEligible() {
      RevisionAppended(Terminals(history), o);
    }
  }

  lemma RevisionAppended(terminals: seq<Observation>, o: Observation)
    requires LinearRevisions(terminals) && o.LearningEligible()
    requires if terminals == [] then o.status.Final?
             else o.status == Revised(terminals[|terminals| - 1].payloadHash)
    ensures LinearRevisions(terminals + [o])
  {}

  /** Entries grow by one whose hash is new and whose predecessor, if it names one, is there. */
  lemma EntriesGrow(market: MarketId, history: seq<Observation>, o: Observation)
    requires EntriesOk(market, history) && o.marketId == market
    requires forall i :: 0 <= i < |history| ==> history[i].payloadHash != o.payloadHash
    requires o.status.Revised? ==>
               exists j :: 0 <= j < |history| && history[j].payloadHash == o.status.supersedes
    ensures EntriesOk(market, history + [o])
  {
    var history' := history + [o];
    forall i | 0 <= i < |history'| ensures Grounded(history', i) {
      if i < |history| {
        assert Grounded(history, i);
        if history[i].status.Revised? {
          var j :| 0 <= j < i && history[j].payloadHash == history[i].status.supersedes;
          assert history'[j] == history[j];
        }
      } else if o.status.Revised? {
        var j :| 0 <= j < |history| && history[j].payloadHash == o.status.supersedes;
        assert history'[j] == history[j];
      }
    }
  }

  lemma PriorIsThere(history: seq<Observation>, hash: Text)
    requires exists prior :: prior in history && prior.payloadHash == hash
    ensures exists j :: 0 <= j < |history| && history[j].payloadHash == hash
  {
    var prior :| prior in history && prior.payloadHash == hash;
    var j :| 0 <= j < |history| && history[j] == prior;
  }

  /** An observation the reducer accepts extends a well-formed history. */
  lemma HistoryGrows(market: MarketId, history: seq<Observation>, o: Observation)
    requires HistoryOk(market, history) && o.marketId == market
    requires WithPayload(history, o.payloadHash).None?
    requires ObservationExtends(history, o).Ok?
    ensures HistoryOk(market, history + [o])
  {
    hide LinearRevisions, Terminals, EntriesOk, WithPayload;
    if o.status.Revised? {
      PriorIsThere(history, o.status.supersedes);
    }
    EntriesGrow(market, history, o);
    RevisionsGrow(history, o);
  }

  lemma ObservationKeeps(s: LedgerState, o: Observation)
    requires Invariant(s) && ApplyObservation(s, o).Ok?
    ensures Invariant(ApplyObservation(s, o).value)
  {
    hide OrdersOk, PositionsOk, EvidenceAgrees, HistoryOk;
    var history := HistoryOf(s, o.marketId);
    if WithPayload(history, o.payloadHash).None? {
      EmptyHistoryOk(o.marketId);
      HistoryGrows(o.marketId, history, o);
    }
  }

  lemma EmptyHistoryOk(market: MarketId)
    ensures HistoryOk(market, [])
  {}

  lemma ResolutionKeeps(s: LedgerState, resolution: MarketResolution)
    requires Invariant(s) && ApplyResolution(s, resolution).Ok?
    ensures Invariant(ApplyResolution(s, resolution).value) <==> s.isOpen
    ensures InvariantButAvailable(ApplyResolution(s, resolution).value) <==> s.isOpen
  {
    hide OrdersOk, PositionsOk, ObservationsOk;
    var t := ApplyResolution(s, resolution).value;
    if !s.isOpen {
      assert resolution.marketId in t.resolutions;
    }
  }

  // ---- Where the closing check is needed ----

  /** A partial BUY fill that rounding pushes past the last available micro-unit. */
  predicate OverdrawsByRounding(s: LedgerState, e: LedgerEvent) {
    && e.body.FillReceived?
    && NewFill(s, e.body.fill, Buy)
    && var o := s.orders[e.body.fill.intentId];
    && e.body.fill.quantity < o.Remaining()
    && s.AvailableCash() + RoundingSlack(o, e.body.fill) < 0
  }

  /** A resolution that arrives before the account is open. */
  predicate ResolvesUnopened(s: LedgerState, e: LedgerEvent) {
    e.body.MarketResolved? && !s.isOpen
  }

  lemma RecordKeeps(s: LedgerState, e: LedgerEvent)
    ensures InvariantButAvailable(Record(s, e)) == InvariantButAvailable(s)
    ensures Invariant(Record(s, e)) == Invariant(s)
  {}

  lemma BodyKeeps(s: LedgerState, e: LedgerEvent)
    requires Invariant(s) && ApplyBody(s, e.body).Ok?
    ensures var t := ApplyBody(s, e.body).value;
            && (Invariant(t) <==> !OverdrawsByRounding(s, e) && !ResolvesUnopened(s, e))
            && (OverdrawsByRounding(s, e) ==> InvariantButAvailable(t) && t.AvailableCash() == -1)
  {
    hide InvariantButAvailable, RoundingSlack, ApplyIntentCreated, ApplyFill, ApplyTerminal,
         ApplyObservation, ApplyResolution, ApplySettlement;
    match e.body
    case OrderIntentCreated(intent) => IntentKeeps(s, intent);
    case FillReceived(fill) => FillKeeps(s, e, fill);
    case OrderRejected(id, reason) => TerminalKeeps(s, id, Rejected, reason);
    case OrderCancelled(id, reason) => TerminalKeeps(s, id, Cancelled, reason);
    case WeatherObservationRecorded(o) => ObservationKeeps(s, o);
    case MarketResolved(resolution) => ResolutionKeeps(s, resolution);
    case PositionSettled(key, fee) => SettlementKeeps(s, key, fee);
    case AccountOpened(cash) => OpeningKeeps(s, cash);
    case ResolutionEvidenceRecorded(evidence) => EvidenceKeeps(s, evidence);
    case RiskScopeRegistered(_) =>
    case PortfolioValuationRecorded(_) =>
    case OrderSubmitted(_, _) => RelabelKeeps(s, e.body);
    case OrderAcknowledged(_) => RelabelKeeps(s, e.body);
    case OrderOutcomeUnknown(_, _) => RelabelKeeps(s, e.body);
  }

  lemma FillKeeps(s: LedgerState, e: LedgerEvent, fill: FillData)
    requires e.body == FillReceived(fill)
    requires Invariant(s) && ApplyFill(s, fill).Ok?
    ensures var t := ApplyFill(s, fill).value;
            && (Invariant(t) <==> !OverdrawsByRounding(s, e))
            && (OverdrawsByRounding(s, e) ==> InvariantButAvailable(t) && t.AvailableCash() == -1)
  {
    hide InvariantButAvailable, RoundingSlack, ApplyBuyFill, ApplySellFill;
    if NewFill(s, fill, Buy) {
      BuyFillKeeps(s, fill);
    } else if NewFill(s, fill, Sell) {
      SellFillKeeps(s, fill);
    }
  }

  lemma OpeningKeeps(s: LedgerState, cash: nat)
    requires Invariant(s) && ApplyAccountOpened(s, cash).Ok?
    ensures Invariant(ApplyAccountOpened(s, cash).value)
  {
    hide OrdersOk, PositionsOk, EvidenceAgrees, ObservationsOk;
  }

  lemma EvidenceKeeps(s: LedgerState, evidence: ResolutionEvidence)
    requires Invariant(s) && ApplyEvidence(s, evidence).Ok?
    ensures Invariant(ApplyEvidence(s, evidence).value)
  {
    hide OrdersOk, PositionsOk, ObservationsOk;
  }

  /** From an invariant state every event whose reducer guards pass restores
      every clause, except in exactly two cases. In the first the shortfall is
      one micro-unit of available cash and nothing else. */
  lemma ClosingCheckIsNeededTwice(s: LedgerState, e: LedgerEvent)
    requires Invariant(s) && e.eventId !in s.fingerprints && Reduce(s, e).Ok?
    ensures var t := Reduce(s, e).value;
            && (Invariant(t) <==> !OverdrawsByRounding(s, e) && !ResolvesUnopened(s, e))
            && (OverdrawsByRounding(s, e) ==> InvariantButAvailable(t) && t.AvailableCash() == -1)
  {
    hide InvariantButAvailable, OverdrawsByRounding;
    BodyKeeps(s, e);
    RecordKeeps(ApplyBody(s, e.body).value, e);
  }

  /** `apply_event` accepts a new event exactly when its reducer does and neither case applies. */
  lemma AcceptedExactly(s: LedgerState, e: LedgerEvent)
    requires Invariant(s) && e.eventId !in s.fingerprints
    ensures ApplyEvent(s, e).Ok? <==>
            Reduce(s, e).Ok? && !OverdrawsByRounding(s, e) && !ResolvesUnopened(s, e)
  {
    hide InvariantButAvailable, OverdrawsByRounding;
    if Reduce(s, e).Ok? {
      ClosingCheckIsNeededTwice(s, e);
    }
  }

  /** Every ledger reached by replay satisfies every invariant. */
  lemma {:induction false} ReplayKeepsInvariant(s: LedgerState, events: seq<LedgerEvent>)
    requires Invariant(s) && ReplayFrom(s, events).Ok?
    ensures Invariant(ReplayFrom(s, events).value)
    decreases |events|
  {
    hide Invariant, ApplyBody;
    if events != [] {
      ReplayKeepsInvariant(s, events[..|events| - 1]);
    }
  }

  lemma EmptyLedgerIsOk()
    ensures Invariant(EMPTY_LEDGER) && Replay([]) == Ok(EMPTY_LEDGER)
  {}

  // ---- Both cases happen ----

  lemma ReplayOneMore(events: seq<LedgerEvent>, e: LedgerEvent)
    requires Replay(events).Ok?
    ensures Replay(events + [e]) == ApplyEvent(Replay(events).value, e)
  {
    assert (events + [e])[..|events|] == events;
  }

  /** An acceptable event that is neither a fill nor a resolution leads where its reducer says. */
  lemma Advance(log: seq<LedgerEvent>, s: LedgerState, e: LedgerEvent)
    requires Replay(log) == Ok(s) && Invariant(s)
    requires e.eventId !in s.fingerprints && Reduce(s, e).Ok?
    requires !e.body.FillReceived? && !e.body.MarketResolved?
    ensures Replay(log + [e]) == Reduce(s, e) && Invariant(Reduce(s, e).value)
  {
    hide InvariantButAvailable, ApplyBody;
    AcceptedExactly(s, e);
    ReplayOneMore(log, e);
  }

  /** An account opened with exactly what its first order sets aside. */
  lemma TightAccount(intent: OrderIntent, opening: LedgerEvent, created: LedgerEvent)
    returns (s: LedgerState)
    requires intent.side == Buy && opening.eventId != created.eventId
    requires opening.body == AccountOpened(intent.CashReservation())
    requires created.body == OrderIntentCreated(intent)
    ensures Replay([opening, created]) == Ok(s) && Invariant(s)
    ensures s == EMPTY_LEDGER.(
                   isOpen := true,
                   cash := intent.CashReservation(),
                   reservedCash := intent.CashReservation(),
                   orders := map[intent.intentId := NewOrder(intent)],
                   fingerprints := map[opening.eventId := opening, created.eventId := created])
  {
    hide InvariantButAvailable, Replay, MoneyFromUnitPrice;
    EmptyLedgerIsOk();
    Advance([], EMPTY_LEDGER, opening);
    var s1 := Reduce(EMPTY_LEDGER, opening).value;
    assert [] + [opening] == [opening];
    Advance([opening], s1, created);
    s := Reduce(s1, created).value;
    assert [opening, created] == [opening] + [created];
  }

  lemma TightOrder(
    intent: OrderIntent, opening: LedgerEvent, created: LedgerEvent, submitted: LedgerEvent)
    returns (s: LedgerState)
    requires intent.side == Buy && opening.eventId != created.eventId
    requires opening.body == AccountOpened(intent.CashReservation())
    requires created.body == OrderIntentCreated(intent)
    requires submitted.eventId !in {opening.eventId, created.eventId}
    requires submitted.body.OrderSubmitted? && submitted.body.intentId == intent.intentId
    ensures Replay([opening, created, submitted]) == Ok(s) && Invariant(s)
    ensures s.cash == s.reservedCash == intent.CashReservation() && s.positions == map[]
    ensures intent.intentId in s.orders
    ensures s.orders[intent.intentId]
            == NewOrder(intent).(state := Submitted,
                                 backendOrderId := Some(submitted.body.backendOrderId))
    ensures s.fingerprints.Keys == {opening.eventId, created.eventId, submitted.eventId}
  {
    hide InvariantButAvailable, Replay, MoneyFromUnitPrice;
    var s2 := TightAccount(intent, opening, created);
    Advance([opening, created], s2, submitted);
    s := Reduce(s2, submitted).value;
    assert [opening, created, submitted] == [opening, created] + [submitted];
  }

  /** Two micro-shares at a limit of 0.6 set aside one micro-unit. Filling one of
      them at the limit costs one, and keeping the other reserved holds one. */
  lemma OverdrawIsReachable(
    intent: OrderIntent, opening: LedgerEvent, created: LedgerEvent, submitted: LedgerEvent,
    e: LedgerEvent)
    requires intent.side == Buy && intent.quantity == 2
    requires intent.limitPrice == 600_000 && intent.feeReserve == 0
    requires opening.body == AccountOpened(1) && created.body == OrderIntentCreated(intent)
    requires submitted.body.OrderSubmitted? && submitted.body.intentId == intent.intentId
    requires opening.eventId != created.eventId && submitted.eventId !in {opening.eventId, created.eventId}
    requires e.eventId !in {opening.eventId, created.eventId, submitted.eventId}
    requires e.body.FillReceived? && e.body.fill.intentId == intent.intentId
    requires e.body.fill.quantity == 1 && e.body.fill.price == 600_000 && e.body.fill.fee == 0
    ensures var log := [opening, created, submitted];
            && Replay(log).Ok?
            && OverdrawsByRounding(Replay(log).value, e)
            && Reduce(Replay(log).value, e).Ok?
            && ApplyEvent(Replay(log).value, e) == Err(InvariantViolation)
  {
    hide InvariantButAvailable, Replay;
    assert MoneyFromUnitPrice(600_000, 1) == MoneyFromUnitPrice(600_000, 2) == 1;
    var s := TightOrder(intent, opening, created, submitted);
    ClosingCheckIsNeededTwice(s, e);
  }

  lemma ResolutionBeforeOpeningIsRejected(e: LedgerEvent)
    requires e.body.MarketResolved?
    ensures Reduce(EMPTY_LEDGER, e).Ok? && ApplyEvent(EMPTY_LEDGER, e) == Err(InvariantViolation)
  {
    EmptyLedgerIsOk();
    ClosingCheckIsNeededTwice(EMPTY_LEDGER, e);
  }
}
