/** What accepted events do, and what holds over whole logs: harmless redelivery
    and a safe order lifecycle. */
module LedgerRuns {
  import opened Rounding
  import opened Model
  import opened Events
  import opened State
  import opened Reducers
  import opened LedgerInvariants

  // ---- Steps of a run ----

  /** `t` was reached without recording an event or opening the account. */
  predicate SameFrame(s: LedgerState, t: LedgerState) {
    t.fingerprints == s.fingerprints && t.isOpen == s.isOpen
  }

  /** `o'` is `o` with other reservations. */
  predicate SameButReservations(o: OrderAggregate, o': OrderAggregate) {
    o' == o.(reservedCash := o'.reservedCash, reservedQuantity := o'.reservedQuantity)
  }

  lemma BuyBookingEffects(s: LedgerState, o: OrderAggregate, fill: FillData, gross: int)
    requires ApplyBuyFill(s, o, fill, gross).Ok?
    ensures var (s', o') := ApplyBuyFill(s, o, fill, gross).value;
            && SameFrame(s, s') && s'.orders == s.orders
            && SameButReservations(o, o')
            && s'.cash == s.cash - gross - fill.fee
    ensures fill.price <= o.intent.limitPrice && o.fees + fill.fee <= o.intent.feeReserve
  {
    hide MoneyFromUnitPrice, PositionOrEmpty;
  }

  lemma SellBookingEffects(s: LedgerState, o: OrderAggregate, fill: FillData, gross: int)
    requires ApplySellFill(s, o, fill, gross).Ok?
    ensures var (s', o') := ApplySellFill(s, o, fill, gross).value;
            && SameFrame(s, s') && s'.orders == s.orders
            && SameButReservations(o, o')
            && s'.cash == s.cash + gross - fill.fee
  {
    hide AllocatedCost;
  }

  /** What booking a fill takes from or adds to cash. */
  function CashMoved(side: Side, gross: int, fee: int): int {
    if side == Buy then -gross - fee else gross - fee
  }

  /** A BUY fill within the limit and the fee reserve. */
  predicate WithinLimits(o: OrderAggregate, fill: FillData) {
    o.intent.side == Buy ==>
      fill.price <= o.intent.limitPrice && o.fees + fill.fee <= o.intent.feeReserve
  }

  /** Booking a fill moves cash by its gross value and fee, and writes no order. */
  lemma BookingEffects(s: LedgerState, o: OrderAggregate, fill: FillData, gross: int)
    requires BookFill(s, o, fill, gross).Ok?
    ensures var (s', o') := BookFill(s, o, fill, gross).value;
            && SameFrame(s, s') && s'.orders == s.orders
            && SameButReservations(o, o')
            && s'.cash == s.cash + CashMoved(o.intent.side, gross, fill.fee)
    ensures WithinLimits(o, fill)
  {
    hide ApplyBuyFill, ApplySellFill;
    if o.intent.side == Buy {
      BuyBookingEffects(s, o, fill, gross);
    } else {
      SellBookingEffects(s, o, fill, gross);
    }
  }

  lemma PositionWriteFrame(s: LedgerState, p: Position)
    ensures var t := ReplacePosition(s, p);
            SameFrame(s, t) && t.orders == s.orders && t.cash == s.cash && t.reservedCash == s.reservedCash
  {}

  lemma ReleaseEffects(s: LedgerState, o: OrderAggregate)
    requires ReleaseReservations(s, o).Ok?
    ensures var (s', o') := ReleaseReservations(s, o).value;
            && SameFrame(s, s') && s'.orders == s.orders && s'.cash == s.cash
            && SameButReservations(o, o')
  {
    hide ReplacePosition;
    if o.intent.side == Sell {
      var p := s.positions[o.intent.Key()];
      PositionWriteFrame(s, p.(reservedQuantity := p.reservedQuantity - o.reservedQuantity));
    }
  }

  /** What an accepted new fill does to its order and to cash. */
  lemma FillEffects(s: LedgerState, fill: FillData)
    requires ApplyFill(s, fill).Ok?
    ensures fill.intentId in s.orders
    ensures var t := ApplyFill(s, fill).value;
            var o := s.orders[fill.intentId];
            var gross := MoneyFromUnitPrice(fill.price, fill.quantity);
            if fill.fillId in o.fills then t == s && o.fills[fill.fillId] == fill
            else
              && SameFrame(s, t)
              && !o.state.Terminal()
              && o.intent.intentId in t.orders
              && t.orders == s.orders[o.intent.intentId := t.orders[o.intent.intentId]]
              && SameButReservations(WithFill(o, fill, gross), t.orders[o.intent.intentId])
              && t.cash == s.cash + CashMoved(o.intent.side, gross, fill.fee)
              && WithinLimits(o, fill)
  {
    hide MoneyFromUnitPrice, BookFill, ReleaseReservations;
    var o := s.orders[fill.intentId];
    if fill.fillId !in o.fills {
      var gross := MoneyFromUnitPrice(fill.price, fill.quantity);
      BookingEffects(s, o, fill, gross);
      var (s', o') := BookFill(s, o, fill, gross).value;
      var filled := WithFill(o', fill, gross);
      if filled.state == Filled {
        ReleaseEffects(s', filled);
      }
    }
  }

  lemma TerminalFrame(s: LedgerState, id: IntentId, target: OrderState, reason: Text)
    requires ApplyTerminal(s, id, target, reason).Ok?
    ensures SameFrame(s, ApplyTerminal(s, id, target, reason).value)
  {
    hide ReleaseReservations;
    ReleaseEffects(s, s.orders[id]);
  }

  lemma ReserveEffects(s: LedgerState, intent: OrderIntent)
    requires ReserveForIntent(s, intent).Ok?
    ensures var t := ReserveForIntent(s, intent).value;
            SameFrame(s, t) && t.orders == s.orders && t.cash == s.cash
  {
    hide ReplacePosition, MoneyFromUnitPrice;
    if intent.side == Sell {
      var p := s.positions[intent.Key()];
      PositionWriteFrame(s, p.(reservedQuantity := p.reservedQuantity + intent.quantity));
    }
  }

  /** A repeated intent changes nothing; a new one adds its order. */
  lemma IntentEffects(s: LedgerState, intent: OrderIntent)
    requires ApplyIntentCreated(s, intent).Ok?
    ensures var t := ApplyIntentCreated(s, intent).value;
            && SameFrame(s, t) && t.cash == s.cash
            && (if intent.intentId in s.orders then t == s
                else t.orders == s.orders[intent.intentId := NewOrder(intent)])
  {
    hide ReserveForIntent, NewOrder, MoneyFromUnitPrice;
    if intent.intentId !in s.orders {
      ReserveEffects(s, intent);
      NewOrderKeepsIntent(intent);
    }
  }

  lemma NewOrderKeepsIntent(intent: OrderIntent)
    ensures NewOrder(intent).intent == intent
  {}

  lemma BodyFrame(s: LedgerState, body: EventBody)
    requires ApplyBody(s, body).Ok?
    ensures ApplyBody(s, body).value.fingerprints == s.fingerprints
    ensures ApplyBody(s, body).value.isOpen <==> s.isOpen || body.AccountOpened?
    ensures body.AccountOpened? ==> !s.isOpen
  {
    hide MoneyFromUnitPrice, ObservationExtends, WithPayload, PayoutFor, MarkTotal,
         ApplyFill, ApplyTerminal, ApplyIntentCreated;
    match body
    case FillReceived(fill) => FillEffects(s, fill);
    case OrderIntentCreated(intent) => IntentEffects(s, intent);
    case OrderRejected(id, reason) => TerminalFrame(s, id, Rejected, reason);
    case OrderCancelled(id, reason) => TerminalFrame(s, id, Cancelled, reason);
    case _ =>
  }

  /** An accepted event either was already recorded, and changes nothing, or
      runs its reducer and is recorded. */
  lemma AcceptedStep(s: LedgerState, e: LedgerEvent)
    requires ApplyEvent(s, e).Ok?
    ensures var t := ApplyEvent(s, e).value;
            if e.eventId in s.fingerprints then s.fingerprints[e.eventId] == e && t == s
            else && ApplyBody(s, e.body).Ok?
                 && t == Record(ApplyBody(s, e.body).value, e)
                 && t.fingerprints == s.fingerprints[e.eventId := e]
                 && Invariant(t)
  {
    hide ApplyBody, InvariantButAvailable;
    if e.eventId !in s.fingerprints {
      BodyFrame(s, e.body);
    }
  }

  lemma ReplaySplitsAtLast(s: LedgerState, events: seq<LedgerEvent>)
    requires events != [] && ReplayFrom(s, events).Ok?
    ensures var before := ReplayFrom(s, events[..|events| - 1]);
            before.Ok? && ReplayFrom(s, events) == ApplyEvent(before.value, events[|events| - 1])
  {
    hide ApplyEvent;
  }

  lemma ReachedIsOk(events: seq<LedgerEvent>)
    requires Replay(events).Ok?
    ensures Invariant(Replay(events).value)
  {
    hide InvariantButAvailable;
    EmptyLedgerIsOk();
    ReplayKeepsInvariant(EMPTY_LEDGER, events);
  }

  // ---- Redelivery ----

  /** A replayed log records exactly its own events, each under its identifier. */
  lemma {:induction false} ReplayRecords(events: seq<LedgerEvent>)
    requires Replay(events).Ok?
    ensures var s := Replay(events).value;
            && (forall e :: e in events ==> e.eventId in s.fingerprints
                                            && s.fingerprints[e.eventId] == e)
            && (forall id :: id in s.fingerprints ==>
                               s.fingerprints[id] in events && s.fingerprints[id].eventId == id)
    decreases |events|
  {
    hide ApplyBody, InvariantButAvailable, ApplyEvent;
    if events != [] {
      var prefix, e := events[..|events| - 1], events[|events| - 1];
      assert events == prefix + [e];
      ReplaySplitsAtLast(EMPTY_LEDGER, events);
      ReplayRecords(prefix);
      AcceptedStep(Replay(prefix).value, e);
    }
  }

  /** A log with every repetition of an earlier event struck out. */
  function Distinct(events: seq<LedgerEvent>): seq<LedgerEvent> {
    if events == [] then []
    else
      var prefix, last := events[..|events| - 1], events[|events| - 1];
      if last in prefix then Distinct(prefix) else Distinct(prefix) + [last]
  }

  /** Delivering copies of earlier events, anywhere and any number of times,
      changes neither the outcome of replay nor the state it reaches. */
  lemma {:induction false} RedeliveryIsHarmless(events: seq<LedgerEvent>)
    ensures Replay(events) == Replay(Distinct(events))
    decreases |events|
  {
    hide ApplyBody, InvariantButAvailable, ApplyEvent;
    if events != [] {
      var prefix, e := events[..|events| - 1], events[|events| - 1];
      RedeliveryIsHarmless(prefix);
      if e in prefix {
        if Replay(prefix).Ok? {
          ReplayRecords(prefix);
          RecordedEventIsSkipped(Replay(prefix).value, e);
        }
      } else {
        assert (Distinct(prefix) + [e])[..|Distinct(prefix)|] == Distinct(prefix);
      }
    }
  }

  lemma RecordedEventIsSkipped(s: LedgerState, e: LedgerEvent)
    requires e.eventId in s.fingerprints && s.fingerprints[e.eventId] == e
    ensures ApplyEvent(s, e) == Ok(s)
  {
    hide ApplyBody, InvariantButAvailable;
  }

  // ---- Lifecycle ----

  /** What time may do to an order: fills accumulate, identity and backend
      identifier stay, and a terminal order never changes. */
  predicate Progress(before: OrderAggregate, after: OrderAggregate) {
    && after.intent == before.intent
    && before.filledQuantity <= after.filledQuantity
    && (before.backendOrderId.Some? ==> after.backendOrderId == before.backendOrderId)
    && before.fills.Keys <= after.fills.Keys
    && (forall id :: id in before.fills ==> after.fills[id] == before.fills[id])
    && (before.state.Terminal() ==> after == before)
  }

  predicate OrdersProgress(before: Orders, after: Orders) {
    forall id :: id in before ==> id in after && Progress(before[id], after[id])
  }

  lemma ProgressComposes(a: Orders, b: Orders, c: Orders)
    requires OrdersProgress(a, b) && OrdersProgress(b, c)
    ensures OrdersProgress(a, c)
  {
    forall id | id in a ensures id in c && Progress(a[id], c[id]) {
      assert Progress(a[id], b[id]) && Progress(b[id], c[id]);
    }
  }

  /** Orders are stored under their own identifier. */
  predicate IdsMatch(orders: Orders) {
    forall id :: id in orders ==> orders[id].intent.intentId == id
  }

  lemma OneOrderProgresses(orders: Orders, o: OrderAggregate)
    requires o.intent.intentId in orders ==> Progress(orders[o.intent.intentId], o)
    ensures OrdersProgress(orders, orders[o.intent.intentId := o])
  {}

  lemma FillProgresses(s: LedgerState, fill: FillData)
    requires IdsMatch(s.orders) && ApplyFill(s, fill).Ok?
    ensures OrdersProgress(s.orders, ApplyFill(s, fill).value.orders)
    ensures fill.intentId in ApplyFill(s, fill).value.orders
    ensures var o := ApplyFill(s, fill).value.orders[fill.intentId];
            fill.fillId in o.fills && o.fills[fill.fillId] == fill
  {
    hide ApplyFill, MoneyFromUnitPrice;
    FillEffects(s, fill);
    var o := s.orders[fill.intentId];
    if fill.fillId !in o.fills {
      OneOrderProgresses(s.orders, ApplyFill(s, fill).value.orders[fill.intentId]);
    }
  }

  lemma TerminalProgresses(s: LedgerState, id: IntentId, target: OrderState, reason: Text)
    requires IdsMatch(s.orders) && ApplyTerminal(s, id, target, reason).Ok?
    ensures OrdersProgress(s.orders, ApplyTerminal(s, id, target, reason).value.orders)
  {
    hide ReleaseReservations;
    var o := s.orders[id];
    ReleaseEffects(s, o);
    OneOrderProgresses(s.orders, ApplyTerminal(s, id, target, reason).value.orders[id]);
  }

  lemma IntentProgresses(s: LedgerState, intent: OrderIntent)
    requires ApplyIntentCreated(s, intent).Ok?
    ensures OrdersProgress(s.orders, ApplyIntentCreated(s, intent).value.orders)
  {
    hide ApplyIntentCreated, NewOrder;
    IntentEffects(s, intent);
  }

  /** `o'` is `o` in another state, with other notes. */
  predicate SameButNotes(o: OrderAggregate, o': OrderAggregate) {
    && o' == o.(state := o'.state, backendOrderId := o'.backendOrderId, unknownReason := o'.unknownReason)
    && (o.backendOrderId.Some? ==> o'.backendOrderId == o.backendOrderId)
    && !o.state.Terminal()
  }

  lemma RelabelEffects(s: LedgerState, body: EventBody)
    requires body.OrderSubmitted? || body.OrderAcknowledged? || body.OrderOutcomeUnknown?
    requires IdsMatch(s.orders) && ApplyBody(s, body).Ok?
    ensures var t, id := ApplyBody(s, body).value, body.intentId;
            && id in s.orders && id in t.orders
            && t.orders == s.orders[id := t.orders[id]] && SameButNotes(s.orders[id], t.orders[id])
  {}

  lemma RelabelProgresses(s: LedgerState, body: EventBody)
    requires body.OrderSubmitted? || body.OrderAcknowledged? || body.OrderOutcomeUnknown?
    requires IdsMatch(s.orders) && ApplyBody(s, body).Ok?
    ensures OrdersProgress(s.orders, ApplyBody(s, body).value.orders)
  {
    hide OrdersProgress, ApplyBody;
    RelabelEffects(s, body);
    OneOrderProgresses(s.orders, ApplyBody(s, body).value.orders[body.intentId]);
  }

  lemma OtherBodiesKeepOrders(s: LedgerState, body: EventBody)
    requires body.PositionSettled? || body.WeatherObservationRecorded? || body.AccountOpened?
             || body.ResolutionEvidenceRecorded? || body.MarketResolved?
             || body.RiskScopeRegistered? || body.PortfolioValuationRecorded?
    requires ApplyBody(s, body).Ok?
    ensures ApplyBody(s, body).value.orders == s.orders
  {
    hide MoneyFromUnitPrice, ObservationExtends, WithPayload, PayoutFor, MarkTotal;
  }

  lemma BodyProgresses(s: LedgerState, body: EventBody)
    requires IdsMatch(s.orders) && ApplyBody(s, body).Ok?
    ensures OrdersProgress(s.orders, ApplyBody(s, body).value.orders)
  {
    hide ApplyFill, ApplyTerminal, ApplyIntentCreated, ApplySettlement, ApplyObservation,
         ApplyValuation, ApplyEvidence, ApplyResolution, ApplyAccountOpened,
         ApplySubmitted, ApplyAcknowledged, ApplyUnknown;
    match body
    case FillReceived(fill) => FillProgresses(s, fill);
    case OrderIntentCreated(intent) => IntentProgresses(s, intent);
    case OrderRejected(id, reason) => TerminalProgresses(s, id, Rejected, reason);
    case OrderCancelled(id, reason) => TerminalProgresses(s, id, Cancelled, reason);
    case OrderSubmitted(_, _) => RelabelProgresses(s, body);
    case OrderAcknowledged(_) => RelabelProgresses(s, body);
    case OrderOutcomeUnknown(_, _) => RelabelProgresses(s, body);
    case _ => OtherBodiesKeepOrders(s, body);
  }

  lemma InvariantGivesIds(s: LedgerState)
    requires Invariant(s)
    ensures IdsMatch(s.orders)
  {}

  /** Over every run from every legal ledger: no order is lost; its intent and
      backend identifier never change once written, its filled quantity never
      falls, its fills are never forgotten; and once filled, rejected or
      cancelled it never changes again and holds no reservation. */
  lemma {:induction false} LifecycleIsSafe(s: LedgerState, events: seq<LedgerEvent>)
    requires Invariant(s) && ReplayFrom(s, events).Ok?
    ensures var t := ReplayFrom(s, events).value;
            && OrdersProgress(s.orders, t.orders)
            && forall id :: id in t.orders && t.orders[id].state.Terminal() ==>
                              t.orders[id].reservedCash == 0 && t.orders[id].reservedQuantity == 0
    decreases |events|
  {
    hide ApplyBody, ApplyEvent, InvariantButAvailable;
    ReplayKeepsInvariant(s, events);
    InvariantFreesTerminals(ReplayFrom(s, events).value);
    if events != [] {
      var prefix := events[..|events| - 1];
      ReplaySplitsAtLast(s, events);
      ReplayKeepsInvariant(s, prefix);
      LifecycleIsSafe(s, prefix);
      var mid := ReplayFrom(s, prefix).value;
      StepProgresses(mid, events[|events| - 1]);
      ProgressComposes(s.orders, mid.orders, ReplayFrom(s, events).value.orders);
    }
  }

  lemma StepProgresses(s: LedgerState, e: LedgerEvent)
    requires Invariant(s) && ApplyEvent(s, e).Ok?
    ensures OrdersProgress(s.orders, ApplyEvent(s, e).value.orders)
  {
    hide ApplyBody, ApplyEvent, InvariantButAvailable;
    AcceptedStep(s, e);
    InvariantGivesIds(s);
    if e.eventId !in s.fingerprints {
      BodyProgresses(s, e.body);
    }
  }

  lemma InvariantFreesTerminals(s: LedgerState)
    requires Invariant(s)
    ensures forall id :: id in s.orders && s.orders[id].state.Terminal() ==>
                           s.orders[id].reservedCash == 0 && s.orders[id].reservedQuantity == 0
  {}

  // ---- The same fill under a new event identifier ----

  /** A fill a log has delivered stays on its order. */
  lemma {:induction false} DeliveredFillIsKept(events: seq<LedgerEvent>, e: LedgerEvent)
    requires Replay(events).Ok? && e in events && e.body.FillReceived?
    ensures var fill, s := e.body.fill, Replay(events).value;
            && fill.intentId in s.orders
            && fill.fillId in s.orders[fill.intentId].fills
            && s.orders[fill.intentId].fills[fill.fillId] == fill
    decreases |events|
  {
    hide ApplyBody, ApplyEvent, InvariantButAvailable, ApplyFill;
    var prefix, last := events[..|events| - 1], events[|events| - 1];
    assert events == prefix + [last];
    ReplaySplitsAtLast(EMPTY_LEDGER, events);
    ReachedIsOk(prefix);
    var s := Replay(prefix).value;
    StepProgresses(s, last);
    AcceptedStep(s, last);
    if e in prefix {
      DeliveredFillIsKept(prefix, e);
    } else {
      ReplayRecords(prefix);
      InvariantGivesIds(s);
      FillBodyStores(s, e.body.fill);
    }
  }

  lemma FillBodyStores(s: LedgerState, fill: FillData)
    requires IdsMatch(s.orders) && ApplyBody(s, FillReceived(fill)).Ok?
    ensures var orders := ApplyBody(s, FillReceived(fill)).value.orders;
            && fill.intentId in orders
            && fill.fillId in orders[fill.intentId].fills
            && orders[fill.intentId].fills[fill.fillId] == fill
  {
    hide ApplyFill;
    FillProgresses(s, fill);
  }

  /** Delivering a fill again under a new event identifier changes nothing but
      the recorded event fingerprints. */
  lemma ResentFillIsOnlyRecorded(events: seq<LedgerEvent>, e: LedgerEvent, again: LedgerEvent)
    requires Replay(events).Ok? && e in events && e.body.FillReceived?
    requires again.body == e.body && again.eventId !in Replay(events).value.fingerprints
    ensures Replay(events + [again]) == Ok(Record(Replay(events).value, again))
  {
    hide ApplyBody, InvariantButAvailable, Replay;
    var s := Replay(events).value;
    DeliveredFillIsKept(events, e);
    ReachedIsOk(events);
    StoredFillIsIgnored(s, e.body.fill);
    RecordKeeps(s, again);
    ReplayOneMore(events, again);
  }

  lemma StoredFillIsIgnored(s: LedgerState, fill: FillData)
    requires fill.intentId in s.orders && fill.fillId in s.orders[fill.intentId].fills
    requires s.orders[fill.intentId].fills[fill.fillId] == fill
    ensures ApplyBody(s, FillReceived(fill)) == Ok(s)
  {}
}
