/** How far rounding can carry the charges of a BUY order past what it reserved. */
module RoundingDrift {
  import opened Rounding
  import opened Model
  import opened Events
  import opened State
  import opened Reducers
  import opened LedgerInvariants
  import opened LedgerRuns

  /** Gross value exceeds what was filled at the limit by at most half a
      micro-unit for each fill. */
  predicate DriftOk(o: OrderAggregate) {
    o.intent.side == Buy ==>
      && o.fees <= o.intent.feeReserve
      && 0 <= o.filledQuantity <= o.intent.quantity
      && 2_000_000 * o.grossValue
         <= 2 * (o.intent.limitPrice * o.filledQuantity) + 1_000_000 * |o.fills|
  }

  lemma NewFillKeepsDrift(o: OrderAggregate, o': OrderAggregate, fill: FillData)
    requires DriftOk(o) && fill.fillId !in o.fills && WithinLimits(o, fill)
    requires o.filledQuantity + fill.quantity <= o.intent.quantity
    requires SameButReservations(
               WithFill(o, fill, MoneyFromUnitPrice(fill.price, fill.quantity)), o')
    ensures DriftOk(o')
  {
    hide MoneyFromUnitPrice;
    var limit, gross := o.intent.limitPrice, MoneyFromUnitPrice(fill.price, fill.quantity);
    assert |o'.fills| == |o.fills| + 1;
    if o.intent.side == Buy {
      ProductGrows(fill.price, limit, fill.quantity);
      assert limit * o'.filledQuantity == limit * o.filledQuantity + limit * fill.quantity;
      assert 2_000_000 * gross <= 2 * (limit * fill.quantity) + 1_000_000;
    }
  }

  /** The cash a log takes out through the fills of one order. */
  ghost function CashPaid(events: seq<LedgerEvent>, id: IntentId): int
    requires Replay(events).Ok?
    decreases |events|
  {
    if events == [] then 0
    else
      var prefix, last := events[..|events| - 1], events[|events| - 1];
      CashPaid(prefix, id)
      + if last.body.FillReceived? && last.body.fill.intentId == id
        then Replay(prefix).value.cash - Replay(events).value.cash
        else 0
  }

  /** What a BUY order has been charged, while its drift is bounded. */
  predicate ChargedAndBounded(orders: Orders, id: IntentId, paid: int) {
    if id in orders then
      DriftOk(orders[id])
      && (orders[id].intent.side == Buy ==> paid == orders[id].grossValue + orders[id].fees)
    else paid == 0
  }

  lemma BodyCharges(s: LedgerState, body: EventBody, id: IntentId, paid: int)
    requires Invariant(s) && ApplyBody(s, body).Ok? && ChargedAndBounded(s.orders, id, paid)
    ensures var t := ApplyBody(s, body).value;
            var step := if body.FillReceived? && body.fill.intentId == id then s.cash - t.cash else 0;
            ChargedAndBounded(t.orders, id, paid + step)
  {
    hide ApplyFill, ApplyTerminal, ApplyIntentCreated, ApplySettlement, ApplyObservation,
         ApplyValuation, ApplyEvidence, ApplyResolution, ApplyAccountOpened,
         ApplySubmitted, ApplyAcknowledged, ApplyUnknown, InvariantButAvailable;
    InvariantGivesIds(s);
    match body
    case FillReceived(fill) => FillCharges(s, fill, id, paid);
    case OrderIntentCreated(intent) => IntentCharges(s, intent, id, paid);
    case OrderRejected(i, reason) => TerminalCharges(s, i, Rejected, reason, id, paid);
    case OrderCancelled(i, reason) => TerminalCharges(s, i, Cancelled, reason, id, paid);
    case OrderSubmitted(_, _) => RelabelCharges(s, body, id, paid);
    case OrderAcknowledged(_) => RelabelCharges(s, body, id, paid);
    case OrderOutcomeUnknown(_, _) => RelabelCharges(s, body, id, paid);
    case _ => OtherBodiesKeepOrders(s, body);
  }

  lemma FillCharges(s: LedgerState, fill: FillData, id: IntentId, paid: int)
    requires IdsMatch(s.orders) && ApplyFill(s, fill).Ok? && ChargedAndBounded(s.orders, id, paid)
    ensures var t := ApplyFill(s, fill).value;
            ChargedAndBounded(t.orders, id, paid + if fill.intentId == id then s.cash - t.cash else 0)
  {
    hide ApplyFill, MoneyFromUnitPrice, DriftOk;
    FillEffects(s, fill);
    var o := s.orders[fill.intentId];
    if fill.fillId !in o.fills && fill.intentId == id {
      FillStaysWithinOrder(s, fill);
      NewFillKeepsDrift(o, ApplyFill(s, fill).value.orders[id], fill);
    }
  }

  lemma FillStaysWithinOrder(s: LedgerState, fill: FillData)
    requires ApplyFill(s, fill).Ok?
    ensures var o := s.orders[fill.intentId];
            fill.fillId !in o.fills ==> o.filledQuantity + fill.quantity <= o.intent.quantity
  {
    hide MoneyFromUnitPrice, BookFill, ReleaseReservations;
  }

  lemma TerminalCharges(
    s: LedgerState, i: IntentId, target: OrderState, reason: Text, id: IntentId, paid: int)
    requires IdsMatch(s.orders) && ApplyTerminal(s, i, target, reason).Ok?
    requires ChargedAndBounded(s.orders, id, paid)
    ensures ChargedAndBounded(ApplyTerminal(s, i, target, reason).value.orders, id, paid)
  {
    hide ReleaseReservations;
    ReleaseEffects(s, s.orders[i]);
  }

  lemma IntentCharges(s: LedgerState, intent: OrderIntent, id: IntentId, paid: int)
    requires ApplyIntentCreated(s, intent).Ok? && ChargedAndBounded(s.orders, id, paid)
    ensures ChargedAndBounded(ApplyIntentCreated(s, intent).value.orders, id, paid)
  {
    hide ApplyIntentCreated, MoneyFromUnitPrice;
    IntentEffects(s, intent);
  }

  lemma RelabelCharges(s: LedgerState, body: EventBody, id: IntentId, paid: int)
    requires body.OrderSubmitted? || body.OrderAcknowledged? || body.OrderOutcomeUnknown?
    requires IdsMatch(s.orders) && ApplyBody(s, body).Ok? && ChargedAndBounded(s.orders, id, paid)
    ensures ChargedAndBounded(ApplyBody(s, body).value.orders, id, paid)
  {
    hide ApplyBody;
    RelabelEffects(s, body);
  }

  lemma {:induction false} RunCharges(events: seq<LedgerEvent>, id: IntentId)
    requires Replay(events).Ok?
    ensures ChargedAndBounded(Replay(events).value.orders, id, CashPaid(events, id))
    decreases |events|
  {
    hide ApplyBody, ApplyEvent, InvariantButAvailable, ChargedAndBounded;
    if events == [] {
      NothingCharged(id);
    } else {
      var prefix, e := events[..|events| - 1], events[|events| - 1];
      ReplaySplitsAtLast(EMPTY_LEDGER, events);
      RunCharges(prefix, id);
      ReachedIsOk(prefix);
      var s := Replay(prefix).value;
      AcceptedStep(s, e);
      if e.eventId !in s.fingerprints {
        BodyCharges(s, e.body, id, CashPaid(prefix, id));
      }
    }
  }

  lemma NothingCharged(id: IntentId)
    ensures ChargedAndBounded(EMPTY_LEDGER.orders, id, 0)
  {}

  /** Over every accepted log: the cash a BUY order with k distinct fills has
      cost exceeds what the order first reserved by at most (k + 1) / 2 micro-units. */
  lemma RoundingDriftIsBounded(events: seq<LedgerEvent>, id: IntentId)
    requires Replay(events).Ok? && id in Replay(events).value.orders
    requires Replay(events).value.orders[id].intent.side == Buy
    ensures var o := Replay(events).value.orders[id];
            2 * (CashPaid(events, id) - o.intent.CashReservation()) <= |o.fills| + 1
  {
    hide Replay, CashPaid, MoneyFromUnitPrice;
    RunCharges(events, id);
    var o := Replay(events).value.orders[id];
    ProductGrows(o.filledQuantity, o.intent.quantity, o.intent.limitPrice);
    assert o.intent.limitPrice * o.filledQuantity <= o.intent.limitPrice * o.intent.quantity;
  }
}
