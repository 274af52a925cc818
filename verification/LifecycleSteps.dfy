/** One lifecycle event, seen from its order. */
module LifecycleSteps {
  import opened Rounding
  import opened Model
  import opened Events
  import opened State
  import opened Reducers
  import opened LedgerRuns

  /** A lifecycle event of the order `id`. */
  predicate Concerns(body: EventBody, id: IntentId) {
    if body.FillReceived? then body.fill.intentId == id
    else
      (body.OrderSubmitted? || body.OrderAcknowledged? || body.OrderRejected?
       || body.OrderCancelled? || body.OrderOutcomeUnknown?)
      && body.intentId == id
  }

  /** What a lifecycle event makes of its order, reservations aside. */
  function Stepped(o: OrderAggregate, body: EventBody): OrderAggregate {
    match body
    case OrderSubmitted(_, backend) => o.(state := Submitted, backendOrderId := Some(backend))
    case OrderAcknowledged(_) => o.(state := Acknowledged, unknownReason := None)
    case OrderOutcomeUnknown(_, reason) => o.(state := Unknown, unknownReason := Some(reason))
    case OrderRejected(_, reason) => Closing(o, Rejected, reason)
    case OrderCancelled(_, reason) => Closing(o, Cancelled, reason)
    case FillReceived(fill) => WithFill(o, fill, MoneyFromUnitPrice(fill.price, fill.quantity))
    case _ => o
  }

  function Closing(o: OrderAggregate, target: OrderState, reason: Text): OrderAggregate {
    o.(state := target, terminalReason := Some(reason), unknownReason := None)
  }

  /** The cash a lifecycle event moves. */
  function CashOf(o: OrderAggregate, body: EventBody): int {
    match body
    case FillReceived(fill) =>
      CashMoved(o.intent.side, MoneyFromUnitPrice(fill.price, fill.quantity), fill.fee)
    case _ => 0
  }

  /** The step of one order from `u` to `t`; nothing is said of positions. */
  ghost predicate OneStep(u: LedgerState, t: LedgerState, id: IntentId, body: EventBody) {
    && id in u.orders && id in t.orders
    && t.orders == u.orders[id := t.orders[id]]
    && SameButReservations(Stepped(u.orders[id], body), t.orders[id])
    && t.cash == u.cash + CashOf(u.orders[id], body)
    && t.orders[id].state in AllowedTransitions(u.orders[id].state)
  }

  lemma FillStep(u: LedgerState, fill: FillData)
    requires IdsMatch(u.orders) && ApplyFill(u, fill).Ok?
    requires fill.intentId in u.orders ==> fill.fillId !in u.orders[fill.intentId].fills
    ensures OneStep(u, ApplyFill(u, fill).value, fill.intentId, FillReceived(fill))
  {
    hide MoneyFromUnitPrice, BookFill, ReleaseReservations;
    FillEffects(u, fill);
    assert FillTarget(u.orders[fill.intentId], fill.quantity)
           in AllowedTransitions(u.orders[fill.intentId].state);
  }

  lemma ClosingStep(u: LedgerState, id: IntentId, target: OrderState, reason: Text, body: EventBody)
    requires IdsMatch(u.orders) && ApplyTerminal(u, id, target, reason).Ok?
    requires (body == OrderRejected(id, reason) && target == Rejected)
             || (body == OrderCancelled(id, reason) && target == Cancelled)
    ensures OneStep(u, ApplyTerminal(u, id, target, reason).value, id, body)
  {
    hide ReleaseReservations;
    ReleaseEffects(u, u.orders[id]);
  }

  lemma LabelStep(u: LedgerState, id: IntentId, body: EventBody)
    requires body.OrderSubmitted? || body.OrderAcknowledged? || body.OrderOutcomeUnknown?
    requires IdsMatch(u.orders) && body.intentId == id && ApplyBody(u, body).Ok?
    ensures OneStep(u, ApplyBody(u, body).value, id, body)
  {}

  lemma RecordedStep(u: LedgerState, t: LedgerState, e: LedgerEvent, id: IntentId)
    requires OneStep(u, t, id, e.body)
    ensures OneStep(u, Record(t, e), id, e.body)
  {
    hide Stepped, CashOf;
  }

  /** A new lifecycle event writes its own order only, as `Stepped` says. */
  lemma LifecycleStep(u: LedgerState, id: IntentId, e: LedgerEvent)
    requires Invariant(u) && Concerns(e.body, id)
    requires e.eventId !in u.fingerprints && ApplyEvent(u, e).Ok?
    requires e.body.FillReceived? && id in u.orders ==> e.body.fill.fillId !in u.orders[id].fills
    ensures OneStep(u, ApplyEvent(u, e).value, id, e.body)
  {
    hide InvariantButAvailable, ApplyBody, ApplyEvent, OneStep, IdsMatch;
    AcceptedStep(u, e);
    InvariantGivesIds(u);
    BodyStep(u, id, e.body);
    RecordedStep(u, ApplyBody(u, e.body).value, e, id);
  }

  lemma BodyStep(u: LedgerState, id: IntentId, body: EventBody)
    requires IdsMatch(u.orders) && Concerns(body, id) && ApplyBody(u, body).Ok?
    requires body.FillReceived? && id in u.orders ==> body.fill.fillId !in u.orders[id].fills
    ensures OneStep(u, ApplyBody(u, body).value, id, body)
  {
    hide ApplyFill, ApplyTerminal, FillTarget, OneStep, IdsMatch, ApplySubmitted, ApplyAcknowledged, ApplyUnknown,
         ApplyIntentCreated, ApplySettlement, ApplyObservation, ApplyValuation, ApplyEvidence,
         ApplyResolution, ApplyAccountOpened;
    match body
    case FillReceived(fill) => FillStep(u, fill);
    case OrderRejected(_, reason) => ClosingStep(u, id, Rejected, reason, body);
    case OrderCancelled(_, reason) => ClosingStep(u, id, Cancelled, reason, body);
    case _ => LabelStep(u, id, body);
  }

  /** An event about something else leaves the order as it is; it may at most create it. */
  ghost predicate Untouched(u: LedgerState, t: LedgerState, id: IntentId, body: EventBody) {
    if id in u.orders then id in t.orders && t.orders[id] == u.orders[id]
    else
      id in t.orders ==>
        body.OrderIntentCreated? && body.intent.intentId == id && t.orders[id] == NewOrder(body.intent)
  }

  lemma OtherBodyUntouched(u: LedgerState, id: IntentId, body: EventBody)
    requires IdsMatch(u.orders) && !Concerns(body, id) && ApplyBody(u, body).Ok?
    ensures Untouched(u, ApplyBody(u, body).value, id, body)
  {
    hide ApplyFill, ApplyTerminal, ApplyIntentCreated, ApplySettlement, ApplyObservation, ReleaseReservations,
         ApplyValuation, ApplyEvidence, ApplyResolution, ApplyAccountOpened, NewOrder;
    match body
    case FillReceived(fill) => FillEffects(u, fill);
    case OrderIntentCreated(intent) => IntentEffects(u, intent);
    case OrderRejected(other, reason) => ClosingStep(u, other, Rejected, reason, body);
    case OrderCancelled(other, reason) => ClosingStep(u, other, Cancelled, reason, body);
    case OrderSubmitted(_, _) => RelabelEffects(u, body);
    case OrderAcknowledged(_) => RelabelEffects(u, body);
    case OrderOutcomeUnknown(_, _) => RelabelEffects(u, body);
    case _ => OtherBodiesKeepOrders(u, body);
  }

  lemma OtherEventUntouched(u: LedgerState, id: IntentId, e: LedgerEvent)
    requires Invariant(u) && !Concerns(e.body, id) && ApplyEvent(u, e).Ok?
    ensures Untouched(u, ApplyEvent(u, e).value, id, e.body)
  {
    hide InvariantButAvailable, ApplyBody, ApplyEvent, IdsMatch, Concerns;
    AcceptedStep(u, e);
    InvariantGivesIds(u);
    if e.eventId !in u.fingerprints {
      OtherBodyUntouched(u, id, e.body);
    }
  }

  lemma StepHasOrder(u: LedgerState, t: LedgerState, id: IntentId, body: EventBody)
    requires OneStep(u, t, id, body)
    ensures id in u.orders && id in t.orders
  {}

  /** A lifecycle event is accepted only for an order that is there. */
  lemma ConcernedBodyHasOrder(s: LedgerState, id: IntentId, body: EventBody)
    requires Concerns(body, id) && ApplyBody(s, body).Ok?
    ensures id in s.orders
  {
    hide BookFill, ReleaseReservations;
  }
}
