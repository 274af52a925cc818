/** From an execution plan to ledger events, and what the ledger makes of them. */
module PaperLedger {
  import opened Rounding
  import opened MapSums
  import opened Model
  import opened Events
  import opened State
  import opened Reducers
  import opened LedgerInvariants
  import opened LedgerRuns
  import opened Conservation
  import opened DepthWalk
  import opened OrderBook
  import opened PaperDepth
  import opened PaperPlan

  /** A short form of each reason text. */
  function ReasonText(reason: PlanReason): Text {
    match reason
    case QuantityBelowMinimum => "quantity"
    case DepthBelowMinimum => "depth"
    case AverageBeyondLimit => "average"
    case BeyondReservation => "reservation"
    case FeeBeyondProceeds => "fee"
    case FilledInFull => "filled"
    case RemainderCancelled => "remainder"
  }

  function PlanFill(plan: Plan): FillData
    requires plan.Valid() && plan.status != Refused
  {
    FillData(plan.intentId, PaperId(FillTag, plan.intentId),
             plan.filledQuantity, plan.averagePrice.value, plan.fee)
  }

  function PlanEvent(plan: Plan, tag: PaperTag, body: EventBody): LedgerEvent {
    LedgerEvent(PaperId(tag, plan.intentId), plan.submittedAt, body)
  }

  function SubmittedEvent(plan: Plan): LedgerEvent {
    PlanEvent(plan, SubmittedTag, OrderSubmitted(plan.intentId, plan.backendOrderId))
  }

  function RejectedEvent(plan: Plan): LedgerEvent {
    PlanEvent(plan, RejectedTag, OrderRejected(plan.intentId, ReasonText(plan.reason)))
  }

  function AcknowledgedEvent(plan: Plan): LedgerEvent {
    PlanEvent(plan, AcknowledgedTag, OrderAcknowledged(plan.intentId))
  }

  function FillEvent(plan: Plan): LedgerEvent
    requires plan.Valid() && plan.status != Refused
  {
    PlanEvent(plan, FillEventTag, FillReceived(PlanFill(plan)))
  }

  function CancelledEvent(plan: Plan): LedgerEvent {
    PlanEvent(plan, RemainderCancelledTag, OrderCancelled(plan.intentId, ReasonText(plan.reason)))
  }

  /** The lifecycle events of a plan, in order. */
  function PlannedEvents(plan: Plan): seq<LedgerEvent>
    requires plan.Valid()
  {
    match plan.status
    case Refused => [SubmittedEvent(plan), RejectedEvent(plan)]
    case FullFill => [SubmittedEvent(plan), AcknowledgedEvent(plan), FillEvent(plan)]
    case PartialFill =>
      [SubmittedEvent(plan), AcknowledgedEvent(plan), FillEvent(plan), CancelledEvent(plan)]
  }

  /** `events_for_plan`; none where the source raises. */
  function EventsForPlan(intent: OrderIntent, plan: Plan): Option<seq<LedgerEvent>>
    requires plan.Valid()
  {
    if plan.intentId != intent.intentId then None else Some(PlannedEvents(plan))
  }

  /** `reconcile`: the events that still have to be applied, judged by the
      order's state alone. */
  function Reconcile(order: OrderAggregate, plan: Option<Plan>): Option<seq<LedgerEvent>>
    requires plan.Some? ==> plan.value.Valid()
  {
    if order.state.Terminal() then Some([])
    else if plan.None? then None
    else
      match EventsForPlan(order.intent, plan.value)
      case None => None
      case Some(planned) => Some(RestOf(order.state, plan.value, planned))
  }

  function RestOf(state: OrderState, plan: Plan, planned: seq<LedgerEvent>): seq<LedgerEvent>
    requires 2 <= |planned|
  {
    match state
    case Created => planned
    case Submitted => planned[1..]
    case Acknowledged => planned[2..]
    case PartiallyFilled => if plan.status == PartialFill then planned[|planned| - 1..] else []
    case Unknown => if plan.status == Refused then planned[|planned| - 1..] else planned[2..]
    case _ => []
  }

  /** The events of a plan: of its order, at its time, each under an identifier
      of its own, from submission to the end of the order. */
  lemma PlannedEventsSay(plan: Plan)
    requires plan.Valid()
    ensures var events, id := PlannedEvents(plan), plan.intentId;
            && (forall i :: 0 <= i < |events| ==> events[i].occurredAt == plan.submittedAt)
            && (forall i, j :: 0 <= i < j < |events| ==> events[i].eventId != events[j].eventId)
            && |events| == (if plan.status == Refused then 2 else if plan.status == FullFill then 3 else 4)
            && events[0].body == OrderSubmitted(id, plan.backendOrderId)
            && (plan.status == Refused ==> events[1].body.OrderRejected? && events[1].body.intentId == id)
            && (plan.status != Refused ==>
                  && events[1].body == OrderAcknowledged(id)
                  && events[2].body.FillReceived?
                  && var fill := events[2].body.fill;
                  && fill.intentId == id && fill.quantity == plan.filledQuantity
                  && Some(fill.price) == plan.averagePrice && fill.fee == plan.fee)
            && (plan.status == PartialFill ==> events[3].body.OrderCancelled? && events[3].body.intentId == id)
  {
    hide TotalFilled;
  }

  // ---- What the ledger accepts ----

  const PLAN_TAGS := {SubmittedTag, RejectedTag, AcknowledgedTag, FillEventTag, RemainderCancelledTag}

  /** A ledger in which the intent has just been reserved and nothing of its plan has arrived. */
  ghost predicate Awaits(s: LedgerState, intent: OrderIntent) {
    && Invariant(s)
    && intent.intentId in s.orders
    && s.orders[intent.intentId] == NewOrder(intent)
    && forall tag :: tag in PLAN_TAGS ==> PaperId(tag, intent.intentId) !in s.fingerprints
  }

  /** Whether the ledger can take the plan's fill and end within its means. */
  predicate Affordable(s: LedgerState, intent: OrderIntent, plan: Plan)
    requires plan.Valid()
  {
    plan.status == Refused || intent.side == Sell
    || (&& plan.fee <= intent.feeReserve
        && PositionOrEmpty(s, intent.Key()).status == Open
        && (plan.status == FullFill
            || 0 <= s.AvailableCash() + RoundingSlack(NewOrder(intent), PlanFill(plan))))
  }

  function Relabelled(s: LedgerState, o: OrderAggregate, e: LedgerEvent): LedgerState {
    Record(ReplaceOrder(s, o), e)
  }

  function SubmittedOrder(intent: OrderIntent, plan: Plan): OrderAggregate {
    NewOrder(intent).(state := Submitted, backendOrderId := Some(plan.backendOrderId))
  }

  /** The ledger once the plan's submission has been applied. */
  function AfterSubmission(s: LedgerState, intent: OrderIntent, plan: Plan): LedgerState {
    Relabelled(s, SubmittedOrder(intent, plan), SubmittedEvent(plan))
  }

  /** The ledger once the plan's acknowledgement has been applied too. */
  function AfterAcknowledgement(s: LedgerState, intent: OrderIntent, plan: Plan): LedgerState {
    Relabelled(AfterSubmission(s, intent, plan),
               SubmittedOrder(intent, plan).(state := Acknowledged), AcknowledgedEvent(plan))
  }

  lemma RelabelAccepted(s: LedgerState, e: LedgerEvent)
    requires Invariant(s) && e.eventId !in s.fingerprints
    requires e.body.OrderSubmitted? || e.body.OrderAcknowledged? || e.body.OrderOutcomeUnknown?
    ensures ApplyEvent(s, e) == Reduce(s, e)
    ensures ApplyEvent(s, e).Ok? ==> Invariant(ApplyEvent(s, e).value)
  {
    hide ApplyBody, InvariantButAvailable;
    if Reduce(s, e).Ok? {
      ClosingCheckIsNeededTwice(s, e);
    }
  }

  lemma SubmissionApplies(s: LedgerState, intent: OrderIntent, plan: Plan)
    requires Awaits(s, intent) && Fits(intent, plan)
    ensures ApplyEvent(s, SubmittedEvent(plan)) == Ok(AfterSubmission(s, intent, plan))
    ensures Invariant(AfterSubmission(s, intent, plan))
  {
    hide InvariantButAvailable, MoneyFromUnitPrice;
    RelabelAccepted(s, SubmittedEvent(plan));
  }

  lemma AcknowledgementApplies(s: LedgerState, intent: OrderIntent, plan: Plan)
    requires Awaits(s, intent) && Fits(intent, plan)
    ensures ApplyEvent(AfterSubmission(s, intent, plan), AcknowledgedEvent(plan))
            == Ok(AfterAcknowledgement(s, intent, plan))
    ensures Invariant(AfterAcknowledgement(s, intent, plan))
  {
    hide InvariantButAvailable, MoneyFromUnitPrice;
    SubmissionApplies(s, intent, plan);
    RelabelAccepted(AfterSubmission(s, intent, plan), AcknowledgedEvent(plan));
  }

  /** The acknowledged order a plan's fill meets. */
  function AcknowledgedOrder(intent: OrderIntent, plan: Plan): OrderAggregate {
    SubmittedOrder(intent, plan).(state := Acknowledged)
  }

  /** A ledger that holds the acknowledged order and no other trace of the fill. */
  ghost predicate AwaitsFill(s: LedgerState, intent: OrderIntent, plan: Plan) {
    && Invariant(s)
    && intent.intentId in s.orders
    && s.orders[intent.intentId] == AcknowledgedOrder(intent, plan)
    && PaperId(FillEventTag, intent.intentId) !in s.fingerprints
  }

  /** A ledger whose order can take the plan's fill: submitted, not finished, nothing filled. */
  ghost predicate MeetsFill(s: LedgerState, o: OrderAggregate, plan: Plan) {
    && Invariant(s)
    && o.intent.intentId in s.orders && s.orders[o.intent.intentId] == o
    && o.state in {Submitted, Acknowledged, Unknown}
    && o.filledQuantity == 0 && o.fees == 0 && o.fills == map[]
    && PaperId(FillEventTag, o.intent.intentId) !in s.fingerprints
  }

  lemma BuyFillGuards(s: LedgerState, o: OrderAggregate, plan: Plan)
    requires MeetsFill(s, o, plan) && Fits(o.intent, plan) && plan.status != Refused
    requires o.intent.side == Buy
    ensures ApplyFill(s, PlanFill(plan)).Ok? <==>
            plan.fee <= o.intent.feeReserve && PositionOrEmpty(s, o.intent.Key()).status == Open
  {
    hide OrdersOk, PositionsOk, EvidenceAgrees, ObservationsOk, MoneyFromUnitPrice, TotalFilled;
    OrderFacts(s, o.intent.intentId);
    ValueIsMonotone(o.intent.limitPrice, o.intent.limitPrice,
                    o.intent.quantity - plan.filledQuantity, o.intent.quantity);
  }

  lemma SellFillGuards(s: LedgerState, o: OrderAggregate, plan: Plan)
    requires MeetsFill(s, o, plan) && Fits(o.intent, plan) && plan.status != Refused
    requires o.intent.side == Sell
    ensures ApplyFill(s, PlanFill(plan)).Ok?
  {
    hide OrdersOk, PositionsOk, EvidenceAgrees, ObservationsOk, MoneyFromUnitPrice, TotalFilled, AllocatedCost;
    OrderFacts(s, o.intent.intentId);
  }

  /** The ledger accepts the plan's fill exactly when it can afford it. */
  lemma FillAccepted(s: LedgerState, o: OrderAggregate, plan: Plan)
    requires MeetsFill(s, o, plan) && Fits(o.intent, plan) && plan.status != Refused
    ensures ApplyEvent(s, FillEvent(plan)).Ok? <==> Affordable(s, o.intent, plan)
  {
    hide InvariantButAvailable, MoneyFromUnitPrice, TotalFilled, ApplyFill, RoundingSlack;
    AcceptedExactly(s, FillEvent(plan));
    SameSlack(o, plan);
    if o.intent.side == Buy {
      BuyFillGuards(s, o, plan);
    } else {
      SellFillGuards(s, o, plan);
    }
  }

  lemma SameSlack(o: OrderAggregate, plan: Plan)
    requires Fits(o.intent, plan) && plan.status != Refused && o.filledQuantity == 0
    ensures RoundingSlack(o, PlanFill(plan)) == RoundingSlack(NewOrder(o.intent), PlanFill(plan))
  {
    hide MoneyFromUnitPrice, TotalFilled;
  }

  lemma TerminalAccepted(s: LedgerState, e: LedgerEvent, id: IntentId)
    requires Invariant(s) && e.eventId !in s.fingerprints && id in s.orders
    requires e.body.OrderRejected? || e.body.OrderCancelled?
    requires e.body.intentId == id && 0 < s.orders[id].Remaining()
    requires (if e.body.OrderRejected? then Rejected else Cancelled)
             in AllowedTransitions(s.orders[id].state)
    ensures ApplyEvent(s, e).Ok?
  {
    hide OrdersOk, PositionsOk, EvidenceAgrees, ObservationsOk, MoneyFromUnitPrice;
    OrderFacts(s, id);
    AcceptedExactly(s, e);
  }

  // ---- What a finished plan has done ----

  function QuantityAt(s: LedgerState, key: PositionKey): int {
    PositionOrEmpty(s, key).quantity
  }

  /** Only the quantity at `key` moved, by `delta`. */
  ghost predicate QuantityMoved(s: LedgerState, t: LedgerState, key: PositionKey, delta: int) {
    forall k :: QuantityAt(t, k) == QuantityAt(s, k) + if k == key then delta else 0
  }

  function Signed(side: Side, quantity: int): int {
    if side == Buy then quantity else -quantity
  }

  lemma WritingMovesQuantity(s: LedgerState, p: Position)
    ensures QuantityMoved(s, ReplacePosition(s, p), p.key, p.quantity - QuantityAt(s, p.key))
  {}

  lemma SameQuantities(s: LedgerState, t: LedgerState, u: LedgerState, key: PositionKey, delta: int)
    requires QuantityMoved(s, t, key, delta) && u.positions == t.positions
    ensures QuantityMoved(s, u, key, delta)
  {}

  lemma ReleaseKeepsQuantities(s: LedgerState, o: OrderAggregate)
    requires KeysMatch(s) && ReleaseReservations(s, o).Ok?
    ensures QuantityMoved(s, ReleaseReservations(s, o).value.0, o.intent.Key(), 0)
  {
    hide QuantityMoved;
    var key := o.intent.Key();
    if o.intent.side == Sell {
      WritingMovesQuantity(s, ReleaseReservations(s, o).value.0.positions[key]);
    } else {
      NothingMoved(s, ReleaseReservations(s, o).value.0, key);
    }
  }

  lemma NothingMoved(s: LedgerState, t: LedgerState, key: PositionKey)
    requires t.positions == s.positions
    ensures QuantityMoved(s, t, key, 0)
  {}

  lemma BuyingMovesQuantity(s: LedgerState, o: OrderAggregate, fill: FillData, gross: int)
    requires KeysMatch(s) && ApplyBuyFill(s, o, fill, gross).Ok?
    ensures var t := ApplyBuyFill(s, o, fill, gross).value.0;
            KeysMatch(t) && QuantityMoved(s, t, o.intent.Key(), fill.quantity)
  {
    hide MoneyFromUnitPrice, QuantityMoved;
    var key, t := o.intent.Key(), ApplyBuyFill(s, o, fill, gross).value.0;
    WritingMovesQuantity(s, t.positions[key]);
    SameQuantities(s, ReplacePosition(s, t.positions[key]), t, key, fill.quantity);
  }

  lemma SellingMovesQuantity(s: LedgerState, o: OrderAggregate, fill: FillData, gross: int)
    requires KeysMatch(s) && ApplySellFill(s, o, fill, gross).Ok?
    ensures var t := ApplySellFill(s, o, fill, gross).value.0;
            KeysMatch(t) && QuantityMoved(s, t, o.intent.Key(), Signed(Sell, fill.quantity))
  {
    hide AllocatedCost, QuantityMoved;
    var key, t := o.intent.Key(), ApplySellFill(s, o, fill, gross).value.0;
    WritingMovesQuantity(s, t.positions[key]);
    SameQuantities(s, ReplacePosition(s, t.positions[key]), t, key, Signed(Sell, fill.quantity));
  }

  lemma BookingMovesQuantity(s: LedgerState, o: OrderAggregate, fill: FillData, gross: int)
    requires KeysMatch(s) && BookFill(s, o, fill, gross).Ok?
    ensures var t := BookFill(s, o, fill, gross).value.0;
            KeysMatch(t) && QuantityMoved(s, t, o.intent.Key(), Signed(o.intent.side, fill.quantity))
  {
    hide ApplyBuyFill, ApplySellFill, QuantityMoved, KeysMatch;
    if o.intent.side == Buy {
      BuyingMovesQuantity(s, o, fill, gross);
    } else {
      SellingMovesQuantity(s, o, fill, gross);
    }
  }

  lemma FillMovesQuantity(s: LedgerState, fill: FillData)
    requires KeysMatch(s) && ApplyFill(s, fill).Ok? && fill.intentId in s.orders
    requires fill.fillId !in s.orders[fill.intentId].fills
    ensures var intent := s.orders[fill.intentId].intent;
            QuantityMoved(s, ApplyFill(s, fill).value, intent.Key(), Signed(intent.side, fill.quantity))
  {
    hide MoneyFromUnitPrice, BookFill, ReleaseReservations;
    var o := s.orders[fill.intentId];
    var gross := MoneyFromUnitPrice(fill.price, fill.quantity);
    BookingMovesQuantity(s, o, fill, gross);
    var (s', o') := BookFill(s, o, fill, gross).value;
    var filled := WithFill(o', fill, gross);
    if filled.state == Filled {
      ReleaseKeepsQuantities(s', filled);
    }
  }

  function FinalState(status: PlanStatus): OrderState {
    match status
    case Refused => Rejected
    case FullFill => Filled
    case PartialFill => Cancelled
  }

  /** The order is closed as the plan says, its reservations are gone, and cash
      and position moved by exactly what the plan recorded. Nothing else moved. */
  ghost predicate Executed(s: LedgerState, t: LedgerState, intent: OrderIntent, plan: Plan) {
    && intent.intentId in t.orders
    && var o := t.orders[intent.intentId];
    && t.orders == s.orders[intent.intentId := o]
    && o.intent == intent && o.state == FinalState(plan.status)
    && o.reservedCash == 0 && o.reservedQuantity == 0
    && o.filledQuantity == plan.filledQuantity
    && o.grossValue == plan.grossValue && o.fees == plan.fee
    && o.backendOrderId == Some(plan.backendOrderId)
    && t.cash == s.cash + CashMoved(intent.side, plan.grossValue, plan.fee)
    && t.reservedCash == s.reservedCash - intent.CashReservation()
    && QuantityMoved(s, t, intent.Key(), Signed(intent.side, plan.filledQuantity))
    && forall key :: ReservedAt(t.positions, key)
                     == ReservedAt(s.positions, key)
                        - if key == intent.Key() && intent.side == Sell then intent.quantity else 0
  }

  /** Closing an order of the ledger gives back exactly what it held. */
  lemma ClosingReturnsReservations(s: LedgerState, t: LedgerState, id: IntentId)
    requires Invariant(s) && Invariant(t) && id in s.orders && id in t.orders
    requires t.orders == s.orders[id := t.orders[id]]
    requires t.orders[id].reservedCash == 0 && t.orders[id].reservedQuantity == 0
    ensures t.reservedCash == s.reservedCash - CashHeldBy(s.orders[id])
    ensures forall key :: ReservedAt(t.positions, key)
                          == ReservedAt(s.positions, key) - QuantityHeldOf(key)(s.orders[id])
  {
    var o := t.orders[id];
    TotalUpdate(s.orders, CashHeldBy, id, o);
    forall key
      ensures ReservedAt(t.positions, key)
              == ReservedAt(s.positions, key) - QuantityHeldOf(key)(s.orders[id])
    {
      TotalUpdate(s.orders, QuantityHeldOf(key), id, o);
      assert SellReserved(s.orders, key) == ReservedAt(s.positions, key);
      assert SellReserved(t.orders, key) == ReservedAt(t.positions, key);
    }
  }

  lemma ReplayNext(s: LedgerState, events: seq<LedgerEvent>, e: LedgerEvent)
    ensures var before := ReplayFrom(s, events);
            ReplayFrom(s, events + [e]) == if before.Ok? then ApplyEvent(before.value, e) else before
  {
    hide ApplyEvent;
    assert (events + [e])[..|events|] == events;
  }

  lemma ReplayTwo(s: LedgerState, a: LedgerEvent, b: LedgerEvent)
    requires ApplyEvent(s, a).Ok?
    ensures ReplayFrom(s, [a, b]) == ApplyEvent(ApplyEvent(s, a).value, b)
  {
    hide ApplyEvent;
    ReplayNext(s, [], a);
    assert [] + [a] == [a];
    ReplayNext(s, [a], b);
    assert [a] + [b] == [a, b];
  }

  lemma ReplayFour(s: LedgerState, a: LedgerEvent, b: LedgerEvent, c: LedgerEvent, d: LedgerEvent)
    requires ReplayFrom(s, [a, b]).Ok?
    ensures var r := ApplyEvent(ReplayFrom(s, [a, b]).value, c);
            && ReplayFrom(s, [a, b, c]) == r
            && ReplayFrom(s, [a, b, c, d]) == if r.Ok? then ApplyEvent(r.value, d) else r
  {
    hide ApplyEvent, ReplayFrom;
    ReplayNext(s, [a, b], c);
    assert [a, b] + [c] == [a, b, c];
    ReplayNext(s, [a, b, c], d);
    assert [a, b, c] + [d] == [a, b, c, d];
  }

  lemma PlannedReplay(s: LedgerState, intent: OrderIntent, plan: Plan)
    requires Awaits(s, intent) && Fits(intent, plan)
    ensures var r := ReplayFrom(s, PlannedEvents(plan));
            match plan.status
            case Refused => r == ApplyEvent(AfterSubmission(s, intent, plan), RejectedEvent(plan))
            case FullFill => r == ApplyEvent(AfterAcknowledgement(s, intent, plan), FillEvent(plan))
            case PartialFill =>
              var filled := ApplyEvent(AfterAcknowledgement(s, intent, plan), FillEvent(plan));
              r == if filled.Ok? then ApplyEvent(filled.value, CancelledEvent(plan)) else filled
  {
    hide ReplayFrom, ApplyEvent, InvariantButAvailable, MoneyFromUnitPrice, TotalFilled,
         AfterSubmission, AfterAcknowledgement, SubmittedEvent, AcknowledgedEvent, RejectedEvent,
         FillEvent, CancelledEvent;
    SubmissionApplies(s, intent, plan);
    if plan.status == Refused {
      ReplayTwo(s, SubmittedEvent(plan), RejectedEvent(plan));
    } else {
      AcknowledgementApplies(s, intent, plan);
      ReplayTwo(s, SubmittedEvent(plan), AcknowledgedEvent(plan));
      ReplayFour(s, SubmittedEvent(plan), AcknowledgedEvent(plan), FillEvent(plan), CancelledEvent(plan));
    }
  }

  lemma SubmissionKeepsRest(s: LedgerState, intent: OrderIntent, plan: Plan)
    requires Awaits(s, intent) && Fits(intent, plan)
    ensures var t := AfterSubmission(s, intent, plan);
            && t.cash == s.cash && t.positions == s.positions && t.reservedCash == s.reservedCash
            && t.orders == s.orders[intent.intentId := SubmittedOrder(intent, plan)]
            && PaperId(RejectedTag, intent.intentId) !in t.fingerprints
  {
    hide InvariantButAvailable, MoneyFromUnitPrice, TotalFilled;
  }

  lemma AcknowledgementKeepsRest(s: LedgerState, intent: OrderIntent, plan: Plan)
    requires Awaits(s, intent) && Fits(intent, plan)
    ensures var t := AfterAcknowledgement(s, intent, plan);
            && t.cash == s.cash && t.positions == s.positions && t.reservedCash == s.reservedCash
            && t.orders == s.orders[intent.intentId := AcknowledgedOrder(intent, plan)]
            && PaperId(FillEventTag, intent.intentId) !in t.fingerprints
            && PaperId(RemainderCancelledTag, intent.intentId) !in t.fingerprints
  {
    hide InvariantButAvailable, MoneyFromUnitPrice, TotalFilled;
  }

  lemma TerminalBodyEffects(s: LedgerState, id: IntentId, target: OrderState, reason: Text)
    requires IdsMatch(s.orders) && KeysMatch(s) && ApplyTerminal(s, id, target, reason).Ok?
    ensures var t, o := ApplyTerminal(s, id, target, reason).value, s.orders[id];
            && id in t.orders && t.orders == s.orders[id := t.orders[id]]
            && SameButReservations(
                 o.(state := target, terminalReason := Some(reason), unknownReason := None), t.orders[id])
            && t.cash == s.cash
            && QuantityMoved(s, t, o.intent.Key(), 0)
  {
    hide ReleaseReservations, QuantityMoved, KeysMatch;
    var o := s.orders[id];
    ReleaseEffects(s, o);
    ReleaseKeepsQuantities(s, o);
    SameQuantities(s, ReleaseReservations(s, o).value.0, ApplyTerminal(s, id, target, reason).value,
                   o.intent.Key(), 0);
  }

  lemma TerminalHoldsNothing(s: LedgerState, id: IntentId)
    requires Invariant(s) && id in s.orders && s.orders[id].state.Terminal()
    ensures s.orders[id].reservedCash == 0 && s.orders[id].reservedQuantity == 0
  {
    InvariantFreesTerminals(s);
  }

  lemma TerminalEffects(s: LedgerState, e: LedgerEvent, id: IntentId)
    requires Invariant(s) && e.eventId !in s.fingerprints && id in s.orders
    requires (e.body.OrderRejected? || e.body.OrderCancelled?) && e.body.intentId == id
    requires ApplyEvent(s, e).Ok?
    ensures var t, o := ApplyEvent(s, e).value, s.orders[id];
            && Invariant(t) && id in t.orders
            && t.orders == s.orders[id := t.orders[id]]
            && t.orders[id] == o.(state := if e.body.OrderRejected? then Rejected else Cancelled,
                                  terminalReason := Some(e.body.reason), unknownReason := None,
                                  reservedCash := 0, reservedQuantity := 0)
            && t.cash == s.cash
            && QuantityMoved(s, t, o.intent.Key(), 0)
  {
    hide InvariantButAvailable, QuantityMoved, ApplyTerminal, ApplyEvent, KeysMatch, IdsMatch;
    AcceptedStep(s, e);
    InvariantGivesKeys(s);
    InvariantGivesIds(s);
    var target := if e.body.OrderRejected? then Rejected else Cancelled;
    TerminalBodyEffects(s, id, target, e.body.reason);
    TerminalHoldsNothing(ApplyEvent(s, e).value, id);
    SameQuantities(s, ApplyTerminal(s, id, target, e.body.reason).value, ApplyEvent(s, e).value,
                   s.orders[id].intent.Key(), 0);
  }

  /** What the fill of a plan leaves, apart from reservations. */
  ghost predicate FillBooked(s: LedgerState, t: LedgerState, intent: OrderIntent, plan: Plan)
    requires plan.Valid() && plan.status != Refused
  {
    && Invariant(t)
    && intent.intentId in t.orders
    && t.orders == s.orders[intent.intentId := t.orders[intent.intentId]]
    && SameButReservations(
         WithFill(AcknowledgedOrder(intent, plan), PlanFill(plan), plan.grossValue),
         t.orders[intent.intentId])
    && t.cash == s.cash + CashMoved(intent.side, plan.grossValue, plan.fee)
    && QuantityMoved(s, t, intent.Key(), Signed(intent.side, plan.filledQuantity))
    && t.fingerprints == s.fingerprints[FillEvent(plan).eventId := FillEvent(plan)]
  }

  lemma FillEventBooks(s: LedgerState, intent: OrderIntent, plan: Plan)
    requires AwaitsFill(s, intent, plan) && Fits(intent, plan) && plan.status != Refused
    requires ApplyEvent(s, FillEvent(plan)).Ok?
    ensures FillBooked(s, ApplyEvent(s, FillEvent(plan)).value, intent, plan)
  {
    hide InvariantButAvailable, MoneyFromUnitPrice, TotalFilled, ApplyFill, QuantityMoved;
    var fill, t := PlanFill(plan), ApplyEvent(s, FillEvent(plan)).value;
    AcceptedStep(s, FillEvent(plan));
    FillEffects(s, fill);
    InvariantGivesKeys(s);
    FillMovesQuantity(s, fill);
    SameQuantities(s, ApplyFill(s, fill).value, t, intent.Key(), Signed(intent.side, fill.quantity));
    assert WithFill(AcknowledgedOrder(intent, plan), fill, plan.grossValue).intent.intentId
           == intent.intentId;
  }

  // ---- The executor against the ledger ----

  /** What remains to be said once the order is closed. */
  lemma ClosedIsExecuted(s: LedgerState, t: LedgerState, intent: OrderIntent, plan: Plan)
    requires Awaits(s, intent) && Invariant(t) && Fits(intent, plan)
    requires intent.intentId in t.orders && t.orders == s.orders[intent.intentId := t.orders[intent.intentId]]
    requires var o := t.orders[intent.intentId];
             && o.intent == intent && o.state == FinalState(plan.status)
             && o.filledQuantity == plan.filledQuantity
             && o.grossValue == plan.grossValue && o.fees == plan.fee
             && o.backendOrderId == Some(plan.backendOrderId)
    requires t.cash == s.cash + CashMoved(intent.side, plan.grossValue, plan.fee)
    requires QuantityMoved(s, t, intent.Key(), Signed(intent.side, plan.filledQuantity))
    ensures Executed(s, t, intent, plan)
  {
    hide OrdersOk, PositionsOk, EvidenceAgrees, ObservationsOk, MoneyFromUnitPrice, QuantityMoved,
         TotalFilled;
    OrderFacts(t, intent.intentId);
    ClosingReturnsReservations(s, t, intent.intentId);
  }

  lemma RefusalExecutes(s: LedgerState, intent: OrderIntent, plan: Plan)
    requires Awaits(s, intent) && Fits(intent, plan) && plan.status == Refused
    ensures var r := ApplyEvent(AfterSubmission(s, intent, plan), RejectedEvent(plan));
            r.Ok? && Executed(s, r.value, intent, plan)
  {
    hide InvariantButAvailable, MoneyFromUnitPrice, TotalFilled, QuantityMoved, ApplyEvent,
         AfterSubmission, Executed;
    var t, e := AfterSubmission(s, intent, plan), RejectedEvent(plan);
    SubmissionApplies(s, intent, plan);
    SubmissionKeepsRest(s, intent, plan);
    TerminalAccepted(t, e, intent.intentId);
    TerminalEffects(t, e, intent.intentId);
    var u := ApplyEvent(t, e).value;
    QuantitiesFollow(s, t, u, intent.Key(), 0);
    ClosedIsExecuted(s, u, intent, plan);
  }

  lemma QuantitiesFollow(s: LedgerState, t: LedgerState, u: LedgerState, key: PositionKey, delta: int)
    requires t.positions == s.positions && QuantityMoved(t, u, key, delta)
    ensures QuantityMoved(s, u, key, delta)
  {}

  lemma MovesAdd(s: LedgerState, t: LedgerState, u: LedgerState, key: PositionKey, delta: int)
    requires QuantityMoved(s, t, key, delta) && QuantityMoved(t, u, key, 0)
    ensures QuantityMoved(s, u, key, delta)
  {}

  lemma FullFillExecutes(s: LedgerState, intent: OrderIntent, plan: Plan)
    requires Awaits(s, intent) && Fits(intent, plan) && plan.status == FullFill
    ensures var r := ApplyEvent(AfterAcknowledgement(s, intent, plan), FillEvent(plan));
            && (r.Ok? <==> Affordable(s, intent, plan))
            && (r.Ok? ==> Executed(s, r.value, intent, plan))
  {
    hide InvariantButAvailable, MoneyFromUnitPrice, TotalFilled, QuantityMoved, ApplyEvent,
         AfterAcknowledgement, Executed, RoundingSlack;
    var t, e := AfterAcknowledgement(s, intent, plan), FillEvent(plan);
    AcknowledgementApplies(s, intent, plan);
    AcknowledgementKeepsRest(s, intent, plan);
    FillAccepted(t, t.orders[intent.intentId], plan);
    if ApplyEvent(t, e).Ok? {
      FillEventBooks(t, intent, plan);
      var u := ApplyEvent(t, e).value;
      QuantitiesFollow(s, t, u, intent.Key(), Signed(intent.side, plan.filledQuantity));
      ClosedIsExecuted(s, u, intent, plan);
    }
  }

  lemma PartialFillExecutes(s: LedgerState, intent: OrderIntent, plan: Plan)
    requires Awaits(s, intent) && Fits(intent, plan) && plan.status == PartialFill
    ensures var r := ApplyEvent(AfterAcknowledgement(s, intent, plan), FillEvent(plan));
            && (r.Ok? <==> Affordable(s, intent, plan))
            && (r.Ok? ==> var closed := ApplyEvent(r.value, CancelledEvent(plan));
                          closed.Ok? && Executed(s, closed.value, intent, plan))
  {
    hide InvariantButAvailable, MoneyFromUnitPrice, TotalFilled, QuantityMoved, ApplyEvent,
         AfterAcknowledgement, Executed, RoundingSlack;
    var t, e := AfterAcknowledgement(s, intent, plan), FillEvent(plan);
    AcknowledgementApplies(s, intent, plan);
    AcknowledgementKeepsRest(s, intent, plan);
    FillAccepted(t, t.orders[intent.intentId], plan);
    if ApplyEvent(t, e).Ok? {
      FillEventBooks(t, intent, plan);
      var u := ApplyEvent(t, e).value;
      TerminalAccepted(u, CancelledEvent(plan), intent.intentId);
      TerminalEffects(u, CancelledEvent(plan), intent.intentId);
      var v := ApplyEvent(u, CancelledEvent(plan)).value;
      MovesAdd(t, u, v, intent.Key(), Signed(intent.side, plan.filledQuantity));
      QuantitiesFollow(s, t, v, intent.Key(), Signed(intent.side, plan.filledQuantity));
      ClosedIsExecuted(s, v, intent, plan);
    }
  }

  /** The ledger accepts every event the executor emits for a plan exactly when
      the plan is a refusal, or a sale, or a purchase whose fee the intent
      reserved, of a position not yet settled, that either completes or leaves
      room for rounding. Then the order ends closed, holding nothing, and cash
      has moved by exactly what the plan recorded. */
  lemma ExecutorRefinesLedger(s: LedgerState, intent: OrderIntent, plan: Plan)
    requires Awaits(s, intent) && Fits(intent, plan)
    ensures EventsForPlan(intent, plan) == Some(PlannedEvents(plan))
    ensures var r := ReplayFrom(s, PlannedEvents(plan));
            && (r.Ok? <==> Affordable(s, intent, plan))
            && (r.Ok? ==> Executed(s, r.value, intent, plan))
  {
    hide InvariantButAvailable, MoneyFromUnitPrice, TotalFilled, ApplyEvent, PlannedEvents, ReplayFrom,
         AfterAcknowledgement, AfterSubmission, Executed, RoundingSlack;
    PlannedReplay(s, intent, plan);
    match plan.status
    case Refused => RefusalExecutes(s, intent, plan);
    case FullFill => FullFillExecutes(s, intent, plan);
    case PartialFill => PartialFillExecutes(s, intent, plan);
  }

  // ---- What a trading intent has to leave ----

  lemma NearestWholeIsMonotone(x: real, y: real)
    requires x <= y
    ensures NearestWhole(x) <= NearestWhole(y)
  {}

  lemma PortionIsMonotone(a: real, b: real, rate: real)
    requires a <= b && 0.0 <= rate
    ensures Portion(a, rate) <= Portion(b, rate)
  {
    hide NearestWhole;
    LimitTimes(a, b, rate);
    NearestWholeIsMonotone(a * rate, b * rate);
  }

  lemma FeeIsMonotone(gross: int, gross': int, policy: CostPolicy)
    requires policy.Valid() && gross <= gross'
    ensures FeeOf(gross, policy) <= FeeOf(gross', policy)
  {
    hide NearestWhole, Portion;
    PortionIsMonotone(gross as real, gross' as real, policy.platformFeeRate);
  }

  lemma BuiltFee(
    intent: OrderIntent, book: Book, policy: CostPolicy, now: Timestamp, fills: seq<FillLevel>)
    requires 0.0 < book.minimumOrderSize && PlanFrom(intent, book, policy, now, fills).Built?
    ensures var plan := PlanFrom(intent, book, policy, now, fills).plan;
            plan.status != Refused ==> plan.fee == FeeOf(plan.grossValue, policy)
  {
    hide FeeOf, MoneyFromUnitPrice, Average, TotalFilled;
  }

  /** An intent that reserves the fee of its limit notional, on a position not
      settled, with a full fill or one micro-unit of cash to spare, is always
      executed: the ledger accepts whatever the planner builds for it. */
  lemma ReservedFeeSuffices(
    s: LedgerState, intent: OrderIntent, book: Book, policy: CostPolicy, now: Timestamp,
    fills: seq<FillLevel>)
    requires Awaits(s, intent) && policy.Valid() && 0.0 < book.minimumOrderSize
    requires PlanFrom(intent, book, policy, now, fills).Built?
    requires intent.side == Buy ==>
               && FeeOf(intent.LimitNotional(), policy) <= intent.feeReserve
               && PositionOrEmpty(s, intent.Key()).status == Open
               && (1 <= s.AvailableCash()
                   || PlanFrom(intent, book, policy, now, fills).plan.status == FullFill)
    ensures var plan := PlanFrom(intent, book, policy, now, fills).plan;
            var r := ReplayFrom(s, PlannedEvents(plan));
            r.Ok? && Executed(s, r.value, intent, plan)
  {
    hide InvariantButAvailable, MoneyFromUnitPrice, TotalFilled, ReplayFrom, RoundingSlack, FeeOf,
         PlanFrom, PlannedEvents, Executed;
    var plan := PlanFrom(intent, book, policy, now, fills).plan;
    PlansFit(intent, book, policy, now, fills);
    BuiltFee(intent, book, policy, now, fills);
    ExecutorRefinesLedger(s, intent, plan);
    if plan.status != Refused && intent.side == Buy {
      var average := plan.averagePrice.value;
      ValueIsMonotone(average, intent.limitPrice, plan.filledQuantity, intent.quantity);
      FeeIsMonotone(plan.grossValue, intent.LimitNotional(), policy);
      SlackBounds(NewOrder(intent), PlanFill(plan));
    }
  }

  /** The planner compares the fee with the whole reservation, not with the fee
      reserve. The walk over a book that asks 0.4 fills two shares of an intent
      with a limit of 0.5 and no fee reserved, the plan charges a fee of ten
      percent, and no ledger accepts it. */
  lemma PlannerIgnoresFeeReserve(s: LedgerState, intent: OrderIntent, now: Timestamp)
    requires Awaits(s, intent) && intent.side == Buy && intent.quantity == 2_000_000
    requires intent.limitPrice == 500_000 && intent.feeReserve == 0
    ensures var book := Book([Level(0.3, 1_000_000.0)], [Level(0.4, 3_000_000.0)], 1_000_000.0, now);
            var policy := CostPolicy(0.1, 0.0, 0.2, 0.2);
            var walk := [FillLevel(400_000, 2_000_000)];
            && book.Valid() && policy.Valid()
            && Walked(SideLevels(intent, book), SideCaps(intent, book, policy), walk)
            && PricedInMicro(SideBook(intent, book), walk)
            && var r := PlanFrom(intent, book, policy, now, walk);
            && r.Built? && Fits(intent, r.plan) && r.plan.status == FullFill
            && !ReplayFrom(s, PlannedEvents(r.plan)).Ok?
  {
    hide InvariantButAvailable, ReplayFrom, RoundingSlack, Walked;
    var book := Book([Level(0.3, 1_000_000.0)], [Level(0.4, 3_000_000.0)], 1_000_000.0, now);
    var policy := CostPolicy(0.1, 0.0, 0.2, 0.2);
    var walk := [FillLevel(400_000, 2_000_000)];
    TwoSharesWalked(intent, book, policy, walk);
    OneLevel(walk[0]);
    assert NearestWhole(80_000.0) == 80_000;
    var plan := PlanFrom(intent, book, policy, now, walk).plan;
    ExecutorRefinesLedger(s, intent, plan);
  }

  lemma TwoSharesWalked(intent: OrderIntent, book: Book, policy: CostPolicy, walk: seq<FillLevel>)
    requires book.Valid() && policy == CostPolicy(0.1, 0.0, 0.2, 0.2)
    requires book.asks == [Level(0.4, 3_000_000.0)] && walk == [FillLevel(400_000, 2_000_000)]
    requires intent.side == Buy && intent.quantity == 2_000_000
    requires intent.limitPrice == 500_000 && intent.feeReserve == 0
    ensures Walked(book.asks, BuyCaps(intent, book, policy), walk)
    ensures PricedInMicro(book.asks, walk)
  {
    assert MoneyFromUnitPrice(500_000, 2_000_000) == 1_000_000;
    var caps, takes := BuyCaps(intent, book, policy), [2_000_000];
    assert FromMicro(500_000) == 0.5;
    var spend := 1_000_000.0 / 1.1;
    assert spend * 1.1 == 1_000_000.0;
    assert Quantities(walk) == takes && takes[..0] == [];
    assert Shares(takes) == 2_000_000 && Cost(book.asks, takes) == 800_000.0;
    assert 800_000.0 <= spend - 1.0;
    assert StopsAt(book.asks, caps, takes, 0);
  }

  lemma OneLevel(fill: FillLevel)
    ensures TotalFilled([fill]) == fill.quantity && Average([fill]) == fill.price
  {
    hide RoundHalfEven, Weighted;
    NoFills([], []);
    QuantitiesGrow([], fill);
    WeightedGrows([], fill);
    assert [] + [fill] == [fill];
    assert Quantities([fill])[..0] == Quantities([]);
    var q, p := fill.quantity, fill.price;
    assert q * p == p * q;
    RoundingWholeIsExact(p, q);
  }
}
