/** Orders on their way through a durable plan, whatever else the ledger does. */
module PaperProgress {
  import opened Rounding
  import opened Model
  import opened Events
  import opened State
  import opened Reducers
  import opened LedgerInvariants
  import opened LedgerRuns
  import opened LifecycleSteps
  import opened PaperPlan
  import opened PaperLedger
  import opened PaperRecovery

  // ---- An order on its plan ----

  /** Only the plan's own events carry its identifiers, what else happens to its
      order is doubt or an early end, and its intent is the one it was built for. */
  predicate PlanDriven(e: LedgerEvent, id: IntentId, plan: Plan)
    requires plan.Valid()
  {
    && (e.eventId in PlanIds(id) ==> e in PlannedEvents(plan))
    && (Concerns(e.body, id) ==>
          e in PlannedEvents(plan)
          || e.body.OrderOutcomeUnknown? || e.body.OrderCancelled? || e.body.OrderRejected?)
    && (e.body.OrderIntentCreated? && e.body.intent.intentId == id ==> Fits(e.body.intent, plan))
  }

  function PlanIds(id: IntentId): set<Identifier> {
    set tag | tag in PLAN_TAGS :: PaperId(tag, id)
  }

  predicate FillSeen(u: LedgerState, plan: Plan)
    requires plan.Valid()
  {
    plan.status != Refused && FillEvent(plan).eventId in u.fingerprints
  }

  function LastOf(plan: Plan): nat
    requires plan.Valid()
  {
    |PlannedEvents(plan)| - 1
  }

  /** The order with nothing, or with the plan's whole fill, booked on it. */
  function Bare(o: OrderAggregate, plan: Plan, filled: bool): OrderAggregate
    requires plan.Valid() && (filled ==> plan.status != Refused)
  {
    var base := NewOrder(o.intent).(
      backendOrderId := if o.state == Created then None else Some(plan.backendOrderId));
    var booked := if filled then WithFill(base, PlanFill(plan), plan.grossValue) else base;
    booked.(state := o.state, unknownReason := o.unknownReason)
  }

  predicate MidStates(state: OrderState, plan: Plan, filled: bool) {
    if filled then plan.status == PartialFill && state in {PartiallyFilled, Acknowledged, Unknown}
    else
      && state in {Created, Submitted, Acknowledged, Unknown}
      && (plan.status == Refused ==> state != Acknowledged)
  }

  predicate OrderOnPlan(u: LedgerState, o: OrderAggregate, plan: Plan)
    requires plan.Valid()
  {
    && Fits(o.intent, plan)
    && (!o.state.Terminal() ==>
          && MidStates(o.state, plan, FillSeen(u, plan))
          && SameButReservations(Bare(o, plan, FillSeen(u, plan)), o)
          && PlannedEvents(plan)[LastOf(plan)].eventId !in u.fingerprints
          && (o.state == Created ==> NotSeen(u, PlannedEvents(plan), 0)))
  }

  predicate SeenAsPlanned(u: LedgerState, planned: seq<LedgerEvent>) {
    forall i :: 0 <= i < |planned| && planned[i].eventId in u.fingerprints ==>
                  u.fingerprints[planned[i].eventId] == planned[i]
  }

  /** What every ledger that only the plan drives knows of the plan's order. */
  predicate OnPlan(u: LedgerState, id: IntentId, plan: Plan)
    requires plan.Valid()
  {
    && plan.intentId == id
    && SeenAsPlanned(u, PlannedEvents(plan))
    && (if id in u.orders then OrderOnPlan(u, u.orders[id], plan) else NotSeen(u, PlannedEvents(plan), 0))
  }

  // ---- Every accepted event keeps the order on its plan ----

  lemma PlannedIdsBelong(plan: Plan, i: nat)
    requires plan.Valid() && i < |PlannedEvents(plan)|
    ensures PlannedEvents(plan)[i].eventId in PlanIds(plan.intentId)
    ensures Concerns(PlannedEvents(plan)[i].body, plan.intentId)
  {
    hide TotalFilled;
  }

  /** The same traces of the plan. */
  predicate SameTraces(u: LedgerState, t: LedgerState, plan: Plan)
    requires plan.Valid()
  {
    forall i :: 0 <= i < |PlannedEvents(plan)| ==>
                  var id := PlannedEvents(plan)[i].eventId;
                  && (id in t.fingerprints <==> id in u.fingerprints)
                  && (id in u.fingerprints ==> t.fingerprints[id] == u.fingerprints[id])
  }

  lemma ForeignEventLeavesNoTrace(u: LedgerState, t: LedgerState, id: IntentId, plan: Plan, e: LedgerEvent)
    requires plan.Valid() && plan.intentId == id && e.eventId !in PlanIds(id)
    requires t.fingerprints == u.fingerprints[e.eventId := e]
    ensures SameTraces(u, t, plan)
  {
    hide PlannedEvents, PlanIds, Concerns;
    forall i | 0 <= i < |PlannedEvents(plan)| ensures PlannedEvents(plan)[i].eventId != e.eventId {
      PlannedIdsBelong(plan, i);
    }
  }

  lemma FillIsThird(plan: Plan)
    requires plan.Valid() && plan.status != Refused
    ensures 2 < |PlannedEvents(plan)| && PlannedEvents(plan)[2] == FillEvent(plan)
  {
    hide TotalFilled;
  }

  lemma SameTracesSameView(u: LedgerState, t: LedgerState, plan: Plan)
    requires plan.Valid() && SameTraces(u, t, plan)
    ensures FillSeen(t, plan) == FillSeen(u, plan)
    ensures SeenAsPlanned(u, PlannedEvents(plan)) ==> SeenAsPlanned(t, PlannedEvents(plan))
    ensures NotSeen(t, PlannedEvents(plan), 0) == NotSeen(u, PlannedEvents(plan), 0)
    ensures 0 <= LastOf(plan)
    ensures PlannedEvents(plan)[LastOf(plan)].eventId in t.fingerprints
            <==> PlannedEvents(plan)[LastOf(plan)].eventId in u.fingerprints
  {
    hide PlannedEvents, FillEvent, TotalFilled;
    if plan.status != Refused {
      FillIsThird(plan);
    }
    assert NotSeen(t, PlannedEvents(plan), 0) ==> NotSeen(u, PlannedEvents(plan), 0);
  }

  lemma NewOrderIsOnPlan(u: LedgerState, intent: OrderIntent, plan: Plan)
    requires Fits(intent, plan) && NotSeen(u, PlannedEvents(plan), 0)
    ensures OrderOnPlan(u, NewOrder(intent), plan)
  {
    hide TotalFilled, PlannedEvents, FillEvent, MoneyFromUnitPrice;
    if plan.status != Refused {
      FillIsThird(plan);
    }
  }

  lemma UntouchedStaysOnPlan(u: LedgerState, t: LedgerState, id: IntentId, plan: Plan, e: LedgerEvent)
    requires plan.Valid() && OnPlan(u, id, plan) && PlanDriven(e, id, plan)
    requires SameTraces(u, t, plan) && Untouched(u, t, id, e.body)
    ensures OnPlan(t, id, plan)
  {
    hide PlannedEvents, FillEvent, TotalFilled, SameTraces, SeenAsPlanned, NotSeen, FillSeen, Bare, MidStates,
         NewOrder, Fits, Concerns, LastOf;
    SameTracesSameView(u, t, plan);
    if id in t.orders && id !in u.orders {
      NewOrderIsOnPlan(t, e.body.intent, plan);
    }
  }

  /** Doubt changes the label; an early end closes the order. */
  lemma OtherStepStaysOnPlan(u: LedgerState, t: LedgerState, id: IntentId, plan: Plan, e: LedgerEvent)
    requires plan.Valid() && OnPlan(u, id, plan) && SameTraces(u, t, plan)
    requires e.body.OrderOutcomeUnknown? || e.body.OrderCancelled? || e.body.OrderRejected?
    requires OneStep(u, t, id, e.body)
    ensures OnPlan(t, id, plan)
  {
    hide PlannedEvents, FillEvent, TotalFilled, SameTraces, SeenAsPlanned, NotSeen, FillSeen, NewOrder, Fits, LastOf,
         MoneyFromUnitPrice;
    SameTracesSameView(u, t, plan);
  }

  /** The traces after planned event `k` has been recorded. */
  lemma PlannedTrace(u: LedgerState, t: LedgerState, plan: Plan, k: nat)
    requires plan.Valid() && k < |PlannedEvents(plan)|
    requires t.fingerprints == u.fingerprints[PlannedEvents(plan)[k].eventId := PlannedEvents(plan)[k]]
    ensures SeenAsPlanned(u, PlannedEvents(plan)) ==> SeenAsPlanned(t, PlannedEvents(plan))
    ensures FillSeen(t, plan) <==> FillSeen(u, plan) || (plan.status != Refused && k == 2)
    ensures k < LastOf(plan) && PlannedEvents(plan)[LastOf(plan)].eventId !in u.fingerprints ==>
              PlannedEvents(plan)[LastOf(plan)].eventId !in t.fingerprints
  {
    hide PlannedEvents, FillEvent, TotalFilled;
    if plan.status != Refused {
      FillIsThird(plan);
    }
    forall i | 0 <= i < |PlannedEvents(plan)| && i != k
      ensures PlannedEvents(plan)[i].eventId != PlannedEvents(plan)[k].eventId
    {
      PlannedIdsAreDistinct(plan, if i < k then i else k, if i < k then k else i);
    }
  }

  /** What the planned event number `k` says. */
  lemma PlannedBody(plan: Plan, k: nat)
    requires plan.Valid() && k < |PlannedEvents(plan)|
    ensures LastOf(plan) == (match plan.status case Refused => 1 case FullFill => 2 case PartialFill => 3)
    ensures var body := PlannedEvents(plan)[k].body;
            match k
            case 0 => body == OrderSubmitted(plan.intentId, plan.backendOrderId)
            case 1 => if plan.status == Refused then body.OrderRejected? else body.OrderAcknowledged?
            case 2 => plan.status != Refused && body == FillReceived(PlanFill(plan))
            case _ => body.OrderCancelled?
  {
    hide TotalFilled;
  }

  /** An accepted planned event before the last keeps the order open and on its plan. */
  lemma PlannedStepStaysOnPlan(u: LedgerState, t: LedgerState, id: IntentId, plan: Plan, k: nat)
    requires plan.Valid() && k < |PlannedEvents(plan)| && OnPlan(u, id, plan)
    requires id in u.orders && !u.orders[id].state.Terminal()
    requires OneStep(u, t, id, PlannedEvents(plan)[k].body)
    requires PlannedEvents(plan)[k].eventId !in u.fingerprints
    requires t.fingerprints == u.fingerprints[PlannedEvents(plan)[k].eventId := PlannedEvents(plan)[k]]
    ensures OnPlan(t, id, plan)
    ensures k < LastOf(plan) ==> !t.orders[id].state.Terminal()
    ensures k == LastOf(plan) ==> t.orders[id].state == FinalState(plan.status)
  {
    hide PlannedEvents, FillEvent, TotalFilled, SeenAsPlanned, NewOrder, LastOf, MoneyFromUnitPrice, FillSeen;
    PlannedBody(plan, k);
    PlannedTrace(u, t, plan, k);
    if plan.status != Refused {
      FillIsThird(plan);
      assert k == 2 ==> !FillSeen(u, plan) by { UnseenFill(u, plan); }
    }
    NothingFilledYet(u.orders[id].intent);
  }

  lemma UnseenFill(u: LedgerState, plan: Plan)
    requires plan.Valid() && plan.status != Refused
    ensures FillSeen(u, plan) <==> FillEvent(plan).eventId in u.fingerprints
  {}

  lemma NothingFilledYet(intent: OrderIntent)
    ensures var o := NewOrder(intent);
            o.intent == intent && o.state == Created && o.filledQuantity == 0 && o.grossValue == 0 && o.fees == 0
            && o.fills == map[] && o.backendOrderId.None? && o.unknownReason.None? && o.terminalReason.None?
  {}

  lemma UnseenFillIsNotBooked(u: LedgerState, id: IntentId, plan: Plan, k: nat)
    requires plan.Valid() && OnPlan(u, id, plan) && id in u.orders && !u.orders[id].state.Terminal()
    requires k < |PlannedEvents(plan)| && PlannedEvents(plan)[k].eventId !in u.fingerprints
    requires PlannedEvents(plan)[k].body.FillReceived?
    ensures u.orders[id].fills == map[]
  {
    hide PlannedEvents, FillEvent, TotalFilled, SeenAsPlanned, NewOrder, LastOf, MoneyFromUnitPrice, FillSeen;
    PlannedBody(plan, k);
    FillIsThird(plan);
    UnseenFill(u, plan);
    NothingFilledYet(u.orders[id].intent);
  }

  lemma TerminalStaysOnPlan(u: LedgerState, t: LedgerState, id: IntentId, plan: Plan, e: LedgerEvent)
    requires plan.Valid() && OnPlan(u, id, plan) && PlanDriven(e, id, plan)
    requires id in u.orders && u.orders[id].state.Terminal()
    requires OrdersProgress(u.orders, t.orders) && t.fingerprints == u.fingerprints[e.eventId := e]
    ensures OnPlan(t, id, plan)
  {
    hide PlannedEvents, FillEvent, TotalFilled, LastOf, FillSeen, Fits, NewOrder, Bare, MidStates, Concerns;
    if e.eventId in PlanIds(id) {
      var k :| 0 <= k < |PlannedEvents(plan)| && PlannedEvents(plan)[k] == e;
      PlannedTrace(u, t, plan, k);
    } else {
      hide PlanIds;
      ForeignEventLeavesNoTrace(u, t, id, plan, e);
      SameTracesSameView(u, t, plan);
    }
  }

  /** An order stays on its plan through every event that the plan admits. */
  lemma StaysOnPlan(u: LedgerState, id: IntentId, plan: Plan, e: LedgerEvent)
    requires Invariant(u) && plan.Valid() && OnPlan(u, id, plan) && PlanDriven(e, id, plan)
    requires ApplyEvent(u, e).Ok?
    ensures OnPlan(ApplyEvent(u, e).value, id, plan)
  {
    hide InvariantButAvailable, ApplyBody, ApplyEvent, PlannedEvents, FillEvent, TotalFilled, OrderOnPlan, OneStep,
         SeenAsPlanned, NotSeen, PlanIds, OrdersProgress, SameTraces, Fits, Untouched, Concerns;
    var t := ApplyEvent(u, e).value;
    AcceptedStep(u, e);
    if e.eventId !in u.fingerprints {
      if !Concerns(e.body, id) {
        ConcernedByPlan(e, id, plan);
        ForeignEventLeavesNoTrace(u, t, id, plan, e);
        OtherEventUntouched(u, id, e);
        UntouchedStaysOnPlan(u, t, id, plan, e);
      } else if id in u.orders && u.orders[id].state.Terminal() {
        StepProgresses(u, e);
        TerminalStaysOnPlan(u, t, id, plan, e);
      } else if e in PlannedEvents(plan) {
        var k :| 0 <= k < |PlannedEvents(plan)| && PlannedEvents(plan)[k] == e;
        if id in u.orders && e.body.FillReceived? {
          UnseenFillIsNotBooked(u, id, plan, k);
        }
        LifecycleStep(u, id, e);
        StepHasOrder(u, t, id, e.body);
        PlannedStepStaysOnPlan(u, t, id, plan, k);
      } else {
        LifecycleStep(u, id, e);
        ForeignEventLeavesNoTrace(u, t, id, plan, e);
        OtherStepStaysOnPlan(u, t, id, plan, e);
      }
    }
  }

  lemma ConcernedByPlan(e: LedgerEvent, id: IntentId, plan: Plan)
    requires plan.Valid() && plan.intentId == id && PlanDriven(e, id, plan) && !Concerns(e.body, id)
    ensures e.eventId !in PlanIds(id)
  {
    hide PlannedEvents, PlanIds, Concerns, Fits;
    if e in PlannedEvents(plan) {
      var k :| 0 <= k < |PlannedEvents(plan)| && PlannedEvents(plan)[k] == e;
      PlannedIdsBelong(plan, k);
    }
  }

  /** In every accepted log whose events the plan admits, in whatever order and
      whatever happens to other orders, the order is on its plan. */
  lemma {:induction false} PlanDrivenLogsStayOnPlan(events: seq<LedgerEvent>, id: IntentId, plan: Plan)
    requires plan.Valid() && plan.intentId == id && Replay(events).Ok?
    requires forall e :: e in events ==> PlanDriven(e, id, plan)
    ensures OnPlan(Replay(events).value, id, plan)
    decreases |events|
  {
    hide InvariantButAvailable, ApplyEvent, PlannedEvents, TotalFilled, PlanDriven, OrderOnPlan;
    if events != [] {
      var prefix, last := events[..|events| - 1], events[|events| - 1];
      ReplaySplitsAtLast(EMPTY_LEDGER, events);
      PlanDrivenLogsStayOnPlan(prefix, id, plan);
      ReachedIsOk(prefix);
      StaysOnPlan(Replay(prefix).value, id, plan, last);
    }
  }

  // ---- Reconciling one order ----

  /** The order is closed with exactly what the plan recorded. */
  predicate ClosedAs(o: OrderAggregate, plan: Plan) {
    && o.state == FinalState(plan.status)
    && o.filledQuantity == plan.filledQuantity && o.grossValue == plan.grossValue && o.fees == plan.fee
    && o.backendOrderId == Some(plan.backendOrderId)
  }

  /** The cash the plan has still to move for this order. */
  function Outstanding(o: OrderAggregate, plan: Plan): int {
    if o.state.Terminal() || plan.status == Refused || o.fills != map[] then 0
    else CashMoved(o.intent.side, plan.grossValue, plan.fee)
  }

  lemma PlannedStepSettles(u: LedgerState, t: LedgerState, id: IntentId, plan: Plan, k: nat)
    requires plan.Valid() && k < |PlannedEvents(plan)| && OnPlan(u, id, plan)
    requires id in u.orders && !u.orders[id].state.Terminal()
    requires OneStep(u, t, id, PlannedEvents(plan)[k].body)
    requires PlannedEvents(plan)[k].eventId !in u.fingerprints
    requires k == 3 ==> FillSeen(u, plan)
    ensures t.cash + Outstanding(t.orders[id], plan) == u.cash + Outstanding(u.orders[id], plan)
    ensures t.orders[id].state != Created
    ensures k == LastOf(plan) && u.orders[id].state != Created ==> ClosedAs(t.orders[id], plan)
  {
    hide PlannedEvents, FillEvent, TotalFilled, SeenAsPlanned, NewOrder, MoneyFromUnitPrice, FillSeen;
    PlannedBody(plan, k);
    if plan.status != Refused {
      FillIsThird(plan);
      assert k == 2 ==> !FillSeen(u, plan) by { UnseenFill(u, plan); }
    }
    NothingFilledYet(u.orders[id].intent);
    assert k == 2 ==> PlanFill(plan).fillId in t.orders[id].fills;
    assert k == 3 ==> PlanFill(plan).fillId in u.orders[id].fills;
  }

  /** The order was closed as planned; no other order was written, and cash moved
      by what the plan still had outstanding. */
  ghost predicate Settles(u: LedgerState, r: LedgerState, id: IntentId, plan: Plan)
    requires plan.Valid()
  {
    && Invariant(r) && OnPlan(r, id, plan)
    && id in u.orders && id in r.orders && r.orders == u.orders[id := r.orders[id]]
    && ClosedAs(r.orders[id], plan)
    && r.cash == u.cash + Outstanding(u.orders[id], plan)
  }

  lemma SettlesAfterStep(u: LedgerState, t: LedgerState, r: LedgerState, id: IntentId, plan: Plan, body: EventBody)
    requires plan.Valid() && OneStep(u, t, id, body) && Settles(t, r, id, plan)
    requires t.cash + Outstanding(t.orders[id], plan) == u.cash + Outstanding(u.orders[id], plan)
    ensures Settles(u, r, id, plan)
  {
    hide Stepped, CashOf, OnPlan, ClosedAs, Outstanding, InvariantButAvailable;
    assert u.orders[id := t.orders[id]][id := r.orders[id]] == u.orders[id := r.orders[id]];
  }

  lemma ClosedSettles(u: LedgerState, t: LedgerState, id: IntentId, plan: Plan, body: EventBody)
    requires plan.Valid() && OneStep(u, t, id, body) && Invariant(t) && OnPlan(t, id, plan)
    requires t.cash + Outstanding(t.orders[id], plan) == u.cash + Outstanding(u.orders[id], plan)
    requires ClosedAs(t.orders[id], plan)
    ensures Settles(u, t, id, plan)
  {
    hide Stepped, CashOf, OnPlan, InvariantButAvailable;
  }

  /** A new planned event takes the order one step along its plan. */
  lemma PlannedStep(u: LedgerState, id: IntentId, plan: Plan, k: nat)
    requires Invariant(u) && plan.Valid() && OnPlan(u, id, plan) && k < |PlannedEvents(plan)|
    requires id in u.orders && !u.orders[id].state.Terminal() && (k == 3 ==> FillSeen(u, plan))
    requires PlannedEvents(plan)[k].eventId !in u.fingerprints
    requires ApplyEvent(u, PlannedEvents(plan)[k]).Ok?
    ensures var t := ApplyEvent(u, PlannedEvents(plan)[k]).value;
            && Invariant(t) && OnPlan(t, id, plan) && OneStep(u, t, id, PlannedEvents(plan)[k].body)
            && t.cash + Outstanding(t.orders[id], plan) == u.cash + Outstanding(u.orders[id], plan)
            && t.orders[id].state != Created
            && (k < LastOf(plan) ==> !t.orders[id].state.Terminal())
            && (k == LastOf(plan) && u.orders[id].state != Created ==> ClosedAs(t.orders[id], plan))
            && (k == 2 ==> FillSeen(t, plan))
  {
    hide InvariantButAvailable, ApplyBody, ApplyEvent, PlannedEvents, FillEvent, TotalFilled, OnPlan, OneStep,
         FillSeen, Outstanding, ClosedAs, LastOf, Concerns;
    var e, t := PlannedEvents(plan)[k], ApplyEvent(u, PlannedEvents(plan)[k]).value;
    OnPlanNames(u, id, plan);
    AcceptedStep(u, e);
    PlannedIdsBelong(plan, k);
    if e.body.FillReceived? {
      UnseenFillIsNotBooked(u, id, plan, k);
    }
    LifecycleStep(u, id, e);
    StepHasOrder(u, t, id, e.body);
    PlannedTrace(u, t, plan, k);
    PlannedBody(plan, k);
    PlannedStepStaysOnPlan(u, t, id, plan, k);
    PlannedStepSettles(u, t, id, plan, k);
  }

  lemma OnPlanNames(u: LedgerState, id: IntentId, plan: Plan)
    requires plan.Valid() && OnPlan(u, id, plan)
    ensures plan.intentId == id
    ensures forall k :: 0 <= k < |PlannedEvents(plan)| && PlannedEvents(plan)[k].eventId in u.fingerprints ==>
                          u.fingerprints[PlannedEvents(plan)[k].eventId] == PlannedEvents(plan)[k]
    ensures id in u.orders && !u.orders[id].state.Terminal() ==>
              && PlannedEvents(plan)[LastOf(plan)].eventId !in u.fingerprints
              && (u.orders[id].state == Created ==> NotSeen(u, PlannedEvents(plan), 0))
              && MidStates(u.orders[id].state, plan, FillSeen(u, plan))
  {
    hide PlannedEvents, FillSeen, Bare, MidStates, Fits, NotSeen;
  }

  lemma SeenFill(u: LedgerState, plan: Plan)
    requires plan.Valid() && 2 < |PlannedEvents(plan)| && PlannedEvents(plan)[2].eventId in u.fingerprints
    ensures FillSeen(u, plan)
  {
    hide TotalFilled;
  }

  /** From any point of the plan that is not past the order's own, the rest of
      the plan, if the ledger takes it, closes the order as planned. */
  lemma {:induction false} RestCloses(u: LedgerState, id: IntentId, plan: Plan, k: nat)
    requires Invariant(u) && plan.Valid() && OnPlan(u, id, plan) && k < |PlannedEvents(plan)|
    requires id in u.orders && !u.orders[id].state.Terminal()
    requires (0 < k ==> u.orders[id].state != Created) && (k == 3 ==> FillSeen(u, plan))
    requires ReplayFrom(u, PlannedEvents(plan)[k..]).Ok?
    ensures Settles(u, ReplayFrom(u, PlannedEvents(plan)[k..]).value, id, plan)
    decreases |PlannedEvents(plan)| - k
  {
    hide InvariantButAvailable, ApplyEvent, PlannedEvents, TotalFilled, OnPlan, OneStep, FillSeen, Outstanding,
         ClosedAs, Settles, ReplayFrom, MidStates;
    var planned := PlannedEvents(plan);
    var e := planned[k];
    assert planned[k..] == [e] + planned[k + 1..];
    ReplayFirst(u, e, planned[k + 1..]);
    OnPlanNames(u, id, plan);
    if e.eventId in u.fingerprints {
      RecordedEventIsSkipped(u, e);
      if k == 2 {
        SeenFill(u, plan);
      }
      RestCloses(u, id, plan, k + 1);
    } else {
      var t := ApplyEvent(u, e).value;
      PlannedStep(u, id, plan, k);
      StepHasOrder(u, t, id, e.body);
      if k == LastOf(plan) {
        assert planned[k + 1..] == [];
        ReplayNothing(t);
        LastFollows(u, id, plan, k);
        ClosedSettles(u, t, id, plan, e.body);
      } else {
        RestCloses(t, id, plan, k + 1);
        SettlesAfterStep(u, t, ReplayFrom(t, planned[k + 1..]).value, id, plan, e.body);
      }
    }
  }

  lemma ReplayNothing(u: LedgerState)
    ensures ReplayFrom(u, []) == Ok(u)
  {}

  lemma LastFollows(u: LedgerState, id: IntentId, plan: Plan, k: nat)
    requires plan.Valid() && k == LastOf(plan) && id in u.orders
    requires 0 < k ==> u.orders[id].state != Created
    ensures u.orders[id].state != Created
  {
    hide TotalFilled;
  }

  /** Where `reconcile` picks up the plan of an open order. */
  function StartOf(state: OrderState, plan: Plan): nat
    requires plan.Valid()
  {
    match state
    case Created => 0
    case Submitted => 1
    case PartiallyFilled => LastOf(plan)
    case _ => if plan.status == Refused then 1 else 2
  }

  lemma ReconcileIsSuffix(o: OrderAggregate, plan: Plan, filled: bool)
    requires plan.Valid() && o.intent.intentId == plan.intentId
    requires !o.state.Terminal() && MidStates(o.state, plan, filled)
    ensures StartOf(o.state, plan) < |PlannedEvents(plan)|
    ensures Reconcile(o, Some(plan)) == Some(PlannedEvents(plan)[StartOf(o.state, plan)..])
    ensures StartOf(o.state, plan) == 3 ==> filled
    ensures 0 < StartOf(o.state, plan) ==> o.state != Created
  {
    hide TotalFilled, SubmittedEvent, AcknowledgedEvent, RejectedEvent, FillEvent, CancelledEvent;
    assert PlannedEvents(plan)[0..] == PlannedEvents(plan);
  }

  /** Whatever interrupted the order: `reconcile` finds events of its plan, and
      a ledger that takes them holds the order closed as planned, with every
      other order as it was. */
  lemma ReconcileCloses(u: LedgerState, id: IntentId, plan: Plan)
    requires Invariant(u) && plan.Valid() && OnPlan(u, id, plan)
    requires id in u.orders && !u.orders[id].state.Terminal()
    ensures var rest := Reconcile(u.orders[id], Some(plan));
            && rest.Some? && rest.value != []
            && (forall e :: e in rest.value ==> e in PlannedEvents(plan))
            && (ReplayFrom(u, rest.value).Ok? ==> Settles(u, ReplayFrom(u, rest.value).value, id, plan))
  {
    hide InvariantButAvailable, TotalFilled, OnPlan, FillSeen, Settles, ReplayFrom, PlannedEvents, Reconcile, StartOf,
         MidStates;
    OnPlanNames(u, id, plan);
    OrderNamesPlan(u, id, plan);
    ReconcileIsSuffix(u.orders[id], plan, FillSeen(u, plan));
    var k := StartOf(u.orders[id].state, plan);
    if ReplayFrom(u, PlannedEvents(plan)[k..]).Ok? {
      RestCloses(u, id, plan, k);
    }
  }

  lemma OrderNamesPlan(u: LedgerState, id: IntentId, plan: Plan)
    requires plan.Valid() && OnPlan(u, id, plan) && id in u.orders
    ensures u.orders[id].intent.intentId == plan.intentId
  {
    hide PlannedEvents, FillSeen, Bare, MidStates, NotSeen, TotalFilled;
  }

  // ---- When the ledger takes the rest of a plan ----

  /** The ledger can take what an open order's plan has still to book. */
  predicate Payable(u: LedgerState, o: OrderAggregate, plan: Plan)
    requires plan.Valid()
  {
    o.fills != map[] || Affordable(u, o.intent, plan)
  }

  /** The same, apart from the micro-unit that rounding may cost a partial BUY. */
  predicate Fundable(u: LedgerState, o: OrderAggregate, plan: Plan) {
    o.fills != map[] || plan.status == Refused || o.intent.side == Sell
    || (plan.fee <= o.intent.feeReserve && PositionOrEmpty(u, o.intent.Key()).status == Open)
  }

  /** The next planned event the order can meet is number `k`. */
  predicate Meets(u: LedgerState, o: OrderAggregate, plan: Plan, k: nat)
    requires plan.Valid()
  {
    && (k == 0 <==> o.state == Created)
    && (k == 1 ==> o.state in {Submitted, Unknown})
    && (k == 3 ==> FillSeen(u, plan))
  }

  lemma LabelKeepsMoney(u: LedgerState, e: LedgerEvent)
    requires e.body.OrderSubmitted? || e.body.OrderAcknowledged?
    requires e.eventId !in u.fingerprints && ApplyEvent(u, e).Ok?
    ensures var t := ApplyEvent(u, e).value;
            t.positions == u.positions && t.AvailableCash() == u.AvailableCash()
  {
    hide InvariantButAvailable, ApplyEvent;
    AcceptedStep(u, e);
  }

  lemma SameMoneySamePayable(u: LedgerState, t: LedgerState, o: OrderAggregate, o': OrderAggregate, plan: Plan)
    requires plan.Valid() && t.positions == u.positions && t.AvailableCash() == u.AvailableCash()
    requires o'.intent == o.intent && o'.fills == o.fills
    ensures Payable(t, o', plan) <==> Payable(u, o, plan)
  {
    hide RoundingSlack, TotalFilled;
  }

  /** Submissions and acknowledgements in their turn are always accepted. */
  lemma LabelAccepted(u: LedgerState, id: IntentId, plan: Plan, k: nat)
    requires Invariant(u) && plan.Valid() && OnPlan(u, id, plan) && k < LastOf(plan) && k <= 1
    requires id in u.orders && !u.orders[id].state.Terminal() && Meets(u, u.orders[id], plan, k)
    requires PlannedEvents(plan)[k].eventId !in u.fingerprints
    ensures ApplyEvent(u, PlannedEvents(plan)[k]).Ok?
  {
    hide InvariantButAvailable, PlannedEvents, TotalFilled, SeenAsPlanned, NewOrder, MoneyFromUnitPrice,
         FillSeen, ApplyEvent;
    var e := PlannedEvents(plan)[k];
    PlannedBody(plan, k);
    PlannedIdsBelong(plan, k);
    NothingFilledYet(u.orders[id].intent);
    RelabelAccepted(u, e);
  }

  /** So are the events that end an order. */
  lemma EndAccepted(u: LedgerState, id: IntentId, plan: Plan, k: nat)
    requires Invariant(u) && plan.Valid() && OnPlan(u, id, plan) && k == LastOf(plan) && plan.status != FullFill
    requires id in u.orders && !u.orders[id].state.Terminal() && Meets(u, u.orders[id], plan, k)
    ensures ApplyEvent(u, PlannedEvents(plan)[k]).Ok?
    ensures Payable(u, u.orders[id], plan)
  {
    hide InvariantButAvailable, PlannedEvents, TotalFilled, SeenAsPlanned, NewOrder, MoneyFromUnitPrice,
         FillSeen, ApplyEvent, RoundingSlack;
    var o := u.orders[id];
    PlannedBody(plan, k);
    PlannedIdsBelong(plan, k);
    NothingFilledYet(o.intent);
    OnPlanNames(u, id, plan);
    if plan.status == PartialFill {
      assert PlanFill(plan).fillId in o.fills;
    }
    TerminalAccepted(u, PlannedEvents(plan)[k], id);
  }

  lemma PlannedFillAccepted(u: LedgerState, id: IntentId, plan: Plan)
    requires Invariant(u) && plan.Valid() && plan.status != Refused && OnPlan(u, id, plan)
    requires id in u.orders && !u.orders[id].state.Terminal() && u.orders[id].state != Created
    requires FillEvent(plan).eventId !in u.fingerprints
    ensures ApplyEvent(u, FillEvent(plan)).Ok? <==> Payable(u, u.orders[id], plan)
  {
    hide InvariantButAvailable, PlannedEvents, TotalFilled, SeenAsPlanned, NewOrder, LastOf, MoneyFromUnitPrice,
         FillSeen, ApplyEvent, RoundingSlack;
    var o := u.orders[id];
    UnseenFill(u, plan);
    NothingFilledYet(o.intent);
    FillAccepted(u, o, plan);
  }

  lemma FillPaysOff(u: LedgerState, o: OrderAggregate, plan: Plan)
    requires plan.Valid() && OrderOnPlan(u, o, plan) && !o.state.Terminal() && FillSeen(u, plan)
    ensures o.fills != map[] && Payable(u, o, plan)
  {
    hide PlannedEvents, TotalFilled, NewOrder, LastOf, MoneyFromUnitPrice, FillSeen, Fits;
    assert PlanFill(plan).fillId in o.fills;
  }

  lemma OnPlanOrder(u: LedgerState, id: IntentId, plan: Plan)
    requires plan.Valid() && OnPlan(u, id, plan) && id in u.orders
    ensures OrderOnPlan(u, u.orders[id], plan)
  {
    hide OrderOnPlan, SeenAsPlanned, NotSeen;
  }

  /** The states a planned event leaves the order in. */
  lemma StepMeetsNext(u: LedgerState, t: LedgerState, id: IntentId, plan: Plan, k: nat)
    requires plan.Valid() && k < LastOf(plan) && OneStep(u, t, id, PlannedEvents(plan)[k].body)
    requires k == 2 ==> FillSeen(t, plan)
    requires t.orders[id].state != Created
    ensures Meets(t, t.orders[id], plan, k + 1)
    ensures k < 2 ==> t.orders[id].intent == u.orders[id].intent && t.orders[id].fills == u.orders[id].fills
  {
    hide PlannedEvents, TotalFilled, FillSeen, MoneyFromUnitPrice;
    PlannedBody(plan, k);
  }

  /** From the order's own point of the plan, the ledger takes the rest of the
      plan if and only if it can pay for it. */
  lemma {:induction false} RestAccepted(u: LedgerState, id: IntentId, plan: Plan, k: nat)
    requires Invariant(u) && plan.Valid() && OnPlan(u, id, plan) && k < |PlannedEvents(plan)|
    requires id in u.orders && !u.orders[id].state.Terminal() && Meets(u, u.orders[id], plan, k)
    ensures ReplayFrom(u, PlannedEvents(plan)[k..]).Ok? <==> Payable(u, u.orders[id], plan)
    decreases |PlannedEvents(plan)| - k
  {
    hide InvariantButAvailable, ApplyEvent, PlannedEvents, TotalFilled, OnPlan, OneStep, FillSeen, Payable,
         ClosedAs, ReplayFrom, MidStates, Outstanding;
    var planned, o := PlannedEvents(plan), u.orders[id];
    var e := planned[k];
    assert planned[k..] == [e] + planned[k + 1..];
    ReplayFirst(u, e, planned[k + 1..]);
    OnPlanNames(u, id, plan);
    if e.eventId in u.fingerprints {
      SeenIsSkipped(u, id, plan, k);
      RestAccepted(u, id, plan, k + 1);
    } else if k == LastOf(plan) && plan.status != FullFill {
      assert planned[k + 1..] == [];
      EndAccepted(u, id, plan, k);
      ReplayNothing(ApplyEvent(u, e).value);
    } else if k <= 1 {
      LastIsLate(plan, k);
      LabelAccepted(u, id, plan, k);
      PlannedStep(u, id, plan, k);
      var t := ApplyEvent(u, e).value;
      PlannedBody(plan, k);
      LabelKeepsMoney(u, e);
      StepHasOrder(u, t, id, e.body);
      StepMeetsNext(u, t, id, plan, k);
      SameMoneySamePayable(u, t, o, t.orders[id], plan);
      RestAccepted(t, id, plan, k + 1);
    } else {
      FillComes(plan, k);
      PlannedFillAccepted(u, id, plan);
      if ApplyEvent(u, e).Ok? {
        var t := ApplyEvent(u, e).value;
        if k == LastOf(plan) {
          assert planned[k + 1..] == [];
          ReplayNothing(t);
        } else {
          PlannedStep(u, id, plan, k);
          StepHasOrder(u, t, id, e.body);
          StepMeetsNext(u, t, id, plan, k);
          OnPlanOrder(t, id, plan);
          FillPaysOff(t, t.orders[id], plan);
          RestAccepted(t, id, plan, k + 1);
        }
      }
    }
  }

  lemma LastIsLate(plan: Plan, k: nat)
    requires plan.Valid() && k <= 1 && k < |PlannedEvents(plan)|
    requires !(k == LastOf(plan) && plan.status != FullFill)
    ensures k < LastOf(plan)
  {
    hide TotalFilled;
  }

  lemma FillComes(plan: Plan, k: nat)
    requires plan.Valid() && 2 <= k < |PlannedEvents(plan)|
    requires !(k == LastOf(plan) && plan.status != FullFill)
    ensures k == 2 && plan.status != Refused && PlannedEvents(plan)[2] == FillEvent(plan)
  {
    hide TotalFilled;
  }

  /** A planned event already recorded changes nothing, and the order meets the next. */
  lemma SeenIsSkipped(u: LedgerState, id: IntentId, plan: Plan, k: nat)
    requires plan.Valid() && OnPlan(u, id, plan) && k < |PlannedEvents(plan)|
    requires id in u.orders && !u.orders[id].state.Terminal() && Meets(u, u.orders[id], plan, k)
    requires PlannedEvents(plan)[k].eventId in u.fingerprints
    ensures k + 1 < |PlannedEvents(plan)| && Meets(u, u.orders[id], plan, k + 1)
    ensures ApplyEvent(u, PlannedEvents(plan)[k]) == Ok(u)
  {
    hide PlannedEvents, TotalFilled, OnPlan, FillSeen, ApplyEvent, MidStates;
    OnPlanNames(u, id, plan);
    RecordedEventIsSkipped(u, PlannedEvents(plan)[k]);
    if k == 2 {
      SeenFill(u, plan);
    }
  }

  /** The ledger takes what `reconcile` emits for an open order if and only if
      it can pay for the plan. */
  lemma ReconcileAccepted(u: LedgerState, id: IntentId, plan: Plan)
    requires Invariant(u) && plan.Valid() && OnPlan(u, id, plan)
    requires id in u.orders && !u.orders[id].state.Terminal()
    ensures var rest := Reconcile(u.orders[id], Some(plan));
            rest.Some? && (ReplayFrom(u, rest.value).Ok? <==> Payable(u, u.orders[id], plan))
  {
    hide InvariantButAvailable, TotalFilled, OnPlan, FillSeen, ReplayFrom, PlannedEvents, Reconcile, Payable;
    OnPlanNames(u, id, plan);
    OrderNamesPlan(u, id, plan);
    ReconcileIsSuffix(u.orders[id], plan, FillSeen(u, plan));
    StartMeets(u, u.orders[id], plan);
    RestAccepted(u, id, plan, StartOf(u.orders[id].state, plan));
  }

  lemma StartMeets(u: LedgerState, o: OrderAggregate, plan: Plan)
    requires plan.Valid() && !o.state.Terminal() && MidStates(o.state, plan, FillSeen(u, plan))
    ensures Meets(u, o, plan, StartOf(o.state, plan))
  {
    hide TotalFilled, FillSeen;
    PlannedBody(plan, 0);
  }

  /** Finishing an order sets free at least as much cash as it moves. */
  lemma FinishingFreesCash(u: LedgerState, id: IntentId, plan: Plan)
    requires Invariant(u) && plan.Valid() && OnPlan(u, id, plan)
    requires id in u.orders && !u.orders[id].state.Terminal()
    ensures 0 <= Outstanding(u.orders[id], plan) + CashHeldBy(u.orders[id])
  {
    hide PlannedEvents, TotalFilled, SeenAsPlanned, LastOf, MoneyFromUnitPrice, FillSeen, OrdersOk, PositionsOk,
         EvidenceAgrees, ObservationsOk;
    OrderFacts(u, id);
    OnPlanOrder(u, id, plan);
    if FillSeen(u, plan) {
      FillPaysOff(u, u.orders[id], plan);
    }
  }
}
