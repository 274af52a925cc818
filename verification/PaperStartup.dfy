/** Startup recovery of all open paper orders through the event store. */
module PaperStartup {
  import opened MapSums
  import opened Model
  import opened Events
  import opened State
  import opened Reducers
  import opened LedgerInvariants
  import opened LedgerRuns
  import opened LifecycleSteps
  import opened Codec
  import opened EventLog
  import opened StoreSpec
  import opened StoreRuns
  import opened Decisions
  import opened EventStore
  import opened PaperPlan
  import opened PaperLedger
  import opened PaperRecovery
  import opened PaperProgress
  import WorldRecords
  import Acceptance

  const PAPER: Text := "paper"

  type ValidPlan = p: Plan | p.Valid()
    witness Plan("-", Refused, Plain("-"), 0, 1, 0, None, None, 0, 0, [], QuantityBelowMinimum)

  /** How a plan is read back from adapter metadata; none where that raises. */
  type PlanReader = Metadata -> Option<ValidPlan>

  /** The plan stored for an intent. */
  function DurablePlan(adapters: Adapters, read: PlanReader, id: IntentId): Option<ValidPlan> {
    if id in adapters && adapters[id].backend == PAPER then read(adapters[id].payload) else None
  }

  /** Every order with a stored plan is on it. */
  ghost predicate AllOnPlan(u: LedgerState, adapters: Adapters, read: PlanReader) {
    forall id :: DurablePlan(adapters, read, id).Some? ==> OnPlan(u, id, DurablePlan(adapters, read, id).value)
  }

  /** The cash that the stored plans have still to move for an order. */
  function OutstandingOf(adapters: Adapters, read: PlanReader): OrderAggregate -> int {
    (o: OrderAggregate) =>
      match DurablePlan(adapters, read, o.intent.intentId)
      case None => 0
      case Some(plan) => Outstanding(o, plan)
  }

  // ---- One order at a time ----

  /** Events of one plan leave every other plan's order on its plan. */
  lemma PlannedEventsAreForeign(e: LedgerEvent, plan: Plan, other: Plan)
    requires plan.Valid() && other.Valid() && plan.intentId != other.intentId
    requires e in PlannedEvents(plan)
    ensures PlanDriven(e, other.intentId, other)
  {
    hide TotalFilled;
    var k :| 0 <= k < |PlannedEvents(plan)| && PlannedEvents(plan)[k] == e;
    PlannedIdsBelong(plan, k);
  }

  lemma {:induction false} BatchStaysOnPlan(u: LedgerState, batch: seq<LedgerEvent>, id: IntentId, plan: Plan)
    requires Invariant(u) && plan.Valid() && OnPlan(u, id, plan)
    requires forall e :: e in batch ==> PlanDriven(e, id, plan)
    requires ReplayFrom(u, batch).Ok?
    ensures OnPlan(ReplayFrom(u, batch).value, id, plan)
    decreases |batch|
  {
    hide InvariantButAvailable, ApplyEvent, OnPlan, PlanDriven;
    if batch != [] {
      var prefix, last := batch[..|batch| - 1], batch[|batch| - 1];
      ReplaySplitsAtLast(u, batch);
      ReplayKeepsInvariant(u, prefix);
      BatchStaysOnPlan(u, prefix, id, plan);
      StaysOnPlan(ReplayFrom(u, prefix).value, id, plan, last);
    }
  }

  const NO_PLAN: Text := "no durable execution plan"

  /** The event that ends an order recovery finds without a plan. */
  function RecoveryCancel(id: IntentId, now: Timestamp): LedgerEvent {
    LedgerEvent(PaperId(RecoveryCancelTag, id), now, OrderCancelled(id, NO_PLAN))
  }

  /** What recovery makes of an order it finishes: one with adapter metadata ends
      as its plan says, one that was never submitted is cancelled unfilled. */
  predicate Finished(o: OrderAggregate, o': OrderAggregate, adapters: Adapters, read: PlanReader) {
    var id := o.intent.intentId;
    if id in adapters then
      var plan := DurablePlan(adapters, read, id);
      o'.intent == o.intent && plan.Some? && ClosedAs(o', plan.value)
    else
      o.state == Created
      && o' == Closing(o, Cancelled, NO_PLAN).(reservedCash := 0, reservedQuantity := 0)
  }

  /** No less cash is available, and no position was opened or settled. */
  ghost predicate NoPoorer(s: LedgerState, t: LedgerState) {
    s.AvailableCash() <= t.AvailableCash() && WorldRecords.SameStatuses(s, t)
  }

  /** From `s` to `t` exactly the orders `done` were finished, cash moved by what
      their plans had outstanding, and no less of it is available. */
  ghost predicate Moved(s: LedgerState, t: LedgerState, done: set<IntentId>, adapters: Adapters, read: PlanReader) {
    && Invariant(t) && AllOnPlan(t, adapters, read) && NoPoorer(s, t)
    && t.orders.Keys == s.orders.Keys
    && (forall id :: id in s.orders ==>
                       if id in done then Finished(s.orders[id], t.orders[id], adapters, read)
                       else t.orders[id] == s.orders[id])
    && t.cash + Total(t.orders, OutstandingOf(adapters, read))
       == s.cash + Total(s.orders, OutstandingOf(adapters, read))
  }

  lemma NothingMoved(s: LedgerState, adapters: Adapters, read: PlanReader)
    requires Invariant(s) && AllOnPlan(s, adapters, read)
    ensures Moved(s, s, {}, adapters, read)
  {}

  lemma MovedFurther(
    s: LedgerState, t: LedgerState, u: LedgerState, done: set<IntentId>, more: set<IntentId>, adapters: Adapters,
    read: PlanReader)
    requires Moved(s, t, done, adapters, read) && Moved(t, u, more, adapters, read)
    requires done !! more
    ensures Moved(s, u, done + more, adapters, read)
  {
    hide InvariantButAvailable, AllOnPlan, Finished;
  }

  /** Writing one order moves the outstanding cash by that order's alone. */
  lemma OneOrderMoves(u: LedgerState, r: LedgerState, id: IntentId, adapters: Adapters, read: PlanReader)
    requires Invariant(u) && Invariant(r) && AllOnPlan(r, adapters, read)
    requires id in u.orders && id in r.orders && r.orders == u.orders[id := r.orders[id]]
    requires Finished(u.orders[id], r.orders[id], adapters, read)
    requires var f := OutstandingOf(adapters, read);
             r.cash + f(r.orders[id]) == u.cash + f(u.orders[id])
    requires NoPoorer(u, r)
    ensures Moved(u, r, {id}, adapters, read)
  {
    hide InvariantButAvailable, AllOnPlan, Finished, NoPoorer;
    TotalUpdate(u.orders, OutstandingOf(adapters, read), id, r.orders[id]);
  }

  /** Reconciling one order finishes it and moves nothing else. */
  lemma ReconciledOrder(u: LedgerState, id: IntentId, adapters: Adapters, read: PlanReader)
    requires Invariant(u) && AllOnPlan(u, adapters, read)
    requires id in u.orders && !u.orders[id].state.Terminal() && DurablePlan(adapters, read, id).Some?
    ensures var rest := Reconcile(u.orders[id], DurablePlan(adapters, read, id));
            && rest.Some? && rest.value != []
            && (ReplayFrom(u, rest.value).Ok? ==>
                  Moved(u, ReplayFrom(u, rest.value).value, {id}, adapters, read))
  {
    hide InvariantButAvailable, ReplayFrom, OnPlan, Reconcile, Outstanding, ClosedAs, PlannedEvents, PlanDriven,
         OrdersProgress, TotalFilled, NoPoorer;
    var plan := DurablePlan(adapters, read, id).value;
    ReconcileCloses(u, id, plan);
    var rest := Reconcile(u.orders[id], Some(plan)).value;
    if ReplayFrom(u, rest).Ok? {
      var r := ReplayFrom(u, rest).value;
      forall other | DurablePlan(adapters, read, other).Some?
        ensures OnPlan(r, other, DurablePlan(adapters, read, other).value)
      {
        if other != id {
          OthersStayOnPlan(u, rest, id, plan, other, DurablePlan(adapters, read, other).value);
        }
      }
      LifecycleIsSafe(u, rest);
      ProgressKeepsIntent(u.orders, r.orders, id);
      InvariantGivesIds(u);
      ClosedOwesNothing(r.orders[id], plan);
      SettledIsNoPoorer(u, id, plan, rest);
      OneOrderMoves(u, r, id, adapters, read);
    }
  }

  lemma SettledIsNoPoorer(u: LedgerState, id: IntentId, plan: Plan, rest: seq<LedgerEvent>)
    requires Invariant(u) && plan.Valid() && OnPlan(u, id, plan)
    requires id in u.orders && !u.orders[id].state.Terminal()
    requires ReplayFrom(u, rest).Ok? && Settles(u, ReplayFrom(u, rest).value, id, plan)
    requires forall e :: e in rest ==> e in PlannedEvents(plan)
    ensures NoPoorer(u, ReplayFrom(u, rest).value)
  {
    hide InvariantButAvailable, ReplayFrom, OnPlan, Outstanding, PlannedEvents, TotalFilled, CashHeldBy;
    var r := ReplayFrom(u, rest).value;
    InvariantFreesTerminals(r);
    ClosingReturnsReservations(u, r, id);
    FinishingFreesCash(u, id, plan);
    PlannedEventsAreValid(plan, rest);
    WorldRecords.StatusesAreKept(u, rest);
  }

  lemma OthersStayOnPlan(
    u: LedgerState, rest: seq<LedgerEvent>, id: IntentId, plan: Plan, other: IntentId, otherPlan: Plan)
    requires Invariant(u) && plan.Valid() && otherPlan.Valid() && id != other
    requires OnPlan(u, id, plan) && OnPlan(u, other, otherPlan)
    requires forall e :: e in rest ==> e in PlannedEvents(plan)
    requires ReplayFrom(u, rest).Ok?
    ensures OnPlan(ReplayFrom(u, rest).value, other, otherPlan)
  {
    hide InvariantButAvailable, ReplayFrom, PlannedEvents, PlanDriven, TotalFilled, OrderOnPlan, SeenAsPlanned, NotSeen;
    forall e | e in rest ensures PlanDriven(e, other, otherPlan) {
      PlannedEventsAreForeign(e, plan, otherPlan);
    }
    BatchStaysOnPlan(u, rest, other, otherPlan);
  }

  lemma ProgressKeepsIntent(before: Orders, after: Orders, id: IntentId)
    requires OrdersProgress(before, after) && id in before
    ensures id in after && after[id].intent == before[id].intent
  {}

  lemma ClosedOwesNothing(o: OrderAggregate, plan: Plan)
    requires ClosedAs(o, plan)
    ensures Outstanding(o, plan) == 0
  {}

  /** Cancelling an order that has no plan finishes it and moves no cash. */
  lemma CancelledOrder(u: LedgerState, id: IntentId, now: Timestamp, adapters: Adapters, read: PlanReader)
    requires Invariant(u) && AllOnPlan(u, adapters, read)
    requires id in u.orders && u.orders[id].state == Created && id !in adapters
    requires RecoveryCancel(id, now).eventId !in u.fingerprints && ApplyEvent(u, RecoveryCancel(id, now)).Ok?
    ensures Moved(u, ApplyEvent(u, RecoveryCancel(id, now)).value, {id}, adapters, read)
  {
    hide InvariantButAvailable, ApplyEvent, ApplyBody, OnPlan, PlannedEvents, TotalFilled, Outstanding, PlanDriven,
         NoPoorer;
    var e := RecoveryCancel(id, now);
    var r := ApplyEvent(u, e).value;
    AcceptedStep(u, e);
    InvariantGivesIds(u);
    LifecycleStep(u, id, e);
    InvariantFreesTerminals(r);
    forall other | DurablePlan(adapters, read, other).Some?
      ensures OnPlan(r, other, DurablePlan(adapters, read, other).value)
    {
      OnPlanNames(u, other, DurablePlan(adapters, read, other).value);
      RecoveryCancelIsForeign(id, now, other, DurablePlan(adapters, read, other).value);
      StaysOnPlan(u, other, DurablePlan(adapters, read, other).value, e);
    }
    CancelledIsNoPoorer(u, id, now);
    OneOrderMoves(u, r, id, adapters, read);
  }

  lemma CancelledIsNoPoorer(u: LedgerState, id: IntentId, now: Timestamp)
    requires Invariant(u) && id in u.orders
    requires RecoveryCancel(id, now).eventId !in u.fingerprints && ApplyEvent(u, RecoveryCancel(id, now)).Ok?
    ensures NoPoorer(u, ApplyEvent(u, RecoveryCancel(id, now)).value)
  {
    hide InvariantButAvailable, ApplyEvent, ReplayFrom, CashHeldBy;
    var e := RecoveryCancel(id, now);
    var r := ApplyEvent(u, e).value;
    AcceptedStep(u, e);
    LifecycleStep(u, id, e);
    InvariantFreesTerminals(r);
    ClosingReturnsReservations(u, r, id);
    HoldsNoNegative(u, id);
    ReplayOne(u, e);
    WorldRecords.StatusesAreKept(u, [e]);
  }

  lemma HoldsNoNegative(u: LedgerState, id: IntentId)
    requires Invariant(u) && id in u.orders
    ensures 0 <= CashHeldBy(u.orders[id])
  {
    hide OrdersOk, PositionsOk, EvidenceAgrees, ObservationsOk;
    OrderFacts(u, id);
  }

  /** No event stands under the identifier of the order's recovery cancellation. */
  predicate CancelUnused(u: LedgerState, id: IntentId) {
    PaperId(RecoveryCancelTag, id) !in u.fingerprints
  }

  /** An order still created can be cancelled exactly if the identifier is unused. */
  lemma CancelAccepted(events: seq<LedgerEvent>, id: IntentId, now: Timestamp)
    requires Replay(events).Ok? && id in Replay(events).value.orders
    requires Replay(events).value.orders[id].state == Created
    ensures ApplyEvent(Replay(events).value, RecoveryCancel(id, now)).Ok? <==> CancelUnused(Replay(events).value, id)
  {
    hide InvariantButAvailable, ApplyEvent, ApplyBody, Replay;
    var u, e := Replay(events).value, RecoveryCancel(id, now);
    ReachedIsOk(events);
    ReplayRecords(events);
    if e.eventId in u.fingerprints {
      if ApplyEvent(u, e).Ok? {
        AcceptedStep(u, e);
        CancelledStaysClosed(events, e);
      }
    } else {
      Acceptance.OrdersAreTight(events, id);
      TerminalAccepted(u, e, id);
    }
  }

  lemma RecoveryCancelIsForeign(id: IntentId, now: Timestamp, other: IntentId, plan: Plan)
    requires plan.Valid()
    ensures PlanDriven(RecoveryCancel(id, now), other, plan)
  {
    hide PlannedEvents, TotalFilled;
  }

  /** An order cancelled in an accepted log is closed. */
  lemma {:induction false} CancelledStaysClosed(events: seq<LedgerEvent>, e: LedgerEvent)
    requires Replay(events).Ok? && e in events && e.body.OrderCancelled?
    ensures var u := Replay(events).value;
            e.body.intentId in u.orders && u.orders[e.body.intentId].state.Terminal()
    decreases |events|
  {
    hide InvariantButAvailable, ApplyEvent, ApplyBody;
    var prefix, last := events[..|events| - 1], events[|events| - 1];
    assert events == prefix + [last];
    ReplaySplitsAtLast(EMPTY_LEDGER, events);
    ReachedIsOk(prefix);
    var s := Replay(prefix).value;
    AcceptedStep(s, last);
    StepProgresses(s, last);
    if last.eventId !in s.fingerprints && last == e {
      LifecycleStep(s, e.body.intentId, e);
    } else {
      ReplayRecords(prefix);
      CancelledStaysClosed(prefix, e);
    }
  }

  // ---- What can be finished ----

  /** The order's plan is stored, can be read, and the ledger can pay for it. */
  ghost predicate Ready(s: LedgerState, id: IntentId, adapters: Adapters, read: PlanReader) {
    && id in s.orders
    && DurablePlan(adapters, read, id).Some?
    && Payable(s, s.orders[id], DurablePlan(adapters, read, id).value)
  }

  /** The same, apart from the micro-unit that rounding may cost a partial BUY. */
  ghost predicate ReadyButForRounding(s: LedgerState, id: IntentId, adapters: Adapters, read: PlanReader) {
    && id in s.orders
    && DurablePlan(adapters, read, id).Some?
    && Fundable(s, s.orders[id], DurablePlan(adapters, read, id).value)
  }

  lemma ReadyIsBoth(s: LedgerState, id: IntentId, adapters: Adapters, read: PlanReader)
    ensures Ready(s, id, adapters, read) ==> ReadyButForRounding(s, id, adapters, read)
  {
    hide TotalFilled, RoundingSlack;
  }

  /** A ledger that is no poorer can pay for all that the poorer one could. */
  lemma ReadyStays(s: LedgerState, t: LedgerState, id: IntentId, adapters: Adapters, read: PlanReader)
    requires NoPoorer(s, t) && id in s.orders && id in t.orders && t.orders[id] == s.orders[id]
    ensures Ready(s, id, adapters, read) ==> Ready(t, id, adapters, read)
    ensures ReadyButForRounding(t, id, adapters, read) <==> ReadyButForRounding(s, id, adapters, read)
  {
    hide TotalFilled, RoundingSlack, PositionOrEmpty;
    assert PositionOrEmpty(t, s.orders[id].intent.Key()).status == PositionOrEmpty(s, s.orders[id].intent.Key()).status;
  }

  /** With a micro-unit of cash to spare, or for anything but a partial BUY,
      rounding makes no difference. */
  lemma RoundingIsCovered(s: LedgerState, id: IntentId, adapters: Adapters, read: PlanReader)
    requires Invariant(s) && AllOnPlan(s, adapters, read) && id in OpenOrders(s)
    requires 1 <= s.AvailableCash() || !PartialBuy(s, id, adapters, read)
    ensures ReadyButForRounding(s, id, adapters, read) <==> Ready(s, id, adapters, read)
  {
    hide InvariantButAvailable, TotalFilled, RoundingSlack, SeenAsPlanned, NotSeen, MidStates, Bare,
         PlannedEvents;
    if DurablePlan(adapters, read, id).Some? {
      var o, plan := s.orders[id], DurablePlan(adapters, read, id).value;
      OnPlanOrder(s, id, plan);
      if plan.status != Refused && o.intent.side == Buy {
        SlackBounds(NewOrder(o.intent), PlanFill(plan));
      }
    }
  }

  ghost predicate AllReady(s: LedgerState, ids: set<IntentId>, adapters: Adapters, read: PlanReader) {
    forall id :: id in ids ==> Ready(s, id, adapters, read)
  }

  ghost predicate AllReadyButForRounding(s: LedgerState, ids: set<IntentId>, adapters: Adapters, read: PlanReader) {
    forall id :: id in ids ==> ReadyButForRounding(s, id, adapters, read)
  }

  ghost predicate PartialBuy(s: LedgerState, id: IntentId, adapters: Adapters, read: PlanReader) {
    && id in s.orders && s.orders[id].intent.side == Buy
    && DurablePlan(adapters, read, id).Some? && DurablePlan(adapters, read, id).value.status == PartialFill
  }

  // ---- The two recovery loops ----

  lemma PlannedEventsAreValid(plan: Plan, events: seq<LedgerEvent>)
    requires plan.Valid() && forall e :: e in events ==> e in PlannedEvents(plan)
    ensures AllValid(events) && NoIntents(events)
    ensures forall e :: e in events ==> Concerns(e.body, plan.intentId)
  {
    hide PlannedEvents, TotalFilled, Concerns;
    forall i | 0 <= i < |events|
      ensures ValidEvent(events[i]) && !events[i].body.OrderIntentCreated? && Concerns(events[i].body, plan.intentId)
    {
      assert events[i] in PlannedEvents(plan);
      var k :| 0 <= k < |PlannedEvents(plan)| && PlannedEvents(plan)[k] == events[i];
      PlannedBody(plan, k);
      PlannedIdsBelong(plan, k);
    }
  }

  /** Every table but the log is as it was, and the log has only grown. */
  predicate OnlyLogGrew(st: Store, st': Store) {
    st' == st.(events := st'.events) && GrowsTo(st.events, st'.events)
  }

  lemma AppendingOnlyGrows(st: Store, batch: seq<LedgerEvent>, checked: bool)
    requires StoreOk(st, checked) && AllValid(batch) && Replay(st.events).Ok?
    requires StoreSpec.AppendMany(st, batch).Done?
    ensures OnlyLogGrew(st, StoreSpec.AppendMany(st, batch).value)
  {
    hide Replay, ValidEvent, StoreOk, AppendAll;
    AppendKeeps(st, batch, checked);
  }

  lemma OtherTablesStay(st: Store, st': Store)
    requires OnlyLogGrew(st, st')
    ensures st'.adapters == st.adapters && st'.claims == st.claims && st'.checkpoints == st.checkpoints
  {}

  lemma GrowthComposes(a: Store, b: Store, c: Store)
    requires OnlyLogGrew(a, b) && OnlyLogGrew(b, c)
    ensures OnlyLogGrew(a, c)
  {}

  /** Some of the orders in `todo` were finished, the others left alone; if the
      run was completed, all of them were. */
  ghost predicate PartlyMoved(
    s: LedgerState, t: LedgerState, todo: set<IntentId>, complete: bool, adapters: Adapters, read: PlanReader)
  {
    exists done :: done <= todo && (complete ==> done == todo) && Moved(s, t, done, adapters, read)
  }

  lemma SomeMoved(
    s: LedgerState, t: LedgerState, done: set<IntentId>, todo: set<IntentId>, complete: bool, adapters: Adapters,
    read: PlanReader)
    requires done <= todo && (complete ==> done == todo) && Moved(s, t, done, adapters, read)
    ensures PartlyMoved(s, t, todo, complete, adapters, read)
  {
    hide Moved;
  }

  function WithAction(pending: map<IntentId, RecoveryAction>, action: RecoveryAction): set<IntentId> {
    set id | id in pending && pending[id] == action
  }

  lemma TodoIsOpen(orders: Orders, adapters: Adapters, action: RecoveryAction)
    ensures forall id :: id in WithAction(Unfinished(orders, adapters), action) ==>
                           && id in orders && !orders[id].state.Terminal()
                           && (action == ResumeSubmission ==> orders[id].state == Created && id !in adapters)
  {}

  ghost function LedgerOf(events: seq<LedgerEvent>): LedgerState
    requires Replay(events).Ok?
  {
    Replay(events).value
  }

  /** Reconciles one open order, as the report shows it, through the store. */
  method ReconcileOne(store: EventStore, read: PlanReader, o: OrderAggregate) returns (failure: Option<StoreError>)
    requires store.Valid()
    modifies store
    ensures store.Valid() && Replay(old(store.events)).Ok? && Replay(store.events).Ok?
    ensures OnlyLogGrew(old(store.Tables()), store.Tables())
    ensures failure.Some? ==> store.events == old(store.events)
    ensures var s, id := LedgerOf(old(store.events)), o.intent.intentId;
            failure.None? && AllOnPlan(s, store.adapters, read) && id in s.orders && s.orders[id] == o
            && !o.state.Terminal() ==>
              Moved(s, LedgerOf(store.events), {id}, store.adapters, read)
    ensures var s, id := LedgerOf(old(store.events)), o.intent.intentId;
            AllOnPlan(s, store.adapters, read) && id in s.orders && s.orders[id] == o && !o.state.Terminal() ==>
              (failure.None? <==> Ready(s, id, store.adapters, read))
  {
    hide Replay, StoreOk, RowsOf, Moved, AllOnPlan, AppendAll, ValidEvent, Reconcile, Payable, OnPlan;
    StoreReplays(store.Tables(), store.riskChecked);
    ghost var s, before, id := LedgerOf(store.events), store.Tables(), o.intent.intentId;
    if o.intent.intentId !in store.adapters {
      return Some(RecoveryRequired);
    }
    var plan := DurablePlan(store.adapters, read, o.intent.intentId);
    if plan.None? {
      return Some(WrongRequest);
    }
    LedgerIsOk(store.events);
    if AllOnPlan(s, store.adapters, read) && id in s.orders && s.orders[id] == o && !o.state.Terminal() {
      ReconciledOrder(s, id, store.adapters, read);
      ReadyIsAccepted(s, id, store.adapters, read);
    }
    var emitted := Reconcile(o, plan);
    if emitted.None? {
      return Some(WrongRequest);
    }
    if emitted.value == [] {
      return None;
    }
    EmittedArePlanned(o, plan.value);
    PlannedEventsAreValid(plan.value, emitted.value);
    AppendedIsReplayed(before.events, emitted.value, false);
    var appended := store.AppendMany(emitted.value);
    if appended.Failed? {
      return Some(appended.error);
    }
    AppendingOnlyGrows(before, emitted.value, store.riskChecked);
    return None;
  }

  lemma ReadyIsAccepted(s: LedgerState, id: IntentId, adapters: Adapters, read: PlanReader)
    requires Invariant(s) && AllOnPlan(s, adapters, read)
    requires id in s.orders && !s.orders[id].state.Terminal() && DurablePlan(adapters, read, id).Some?
    ensures var rest := Reconcile(s.orders[id], DurablePlan(adapters, read, id));
            rest.Some? && (ReplayFrom(s, rest.value).Ok? <==> Ready(s, id, adapters, read))
  {
    hide InvariantButAvailable, ReplayFrom, OnPlan, Reconcile, Payable;
    ReconcileAccepted(s, id, DurablePlan(adapters, read, id).value);
  }

  /** `reconcile_startup` with the paper adapter. A failure, here an error that
      stops the loop, leaves the orders before it finished and the rest as they were. */
  method ReconcileStartup(store: EventStore, read: PlanReader) returns (r: Outcome<StartupRecovery>)
    requires store.Valid()
    modifies store
    ensures store.Valid() && Replay(old(store.events)).Ok? && Replay(store.events).Ok?
    ensures OnlyLogGrew(old(store.Tables()), store.Tables())
    ensures var s := LedgerOf(old(store.events));
            var todo := WithAction(Unfinished(s.orders, store.adapters), ReconcileBackend);
            && (AllOnPlan(s, store.adapters, read) ==>
                  && PartlyMoved(s, LedgerOf(store.events), todo, r.Done?, store.adapters, read)
                  && (AllReady(s, todo, store.adapters, read) ==> r.Done?)
                  && (r.Done? ==> AllReadyButForRounding(s, todo, store.adapters, read)))
            && (todo == {} ==> r.Done? && store.events == old(store.events))
    ensures r.Done? ==>
              && Replay(store.events) == Ok(r.value.state)
              && r.value.pending == Unfinished(r.value.state.orders, store.adapters)
  {
    hide Replay, StoreOk, RowsOf, Moved, AllOnPlan, AppendAll, ValidEvent, Reconcile,
         OnlyLogGrew, PartlyMoved, Unfinished, Ready, ReadyButForRounding, WithAction, PendingAsNeeded;
    var report := store.Recover();
    var s := report.state;
    ghost var on := AllOnPlan(s, store.adapters, read);
    var todo := WithAction(report.pending, ReconcileBackend);
    var left := todo;
    TodoIsOpen(s.orders, store.adapters, ReconcileBackend);
    LedgerIsOk(store.events);
    NothingGrew(store.Tables());
    if on {
      NothingMoved(s, store.adapters, read);
    }
    assert todo - left == {};
    while left != {}
      invariant left <= todo
      invariant store.Valid() && Replay(store.events).Ok?
      invariant OnlyLogGrew(old(store.Tables()), store.Tables()) && store.adapters == old(store.adapters)
      invariant on ==> Moved(s, LedgerOf(store.events), todo - left, store.adapters, read)
      invariant on ==> AllReadyButForRounding(s, todo - left, store.adapters, read)
      invariant left == todo ==> store.events == old(store.events)
      decreases left
    {
      var id :| id in left;
      ghost var before := store.Tables();
      if on {
        NextInLine(s, LedgerOf(store.events), id, todo - left, store.adapters, read);
      }
      var failure := ReconcileOne(store, read, s.orders[id]);
      GrowthComposes(old(store.Tables()), before, store.Tables());
      OtherTablesStay(before, store.Tables());
      if failure.Some? {
        if on {
          SomeMoved(s, LedgerOf(store.events), todo - left, todo, false, store.adapters, read);
        }
        return Failed(failure.value);
      }
      if on {
        MovedFurther(s, LedgerOf(before.events), LedgerOf(store.events), todo - left, {id}, store.adapters, read);
      }
      assert todo - (left - {id}) == (todo - left) + {id};
      left := left - {id};
    }
    assert todo - left == todo;
    if on {
      SomeMoved(s, LedgerOf(store.events), todo, todo, true, store.adapters, read);
    }
    var after := store.Recover();
    return Done(after);
  }

  lemma OrderIsItsOwn(s: LedgerState, id: IntentId)
    requires Invariant(s) && id in s.orders
    ensures s.orders[id].intent.intentId == id
  {}

  lemma NothingGrew(st: Store)
    ensures OnlyLogGrew(st, st)
  {}

  lemma LedgerIsOk(events: seq<LedgerEvent>)
    requires Replay(events).Ok?
    ensures Invariant(LedgerOf(events))
  {
    hide Replay;
    ReachedIsOk(events);
  }

  lemma EmittedArePlanned(o: OrderAggregate, plan: Plan)
    requires plan.Valid() && Reconcile(o, Some(plan)).Some?
    ensures forall e :: e in Reconcile(o, Some(plan)).value ==> e in PlannedEvents(plan)
  {
    hide TotalFilled, PlannedEvents, RestOf;
    if !o.state.Terminal() {
      AtLeastTwo(plan);
      RestIsPart(o.state, plan, PlannedEvents(plan));
    }
  }

  lemma AtLeastTwo(plan: Plan)
    requires plan.Valid()
    ensures 2 <= |PlannedEvents(plan)|
  {
    hide TotalFilled;
  }

  lemma RestIsPart(state: OrderState, plan: Plan, planned: seq<LedgerEvent>)
    requires 2 <= |planned|
    ensures forall e :: e in RestOf(state, plan, planned) ==> e in planned
  {}

  lemma StillOpen(
    s: LedgerState, t: LedgerState, id: IntentId, done: set<IntentId>, adapters: Adapters, read: PlanReader)
    requires Moved(s, t, done, adapters, read) && id in s.orders && id !in done
    ensures id in t.orders && t.orders[id] == s.orders[id] && Invariant(t) && AllOnPlan(t, adapters, read)
    ensures NoPoorer(s, t)
  {
    hide InvariantButAvailable, AllOnPlan, Finished, NoPoorer;
  }

  /** What the loop knows of the next order before it is reconciled. */
  lemma NextInLine(
    s: LedgerState, t: LedgerState, id: IntentId, done: set<IntentId>, adapters: Adapters, read: PlanReader)
    requires Invariant(s) && Moved(s, t, done, adapters, read) && id in s.orders && id !in done
    ensures id in t.orders && t.orders[id] == s.orders[id] && s.orders[id].intent.intentId == id
    ensures AllOnPlan(t, adapters, read)
    ensures Ready(s, id, adapters, read) ==> Ready(t, id, adapters, read)
    ensures Ready(t, id, adapters, read) ==> ReadyButForRounding(s, id, adapters, read)
  {
    hide InvariantButAvailable, AllOnPlan, Moved, NoPoorer, Ready, ReadyButForRounding;
    StillOpen(s, t, id, done, adapters, read);
    OrderIsItsOwn(s, id);
    ReadyStays(s, t, id, adapters, read);
    ReadyIsBoth(t, id, adapters, read);
  }

  // ---- The whole recovery ----

  /** Cancels one order that has no plan. */
  method CancelOne(store: EventStore, read: PlanReader, id: IntentId, now: Timestamp)
    returns (failure: Option<StoreError>)
    requires store.Valid()
    modifies store
    ensures store.Valid() && Replay(old(store.events)).Ok? && Replay(store.events).Ok?
    ensures OnlyLogGrew(old(store.Tables()), store.Tables())
    ensures failure.Some? ==> store.events == old(store.events)
    ensures var s := LedgerOf(old(store.events));
            failure.None? && AllOnPlan(s, store.adapters, read) && id !in store.adapters
            && id in s.orders && s.orders[id].state == Created ==>
              Moved(s, LedgerOf(store.events), {id}, store.adapters, read)
    ensures var s := LedgerOf(old(store.events));
            && (id in s.orders && s.orders[id].state == Created ==> (failure.None? <==> CancelUnused(s, id)))
            && forall other :: other != id ==> CancelUnused(LedgerOf(store.events), other) == CancelUnused(s, other)
  {
    hide Replay, StoreOk, RowsOf, Moved, AllOnPlan, AppendAll, ApplyEvent;
    StoreReplays(store.Tables(), store.riskChecked);
    ghost var s, before := LedgerOf(store.events), store.Tables();
    var e := RecoveryCancel(id, now);
    AppendedIsReplayed(before.events, [e], false);
    ReplayOne(s, e);
    if id in s.orders && s.orders[id].state == Created {
      CancelAccepted(before.events, id, now);
    }
    var appended := store.AppendMany([e]);
    if appended.Failed? {
      return Some(appended.error);
    }
    AppendingOnlyGrows(before, [e], store.riskChecked);
    AcceptedStep(s, e);
    LedgerIsOk(before.events);
    if AllOnPlan(s, store.adapters, read) && id !in store.adapters && id in s.orders && s.orders[id].state == Created {
      CancelledOrder(s, id, now, store.adapters, read);
    }
    return None;
  }

  lemma ReplayOne(s: LedgerState, e: LedgerEvent)
    ensures ReplayFrom(s, [e]) == ApplyEvent(s, e)
  {
    hide ApplyEvent;
    ReplayNext(s, [], e);
    assert [] + [e] == [e];
  }

  /** The orders a ledger has still open. */
  function OpenOrders(s: LedgerState): set<IntentId> {
    set id | id in s.orders && !s.orders[id].state.Terminal()
  }

  /** No event stands under the identifier of any of these cancellations. */
  predicate NoneCancelled(s: LedgerState, ids: set<IntentId>) {
    forall id :: id in ids ==> CancelUnused(s, id)
  }

  predicate SameCancels(s: LedgerState, t: LedgerState, ids: set<IntentId>) {
    forall id :: id in ids ==> CancelUnused(t, id) == CancelUnused(s, id)
  }

  lemma CancelsAtFirst(s: LedgerState, left: set<IntentId>)
    ensures SameCancels(s, s, left) && NoneCancelled(s, {})
  {}

  /** One turn of the loop, seen from the identifiers of the cancellations. */
  lemma NextCancel(
    s: LedgerState, t: LedgerState, u: LedgerState, todo: set<IntentId>, left: set<IntentId>, id: IntentId)
    requires SameCancels(s, t, left) && id in left && left <= todo
    requires forall other :: other != id ==> CancelUnused(u, other) == CancelUnused(t, other)
    ensures SameCancels(s, u, left - {id})
    ensures !CancelUnused(t, id) ==> !NoneCancelled(s, todo)
    ensures NoneCancelled(s, todo - left) && CancelUnused(t, id) ==> NoneCancelled(s, (todo - left) + {id})
  {
    hide CancelUnused;
  }

  /** The first loop of `recover`: orders that were never handed to a backend and
      have no plan are cancelled. */
  method CancelUnsubmitted(store: EventStore, read: PlanReader, now: Timestamp) returns (failure: Option<StoreError>)
    requires store.Valid()
    modifies store
    ensures store.Valid() && Replay(old(store.events)).Ok? && Replay(store.events).Ok?
    ensures OnlyLogGrew(old(store.Tables()), store.Tables())
    ensures var s := LedgerOf(old(store.events));
            var todo := WithAction(Unfinished(s.orders, store.adapters), ResumeSubmission);
            && (AllOnPlan(s, store.adapters, read) ==>
                  && PartlyMoved(s, LedgerOf(store.events), todo, failure.None?, store.adapters, read)
                  && (failure.None? <==> NoneCancelled(s, todo)))
            && (todo == {} ==> failure.None? && store.events == old(store.events))
  {
    hide Replay, StoreOk, RowsOf, Moved, AllOnPlan, OnlyLogGrew, PartlyMoved, Unfinished, CancelUnused,
         WithAction, SameCancels, NoneCancelled, PendingAsNeeded;
    var report := store.Recover();
    var s := report.state;
    ghost var on := AllOnPlan(s, store.adapters, read);
    var todo := WithAction(report.pending, ResumeSubmission);
    var left := todo;
    TodoIsOpen(s.orders, store.adapters, ResumeSubmission);
    LedgerIsOk(store.events);
    NothingGrew(store.Tables());
    if on {
      NothingMoved(s, store.adapters, read);
    }
    assert todo - left == {};
    CancelsAtFirst(s, left);
    while left != {}
      invariant left <= todo
      invariant store.Valid() && Replay(store.events).Ok?
      invariant OnlyLogGrew(old(store.Tables()), store.Tables()) && store.adapters == old(store.adapters)
      invariant on ==> Moved(s, LedgerOf(store.events), todo - left, store.adapters, read)
      invariant SameCancels(s, LedgerOf(store.events), left)
      invariant on ==> NoneCancelled(s, todo - left)
      invariant left == todo ==> store.events == old(store.events)
      decreases left
    {
      var id :| id in left;
      ghost var before := store.Tables();
      if on {
        StillOpen(s, LedgerOf(store.events), id, todo - left, store.adapters, read);
      }
      failure := CancelOne(store, read, id, now);
      NextCancel(s, LedgerOf(before.events), LedgerOf(store.events), todo, left, id);
      GrowthComposes(old(store.Tables()), before, store.Tables());
      OtherTablesStay(before, store.Tables());
      if failure.Some? {
        if on {
          SomeMoved(s, LedgerOf(store.events), todo - left, todo, false, store.adapters, read);
        }
        return;
      }
      if on {
        MovedFurther(s, LedgerOf(before.events), LedgerOf(store.events), todo - left, {id}, store.adapters, read);
      }
      assert todo - (left - {id}) == (todo - left) + {id};
      left := left - {id};
    }
    assert todo - left == todo;
    if on {
      SomeMoved(s, LedgerOf(store.events), todo, todo, true, store.adapters, read);
    }
    failure := None;
  }

  /** What recovery needs of every open order: a readable plan that the ledger can
      pay for, or, with no adapter row, that nothing has happened to it yet. */
  ghost predicate Recoverable(s: LedgerState, adapters: Adapters, read: PlanReader) {
    forall id :: id in OpenOrders(s) ==>
                   if id in adapters then Ready(s, id, adapters, read)
                   else s.orders[id].state == Created && CancelUnused(s, id)
  }

  ghost predicate RecoverableButForRounding(s: LedgerState, adapters: Adapters, read: PlanReader) {
    forall id :: id in OpenOrders(s) ==>
                   if id in adapters then ReadyButForRounding(s, id, adapters, read)
                   else s.orders[id].state == Created && CancelUnused(s, id)
  }

  /** A micro-unit of cash to spare, or no partial BUY among the open orders. */
  ghost predicate RoundingCovered(s: LedgerState, adapters: Adapters, read: PlanReader) {
    1 <= s.AvailableCash() || forall id :: id in OpenOrders(s) ==> !PartialBuy(s, id, adapters, read)
  }

  lemma CoveredRecoverable(s: LedgerState, adapters: Adapters, read: PlanReader)
    requires Invariant(s) && AllOnPlan(s, adapters, read) && RoundingCovered(s, adapters, read)
    ensures RecoverableButForRounding(s, adapters, read) <==> Recoverable(s, adapters, read)
  {
    hide InvariantButAvailable, AllOnPlan, Ready, ReadyButForRounding, PartialBuy;
    forall id | id in OpenOrders(s)
      ensures ReadyButForRounding(s, id, adapters, read) <==> Ready(s, id, adapters, read)
    {
      RoundingIsCovered(s, id, adapters, read);
    }
  }

  /** The first loop decides about the orders without an adapter row, the second
      about the others, at a ledger that is no poorer. */
  lemma LoopsDecide(s: LedgerState, t: LedgerState, adapters: Adapters, read: PlanReader)
    requires var first := WithAction(Unfinished(s.orders, adapters), ResumeSubmission);
             && Moved(s, t, first, adapters, read)
             && NoneCancelled(s, first)
    ensures var second := WithAction(Unfinished(t.orders, adapters), ReconcileBackend);
            && (Recoverable(s, adapters, read) ==> AllReady(t, second, adapters, read))
            && (AllReadyButForRounding(t, second, adapters, read) ==> RecoverableButForRounding(s, adapters, read))
  {
    hide Moved, AllOnPlan, Ready, ReadyButForRounding, CancelUnused, NoPoorer;
    var first := WithAction(Unfinished(s.orders, adapters), ResumeSubmission);
    LeftForSecond(s, t, adapters, read);
    TodoIsOpen(s.orders, adapters, ResumeSubmission);
    forall id | id in OpenOrders(s) - first
      ensures Ready(s, id, adapters, read) ==> Ready(t, id, adapters, read)
      ensures ReadyButForRounding(t, id, adapters, read) ==> ReadyButForRounding(s, id, adapters, read)
      ensures ReadyButForRounding(t, id, adapters, read) ==> id in adapters
      ensures id !in adapters ==> s.orders[id].state != Created
    {
      StillOpen(s, t, id, first, adapters, read);
      ReadyStays(s, t, id, adapters, read);
      ReadyHasAdapter(t, id, adapters, read);
    }
  }

  lemma ReadyHasAdapter(s: LedgerState, id: IntentId, adapters: Adapters, read: PlanReader)
    ensures ReadyButForRounding(s, id, adapters, read) ==> id in adapters
  {}

  /** `PaperTradingService.recover`. It runs to its end exactly when every open
      order can be finished, up to the micro-unit that rounding may cost. */
  method Recover(store: EventStore, read: PlanReader, now: Timestamp) returns (r: Outcome<StartupRecovery>)
    requires store.Valid()
    modifies store
    ensures store.Valid() && Replay(old(store.events)).Ok? && Replay(store.events).Ok?
    ensures OnlyLogGrew(old(store.Tables()), store.Tables())
    ensures var s := LedgerOf(old(store.events));
            && (AllOnPlan(s, store.adapters, read) ==>
                  && PartlyMoved(s, LedgerOf(store.events), OpenOrders(s), r.Done?, store.adapters, read)
                  && (Recoverable(s, store.adapters, read) ==> r.Done?)
                  && (r.Done? ==> RecoverableButForRounding(s, store.adapters, read))
                  && (RoundingCovered(s, store.adapters, read) ==>
                        (r.Done? <==> Recoverable(s, store.adapters, read))))
            && (OpenOrders(s) == {} ==> r.Done? && store.events == old(store.events))
    ensures r.Done? ==>
              && Replay(store.events) == Ok(r.value.state)
              && r.value.pending == Unfinished(r.value.state.orders, store.adapters)
  {
    hide Replay, StoreOk, RowsOf, Moved, AllOnPlan, GrowsTo, PartlyMoved, Recoverable, RecoverableButForRounding,
         RoundingCovered, AllReady, AllReadyButForRounding, Unfinished;
    StoreReplays(store.Tables(), store.riskChecked);
    ghost var s := LedgerOf(store.events);
    LedgerIsOk(store.events);
    OpenIsBoth(s, store.adapters);
    if AllOnPlan(s, store.adapters, read) && RoundingCovered(s, store.adapters, read) {
      CoveredRecoverable(s, store.adapters, read);
    }
    CancelsAreNeeded(s, store.adapters, read);
    var failure := CancelUnsubmitted(store, read, now);
    ghost var mid := store.Tables();
    if failure.Some? {
      PartIsPart(s, LedgerOf(store.events), WithAction(Unfinished(s.orders, store.adapters), ResumeSubmission),
                 OpenOrders(s), store.adapters, read);
      return Failed(failure.value);
    }
    if AllOnPlan(s, store.adapters, read) {
      FirstLoopDone(s, LedgerOf(store.events), store.adapters, read);
      LoopsDecide(s, LedgerOf(store.events), store.adapters, read);
    }
    r := ReconcileStartup(store, read);
    GrowthComposes(old(store.Tables()), mid, store.Tables());
    if AllOnPlan(s, store.adapters, read) {
      BothLoops(s, LedgerOf(mid.events), LedgerOf(store.events), r.Done?, store.adapters, read);
    }
  }

  lemma CancelsAreNeeded(s: LedgerState, adapters: Adapters, read: PlanReader)
    ensures Recoverable(s, adapters, read) ==>
              NoneCancelled(s, WithAction(Unfinished(s.orders, adapters), ResumeSubmission))
  {
    hide Ready, CancelUnused;
  }

  lemma FirstLoopDone(s: LedgerState, t: LedgerState, adapters: Adapters, read: PlanReader)
    requires PartlyMoved(s, t, WithAction(Unfinished(s.orders, adapters), ResumeSubmission), true, adapters, read)
    ensures Moved(s, t, WithAction(Unfinished(s.orders, adapters), ResumeSubmission), adapters, read)
    ensures AllOnPlan(t, adapters, read)
  {
    hide Moved, AllOnPlan;
    MovedOrders(s, t, WithAction(Unfinished(s.orders, adapters), ResumeSubmission), adapters, read);
  }

  lemma OpenIsBoth(s: LedgerState, adapters: Adapters)
    ensures WithAction(Unfinished(s.orders, adapters), ResumeSubmission) <= OpenOrders(s)
    ensures WithAction(Unfinished(s.orders, adapters), ReconcileBackend)
            == OpenOrders(s) - WithAction(Unfinished(s.orders, adapters), ResumeSubmission)
  {}

  lemma PartIsPart(
    s: LedgerState, t: LedgerState, todo: set<IntentId>, all: set<IntentId>, adapters: Adapters, read: PlanReader)
    requires todo <= all
    ensures PartlyMoved(s, t, todo, false, adapters, read) ==> PartlyMoved(s, t, all, false, adapters, read)
  {
    hide Moved;
  }

  lemma MovedOrders(
    s: LedgerState, t: LedgerState, done: set<IntentId>, adapters: Adapters, read: PlanReader)
    requires Moved(s, t, done, adapters, read)
    ensures AllOnPlan(t, adapters, read) && t.orders.Keys == s.orders.Keys
    ensures forall id :: id in s.orders ==>
                           if id in done then t.orders[id].state.Terminal() else t.orders[id] == s.orders[id]
  {
    hide InvariantButAvailable, AllOnPlan, Finished;
    forall id | id in s.orders && id in done ensures t.orders[id].state.Terminal() {
      FinishedIsTerminal(s.orders[id], t.orders[id], adapters, read);
    }
  }

  /** After the first loop exactly the other open orders are left to the second. */
  lemma LeftForSecond(s: LedgerState, t: LedgerState, adapters: Adapters, read: PlanReader)
    requires Moved(s, t, WithAction(Unfinished(s.orders, adapters), ResumeSubmission), adapters, read)
    ensures AllOnPlan(t, adapters, read)
    ensures WithAction(Unfinished(t.orders, adapters), ReconcileBackend)
            == OpenOrders(s) - WithAction(Unfinished(s.orders, adapters), ResumeSubmission)
  {
    hide Moved, AllOnPlan;
    MovedOrders(s, t, WithAction(Unfinished(s.orders, adapters), ResumeSubmission), adapters, read);
  }

  lemma BothLoops(s: LedgerState, t: LedgerState, u: LedgerState, complete: bool, adapters: Adapters, read: PlanReader)
    requires Invariant(s)
    requires PartlyMoved(s, t, WithAction(Unfinished(s.orders, adapters), ResumeSubmission), true, adapters, read)
    requires AllOnPlan(t, adapters, read) ==>
               PartlyMoved(t, u, WithAction(Unfinished(t.orders, adapters), ReconcileBackend), complete, adapters, read)
    ensures PartlyMoved(s, u, OpenOrders(s), complete, adapters, read)
  {
    hide Moved, InvariantButAvailable, AllOnPlan;
    var first := WithAction(Unfinished(s.orders, adapters), ResumeSubmission);
    OpenIsBoth(s, adapters);
    LeftForSecond(s, t, adapters, read);
    var second := OpenOrders(s) - first;
    var done :| done <= second && (complete ==> done == second) && Moved(t, u, done, adapters, read);
    MovedFurther(s, t, u, first, done, adapters, read);
    assert complete ==> first + done == OpenOrders(s);
  }

  /** A recovery that runs to its end has closed every order, holds nothing
      reserved, and has moved cash by exactly what the stored plans had
      outstanding. */
  lemma RecoveryClosesEverything(s: LedgerState, t: LedgerState, adapters: Adapters, read: PlanReader)
    requires Invariant(s) && PartlyMoved(s, t, OpenOrders(s), true, adapters, read)
    ensures OpenOrders(t) == {} && Unfinished(t.orders, adapters) == map[]
    ensures t.cash == s.cash + Total(s.orders, OutstandingOf(adapters, read))
    ensures t.reservedCash == 0 && forall key :: ReservedAt(t.positions, key) == 0
    ensures forall id :: id in s.orders ==>
                           id in t.orders
                           && (if s.orders[id].state.Terminal() then t.orders[id] == s.orders[id]
                               else Finished(s.orders[id], t.orders[id], adapters, read))
  {
    hide InvariantButAvailable, AllOnPlan;
    forall id | id in t.orders ensures t.orders[id].state.Terminal() {
      if id in OpenOrders(s) {
        FinishedIsTerminal(s.orders[id], t.orders[id], adapters, read);
      }
    }
    ClosedLedgerHoldsNothing(t, adapters, read);
  }

  /** A stored BUY plan whose fee exceeds what its intent reserved for fees, which
      the planner does not rule out, keeps recovery from ever running to its end. */
  lemma UnpayablePlanBlocksRecovery(
    s: LedgerState, t: LedgerState, id: IntentId, adapters: Adapters, read: PlanReader)
    requires id in OpenOrders(s) && DurablePlan(adapters, read, id).Some?
    requires s.orders[id].intent.intentId == id && s.orders[id].intent.side == Buy
    requires s.orders[id].intent.feeReserve < DurablePlan(adapters, read, id).value.fee
    ensures !PartlyMoved(s, t, OpenOrders(s), true, adapters, read)
  {
    hide Moved, Finished, InvariantButAvailable, AllOnPlan;
    if PartlyMoved(s, t, OpenOrders(s), true, adapters, read) {
      FinishedIsPaid(s, t, OpenOrders(s), id, adapters, read);
    }
  }

  lemma FinishedIsPaid(
    s: LedgerState, t: LedgerState, done: set<IntentId>, id: IntentId, adapters: Adapters, read: PlanReader)
    requires Moved(s, t, done, adapters, read) && id in done && id in s.orders
    requires DurablePlan(adapters, read, id).Some?
    requires s.orders[id].intent.intentId == id && s.orders[id].intent.side == Buy
    ensures DurablePlan(adapters, read, id).value.fee <= s.orders[id].intent.feeReserve
  {
    hide AllOnPlan;
    assert Finished(s.orders[id], t.orders[id], adapters, read);
    assert OrderOk(id, t.orders[id]);
  }

  lemma FinishedIsTerminal(o: OrderAggregate, o': OrderAggregate, adapters: Adapters, read: PlanReader)
    requires Finished(o, o', adapters, read)
    ensures o'.state.Terminal()
  {}

  lemma ClosedLedgerHoldsNothing(t: LedgerState, adapters: Adapters, read: PlanReader)
    requires Invariant(t) && forall id :: id in t.orders ==> t.orders[id].state.Terminal()
    ensures t.reservedCash == 0 && Total(t.orders, OutstandingOf(adapters, read)) == 0
    ensures forall key :: ReservedAt(t.positions, key) == 0
  {
    TotalVanishes(t.orders, CashHeldBy);
    TotalVanishes(t.orders, OutstandingOf(adapters, read));
    forall key ensures ReservedAt(t.positions, key) == 0 {
      TotalVanishes(t.orders, QuantityHeldOf(key));
      assert SellReserved(t.orders, key) == ReservedAt(t.positions, key);
    }
  }

  lemma {:induction false} TotalVanishes<K, V>(m: map<K, V>, f: V -> int)
    requires forall k :: k in m ==> f(m[k]) == 0
    ensures Total(m, f) == 0
    decreases |m|
  {
    if m != map[] {
      var k :| k in m;
      TotalSplit(m, f, k);
      TotalVanishes(m - {k}, f);
    }
  }
}
