/** Stores that only the paper service and events about other things have written. */
module PaperStores {
  import opened Model
  import opened Events
  import opened State
  import opened Reducers
  import opened LedgerRuns
  import opened LifecycleSteps
  import opened Codec
  import opened EventLog
  import opened StoreSpec
  import opened StoreRuns
  import opened Decisions
  import opened PaperPlan
  import opened PaperLedger
  import opened PaperProgress
  import opened PaperStartup

  predicate Tagged(id: Identifier) {
    id.PaperId? && id.tag in PLAN_TAGS
  }

  predicate CancelTagged(id: Identifier) {
    id.PaperId? && id.tag == RecoveryCancelTag
  }

  /** Identifiers of plan events belong to stored plans, those of recovery to its
      cancellations, and every stored plan admits the event. */
  ghost predicate Admits(e: LedgerEvent, adapters: Adapters, read: PlanReader) {
    && (Tagged(e.eventId) ==> DurablePlan(adapters, read, e.eventId.intentId).Some?)
    && (CancelTagged(e.eventId) ==> e.body.OrderCancelled? && e.body.intentId == e.eventId.intentId)
    && forall id :: DurablePlan(adapters, read, id).Some? ==> PlanDriven(e, id, DurablePlan(adapters, read, id).value)
  }

  ghost predicate LogDriven(events: seq<LedgerEvent>, adapters: Adapters, read: PlanReader) {
    forall e :: e in events ==> Admits(e, adapters, read)
  }

  /** A stored plan is the plan of the intent it is stored for. */
  ghost predicate PlansNamed(adapters: Adapters, read: PlanReader) {
    forall id :: DurablePlan(adapters, read, id).Some? ==> DurablePlan(adapters, read, id).value.intentId == id
  }

  predicate BuysHaveAdapters(events: seq<LedgerEvent>, adapters: Adapters) {
    forall e :: e in events && e.body.OrderIntentCreated? && e.body.intent.side == Buy ==>
                  e.body.intent.intentId in adapters
  }

  ghost predicate PaperOk(st: Store, read: PlanReader) {
    && StoreOk(st, true)
    && LogDriven(st.events, st.adapters, read)
    && PlansNamed(st.adapters, read)
    && BuysHaveAdapters(st.events, st.adapters)
  }

  /** A call of the paper service, or one about something else: a BUY intent
      comes with a plan that fits it, and what is appended the stored plans admit. */
  ghost predicate PaperOp(st: Store, op: Op, read: PlanReader) {
    match op
    case AppendOp(batch) => LogDriven(batch, st.adapters, read)
    case CommitOp(event, _, _) => Admits(event, st.adapters, read)
    case RiskOp(q, _) =>
      && q.event.body.OrderIntentCreated? && !Tagged(q.event.eventId) && !CancelTagged(q.event.eventId)
      && q.adapter.Some? && q.adapter.value.backend == PAPER
      && var plan := read(q.adapter.value.payload);
      plan.Some? && Fits(q.Intent(), plan.value)
    case AdapterOp(_, _) => false
    case _ => true
  }

  // ---- What a stored plan admits ----

  lemma TaggedIsPlanId(e: LedgerEvent, id: IntentId)
    ensures e.eventId in PlanIds(id) <==> Tagged(e.eventId) && e.eventId.intentId == id
  {}

  /** An event about no order, under an identifier of its own, is always admitted. */
  lemma UnrelatedIsAdmitted(e: LedgerEvent, adapters: Adapters, read: PlanReader)
    requires !Tagged(e.eventId) && !CancelTagged(e.eventId) && !e.body.OrderIntentCreated?
    requires forall id :: !Concerns(e.body, id)
    ensures Admits(e, adapters, read)
  {
    hide PlannedEvents, Fits, Concerns, DurablePlan;
    forall id | DurablePlan(adapters, read, id).Some?
      ensures PlanDriven(e, id, DurablePlan(adapters, read, id).value)
    {
      TaggedIsPlanId(e, id);
    }
  }

  /** The events of a stored plan are admitted, and so is the cancellation that
      recovery writes: recovering is itself such a call. */
  lemma RecoveryIsAdmitted(id: IntentId, now: Timestamp, adapters: Adapters, read: PlanReader)
    requires PlansNamed(adapters, read)
    ensures DurablePlan(adapters, read, id).Some? ==>
              LogDriven(PlannedEvents(DurablePlan(adapters, read, id).value), adapters, read)
    ensures Admits(RecoveryCancel(id, now), adapters, read)
  {
    hide PlannedEvents, DurablePlan, PlanDriven;
    forall other | DurablePlan(adapters, read, other).Some?
      ensures PlanDriven(RecoveryCancel(id, now), other, DurablePlan(adapters, read, other).value)
    {
      RecoveryCancelIsForeign(id, now, other, DurablePlan(adapters, read, other).value);
    }
    if DurablePlan(adapters, read, id).Some? {
      var plan := DurablePlan(adapters, read, id).value;
      forall e | e in PlannedEvents(plan) ensures Admits(e, adapters, read) {
        OwnEventIsDriven(e, plan);
        forall other | DurablePlan(adapters, read, other).Some?
          ensures PlanDriven(e, other, DurablePlan(adapters, read, other).value)
        {
          if other != id {
            PlannedEventsAreForeign(e, plan, DurablePlan(adapters, read, other).value);
          }
        }
      }
    }
  }

  lemma OwnEventIsDriven(e: LedgerEvent, plan: Plan)
    requires plan.Valid() && e in PlannedEvents(plan)
    ensures PlanDriven(e, plan.intentId, plan)
    ensures Tagged(e.eventId) && e.eventId.intentId == plan.intentId
  {
    hide PlannedEvents, Fits, Concerns, PlanIds;
    var k :| 0 <= k < |PlannedEvents(plan)| && PlannedEvents(plan)[k] == e;
    PlannedIdsBelong(plan, k);
    PlannedBody(plan, k);
    TaggedIsPlanId(e, plan.intentId);
  }

  // ---- An order's events come after its intent ----

  lemma {:induction false} OrdersHaveIntents(events: seq<LedgerEvent>, id: IntentId)
    requires Replay(events).Ok? && id in Replay(events).value.orders
    ensures exists e :: e in events && Creates(e, id)
    decreases |events|
  {
    hide InvariantButAvailable, ApplyEvent, Concerns;
    var prefix, last := events[..|events| - 1], events[|events| - 1];
    ReplaySplitsAtLast(EMPTY_LEDGER, events);
    ReachedIsOk(prefix);
    var s := Replay(prefix).value;
    if id in s.orders {
      OrdersHaveIntents(prefix, id);
    } else {
      AcceptedStep(s, last);
      if Concerns(last.body, id) {
        ConcernedOrderExists(s, id, last);
        assert false;
      }
      OtherEventUntouched(s, id, last);
      assert last in events && Creates(last, id);
    }
  }

  /** A lifecycle event is accepted only for an order that is there. */
  lemma ConcernedOrderExists(s: LedgerState, id: IntentId, e: LedgerEvent)
    requires Invariant(s) && ApplyEvent(s, e).Ok? && e.eventId !in s.fingerprints
    requires Concerns(e.body, id)
    ensures id in s.orders
  {
    hide InvariantButAvailable, ApplyEvent, ApplyBody;
    AcceptedStep(s, e);
    InvariantGivesIds(s);
    ConcernedBodyHasOrder(s, id, e.body);
  }

  lemma {:induction false} ConcernedAfterIntent(events: seq<LedgerEvent>, e: LedgerEvent, id: IntentId)
    requires Replay(events).Ok? && e in events && Concerns(e.body, id)
    ensures id in Replay(events).value.orders
    decreases |events|
  {
    hide InvariantButAvailable, ApplyEvent, ApplyBody, Concerns;
    var prefix, last := events[..|events| - 1], events[|events| - 1];
    assert events == prefix + [last];
    ReplaySplitsAtLast(EMPTY_LEDGER, events);
    ReachedIsOk(prefix);
    var s := Replay(prefix).value;
    AcceptedStep(s, last);
    StepProgresses(s, last);
    if last.eventId !in s.fingerprints && last == e {
      ConcernedOrderExists(s, id, e);
    } else {
      ReplayRecords(prefix);
      ConcernedAfterIntent(prefix, e, id);
    }
  }

  // ---- Every call keeps it so ----

  /** A new plan for an intent the log has never seen. */
  lemma NewPlanAdmitsOldLog(
    events: seq<LedgerEvent>, e: LedgerEvent, adapters: Adapters, id: IntentId, adapter: Adapter, read: PlanReader)
    requires Replay(events).Ok? && LogDriven(events, adapters, read) && e in events
    requires FindIntent(events, id).None? && id !in adapters
    ensures Admits(e, adapters[id := adapter], read)
  {
    hide PlannedEvents, Fits, Replay, PlanIds, Concerns;
    var adapters' := adapters[id := adapter];
    assert Admits(e, adapters, read);
    forall other | DurablePlan(adapters', read, other).Some?
      ensures PlanDriven(e, other, DurablePlan(adapters', read, other).value)
    {
      if other == id {
        TaggedIsPlanId(e, id);
        if Concerns(e.body, id) {
          ConcernedAfterIntent(events, e, id);
          OrdersHaveIntents(events, id);
        }
        assert !Creates(e, id);
      } else {
        assert DurablePlan(adapters', read, other) == DurablePlan(adapters, read, other);
      }
    }
    if Tagged(e.eventId) {
      assert DurablePlan(adapters, read, e.eventId.intentId).Some?;
    }
  }

  /** An intent is admitted if the plan stored for it, if any, fits it. */
  lemma IntentIsAdmitted(e: LedgerEvent, adapters: Adapters, read: PlanReader)
    requires e.body.OrderIntentCreated? && !Tagged(e.eventId) && !CancelTagged(e.eventId)
    requires var plan := DurablePlan(adapters, read, e.body.intent.intentId);
             plan.Some? ==> Fits(e.body.intent, plan.value)
    ensures Admits(e, adapters, read)
  {
    hide PlannedEvents, Fits, DurablePlan;
    forall id | DurablePlan(adapters, read, id).Some?
      ensures PlanDriven(e, id, DurablePlan(adapters, read, id).value)
    {
      TaggedIsPlanId(e, id);
    }
  }

  /** What a call must leave for the store to stay in order. */
  lemma PaperTables(st: Store, st': Store, read: PlanReader)
    requires PaperOk(st, read) && StoreOk(st', true) && st'.adapters == st.adapters
    requires forall e :: e in st'.events ==>
                           || e in st.events
                           || (Admits(e, st.adapters, read) && (e.body.OrderIntentCreated? ==> e.body.intent.side == Sell))
    ensures PaperOk(st', read)
  {
    hide StoreOk, Admits, DurablePlan;
  }

  lemma PaperAppend(st: Store, batch: seq<LedgerEvent>, read: PlanReader)
    requires PaperOk(st, read) && PaperOp(st, AppendOp(batch), read) && AllValid(batch)
    requires Replay(st.events).Ok? && StoreSpec.AppendMany(st, batch).Done?
    ensures PaperOk(StoreSpec.AppendMany(st, batch).value, read)
  {
    hide StoreOk, Admits, DurablePlan, AppendAll, Replay, ValidEvent;
    AppendKeeps(st, batch, true);
    PlainAppendHasNoIntents(st.events, batch);
    AppendedFromBatch(st.events, batch, false);
    PaperTables(st, StoreSpec.AppendMany(st, batch).value, read);
  }

  lemma PaperSell(st: Store, e: LedgerEvent, owner: Text, metadata: Metadata, read: PlanReader)
    requires PaperOk(st, read) && PaperOp(st, CommitOp(e, owner, metadata), read)
    requires e.body.OrderIntentCreated? && ValidEvent(e) && Replay(st.events).Ok?
    requires CommitUncheckedIntent(st, e, owner, metadata).Done?
    ensures PaperOk(CommitUncheckedIntent(st, e, owner, metadata).value, read)
  {
    hide StoreOk, Admits, DurablePlan, AppendAll, Replay, ValidEvent, FindIntent, IntentClaimed;
    AttemptKeeps(st, CommitOp(e, owner, metadata), true);
    if AppendAll(st.events, [e], true).Done? {
      AppendedFromBatch(st.events, [e], true);
    }
    PaperTables(st, CommitUncheckedIntent(st, e, owner, metadata).value, read);
  }

  lemma ValuationIsAdmitted(q: RiskRequest, adapters: Adapters, read: PlanReader)
    requires q.event.body.OrderIntentCreated?
    ensures Admits(q.ValuationEvent(), adapters, read) && Admits(q.ScopeEvent(), adapters, read)
  {
    hide Admits;
    UnrelatedIsAdmitted(q.ValuationEvent(), adapters, read);
    UnrelatedIsAdmitted(q.ScopeEvent(), adapters, read);
  }

  lemma PaperRejection(st: Store, q: RiskRequest, verdict: Verdict, read: PlanReader)
    requires PaperOk(st, read) && q.WellFormed() && Replay(st.events).Ok? && verdict.Rejected?
    requires CommitVerdict(st, q, verdict).Done? && StoreOk(CommitVerdict(st, q, verdict).value, true)
    ensures PaperOk(CommitVerdict(st, q, verdict).value, read)
  {
    hide StoreOk, Admits, DurablePlan, AppendAll, Replay, ValidEvent;
    if !verdict.valuationUnusable {
      AppendedFromBatch(st.events, [q.ValuationEvent()], false);
    }
    ValuationIsAdmitted(q, st.adapters, read);
    PaperTables(st, CommitVerdict(st, q, verdict).value, read);
  }

  /** The decision of a request that may still commit has no intent in the log. */
  lemma NewIntentIsNew(st: Store, q: RiskRequest, verdict: Verdict)
    requires StoreOk(st, true) && q.WellFormed() && Replay(st.events).Ok? && verdict.Permitted?
    requires q.Intent().decisionId in st.claims ==> !st.claims[q.Intent().decisionId].status.Committed?
    requires CommitVerdict(st, q, verdict).Done?
    ensures FindIntent(st.events, q.Intent().intentId).None?
    ensures q.Intent().intentId !in st.adapters
  {
    hide StoreOk, AppendAll, Replay, ValidEvent, FindIntent, IntentClaimed;
    CommitStopsAtTheClaims(st, q.Intent(), true);
    LogOfStore(st, true);
  }

  lemma PaperPermission(st: Store, q: RiskRequest, verdict: Verdict, read: PlanReader)
    requires PaperOk(st, read) && q.WellFormed() && Replay(st.events).Ok? && verdict.Permitted?
    requires q.Intent().decisionId in st.claims ==> !st.claims[q.Intent().decisionId].status.Committed?
    requires PaperOp(st, RiskOp(q, verdict), read)
    requires CommitVerdict(st, q, verdict).Done? && StoreOk(CommitVerdict(st, q, verdict).value, true)
    ensures PaperOk(CommitVerdict(st, q, verdict).value, read)
  {
    hide StoreOk, Admits, AppendAll, Replay, ValidEvent, FindIntent, IntentClaimed, Fits;
    NewIntentIsNew(st, q, verdict);
    var st', id := CommitVerdict(st, q, verdict).value, q.Intent().intentId;
    var batch := RiskBatch(st.events, q);
    AppendedFromBatch(st.events, batch, true);
    assert st'.adapters == st.adapters[id := q.adapter.value];
    ValuationIsAdmitted(q, st'.adapters, read);
    IntentIsAdmitted(q.event, st'.adapters, read);
    forall e | e in st'.events ensures Admits(e, st'.adapters, read) {
      if e in st.events {
        NewPlanAdmitsOldLog(st.events, e, st.adapters, id, q.adapter.value, read);
      }
    }
    FitsNamesIntent(q.Intent(), read(q.adapter.value.payload).value);
    OneMorePlan(st.adapters, id, q.adapter.value, read);
  }

  lemma OneMorePlan(adapters: Adapters, id: IntentId, adapter: Adapter, read: PlanReader)
    requires PlansNamed(adapters, read)
    requires read(adapter.payload).Some? ==> read(adapter.payload).value.intentId == id
    ensures PlansNamed(adapters[id := adapter], read)
  {
    var adapters' := adapters[id := adapter];
    forall other | DurablePlan(adapters', read, other).Some?
      ensures DurablePlan(adapters', read, other).value.intentId == other
    {
      assert other != id ==> DurablePlan(adapters', read, other) == DurablePlan(adapters, read, other);
    }
  }

  lemma FitsNamesIntent(intent: OrderIntent, plan: Plan)
    requires Fits(intent, plan)
    ensures plan.intentId == intent.intentId
  {}

  lemma PaperRisk(st: Store, q: RiskRequest, verdict: Verdict, read: PlanReader)
    requires PaperOk(st, read) && q.WellFormed() && Replay(st.events).Ok?
    requires PaperOp(st, RiskOp(q, verdict), read)
    requires CommitRiskChecked(st, q, verdict).Done?
    ensures PaperOk(CommitRiskChecked(st, q, verdict).value, read)
  {
    hide StoreOk, Admits, Replay, ValidEvent, ValidValuation, FindIntent, CommitVerdict, PaperOp, DurablePlan,
         LogDriven, PlansNamed;
    AttemptKeeps(st, RiskOp(q, verdict), true);
    var key := q.Intent().decisionId;
    if key in st.claims && st.claims[key].status.Committed? {
      CommittedBuyHasAdapter(st, q, verdict, read);
    } else if key in st.claims && st.claims[key].status.Completed? {
    } else if verdict.Rejected? {
      PaperRejection(st, q, verdict, read);
    } else {
      PaperPermission(st, q, verdict, read);
    }
  }

  lemma CommittedBuyHasAdapter(st: Store, q: RiskRequest, verdict: Verdict, read: PlanReader)
    requires PaperOk(st, read) && q.WellFormed() && Replay(st.events).Ok?
    requires PaperOp(st, RiskOp(q, verdict), read)
    requires q.Intent().decisionId in st.claims && st.claims[q.Intent().decisionId].status.Committed?
    requires CommitRiskChecked(st, q, verdict).Done?
    ensures CommitRiskChecked(st, q, verdict).value == st
  {
    hide StoreOk, Admits, Replay, ValidEvent, ValidValuation, CommitVerdict, DurablePlan, LogDriven, PlansNamed;
    assert FindIntent(st.events, q.Intent().intentId) == Some(q.Intent());
    var e :| e in st.events && Creates(e, q.Intent().intentId) && e.body.intent == q.Intent();
    assert e.body.intent.intentId in st.adapters;
  }

  lemma PaperAttempt(st: Store, op: Op, read: PlanReader)
    requires PaperOk(st, read) && Replay(st.events).Ok? && WellFormedOp(op) && PaperOp(st, op, read)
    requires Attempt(st, op, true).Done?
    ensures PaperOk(Attempt(st, op, true).value, read)
  {
    hide StoreOk, Admits, Replay, ValidEvent, ValidValuation, CommitUncheckedIntent, CommitRiskChecked, AppendMany,
         PaperOp, LogDriven, PlansNamed, ClaimDecision, CompleteDecision, CreateCheckpoint;
    AttemptKeeps(st, op, true);
    match op
    case AppendOp(batch) => PaperAppend(st, batch, read);
    case CommitOp(e, owner, metadata) => PaperSell(st, e, owner, metadata, read);
    case RiskOp(q, verdict) => PaperRisk(st, q, verdict, read);
    case AdapterOp(id, adapter) => NoAdapterOps(st, id, adapter, read);
    case ClaimOp(key, owner, metadata) => ClaimKeepsRest(st, key, owner, metadata);
    case CompleteOp(key, owner) => CompleteKeepsRest(st, key, owner);
    case CheckpointOp => CheckpointKeepsRest(st);
  }

  lemma NoAdapterOps(st: Store, id: IntentId, adapter: Adapter, read: PlanReader)
    ensures !PaperOp(st, AdapterOp(id, adapter), read)
  {}

  lemma ClaimKeepsRest(st: Store, key: Text, owner: Text, metadata: Metadata)
    requires ClaimDecision(st, key, owner, metadata).Done?
    ensures var st' := ClaimDecision(st, key, owner, metadata).value;
            st'.events == st.events && st'.adapters == st.adapters
  {}

  lemma CompleteKeepsRest(st: Store, key: Text, owner: Text)
    requires CompleteDecision(st, key, owner).Done?
    ensures var st' := CompleteDecision(st, key, owner).value;
            st'.events == st.events && st'.adapters == st.adapters
  {}

  lemma CheckpointKeepsRest(st: Store)
    requires Replay(st.events).Ok? && CreateCheckpoint(st).Done?
    ensures var st' := CreateCheckpoint(st).value;
            st'.events == st.events && st'.adapters == st.adapters
  {
    hide Replay;
  }

  /** Every call of a run is one of the paper service, or about something else. */
  ghost predicate PaperOps(ops: WellFormedOps, read: PlanReader)
    decreases |ops|
  {
    ops == []
    || (&& PaperOps(ops[..|ops| - 1], read)
        && PaperOp(StoreAfter(ops[..|ops| - 1], true), ops[|ops| - 1], read))
  }

  /** In every store that such calls build, in any order and by any owners,
      every order with a stored plan is on its plan. */
  lemma {:induction false} PaperStoresAreOnPlan(ops: WellFormedOps, read: PlanReader)
    requires PaperOps(ops, read)
    ensures var st := StoreAfter(ops, true);
            PaperOk(st, read) && Replay(st.events).Ok? && AllOnPlan(LedgerOf(st.events), st.adapters, read)
    decreases |ops|
  {
    hide StoreOk, Admits, Replay, Attempt, PaperOk, PaperOp, AllOnPlan;
    var st := StoreAfter(ops, true);
    if ops == [] {
      NothingStored(read);
    } else {
      var prefix, op := ops[..|ops| - 1], ops[|ops| - 1];
      PaperStoresAreOnPlan(prefix, read);
      var before := StoreAfter(prefix, true);
      if Attempt(before, op, true).Done? {
        PaperAttempt(before, op, read);
      }
    }
    OnPlanInStore(st, read);
  }

  lemma NothingStored(read: PlanReader)
    ensures PaperOk(EMPTY_STORE, read)
  {
    hide StoreOk;
    EmptyStoreIsOk(true);
  }

  lemma OnPlanInStore(st: Store, read: PlanReader)
    requires PaperOk(st, read)
    ensures Replay(st.events).Ok? && AllOnPlan(LedgerOf(st.events), st.adapters, read)
  {
    hide StoreOk, Replay, OnPlan, PlanDriven, DurablePlan;
    StoreReplays(st, true);
    forall id | DurablePlan(st.adapters, read, id).Some?
      ensures OnPlan(LedgerOf(st.events), id, DurablePlan(st.adapters, read, id).value)
    {
      assert forall e :: e in st.events ==> Admits(e, st.adapters, read);
      PlanDrivenLogsStayOnPlan(st.events, id, DurablePlan(st.adapters, read, id).value);
    }
  }

  /** In such a store recovery can always cancel an order that is still created. */
  lemma CancelsAreUnused(st: Store, read: PlanReader, id: IntentId)
    requires PaperOk(st, read) && Replay(st.events).Ok?
    requires id in LedgerOf(st.events).orders && LedgerOf(st.events).orders[id].state == Created
    ensures CancelUnused(LedgerOf(st.events), id)
  {
    hide StoreOk, Replay, PlanDriven, DurablePlan;
    var s, cancel := LedgerOf(st.events), PaperId(RecoveryCancelTag, id);
    ReplayRecords(st.events);
    if cancel in s.fingerprints {
      var e := s.fingerprints[cancel];
      assert Admits(e, st.adapters, read);
      CancelledStaysClosed(st.events, e);
    }
  }

  /** So recovery needs no more of it than a readable plan that can be paid for
      wherever there is an adapter row, and an untouched order elsewhere. */
  lemma PaperStoreIsRecoverable(st: Store, read: PlanReader)
    requires PaperOk(st, read) && Replay(st.events).Ok?
    ensures var s := LedgerOf(st.events);
            Recoverable(s, st.adapters, read)
            <==> forall id :: id in OpenOrders(s) ==>
                                if id in st.adapters then Ready(s, id, st.adapters, read)
                                else s.orders[id].state == Created
  {
    hide PaperOk, Replay, Ready, CancelUnused;
    var s := LedgerOf(st.events);
    forall id | id in OpenOrders(s) && s.orders[id].state == Created ensures CancelUnused(s, id) {
      CancelsAreUnused(st, read, id);
    }
  }
}
