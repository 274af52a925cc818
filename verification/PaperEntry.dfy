/** One paper entry from end to end: the risk-checked commit of an intent with
    its plan, then the submission of that plan. */
module PaperEntry {
  import opened Model
  import opened Events
  import opened State
  import opened Reducers
  import opened LedgerInvariants
  import opened LedgerRuns
  import opened LifecycleSteps
  import opened Codec
  import opened EventLog
  import opened StoreSpec
  import opened StoreRuns
  import opened Decisions
  import opened EventStore
  import opened PaperPlan
  import opened PaperLedger
  import opened PaperProgress
  import opened PaperService
  import opened PaperStartup
  import opened PaperStores

  // ---- The first transaction ----

  lemma NoIntentAmong(events: seq<LedgerEvent>, others: seq<LedgerEvent>, id: IntentId)
    requires Replay(events).Ok? && NoIntents(others) && FindIntent(events, id).None?
    requires AppendAll(events, others, true).Done?
    ensures FindIntent(AppendAll(events, others, true).value, id).None?
    ensures id !in LedgerOf(AppendAll(events, others, true).value).orders
  {
    hide Replay, AppendAll;
    var before := AppendAll(events, others, true).value;
    AppendedFromBatch(events, others, true);
    forall e | e in before ensures !Creates(e, id) {
      if e in others {
        assert !e.body.OrderIntentCreated?;
      }
    }
    if id in LedgerOf(before).orders {
      OrdersHaveIntents(before, id);
    }
  }

  /** An intent new to the log ends as the log's last event and as a new order. */
  lemma IntentLands(events: seq<LedgerEvent>, others: seq<LedgerEvent>, e: LedgerEvent)
    requires Replay(events).Ok? && NoIntents(others) && e.body.OrderIntentCreated?
    requires FindIntent(events, e.body.intent.intentId).None?
    requires AppendAll(events, others + [e], true).Done?
    ensures var after, id := AppendAll(events, others + [e], true).value, e.body.intent.intentId;
            && Replay(after).Ok? && Invariant(LedgerOf(after))
            && id in LedgerOf(after).orders && LedgerOf(after).orders[id] == NewOrder(e.body.intent)
  {
    hide Replay, AppendAll, ApplyEvent, ApplyBody, InvariantButAvailable, NewOrder;
    var id := e.body.intent.intentId;
    AppendAllSplits(events, others, e, true);
    var before := AppendAll(events, others, true).value;
    NoIntentAmong(events, others, id);
    assert e !in before by {
      assert Creates(e, id);
    }
    var s := LedgerOf(before);
    ReplayOneMore(before, e);
    ReplayRecords(before);
    AcceptedStep(s, e);
    CreatedBody(s, e.body.intent);
    ReachedIsOk(before + [e]);
  }

  lemma CreatedBody(s: LedgerState, intent: OrderIntent)
    requires intent.intentId !in s.orders && ApplyBody(s, OrderIntentCreated(intent)).Ok?
    ensures ApplyBody(s, OrderIntentCreated(intent)).value.orders == s.orders[intent.intentId := NewOrder(intent)]
  {
    hide ApplyIntentCreated, NewOrder;
    IntentEffects(s, intent);
  }

  /** A store in order whose order is still created holds no trace of its plan. */
  lemma CreatedIsTraceless(st: Store, read: PlanReader, id: IntentId)
    requires PaperOk(st, read) && Replay(st.events).Ok? && DurablePlan(st.adapters, read, id).Some?
    requires id in LedgerOf(st.events).orders && LedgerOf(st.events).orders[id].state == Created
    ensures forall tag :: tag in PLAN_TAGS ==> PaperId(tag, id) !in LedgerOf(st.events).fingerprints
  {
    hide StoreOk, Replay, DurablePlan, PlannedEvents, OrderOnPlan, SeenAsPlanned, Concerns, Fits;
    var s, plan := LedgerOf(st.events), DurablePlan(st.adapters, read, id).value;
    ReplayRecords(st.events);
    OnPlanInStore(st, read);
    OnPlanNames(s, id, plan);
    forall e | e in st.events ensures e.eventId !in PlanIds(id) {
      assert Admits(e, st.adapters, read);
    }
  }

  /** No claim of the decision has been committed or completed. */
  predicate NewDecision(st: Store, key: Text) {
    key in st.claims ==> st.claims[key].status.Claimed?
  }

  /** A permitted commit of a new decision leaves the order waiting for its stored plan. */
  lemma CommittedIntentAwaits(st: Store, q: RiskRequest, verdict: Verdict, read: PlanReader)
    requires PaperOk(st, read) && Replay(st.events).Ok? && q.WellFormed() && verdict.Permitted?
    requires PaperOp(st, RiskOp(q, verdict), read) && NewDecision(st, q.Intent().decisionId)
    requires CommitRiskChecked(st, q, verdict).Done?
    ensures var st', intent := CommitRiskChecked(st, q, verdict).value, q.Intent();
            && PaperOk(st', read) && Replay(st'.events).Ok?
            && Awaits(LedgerOf(st'.events), intent)
            && DurablePlan(st'.adapters, read, intent.intentId) == read(q.adapter.value.payload)
            && intent.decisionId in st'.claims
            && st'.claims[intent.decisionId].status == Committed(intent.intentId)
  {
    hide StoreOk, Replay, AppendAll, ValidEvent, ValidValuation, FindIntent, IntentClaimed, RiskBatch, Before, Fits,
         LogDriven, PlansNamed, BuysHaveAdapters, InvariantButAvailable, NewOrder;
    var st', intent := CommitRiskChecked(st, q, verdict).value, q.Intent();
    assert CommitRiskChecked(st, q, verdict) == CommitVerdict(st, q, verdict);
    PaperRisk(st, q, verdict, read);
    StoreReplays(st', true);
    NewIntentIsNew(st, q, verdict);
    BatchIsBefore(st.events, q);
    IntentLands(st.events, Before(st.events, q), q.event);
    NewOrderIsCreated(intent);
    CreatedIsTraceless(st', read, intent.intentId);
  }

  lemma NewOrderIsCreated(intent: OrderIntent)
    ensures NewOrder(intent).state == Created
  {}

  // ---- Both transactions ----

  /** Both transactions of an entry. After the first the intent is stored with
      its plan. The second executes the order exactly if the ledger can afford
      it; if not, the intent stays stored and reconciling it later starts from
      the same events. */
  lemma EntryIsExecutedOrWaits(st: Store, q: RiskRequest, verdict: Verdict, read: PlanReader)
    requires PaperOk(st, read) && Replay(st.events).Ok? && q.WellFormed() && verdict.Permitted?
    requires PaperOp(st, RiskOp(q, verdict), read) && NewDecision(st, q.Intent().decisionId)
    requires CommitRiskChecked(st, q, verdict).Done?
    ensures var st', intent := CommitRiskChecked(st, q, verdict).value, q.Intent();
            var plan := read(q.adapter.value.payload).value;
            && Replay(st'.events).Ok?
            && var s, r := LedgerOf(st'.events), StoreSpec.AppendMany(st', PlannedEvents(plan));
            && intent.intentId in s.orders
            && (r.Done? <==> Affordable(s, intent, plan))
            && (r.Done? ==>
                  && PaperOk(r.value, read) && Replay(r.value.events).Ok?
                  && Executed(s, LedgerOf(r.value.events), intent, plan))
            && Reconcile(s.orders[intent.intentId], Some(plan)) == Some(PlannedEvents(plan))
  {
    hide StoreOk, Replay, PaperOk, Affordable, Executed, CommitRiskChecked, Reconcile, PlannedEvents, AppendAll,
         InvariantButAvailable, NewOrder, Fits, LogDriven;
    var st', intent := CommitRiskChecked(st, q, verdict).value, q.Intent();
    var plan := read(q.adapter.value.payload).value;
    CommittedIntentAwaits(st, q, verdict, read);
    PaperStoreIsOk(st', read);
    SubmittingIsAllOrNothing(st', true, intent, plan);
    FitsNamesIntent(intent, plan);
    var r := StoreSpec.AppendMany(st', PlannedEvents(plan));
    if r.Done? {
      RecoveryIsAdmitted(intent.intentId, 0, st'.adapters, read);
      PlannedEventsAreValid(plan, PlannedEvents(plan));
      PaperAppend(st', PlannedEvents(plan), read);
      PaperStoreIsOk(r.value, read);
    }
  }

  lemma PaperStoreIsOk(st: Store, read: PlanReader)
    requires PaperOk(st, read)
    ensures StoreOk(st, true) && PlansNamed(st.adapters, read) && Replay(st.events).Ok?
  {
    hide StoreOk, Replay, LogDriven, PlansNamed;
    StoreReplays(st, true);
  }

  // ---- The entry as the service runs it ----

  predicate IsCommitted(st: Store, key: Text) {
    key in st.claims && st.claims[key].status.Committed?
  }

  /** The events the adapter emits from the stored plan; none where it raises. */
  function SubmittedEvents(adapters: Adapters, read: PlanReader, intent: OrderIntent): Option<seq<LedgerEvent>> {
    match DurablePlan(adapters, read, intent.intentId)
    case None => None
    case Some(plan) => EventsForPlan(intent, plan)
  }

  /** What an entry does to the tables: the first transaction, and if it committed
      the decision, the second. */
  ghost predicate EntryPerformed(
    before: Store, q: RiskRequest, verdict: Verdict, read: PlanReader, after: Store, failure: Option<StoreError>)
    requires q.WellFormed() && Replay(before.events).Ok?
  {
    match CommitRiskChecked(before, q, verdict)
    case Failed(error) => after == before && failure == Some(error)
    case Done(mid) =>
      if !IsCommitted(mid, q.Intent().decisionId) then after == mid && failure.None?
      else
        match SubmittedEvents(mid.adapters, read, q.Intent())
        case None => after == mid && failure == Some(WrongRequest)
        case Some(batch) => Replay(mid.events).Ok? && Performed(mid, StoreSpec.AppendMany(mid, batch), after, failure)
  }

  /** The two transactions of `submit_entry`, past sizing. */
  method SubmitEntry(store: EventStore, q: RiskRequest, verdict: Verdict, read: PlanReader)
    returns (r: Outcome<AppendResult>)
    requires store.Valid() && q.WellFormed()
    modifies store
    ensures store.Valid() && Replay(old(store.events)).Ok?
    ensures EntryPerformed(old(store.Tables()), q, verdict, read, store.Tables(), FailureOf(r))
  {
    hide Replay, StoreOk, RowsOf, CommitRiskChecked, AppendAll, EventsForPlan, ValidEvent, PlannedEvents;
    var committed := store.CommitRiskCheckedIntent(q, verdict);
    if committed.Failed? {
      return committed;
    }
    var key := q.Intent().decisionId;
    if key !in store.claims || !store.claims[key].status.Committed? {
      return committed;
    }
    StoreReplays(store.Tables(), store.riskChecked);
    var emitted := SubmittedEvents(store.adapters, read, q.Intent());
    if emitted.None? {
      return Failed(WrongRequest);
    }
    SubmittedAreValid(store.adapters, read, q.Intent());
    r := store.AppendMany(emitted.value);
  }

  lemma SubmittedAreValid(adapters: Adapters, read: PlanReader, intent: OrderIntent)
    requires SubmittedEvents(adapters, read, intent).Some?
    ensures AllValid(SubmittedEvents(adapters, read, intent).value)
  {
    hide ValidEvent, PlannedEvents;
    var plan := DurablePlan(adapters, read, intent.intentId).value;
    PlannedEventsAreValid(plan, PlannedEvents(plan));
  }

  /** A new entry run against a store in order: the tables end as the two
      transactions leave them, with the order executed or waiting. */
  lemma EntryEndsWell(
    before: Store, q: RiskRequest, verdict: Verdict, read: PlanReader, after: Store, failure: Option<StoreError>)
    requires PaperOk(before, read) && Replay(before.events).Ok? && q.WellFormed() && verdict.Permitted?
    requires PaperOp(before, RiskOp(q, verdict), read) && NewDecision(before, q.Intent().decisionId)
    requires CommitRiskChecked(before, q, verdict).Done?
    requires EntryPerformed(before, q, verdict, read, after, failure)
    ensures var mid, intent := CommitRiskChecked(before, q, verdict).value, q.Intent();
            var plan := read(q.adapter.value.payload).value;
            && PaperOk(after, read) && Replay(after.events).Ok? && Replay(mid.events).Ok?
            && (failure.None? <==> Affordable(LedgerOf(mid.events), intent, plan))
            && (failure.None? ==> Executed(LedgerOf(mid.events), LedgerOf(after.events), intent, plan))
            && (failure.Some? ==> after == mid && Awaits(LedgerOf(after.events), intent))
  {
    hide StoreOk, Replay, PaperOk, Affordable, Executed, CommitRiskChecked, Reconcile, PlannedEvents, AppendAll,
         InvariantButAvailable, NewOrder, LogDriven, Awaits;
    CommittedIntentAwaits(before, q, verdict, read);
    EntryIsExecutedOrWaits(before, q, verdict, read);
    FitsNamesIntent(q.Intent(), read(q.adapter.value.payload).value);
  }
}
