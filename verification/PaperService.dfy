/** Submitting a plan through the event store. */
module PaperService {
  import opened Model
  import opened Events
  import opened State
  import opened Reducers
  import opened LedgerInvariants
  import opened LedgerRuns
  import opened StoreSpec
  import opened StoreRuns
  import opened PaperPlan
  import opened PaperLedger
  import opened PaperRecovery

  /** Events under identifiers of their own that the log has not seen. */
  predicate FreshBatch(events: seq<LedgerEvent>, batch: seq<LedgerEvent>) {
    && NoIntents(batch)
    && (forall i :: 0 <= i < |batch| ==> FindEvent(events, batch[i].eventId).None?)
    && (forall i, j :: 0 <= i < j < |batch| ==> batch[i].eventId != batch[j].eventId)
  }

  lemma FindInExtension(events: seq<LedgerEvent>, batch: seq<LedgerEvent>, id: Identifier)
    requires FindEvent(events, id).None? && forall i :: 0 <= i < |batch| ==> batch[i].eventId != id
    ensures FindEvent(events + batch, id).None?
  {
    forall e | e in events + batch ensures e.eventId != id {
      if e !in events {
        assert e in batch;
      }
    }
  }

  /** The store appends a fresh batch exactly when the ledger replays it. */
  lemma {:induction false} FreshBatchIsReplayed(events: seq<LedgerEvent>, batch: seq<LedgerEvent>)
    requires Replay(events).Ok? && FreshBatch(events, batch)
    ensures AppendAll(events, batch, false).Done? <==> ReplayFrom(Replay(events).value, batch).Ok?
    ensures AppendAll(events, batch, false).Done? ==>
              && AppendAll(events, batch, false).value == events + batch
              && Replay(events + batch) == ReplayFrom(Replay(events).value, batch)
    decreases |batch|
  {
    hide ApplyEvent, Replay;
    var s := Replay(events).value;
    if batch == [] {
      assert events + batch == events;
    } else {
      var prefix, last := batch[..|batch| - 1], batch[|batch| - 1];
      FreshBatchIsReplayed(events, prefix);
      assert batch == prefix + [last];
      ReplayNext(s, prefix, last);
      if ReplayFrom(s, prefix).Ok? {
        FindInExtension(events, prefix, last.eventId);
        ReplayOneMore(events + prefix, last);
        assert events + batch == events + prefix + [last];
      }
    }
  }

  lemma ReplayedLogHolds(events: seq<LedgerEvent>, id: Identifier)
    requires Replay(events).Ok?
    ensures FindEvent(events, id).None? <==> id !in Replay(events).value.fingerprints
  {
    hide Replay;
    ReplayRecords(events);
  }

  lemma PlannedIdsAreTagged(plan: Plan, i: nat)
    requires plan.Valid() && i < |PlannedEvents(plan)|
    ensures var e := PlannedEvents(plan)[i];
            && !e.body.OrderIntentCreated?
            && e.eventId.PaperId? && e.eventId.tag in PLAN_TAGS && e.eventId.intentId == plan.intentId
  {
    hide TotalFilled;
  }

  /** The events of a plan the log has not seen are a fresh batch. */
  lemma PlanIsFresh(events: seq<LedgerEvent>, intent: OrderIntent, plan: Plan)
    requires Replay(events).Ok? && Awaits(Replay(events).value, intent) && Fits(intent, plan)
    ensures FreshBatch(events, PlannedEvents(plan))
  {
    hide Replay, InvariantButAvailable, TotalFilled, PlannedEvents;
    var batch := PlannedEvents(plan);
    forall i | 0 <= i < |batch|
      ensures FindEvent(events, batch[i].eventId).None? && !batch[i].body.OrderIntentCreated?
    {
      PlannedIdsAreTagged(plan, i);
      ReplayedLogHolds(events, batch[i].eventId);
    }
    forall i, j | 0 <= i < j < |batch| ensures batch[i].eventId != batch[j].eventId {
      PlannedIdsAreDistinct(plan, i, j);
    }
  }

  /** Submitting a plan to the store is all or nothing. If the ledger can take
      the plan, the order is executed; if not, the store is left as it was and
      reconciling the order yields the very same events again. */
  lemma SubmittingIsAllOrNothing(st: Store, checked: bool, intent: OrderIntent, plan: Plan)
    requires StoreOk(st, checked) && Replay(st.events).Ok?
    requires Awaits(Replay(st.events).value, intent) && Fits(intent, plan)
    ensures var s := Replay(st.events).value;
            var r := AppendMany(st, PlannedEvents(plan));
            && (r.Done? <==> Affordable(s, intent, plan))
            && (r.Done? ==>
                  && r.value.events == st.events + PlannedEvents(plan)
                  && Replay(r.value.events).Ok?
                  && Executed(s, Replay(r.value.events).value, intent, plan))
            && Reconcile(s.orders[intent.intentId], Some(plan)) == Some(PlannedEvents(plan))
  {
    hide Replay, ReplayFrom, InvariantButAvailable, TotalFilled, AppendAll, StoreOk, Affordable, Executed, FreshBatch,
         PlannedEvents;
    var s := Replay(st.events).value;
    PlanIsFresh(st.events, intent, plan);
    FreshBatchIsReplayed(st.events, PlannedEvents(plan));
    ExecutorRefinesLedger(s, intent, plan);
    ThereAreTwoEvents(plan);
  }

  lemma ThereAreTwoEvents(plan: Plan)
    requires plan.Valid()
    ensures 2 <= |PlannedEvents(plan)|
  {
    hide TotalFilled;
  }
}
