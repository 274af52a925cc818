/** What each transaction on decisions leaves in the tables, and when it succeeds. */
module Decisions {
  import opened Model
  import opened Events
  import opened State
  import opened Reducers
  import opened LedgerInvariants
  import opened LedgerRuns
  import opened Codec
  import opened EventLog
  import opened StoreSpec
  import opened StoreRuns

  // ---- Batches ----

  lemma ReplayOneLonger(s: LedgerState, events: seq<LedgerEvent>, e: LedgerEvent)
    ensures var before := ReplayFrom(s, events);
            ReplayFrom(s, events + [e]) == if before.Ok? then ApplyEvent(before.value, e) else before
  {
    hide ApplyEvent;
    assert (events + [e])[..|events|] == events;
  }

  /** A batch without intents is appended exactly when the ledger replays it,
      repeated events included. */
  lemma {:induction false} AppendedIsReplayed(events: seq<LedgerEvent>, batch: seq<LedgerEvent>, allowIntent: bool)
    requires Replay(events).Ok? && NoIntents(batch)
    ensures AppendAll(events, batch, allowIntent).Done? <==> ReplayFrom(Replay(events).value, batch).Ok?
    ensures AppendAll(events, batch, allowIntent).Done? ==>
              Replay(AppendAll(events, batch, allowIntent).value) == ReplayFrom(Replay(events).value, batch)
    decreases |batch|
  {
    hide ApplyEvent, Replay;
    var s := Replay(events).value;
    if batch != [] {
      var prefix, last := batch[..|batch| - 1], batch[|batch| - 1];
      AppendedIsReplayed(events, prefix, allowIntent);
      assert batch == prefix + [last];
      ReplayOneLonger(s, prefix, last);
      if ReplayFrom(s, prefix).Ok? {
        OneIsReplayed(AppendAll(events, prefix, allowIntent).value, last, allowIntent);
      }
    }
  }

  lemma OneIsReplayed(events: seq<LedgerEvent>, e: LedgerEvent, allowIntent: bool)
    requires Replay(events).Ok? && !e.body.OrderIntentCreated?
    ensures AppendOne(events, e, allowIntent).Done? <==> ApplyEvent(Replay(events).value, e).Ok?
    ensures AppendOne(events, e, allowIntent).Done? ==>
              Replay(AppendOne(events, e, allowIntent).value) == ApplyEvent(Replay(events).value, e)
  {
    hide Replay, ApplyBody, InvariantButAvailable;
    ReplayRecords(events);
    ReplayOneMore(events, e);
    match FindEvent(events, e.eventId)
    case Some(prior) =>
    case None =>
  }

  lemma {:induction false} AppendedFromBatch(events: seq<LedgerEvent>, batch: seq<LedgerEvent>, allowIntent: bool)
    requires Replay(events).Ok? && AppendAll(events, batch, allowIntent).Done?
    ensures forall e :: e in AppendAll(events, batch, allowIntent).value ==> e in events || e in batch
    decreases |batch|
  {
    hide Replay, AppendOne;
    if batch != [] {
      var prefix, last := batch[..|batch| - 1], batch[|batch| - 1];
      AppendedFromBatch(events, prefix, allowIntent);
      assert batch == prefix + [last];
      AppendOneFacts(AppendAll(events, prefix, allowIntent).value, last, allowIntent);
    }
  }

  /** A plain append succeeds exactly for a batch without intents that the ledger replays. */
  lemma AppendsExactly(st: Store, batch: seq<LedgerEvent>)
    requires Replay(st.events).Ok?
    ensures var r := AppendMany(st, batch);
            && (r.Done? <==> NoIntents(batch) && ReplayFrom(Replay(st.events).value, batch).Ok?)
            && (r.Done? ==>
                  && r.value == st.(events := r.value.events)
                  && Replay(r.value.events) == ReplayFrom(Replay(st.events).value, batch)
                  && (forall e :: e in r.value.events ==> e in st.events || e in batch))
  {
    hide Replay, ReplayFrom, AppendAll;
    if AppendAll(st.events, batch, false).Done? {
      PlainAppendHasNoIntents(st.events, batch);
      AppendedFromBatch(st.events, batch, false);
    }
    if NoIntents(batch) {
      AppendedIsReplayed(st.events, batch, false);
    }
  }

  /** An intent new to the log, of a decision new to it, is appended exactly when
      the ledger accepts it. */
  lemma NewIntentAppended(events: seq<LedgerEvent>, e: LedgerEvent)
    requires Replay(events).Ok? && e.body.OrderIntentCreated?
    requires FindIntent(events, e.body.intent.intentId).None? && !DecisionTaken(events, e.body.intent.decisionId)
    ensures AppendOne(events, e, true).Done? <==> ApplyEvent(Replay(events).value, e).Ok?
    ensures AppendOne(events, e, true).Done? ==> AppendOne(events, e, true).value == events + [e]
  {
    hide Replay, ApplyBody, InvariantButAvailable;
    ReplayRecords(events);
    assert e !in events by {
      assert Creates(e, e.body.intent.intentId);
    }
    match FindEvent(events, e.eventId)
    case Some(prior) =>
    case None =>
  }

  // ---- Claims ----

  /** A claim is granted to the first who asks, and to the same request again. */
  lemma ClaimsExactly(st: Store, key: Text, owner: Text, metadata: Metadata)
    ensures var r := ClaimDecision(st, key, owner, metadata);
            if key !in st.claims then r == Done(st.(claims := st.claims[key := Claim(owner, Claimed, metadata)]))
            else if st.claims[key] == Claim(owner, Claimed, metadata) then r == Done(st)
            else r == Failed(ConcurrentDecision)
  {}

  /** Of two owners who claim a decision, the first has it and the second fails. */
  lemma FirstOwnerWins(st: Store, key: Text, owner: Text, metadata: Metadata, other: Text, metadata': Metadata)
    requires key !in st.claims && other != owner
    ensures var r := ClaimDecision(st, key, owner, metadata);
            && r.Done? && key in r.value.claims && r.value.claims[key].ownerId == owner
            && ClaimDecision(r.value, key, other, metadata').Failed?
            && CompleteDecision(r.value, key, other).Failed?
  {}

  /** Completing is for the owner, of a decision not committed; it changes the status alone. */
  lemma CompletesExactly(st: Store, key: Text, owner: Text)
    ensures var r := CompleteDecision(st, key, owner);
            && (r.Done? <==> key in st.claims && st.claims[key].ownerId == owner && !st.claims[key].status.Committed?)
            && (r.Done? ==>
                  r.value == st.(claims := st.claims[key := Claim(owner, Completed, st.claims[key].metadata)]))
            && (r.Failed? ==> r.error == ConcurrentDecision)
  {
    if key in st.claims && st.claims[key] == Claim(owner, Completed, st.claims[key].metadata) {
      assert st.claims[key := st.claims[key]] == st.claims;
    }
  }

  // ---- Commits ----

  /** Neither the decision nor the intent of a commit that the claims admit is in the log. */
  lemma NothingCommittedYet(st: Store, intent: OrderIntent, checked: bool)
    requires StoreOk(st, checked) && !IntentClaimed(st.claims, intent.decisionId, intent.intentId)
    requires intent.decisionId in st.claims ==> !st.claims[intent.decisionId].status.Committed?
    ensures FindIntent(st.events, intent.intentId).None? && !DecisionTaken(st.events, intent.decisionId)
    ensures intent.intentId !in st.adapters
  {
    hide StoreOk, FindIntent, IntentClaimed;
    CommitStopsAtTheClaims(st, intent, checked);
    LogOfStore(st, checked);
  }

  /** A commit of a decision not yet committed: exactly when it is unclaimed or
      claimed alike, no other decision has the intent, and the ledger accepts it;
      then claim and intent are written and nothing else. */
  lemma CommitsExactly(st: Store, e: LedgerEvent, owner: Text, metadata: Metadata, checked: bool)
    requires StoreOk(st, checked) && Replay(st.events).Ok? && e.body.OrderIntentCreated?
    requires var key := e.body.intent.decisionId;
             key in st.claims ==> !st.claims[key].status.Committed?
    ensures var key, id, r := e.body.intent.decisionId, e.body.intent.intentId, CommitIntent(st, e, owner, metadata);
            && (r.Done? <==>
                  && (key in st.claims ==> st.claims[key] == Claim(owner, Claimed, metadata))
                  && (forall k :: k in st.claims && k != key ==> st.claims[k].status != Committed(id))
                  && ApplyEvent(Replay(st.events).value, e).Ok?)
            && (r.Done? ==>
                  r.value == st.(events := st.events + [e],
                                 claims := st.claims[key := Claim(owner, Committed(id), metadata)]))
  {
    hide StoreOk, Replay, AppendOne, ApplyEvent, FindIntent, DecisionTaken;
    var intent := e.body.intent;
    AppendOneAlone(st.events, e, true);
    if !IntentClaimed(st.claims, intent.decisionId, intent.intentId) {
      NothingCommittedYet(st, intent, checked);
      NewIntentAppended(st.events, e);
    }
  }

  lemma AppendOneAlone(events: seq<LedgerEvent>, e: LedgerEvent, allowIntent: bool)
    requires Replay(events).Ok?
    ensures AppendAll(events, [e], allowIntent) == AppendOne(events, e, allowIntent)
  {
    hide Replay, AppendOne;
    assert [e][..0] == [];
  }

  /** A commit of a decision already committed, by anyone: exactly when it is the
      same intent; nothing is written. */
  lemma RepeatsExactly(st: Store, e: LedgerEvent, owner: Text, metadata: Metadata, checked: bool)
    requires StoreOk(st, checked) && Replay(st.events).Ok? && e.body.OrderIntentCreated?
    requires var key := e.body.intent.decisionId;
             key in st.claims && st.claims[key].status.Committed?
    ensures var r := CommitIntent(st, e, owner, metadata);
            && (r.Done? <==> exists f :: f in st.events && f.body.OrderIntentCreated? && f.body.intent == e.body.intent)
            && (r.Done? ==> r.value == st)
  {
    hide StoreOk, Replay, AppendAll, FindIntent, IntentsDistinct;
    LogOfStore(st, checked);
    var intent := e.body.intent;
    forall f | f in st.events && f.body.OrderIntentCreated? && f.body.intent == intent
      ensures FindIntent(st.events, intent.intentId) == Some(intent)
      ensures st.claims[intent.decisionId].status == Committed(intent.intentId)
    {
      FoundIntentIsTheOne(st.events, f);
    }
  }

  // ---- The risk-checked commit, by verdict ----

  /** A BUY with its own scope, of a decision unclaimed or claimed by the same owner with the same metadata. */
  predicate MayDecide(st: Store, q: RiskRequest)
    requires q.event.body.OrderIntentCreated?
  {
    var key := q.Intent().decisionId;
    && q.Intent().side == Buy && q.scope.key == q.Intent().Key()
    && (key in st.claims ==> st.claims[key] == Claim(q.owner, Claimed, q.metadata))
  }

  lemma MayDecideDecides(st: Store, q: RiskRequest, verdict: Verdict)
    requires q.WellFormed() && Replay(st.events).Ok? && MayDecide(st, q)
    ensures CommitRiskChecked(st, q, verdict) == CommitVerdict(st, q, verdict)
  {
    hide Replay, CommitVerdict, ValidEvent, ValidValuation;
  }

  /** A rejection completes the decision for its owner and stores no intent. The
      log grows by no more than the valuation, and not by that if it was unusable. */
  lemma RejectionLeaves(st: Store, q: RiskRequest, verdict: Verdict, checked: bool)
    requires StoreOk(st, checked) && Replay(st.events).Ok? && q.WellFormed() && verdict.Rejected? && MayDecide(st, q)
    ensures var key, r := q.Intent().decisionId, CommitRiskChecked(st, q, verdict);
            && (r.Done? <==>
                  verdict.valuationUnusable || ApplyEvent(Replay(st.events).value, q.ValuationEvent()).Ok?)
            && (r.Done? ==>
                  && r.value.claims == st.claims[key := Claim(q.owner, Completed, q.metadata + verdict.metadata)]
                  && r.value.adapters == st.adapters && r.value.checkpoints == st.checkpoints
                  && (r.value.events == st.events
                      || (!verdict.valuationUnusable && r.value.events == st.events + [q.ValuationEvent()]))
                  && !DecisionTaken(r.value.events, key))
  {
    hide StoreOk, Replay, ApplyEvent, ValidEvent, ValidValuation, AppendOne, FindIntent, IntentClaimed, CommitRiskChecked,
         AppendAll, DecisionTaken;
    var v := q.ValuationEvent();
    MayDecideDecides(st, q, verdict);
    CommitStopsAtTheClaims(st, q.Intent(), checked);
    AppendOneAlone(st.events, v, false);
    OneIsReplayed(st.events, v, false);
    if AppendOne(st.events, v, false).Done? {
      AppendOneFacts(st.events, v, false);
      ValuationTakesNoDecision(st.events, v, q.Intent().decisionId);
    }
  }

  lemma ValuationTakesNoDecision(events: seq<LedgerEvent>, v: LedgerEvent, key: Text)
    requires !v.body.OrderIntentCreated?
    ensures DecisionTaken(events + [v], key) <==> DecisionTaken(events, key)
  {
    if DecisionTaken(events, key) {
      var i :| 0 <= i < |events| && events[i].body.OrderIntentCreated? && events[i].body.intent.decisionId == key;
      assert (events + [v])[i] == events[i];
    }
  }

  /** Asked again about a rejected decision, whatever the request says and the
      evaluation would answer: the owner changes nothing, anyone else fails. */
  lemma RejectedStaysRejected(
    st: Store, q: RiskRequest, verdict: Verdict, checked: bool, again: RiskRequest, verdict': Verdict)
    requires StoreOk(st, checked) && Replay(st.events).Ok? && q.WellFormed() && verdict.Rejected? && MayDecide(st, q)
    requires CommitRiskChecked(st, q, verdict).Done?
    requires again.WellFormed() && again.Intent().decisionId == q.Intent().decisionId
    requires again.Intent().side == Buy && again.scope.key == again.Intent().Key()
    ensures var st' := CommitRiskChecked(st, q, verdict).value;
            && Replay(st'.events).Ok?
            && CommitRiskChecked(st', again, verdict')
               == if again.owner == q.owner then Done(st') else Failed(ConcurrentDecision)
  {
    hide StoreOk, Replay, ValidEvent, ValidValuation, ApplyEvent, AppendAll, CommitVerdict;
    var st' := CommitRiskChecked(st, q, verdict).value;
    RejectionLeaves(st, q, verdict, checked);
    RiskKeeps(st, q, verdict, checked);
    StoreReplays(st', checked);
  }

  /** Over every continuation, by any owners, a rejected decision never gets an intent. */
  lemma RejectedNeverGetsAnIntent(ops: WellFormedOps, q: RiskRequest, verdict: Verdict, more: WellFormedOps)
    requires q.WellFormed() && verdict.Rejected? && MayDecide(StoreAfter(ops, true), q)
    requires CommitRiskChecked(StoreAfter(ops, true), q, verdict).Done?
    ensures var st := CommitRiskChecked(StoreAfter(ops, true), q, verdict).value;
            && StoreOk(st, true)
            && var later, key := Run(st, more, true), q.Intent().decisionId;
            && key in later.claims
            && later.claims[key] == Claim(q.owner, Completed, q.metadata + verdict.metadata)
            && forall e :: e in later.events && e.body.OrderIntentCreated? ==> e.body.intent.decisionId != key
  {
    hide StoreOk, Replay, StoreAfter, Run, ValidEvent, ValidValuation, CommitRiskChecked, ApplyEvent;
    var before := StoreAfter(ops, true);
    RejectionLeaves(before, q, verdict, true);
    RiskKeeps(before, q, verdict, true);
    var st := CommitRiskChecked(before, q, verdict).value;
    LogOfStore(Run(st, more, true), true);
  }

  /** A permission commits the decision to the intent for its owner, and stores
      intent, valuation, scope and adapter row; exactly when no other decision has
      the intent and the ledger accepts what is new of them. */
  lemma PermissionLeaves(st: Store, q: RiskRequest, verdict: Verdict, checked: bool)
    requires StoreOk(st, checked) && Replay(st.events).Ok? && q.WellFormed() && verdict.Permitted? && MayDecide(st, q)
    ensures var intent, r := q.Intent(), CommitRiskChecked(st, q, verdict);
            var key, id, others := intent.decisionId, intent.intentId, Before(st.events, q);
            && (r.Done? <==>
                  && (forall k :: k in st.claims && k != key ==> st.claims[k].status != Committed(id))
                  && ReplayFrom(Replay(st.events).value, others + [q.event]).Ok?)
            && (r.Done? ==>
                  && r.value.claims == st.claims[key := Claim(q.owner, Committed(id), q.metadata + verdict.metadata)]
                  && r.value.adapters == (if q.adapter.None? then st.adapters else st.adapters[id := q.adapter.value])
                  && r.value.checkpoints == st.checkpoints
                  && Replay(r.value.events) == ReplayFrom(Replay(st.events).value, others + [q.event])
                  && |st.events| < |r.value.events| && r.value.events[|r.value.events| - 1] == q.event
                  && (forall e :: e in r.value.events ==> e in st.events || e in others || e == q.event))
  {
    hide StoreOk, Replay, ReplayFrom, ApplyEvent, ValidEvent, ValidValuation, AppendAll, AppendOne, FindIntent,
         CommitRiskChecked, RiskBatch, Before, DecisionTaken;
    var intent, others := q.Intent(), Before(st.events, q);
    MayDecideDecides(st, q, verdict);
    BatchIsBefore(st.events, q);
    if !IntentClaimed(st.claims, intent.decisionId, intent.intentId) {
      NothingCommittedYet(st, intent, checked);
      BatchLands(st.events, others, q.event);
    }
  }

  /** A batch that ends in an intent new to the log. */
  lemma BatchLands(events: seq<LedgerEvent>, others: seq<LedgerEvent>, e: LedgerEvent)
    requires Replay(events).Ok? && NoIntents(others) && e.body.OrderIntentCreated?
    requires FindIntent(events, e.body.intent.intentId).None? && !DecisionTaken(events, e.body.intent.decisionId)
    ensures var r, spec := AppendAll(events, others + [e], true), ReplayFrom(Replay(events).value, others + [e]);
            && (r.Done? <==> spec.Ok?)
            && (r.Done? ==>
                  && Replay(r.value) == spec && |events| < |r.value| && r.value[|r.value| - 1] == e
                  && forall f :: f in r.value ==> f in events || f in others || f == e)
  {
    hide Replay, ReplayFrom, ApplyEvent, AppendOne, FindIntent, DecisionTaken;
    AppendedIsReplayed(events, others, true);
    ReplayOneLonger(Replay(events).value, others, e);
    assert (others + [e])[..|others|] == others;
    if AppendAll(events, others, true).Done? {
      var before := AppendAll(events, others, true).value;
      StillNew(events, others, e);
      NewIntentAppended(before, e);
      ReplayOneMore(before, e);
      AppendingGrows(events, others, true);
    }
  }

  lemma StillNew(events: seq<LedgerEvent>, others: seq<LedgerEvent>, e: LedgerEvent)
    requires Replay(events).Ok? && NoIntents(others) && e.body.OrderIntentCreated?
    requires FindIntent(events, e.body.intent.intentId).None? && !DecisionTaken(events, e.body.intent.decisionId)
    requires AppendAll(events, others, true).Done?
    ensures var before := AppendAll(events, others, true).value;
            && FindIntent(before, e.body.intent.intentId).None? && !DecisionTaken(before, e.body.intent.decisionId)
            && forall f :: f in before ==> f in events || f in others
  {
    hide Replay, AppendAll;
    var before := AppendAll(events, others, true).value;
    AppendedFromBatch(events, others, true);
    forall f | f in before && f.body.OrderIntentCreated? ensures f in events {
      assert f !in others;
    }
    forall i | 0 <= i < |before| && before[i].body.OrderIntentCreated?
      ensures before[i].body.intent.decisionId != e.body.intent.decisionId
    {
      assert before[i] in events;
      var j :| 0 <= j < |events| && events[j] == before[i];
    }
    forall f | f in before ensures !Creates(f, e.body.intent.intentId) {}
  }

  lemma {:induction false} AppendingGrows(events: seq<LedgerEvent>, batch: seq<LedgerEvent>, allowIntent: bool)
    requires Replay(events).Ok? && AppendAll(events, batch, allowIntent).Done?
    ensures |events| <= |AppendAll(events, batch, allowIntent).value|
    decreases |batch|
  {
    hide Replay, AppendOne;
    if batch != [] {
      var prefix := batch[..|batch| - 1];
      AppendingGrows(events, prefix, allowIntent);
      AppendOneFacts(AppendAll(events, prefix, allowIntent).value, batch[|batch| - 1], allowIntent);
    }
  }

  /** A risk-checked commit of a decision already committed, by anyone and under
      any verdict: exactly when it is the same intent and names no other adapter
      data; it writes at most a missing adapter row. */
  lemma RiskRepeatsExactly(st: Store, q: RiskRequest, verdict: Verdict, checked: bool)
    requires StoreOk(st, checked) && Replay(st.events).Ok? && q.WellFormed()
    requires q.Intent().side == Buy && q.scope.key == q.Intent().Key()
    requires var key := q.Intent().decisionId;
             key in st.claims && st.claims[key].status.Committed?
    ensures var id, r := q.Intent().intentId, CommitRiskChecked(st, q, verdict);
            && (r.Done? <==>
                  && (exists f :: f in st.events && f.body.OrderIntentCreated? && f.body.intent == q.Intent())
                  && (q.adapter.Some? && id in st.adapters ==> st.adapters[id] == q.adapter.value))
            && (r.Done? ==>
                  r.value == st.(adapters := if q.adapter.None? then st.adapters else st.adapters[id := q.adapter.value]))
  {
    hide StoreOk, Replay, AppendAll, ValidEvent, ValidValuation, CommitVerdict, CommitIntent;
    RepeatsExactly(st, q.event, q.owner, q.metadata, checked);
    RepeatIsChecked(st, q.event, q.owner, q.metadata);
    var id := q.Intent().intentId;
    if q.adapter.Some? && id in st.adapters && st.adapters[id] == q.adapter.value {
      assert st.adapters[id := q.adapter.value] == st.adapters;
    }
  }

  lemma RepeatIsChecked(st: Store, e: LedgerEvent, owner: Text, metadata: Metadata)
    requires Replay(st.events).Ok? && e.body.OrderIntentCreated?
    requires var key := e.body.intent.decisionId;
             key in st.claims && st.claims[key].status.Committed?
    ensures CommitIntent(st, e, owner, metadata).Done?
            <==> CheckRepeat(st, e.body.intent, st.claims[e.body.intent.decisionId].status.intentId).Done?
  {
    hide Replay, AppendAll, CheckRepeat;
  }

  // ---- Adapter rows and checkpoints ----

  /** An adapter row is written exactly for a stored intent, and keeps its backend. */
  lemma SetsExactly(st: Store, id: IntentId, adapter: Adapter)
    ensures var r := SetAdapter(st, id, adapter);
            && (r.Done? <==>
                  && (exists e :: e in st.events && Creates(e, id))
                  && (id in st.adapters ==> st.adapters[id].backend == adapter.backend))
            && (r.Done? ==> r.value == st.(adapters := st.adapters[id := adapter]))
            && (r.Failed? ==> r.error == RecoveryRequired)
  {}

  /** A checkpoint of a log that is not empty, exactly if none stands there that says otherwise. */
  lemma ChecksExactly(st: Store)
    requires Replay(st.events).Ok?
    ensures var n, r := |st.events|, CreateCheckpoint(st);
            0 < n ==>
              && var now := Checkpoint(RowsOf(st.events)[n - 1].chainHash, Replay(st.events).value);
              && (r.Done? <==> (n in st.checkpoints ==> st.checkpoints[n] == now))
              && (r.Done? ==> r.value == st.(checkpoints := st.checkpoints[n := now]))
    ensures |st.events| == 0 ==> CreateCheckpoint(st) == Failed(EmptyLedger)
  {
    hide Replay, RowFor;
    var n := |st.events|;
    if 0 < n && n in st.checkpoints {
      assert st.checkpoints[n := st.checkpoints[n]] == st.checkpoints;
    }
  }
}
