/** What every interleaving of store transactions, by any owners, keeps. */
module StoreRuns {
  import opened Model
  import opened Events
  import opened Reducers
  import opened Codec
  import opened EventLog
  import opened StoreSpec

  // ---- The log and the claim table ----

  predicate IsIntent(e: LedgerEvent, intentId: IntentId, decisionId: Text) {
    && e.body.OrderIntentCreated?
    && e.body.intent.intentId == intentId
    && e.body.intent.decisionId == decisionId
  }

  /** Every intent in the log is committed by the claim of its decision. */
  predicate IntentsClaimed(events: seq<LedgerEvent>, claims: Claims) {
    forall e :: e in events && e.body.OrderIntentCreated? ==>
                  && e.body.intent.decisionId in claims
                  && claims[e.body.intent.decisionId].status == Committed(e.body.intent.intentId)
  }

  /** Every committed claim names an intent in the log, of its own decision. */
  predicate ClaimsBacked(events: seq<LedgerEvent>, claims: Claims) {
    forall k :: k in claims && claims[k].status.Committed? ==>
                  exists e :: e in events && IsIntent(e, claims[k].status.intentId, k)
  }

  /** No two intents of the log share an identifier or a decision. */
  predicate IntentsDistinct(events: seq<LedgerEvent>) {
    forall i, j :: 0 <= i < j < |events| && events[i].body.OrderIntentCreated? && events[j].body.OrderIntentCreated? ==>
                     && events[i].body.intent.intentId != events[j].body.intent.intentId
                     && events[i].body.intent.decisionId != events[j].body.intent.decisionId
  }

  predicate EventIdsDistinct(events: seq<LedgerEvent>) {
    forall i, j :: 0 <= i < j < |events| ==> events[i].eventId != events[j].eventId
  }

  /** Committed claims and intents in the log correspond one to one. */
  predicate ClaimsAgree(events: seq<LedgerEvent>, claims: Claims) {
    IntentsClaimed(events, claims) && ClaimsBacked(events, claims) && IntentsDistinct(events)
  }

  predicate AdaptersBacked(events: seq<LedgerEvent>, adapters: Adapters) {
    forall id :: id in adapters ==> exists e :: e in events && Creates(e, id)
  }

  /** The log holds, before position `n`, the scope of the key and a valuation
      assembled for the decision. */
  predicate CheckedBefore(events: seq<LedgerEvent>, n: nat, intent: OrderIntent)
    requires n <= |events|
  {
    && ScopeKnown(events[..n], intent.Key())
    && exists i :: 0 <= i < n && events[i].body.PortfolioValuationRecorded?
                   && events[i].eventId == ValuationId(intent.decisionId, events[i].body.valuation)
  }

  predicate BuysChecked(events: seq<LedgerEvent>) {
    forall n :: 0 <= n < |events| && events[n].body.OrderIntentCreated? && events[n].body.intent.side == Buy ==>
                  CheckedBefore(events, n, events[n].body.intent)
  }

  ghost predicate StoreOk(st: Store, checked: bool) {
    && AllValid(st.events)
    && Replay(st.events).Ok?
    && EventIdsDistinct(st.events)
    && ClaimsAgree(st.events, st.claims)
    && AdaptersBacked(st.events, st.adapters)
    && CheckpointsAgree(st.checkpoints, RowsOf(st.events), st.events, |st.events|)
    && NoOrphans(st.checkpoints, |st.events|)
    && (checked ==> BuysChecked(st.events))
  }

  lemma EmptyStoreIsOk(checked: bool)
    ensures StoreOk(EMPTY_STORE, checked)
  {
    hide ApplyEvent;
  }

  // ---- Logs only grow ----

  predicate GrowsTo(events: seq<LedgerEvent>, events': seq<LedgerEvent>) {
    |events| <= |events'| && events'[..|events|] == events
  }

  lemma CheckpointsSurviveGrowth(checkpoints: Checkpoints, events: seq<LedgerEvent>, events': seq<LedgerEvent>)
    requires GrowsTo(events, events')
    requires CheckpointsAgree(checkpoints, RowsOf(events), events, |events|) && NoOrphans(checkpoints, |events|)
    ensures CheckpointsAgree(checkpoints, RowsOf(events'), events', |events'|) && NoOrphans(checkpoints, |events'|)
  {
    hide Replay, RowsOf;
    RowsOfPrefix(events', |events|);
    forall k | k in checkpoints
      ensures checkpoints[k].chainHash == RowsOf(events')[k - 1].chainHash
      ensures Replay(events'[..k]) == Ok(checkpoints[k].state)
    {
      assert events'[..k] == events[..k];
    }
  }

  lemma CheckedStaysChecked(events: seq<LedgerEvent>, events': seq<LedgerEvent>, n: nat, intent: OrderIntent)
    requires GrowsTo(events, events') && n <= |events| && CheckedBefore(events, n, intent)
    ensures CheckedBefore(events', n, intent)
  {
    assert events'[..n] == events[..n];
    var i :| 0 <= i < n && events[i].body.PortfolioValuationRecorded?
             && events[i].eventId == ValuationId(intent.decisionId, events[i].body.valuation);
    assert events'[i] == events[i];
  }

  /** Whether appending `e` keeps the rule for BUY intents. */
  predicate Admissible(events: seq<LedgerEvent>, e: LedgerEvent) {
    e.body.OrderIntentCreated? && e.body.intent.side == Buy ==>
      CheckedBefore(events, |events|, e.body.intent)
  }

  lemma BuysStayChecked(events: seq<LedgerEvent>, e: LedgerEvent)
    requires BuysChecked(events) && Admissible(events, e)
    ensures BuysChecked(events + [e])
  {
    var events' := events + [e];
    assert events'[..|events|] == events;
    forall n | 0 <= n < |events'| && events'[n].body.OrderIntentCreated? && events'[n].body.intent.side == Buy
      ensures CheckedBefore(events', n, events'[n].body.intent)
    {
      CheckedStaysChecked(events, events', n, events'[n].body.intent);
    }
  }

  /** The facts about the log alone. */
  ghost predicate LogOk(events: seq<LedgerEvent>, checked: bool) {
    && AllValid(events) && Replay(events).Ok? && EventIdsDistinct(events) && IntentsDistinct(events)
    && (checked ==> BuysChecked(events))
  }

  lemma IdsStayDistinct(events: seq<LedgerEvent>, e: LedgerEvent)
    requires EventIdsDistinct(events) && FindEvent(events, e.eventId).None?
    ensures EventIdsDistinct(events + [e])
  {}

  lemma IntentsStayDistinct(events: seq<LedgerEvent>, e: LedgerEvent)
    requires IntentsDistinct(events)
    requires e.body.OrderIntentCreated? ==>
               && FindIntent(events, e.body.intent.intentId).None?
               && !DecisionTaken(events, e.body.intent.decisionId)
    ensures IntentsDistinct(events + [e])
  {
    var events' := events + [e];
    forall i, j | 0 <= i < j < |events'| && events'[i].body.OrderIntentCreated? && events'[j].body.OrderIntentCreated?
      ensures events'[i].body.intent.intentId != events'[j].body.intent.intentId
      ensures events'[i].body.intent.decisionId != events'[j].body.intent.decisionId
    {
      if j == |events| {
        assert events[i] in events && !Creates(events[i], e.body.intent.intentId);
      }
    }
  }

  lemma LogGrowsByOne(events: seq<LedgerEvent>, e: LedgerEvent, allowIntent: bool, checked: bool)
    requires LogOk(events, checked) && ValidEvent(e)
    requires AppendOne(events, e, allowIntent).Done?
    requires checked ==> Admissible(events, e)
    ensures var events' := AppendOne(events, e, allowIntent).value;
            LogOk(events', checked) && GrowsTo(events, events')
  {
    hide Replay, ValidEvent, AppendOne, BuysChecked, Admissible, EventIdsDistinct, IntentsDistinct, DecisionTaken;
    AppendOneFacts(events, e, allowIntent);
    var events' := AppendOne(events, e, allowIntent).value;
    if events' != events {
      IdsStayDistinct(events, e);
      IntentsStayDistinct(events, e);
      if checked {
        BuysStayChecked(events, e);
      }
    }
  }

  predicate NoIntents(batch: seq<LedgerEvent>) {
    forall i :: 0 <= i < |batch| ==> !batch[i].body.OrderIntentCreated?
  }

  /** The intents of the log are the same. */
  ghost predicate SameIntents(events: seq<LedgerEvent>, events': seq<LedgerEvent>) {
    forall e: LedgerEvent :: e.body.OrderIntentCreated? ==> (e in events' <==> e in events)
  }

  /** Appending events that create no intent. */
  lemma {:induction false} OthersAppended(events: seq<LedgerEvent>, batch: seq<LedgerEvent>, allowIntent: bool, checked: bool)
    requires LogOk(events, checked) && AllValid(batch) && NoIntents(batch)
    requires AppendAll(events, batch, allowIntent).Done?
    ensures var events' := AppendAll(events, batch, allowIntent).value;
            && LogOk(events', checked) && GrowsTo(events, events')
            && SameIntents(events, events')
            && forall e :: e in batch ==> e in events'
    decreases |batch|
  {
    hide Replay, ValidEvent, AppendOne, BuysChecked, EventIdsDistinct, IntentsDistinct;
    if batch != [] {
      var prefix, last := batch[..|batch| - 1], batch[|batch| - 1];
      OthersAppended(events, prefix, allowIntent, checked);
      var before := AppendAll(events, prefix, allowIntent).value;
      assert Replay(before).Ok?;
      AppendOneFacts(before, last, allowIntent);
      LogGrowsByOne(before, last, allowIntent, checked);
      assert batch == prefix + [last];
    }
  }

  /** A batch without intents is all that a plain append takes. */
  lemma {:induction false} PlainAppendHasNoIntents(events: seq<LedgerEvent>, batch: seq<LedgerEvent>)
    requires Replay(events).Ok? && AppendAll(events, batch, false).Done?
    ensures NoIntents(batch)
    decreases |batch|
  {
    hide Replay, AppendOne;
    if batch != [] {
      var prefix, last := batch[..|batch| - 1], batch[|batch| - 1];
      PlainAppendHasNoIntents(events, prefix);
      var before := AppendAll(events, prefix, false).value;
      AppendOneFacts(before, last, false);
    }
  }

  // ---- The claim table under each change ----

  lemma SameIntentsKeepClaims(events: seq<LedgerEvent>, events': seq<LedgerEvent>, claims: Claims, adapters: Adapters)
    requires ClaimsAgree(events, claims) && AdaptersBacked(events, adapters)
    requires GrowsTo(events, events') && SameIntents(events, events') && IntentsDistinct(events')
    ensures ClaimsAgree(events', claims) && AdaptersBacked(events', adapters)
  {
    forall k | k in claims && claims[k].status.Committed?
      ensures exists e :: e in events' && IsIntent(e, claims[k].status.intentId, k)
    {
      var e :| e in events && IsIntent(e, claims[k].status.intentId, k);
      assert e in events';
    }
    forall id | id in adapters ensures exists e :: e in events' && Creates(e, id) {
      var e :| e in events && Creates(e, id);
      assert e in events';
    }
  }

  /** A claim that is not committed may be rewritten freely, as long as it does not become committed. */
  lemma OpenClaimRewritten(events: seq<LedgerEvent>, claims: Claims, key: Text, claim: Claim)
    requires ClaimsAgree(events, claims) && !claim.status.Committed?
    requires key in claims ==> !claims[key].status.Committed?
    ensures ClaimsAgree(events, claims[key := claim])
  {}

  /** Committing a claim together with the intent it names. */
  lemma ClaimCommitted(events: seq<LedgerEvent>, claims: Claims, e: LedgerEvent, claim: Claim)
    requires ClaimsAgree(events, claims) && e.body.OrderIntentCreated?
    requires claim.status == Committed(e.body.intent.intentId)
    requires !DecisionTaken(events, e.body.intent.decisionId) && IntentsDistinct(events + [e])
    ensures ClaimsAgree(events + [e], claims[e.body.intent.decisionId := claim])
  {
    var key, claims' := e.body.intent.decisionId, claims[e.body.intent.decisionId := claim];
    forall k | k in claims' && claims'[k].status.Committed?
      ensures exists f :: f in events + [e] && IsIntent(f, claims'[k].status.intentId, k)
    {
      if k == key {
        assert IsIntent(e, claim.status.intentId, k) && e in events + [e];
      } else {
        var f :| f in events && IsIntent(f, claims[k].status.intentId, k);
        assert f in events + [e];
      }
    }
  }

  lemma AdaptersSurviveGrowth(events: seq<LedgerEvent>, events': seq<LedgerEvent>, adapters: Adapters)
    requires AdaptersBacked(events, adapters) && GrowsTo(events, events')
    ensures AdaptersBacked(events', adapters)
  {
    forall id | id in adapters ensures exists e :: e in events' && Creates(e, id) {
      var e :| e in events && Creates(e, id);
      assert e in events';
    }
  }

  // ---- Each transaction ----

  /** What a transaction may do to the store: the log grows, a final claim
      stays as it is, an owner keeps its claim, an adapter keeps its backend,
      and checkpoints stay. */
  predicate Advances(st: Store, st': Store) {
    && GrowsTo(st.events, st'.events)
    && (forall k :: k in st.claims ==>
                      && k in st'.claims
                      && st'.claims[k].ownerId == st.claims[k].ownerId
                      && (!st.claims[k].status.Claimed? ==> st'.claims[k] == st.claims[k]))
    && (forall id :: id in st.adapters ==>
                       id in st'.adapters && st'.adapters[id].backend == st.adapters[id].backend)
    && (forall n :: n in st.checkpoints ==> n in st'.checkpoints && st'.checkpoints[n] == st.checkpoints[n])
  }

  lemma LogOfStore(st: Store, checked: bool)
    requires StoreOk(st, checked)
    ensures LogOk(st.events, checked) && ClaimsAgree(st.events, st.claims)
    ensures AdaptersBacked(st.events, st.adapters)
  {}

  /** A store whose log has grown, put together again. */
  lemma Reassembled(st: Store, st': Store, checked: bool)
    requires StoreOk(st, checked) && LogOk(st'.events, checked) && GrowsTo(st.events, st'.events)
    requires ClaimsAgree(st'.events, st'.claims) && AdaptersBacked(st'.events, st'.adapters)
    requires st'.checkpoints == st.checkpoints
    ensures StoreOk(st', checked)
  {
    hide Replay, ValidEvent, RowsOf, ClaimsAgree, AdaptersBacked, BuysChecked, EventIdsDistinct, IntentsDistinct;
    CheckpointsSurviveGrowth(st.checkpoints, st.events, st'.events);
  }

  lemma AppendKeeps(st: Store, batch: seq<LedgerEvent>, checked: bool)
    requires StoreOk(st, checked) && AllValid(batch) && AppendMany(st, batch).Done?
    ensures var st' := AppendMany(st, batch).value; StoreOk(st', checked) && Advances(st, st')
  {
    hide Replay, ValidEvent, RowsOf, StoreOk, AppendAll, SameIntents;
    LogOfStore(st, checked);
    PlainAppendHasNoIntents(st.events, batch);
    OthersAppended(st.events, batch, false, checked);
    var st' := AppendMany(st, batch).value;
    SameIntentsKeepClaims(st.events, st'.events, st.claims, st.adapters);
    Reassembled(st, st', checked);
  }

  lemma OpenClaimKeeps(st: Store, key: Text, claim: Claim, checked: bool)
    requires StoreOk(st, checked) && !claim.status.Committed?
    requires key in st.claims ==> st.claims[key].status.Claimed? && st.claims[key].ownerId == claim.ownerId
    ensures var st' := st.(claims := st.claims[key := claim]); StoreOk(st', checked) && Advances(st, st')
  {
    hide Replay, ValidEvent, RowsOf, StoreOk, ClaimsAgree;
    LogOfStore(st, checked);
    OpenClaimRewritten(st.events, st.claims, key, claim);
    Reassembled(st, st.(claims := st.claims[key := claim]), checked);
  }

  lemma ClaimingKeeps(st: Store, key: Text, owner: Text, metadata: Metadata, checked: bool)
    requires StoreOk(st, checked) && ClaimDecision(st, key, owner, metadata).Done?
    ensures var st' := ClaimDecision(st, key, owner, metadata).value; StoreOk(st', checked) && Advances(st, st')
  {
    hide StoreOk;
    OpenIfNew(st, key, Claim(owner, Claimed, metadata), checked);
  }

  lemma OpenIfNew(st: Store, key: Text, claim: Claim, checked: bool)
    requires StoreOk(st, checked) && !claim.status.Committed?
    ensures Advances(st, st)
    ensures key !in st.claims ==>
              var st' := st.(claims := st.claims[key := claim]); StoreOk(st', checked) && Advances(st, st')
  {
    hide StoreOk;
    if key !in st.claims {
      OpenClaimKeeps(st, key, claim, checked);
    }
  }

  lemma CompletingKeeps(st: Store, key: Text, owner: Text, checked: bool)
    requires StoreOk(st, checked) && CompleteDecision(st, key, owner).Done?
    ensures var st' := CompleteDecision(st, key, owner).value; StoreOk(st', checked) && Advances(st, st')
  {
    hide StoreOk;
    if st.claims[key].status.Claimed? {
      OpenClaimKeeps(st, key, st.claims[key].(status := Completed), checked);
    }
  }

  /** Appending the intent of a decision not yet committed, and committing its claim. */
  lemma IntentAppended(events: seq<LedgerEvent>, claims: Claims, e: LedgerEvent, claim: Claim, checked: bool)
    requires LogOk(events, checked) && ClaimsAgree(events, claims)
    requires e.body.OrderIntentCreated? && ValidEvent(e)
    requires claim.status == Committed(e.body.intent.intentId)
    requires e.body.intent.decisionId in claims ==> !claims[e.body.intent.decisionId].status.Committed?
    requires AppendOne(events, e, true).Done?
    requires checked ==> Admissible(events, e)
    ensures var events' := AppendOne(events, e, true).value;
            && events' == events + [e] && LogOk(events', checked)
            && ClaimsAgree(events', claims[e.body.intent.decisionId := claim])
  {
    hide Replay, ValidEvent, AppendOne, BuysChecked, EventIdsDistinct, IntentsDistinct, DecisionTaken, Admissible,
         ClaimsBacked;
    AppendOneFacts(events, e, true);
    LogGrowsByOne(events, e, true, checked);
    ClaimCommitted(events, claims, e, claim);
  }

  lemma AppendAllSplits(events: seq<LedgerEvent>, batch: seq<LedgerEvent>, e: LedgerEvent, allowIntent: bool)
    requires Replay(events).Ok? && AppendAll(events, batch + [e], allowIntent).Done?
    ensures var before := AppendAll(events, batch, allowIntent);
            before.Done? && AppendAll(events, batch + [e], allowIntent) == AppendOne(before.value, e, allowIntent)
  {
    hide Replay, AppendOne;
    assert (batch + [e])[..|batch|] == batch;
  }

  lemma StoreReplays(st: Store, checked: bool)
    requires StoreOk(st, checked)
    ensures Replay(st.events).Ok?
  {}

  /** The log once the events before the intent have been appended. */
  lemma OthersFirst(st: Store, others: seq<LedgerEvent>, checked: bool)
    requires StoreOk(st, checked) && AllValid(others) && NoIntents(others) && Replay(st.events).Ok?
    requires AppendAll(st.events, others, true).Done?
    ensures var before := AppendAll(st.events, others, true).value;
            && LogOk(before, checked) && GrowsTo(st.events, before)
            && ClaimsAgree(before, st.claims) && AdaptersBacked(before, st.adapters)
  {
    hide Replay, ValidEvent, RowsOf, StoreOk, AppendAll, SameIntents, ClaimsAgree, AdaptersBacked, BuysChecked,
         EventIdsDistinct;
    LogOfStore(st, checked);
    OthersAppended(st.events, others, true, checked);
    SameIntentsKeepClaims(st.events, AppendAll(st.events, others, true).value, st.claims, st.adapters);
  }

  /** A store that has gained an intent and the committed claim of its decision. */
  lemma IntentStored(
    st: Store, before: seq<LedgerEvent>, e: LedgerEvent, claim: Claim, checked: bool)
    requires StoreOk(st, checked) && LogOk(before + [e], checked) && GrowsTo(st.events, before)
    requires e.body.OrderIntentCreated? && claim.status.Committed?
    requires e.body.intent.decisionId in st.claims ==>
               st.claims[e.body.intent.decisionId].status.Claimed?
               && st.claims[e.body.intent.decisionId].ownerId == claim.ownerId
    requires ClaimsAgree(before + [e], st.claims[e.body.intent.decisionId := claim])
    requires AdaptersBacked(before, st.adapters)
    ensures var st' := st.(events := before + [e], claims := st.claims[e.body.intent.decisionId := claim]);
            StoreOk(st', checked) && Advances(st, st') && e in st'.events
  {
    hide StoreOk, LogOk, ClaimsAgree, AdaptersBacked;
    AdaptersSurviveGrowth(before, before + [e], st.adapters);
    Reassembled(st, st.(events := before + [e], claims := st.claims[e.body.intent.decisionId := claim]), checked);
  }

  /** A batch that ends in an intent of a decision not yet committed, with
      what commits the claim of that decision. */
  lemma BatchCommitted(
    st: Store, others: seq<LedgerEvent>, e: LedgerEvent, claim: Claim, checked: bool)
    requires StoreOk(st, checked) && AllValid(others) && NoIntents(others)
    requires e.body.OrderIntentCreated? && ValidEvent(e)
    requires claim.status == Committed(e.body.intent.intentId)
    requires e.body.intent.decisionId in st.claims ==>
               st.claims[e.body.intent.decisionId].status.Claimed?
               && st.claims[e.body.intent.decisionId].ownerId == claim.ownerId
    requires AppendAll(st.events, others + [e], true).Done?
    requires checked ==> AppendAll(st.events, others, true).Done?
                         && Admissible(AppendAll(st.events, others, true).value, e)
    ensures var st' := st.(events := AppendAll(st.events, others + [e], true).value,
                           claims := st.claims[e.body.intent.decisionId := claim]);
            && StoreOk(st', checked) && Advances(st, st')
            && e in st'.events
  {
    hide Replay, ValidEvent, RowsOf, StoreOk, AppendAll, AppendOne, LogOk, ClaimsAgree, Admissible,
         AdaptersBacked, Advances, GrowsTo, AllValid, NoIntents;
    StoreReplays(st, checked);
    AppendAllSplits(st.events, others, e, true);
    OthersFirst(st, others, checked);
    var before := AppendAll(st.events, others, true).value;
    LogReplays(before, checked);
    IntentAppended(before, st.claims, e, claim, checked);
    IntentStored(st, before, e, claim, checked);
  }

  lemma LogReplays(events: seq<LedgerEvent>, checked: bool)
    requires LogOk(events, checked)
    ensures Replay(events).Ok? && IntentsDistinct(events)
  {}

  lemma CommitKeeps(st: Store, e: LedgerEvent, owner: Text, metadata: Metadata, checked: bool)
    requires StoreOk(st, checked) && e.body.OrderIntentCreated? && ValidEvent(e)
    requires checked ==> e.body.intent.side == Sell
    requires CommitIntent(st, e, owner, metadata).Done?
    ensures var st' := CommitIntent(st, e, owner, metadata).value; StoreOk(st', checked) && Advances(st, st')
  {
    hide Replay, ValidEvent, RowsOf, StoreOk, AppendAll, IntentClaimed;
    LogOfStore(st, checked);
    var key := e.body.intent.decisionId;
    if !(key in st.claims && st.claims[key].status.Committed?) {
      assert [] + [e] == [e];
      AppendNothing(st.events);
      BatchCommitted(st, [], e, Claim(owner, Committed(e.body.intent.intentId), metadata), checked);
    }
  }

  lemma AppendNothing(events: seq<LedgerEvent>)
    requires Replay(events).Ok?
    ensures AppendAll(events, [], true) == Done(events)
  {
    hide Replay;
  }

  // ---- The risk-checked transaction ----

  lemma AdvancesCompose(a: Store, b: Store, c: Store)
    requires Advances(a, b) && Advances(b, c)
    ensures Advances(a, c)
  {
    assert c.events[..|a.events|] == c.events[..|b.events|][..|a.events|];
  }

  /** An adapter row for an intent of the log. */
  lemma AdapterAttached(st: Store, intentId: IntentId, adapter: Option<Adapter>, e: LedgerEvent, checked: bool)
    requires StoreOk(st, checked) && e in st.events && Creates(e, intentId)
    requires AttachAdapter(st.adapters, intentId, adapter).Done?
    ensures var st' := st.(adapters := AttachAdapter(st.adapters, intentId, adapter).value);
            StoreOk(st', checked) && Advances(st, st')
  {
    hide Replay, ValidEvent, RowsOf, StoreOk, LogOk, ClaimsAgree;
    LogOfStore(st, checked);
    var adapters := AttachAdapter(st.adapters, intentId, adapter).value;
    if adapter.Some? {
      OneMoreAdapter(st.events, st.adapters, intentId, adapter.value, e);
    }
    Reassembled(st, st.(adapters := adapters), checked);
  }

  lemma OneMoreAdapter(events: seq<LedgerEvent>, adapters: Adapters, intentId: IntentId, adapter: Adapter, e: LedgerEvent)
    requires AdaptersBacked(events, adapters) && e in events && Creates(e, intentId)
    ensures AdaptersBacked(events, adapters[intentId := adapter])
  {}

  /** The events that go before the intent. */
  function Before(events: seq<LedgerEvent>, q: RiskRequest): seq<LedgerEvent>
    requires q.event.body.OrderIntentCreated?
  {
    if ScopeKnown(events, q.scope.key) then [q.ValuationEvent()] else [q.ScopeEvent(), q.ValuationEvent()]
  }

  lemma BatchIsBefore(events: seq<LedgerEvent>, q: RiskRequest)
    requires q.WellFormed()
    ensures RiskBatch(events, q) == Before(events, q) + [q.event]
    ensures AllValid(Before(events, q)) && NoIntents(Before(events, q))
    ensures q.ValuationEvent() in Before(events, q)
    ensures ScopeKnown(events, q.scope.key) || q.ScopeEvent() in Before(events, q)
  {
    hide ValidValuation, ScopeKnown;
  }

  lemma BatchIsAdmissible(events: seq<LedgerEvent>, before: seq<LedgerEvent>, q: RiskRequest)
    requires q.WellFormed() && q.scope.key == q.Intent().Key()
    requires GrowsTo(events, before) && q.ValuationEvent() in before
    requires ScopeKnown(events, q.scope.key) || q.ScopeEvent() in before
    ensures Admissible(before, q.event)
  {
    assert before[..|before|] == before;
    if ScopeKnown(events, q.scope.key) {
      var i :| 0 <= i < |events| && events[i].body.RiskScopeRegistered? && events[i].body.scope.key == q.scope.key;
      assert before[i] == events[i];
    }
  }

  lemma PermittedKeeps(st: Store, q: RiskRequest, verdict: Verdict, checked: bool)
    requires StoreOk(st, checked) && q.WellFormed() && q.scope.key == q.Intent().Key()
    requires verdict.Permitted? && CommitVerdict(st, q, verdict).Done?
    requires q.Intent().decisionId in st.claims ==>
               st.claims[q.Intent().decisionId].status.Claimed?
               && st.claims[q.Intent().decisionId].ownerId == q.owner
    ensures var st' := CommitVerdict(st, q, verdict).value; StoreOk(st', checked) && Advances(st, st')
  {
    hide Replay, ValidEvent, ValidValuation, RowsOf, StoreOk, LogOk, AppendAll, IntentClaimed, SameIntents, Before, RiskBatch, Admissible,
         AttachAdapter, ClaimsAgree, AdaptersBacked, Advances, ScopeKnown;
    LogOfStore(st, checked);
    LogReplays(st.events, checked);
    var intent, others := q.Intent(), Before(st.events, q);
    BatchIsBefore(st.events, q);
    AppendAllSplits(st.events, others, q.event, true);
    OthersAppended(st.events, others, true, checked);
    BatchIsAdmissible(st.events, AppendAll(st.events, others, true).value, q);
    var claim := Claim(q.owner, Committed(intent.intentId), q.metadata + verdict.metadata);
    BatchCommitted(st, others, q.event, claim, checked);
    var mid := st.(events := AppendAll(st.events, RiskBatch(st.events, q), true).value,
                   claims := st.claims[intent.decisionId := claim]);
    AdapterAttached(mid, intent.intentId, q.adapter, q.event, checked);
    AdvancesCompose(st, mid, CommitVerdict(st, q, verdict).value);
  }

  lemma RejectedKeeps(st: Store, q: RiskRequest, verdict: Verdict, checked: bool)
    requires StoreOk(st, checked) && q.WellFormed()
    requires verdict.Rejected? && CommitVerdict(st, q, verdict).Done?
    requires q.Intent().decisionId in st.claims ==>
               st.claims[q.Intent().decisionId].status.Claimed?
               && st.claims[q.Intent().decisionId].ownerId == q.owner
    ensures var st' := CommitVerdict(st, q, verdict).value; StoreOk(st', checked) && Advances(st, st')
  {
    hide Replay, ValidValuation, RowsOf, StoreOk, LogOk, AppendAll, Advances;
    LogOfStore(st, checked);
    LogReplays(st.events, checked);
    var claim := Claim(q.owner, Completed, q.metadata + verdict.metadata);
    if verdict.valuationUnusable {
      OpenClaimKeeps(st, q.Intent().decisionId, claim, checked);
    } else {
      AppendKeeps(st, [q.ValuationEvent()], checked);
      var mid := AppendMany(st, [q.ValuationEvent()]).value;
      OpenClaimKeeps(mid, q.Intent().decisionId, claim, checked);
      AdvancesCompose(st, mid, CommitVerdict(st, q, verdict).value);
    }
  }

  lemma RiskKeeps(st: Store, q: RiskRequest, verdict: Verdict, checked: bool)
    requires StoreOk(st, checked) && q.WellFormed() && CommitRiskChecked(st, q, verdict).Done?
    ensures var st' := CommitRiskChecked(st, q, verdict).value; StoreOk(st', checked) && Advances(st, st')
  {
    hide Replay, ValidEvent, ValidValuation, RowsOf, StoreOk, LogOk, AppendAll, CommitVerdict, Advances, AttachAdapter;
    LogOfStore(st, checked);
    LogReplays(st.events, checked);
    var key := q.Intent().decisionId;
    NothingAdvances(st);
    if key in st.claims && st.claims[key].status.Committed? {
      var e :| e in st.events && Creates(e, q.Intent().intentId);
      AdapterAttached(st, q.Intent().intentId, q.adapter, e, checked);
    } else if key !in st.claims || st.claims[key].status.Claimed? {
      if verdict.Permitted? {
        PermittedKeeps(st, q, verdict, checked);
      } else {
        RejectedKeeps(st, q, verdict, checked);
      }
    }
  }

  lemma NothingAdvances(st: Store)
    ensures Advances(st, st)
  {}

  // ---- Adapter rows and checkpoints ----

  lemma SettingKeeps(st: Store, intentId: IntentId, adapter: Adapter, checked: bool)
    requires StoreOk(st, checked) && SetAdapter(st, intentId, adapter).Done?
    ensures var st' := SetAdapter(st, intentId, adapter).value; StoreOk(st', checked) && Advances(st, st')
  {
    hide Replay, ValidEvent, RowsOf, StoreOk, LogOk, ClaimsAgree;
    LogOfStore(st, checked);
    var e :| e in st.events && Creates(e, intentId);
    OneMoreAdapter(st.events, st.adapters, intentId, adapter, e);
    Reassembled(st, SetAdapter(st, intentId, adapter).value, checked);
  }

  lemma CheckpointKeeps(st: Store, checked: bool)
    requires StoreOk(st, checked) && CreateCheckpoint(st).Done?
    ensures var st' := CreateCheckpoint(st).value; StoreOk(st', checked) && Advances(st, st')
  {
    hide Replay, ValidEvent, RowsOf, ClaimsAgree, AdaptersBacked, BuysChecked, EventIdsDistinct;
    assert st.events[..|st.events|] == st.events;
  }

  // ---- Runs ----

  /** Every transaction of every kind keeps the store consistent and only
      advances it. */
  lemma AttemptKeeps(st: Store, op: Op, checked: bool)
    requires StoreOk(st, checked) && WellFormedOp(op) && Attempt(st, op, checked).Done?
    ensures var st' := Attempt(st, op, checked).value; StoreOk(st', checked) && Advances(st, st')
  {
    hide Replay, ValidEvent, ValidValuation, StoreOk, LogOk, ClaimDecision, CompleteDecision, CommitIntent, CommitRiskChecked,
         SetAdapter, CreateCheckpoint, AppendMany, Advances;
    LogOfStore(st, checked);
    LogReplays(st.events, checked);
    match op
    case AppendOp(batch) => AppendKeeps(st, batch, checked);
    case ClaimOp(key, owner, metadata) => ClaimingKeeps(st, key, owner, metadata, checked);
    case CompleteOp(key, owner) => CompletingKeeps(st, key, owner, checked);
    case CommitOp(event, owner, metadata) => CommitKeeps(st, event, owner, metadata, checked);
    case RiskOp(request, verdict) => RiskKeeps(st, request, verdict, checked);
    case AdapterOp(intentId, adapter) => SettingKeeps(st, intentId, adapter, checked);
    case CheckpointOp => CheckpointKeeps(st, checked);
  }

  type WellFormedOps = ops: seq<Op> | forall i :: 0 <= i < |ops| ==> WellFormedOp(ops[i])

  /** The store after a sequence of calls; a failed call changes nothing. */
  ghost function Run(st: Store, ops: WellFormedOps, checked: bool): (r: Store)
    requires StoreOk(st, checked)
    ensures StoreOk(r, checked) && Advances(st, r)
    decreases |ops|
  {
    if ops == [] then
      NothingAdvances(st);
      st
    else
      var before, op := Run(st, ops[..|ops| - 1], checked), ops[|ops| - 1];
      StoreReplays(before, checked);
      match Attempt(before, op, checked)
      case Failed(_) => before
      case Done(after) =>
        AttemptKeeps(before, op, checked);
        AdvancesCompose(st, before, after);
        after
  }

  /** The store that a sequence of calls builds from nothing. */
  ghost function StoreAfter(ops: WellFormedOps, checked: bool): (r: Store)
    ensures StoreOk(r, checked) && Replay(r.events).Ok?
  {
    EmptyStoreIsOk(checked);
    StoreReplays(Run(EMPTY_STORE, ops, checked), checked);
    Run(EMPTY_STORE, ops, checked)
  }

  predicate CommittedTo(claims: Claims, k: Text, id: IntentId) {
    k in claims && claims[k].status == Committed(id)
  }

  /** Under any interleaving of calls by any owners: a claim is committed to an
      intent exactly when the log holds that intent for that decision, no two
      claims share an intent, no two intents of the log share an identifier or a
      decision, and every adapter row names an intent of the log. In a risk store
      every BUY intent follows the scope of its position and a valuation
      assembled for its decision. */
  lemma ClaimsMatchIntents(ops: WellFormedOps, checked: bool)
    ensures var st := StoreAfter(ops, checked);
            && (forall k, id :: CommittedTo(st.claims, k, id) <==> exists e :: e in st.events && IsIntent(e, id, k))
            && (forall k, k', id :: CommittedTo(st.claims, k, id) && CommittedTo(st.claims, k', id) ==> k == k')
            && IntentsDistinct(st.events)
            && (forall id :: id in st.adapters ==> exists e :: e in st.events && Creates(e, id))
            && (checked ==> BuysChecked(st.events))
  {
    hide Replay, ValidEvent, StoreOk, StoreAfter, CommittedTo, ClaimsAgree, BuysChecked;
    var st := StoreAfter(ops, checked);
    LogOfStore(st, checked);
    forall k, id ensures CommittedTo(st.claims, k, id) <==> exists e :: e in st.events && IsIntent(e, id, k) {
      CommittedMeansStored(st.events, st.claims, k, id);
    }
    forall k, k', id | CommittedTo(st.claims, k, id) && CommittedTo(st.claims, k', id) ensures k == k' {
      var e :| e in st.events && IsIntent(e, id, k);
      var e' :| e' in st.events && IsIntent(e', id, k');
      SameIntentSameEvent(st.events, e, e');
    }
  }

  lemma CommittedMeansStored(events: seq<LedgerEvent>, claims: Claims, k: Text, id: IntentId)
    requires ClaimsAgree(events, claims)
    ensures CommittedTo(claims, k, id) <==> exists e :: e in events && IsIntent(e, id, k)
  {}

  lemma SameIntentSameEvent(events: seq<LedgerEvent>, e: LedgerEvent, f: LedgerEvent)
    requires IntentsDistinct(events) && e in events && f in events
    requires e.body.OrderIntentCreated? && f.body.OrderIntentCreated?
    requires e.body.intent.intentId == f.body.intent.intentId
    ensures e == f
  {
    var i :| 0 <= i < |events| && events[i] == e;
    var j :| 0 <= j < |events| && events[j] == f;
    OneIntentOnePlace(events, i, j);
  }

  lemma OneIntentOnePlace(events: seq<LedgerEvent>, i: nat, j: nat)
    requires IntentsDistinct(events) && i < |events| && j < |events|
    requires events[i].body.OrderIntentCreated? && events[j].body.OrderIntentCreated?
    requires events[i].body.intent.intentId == events[j].body.intent.intentId
    ensures i == j
  {}

  /** A committed or completed claim never changes again, a claim never changes
      owner, and nothing written to the log is lost. */
  lemma FinalClaimsStay(ops: WellFormedOps, more: WellFormedOps, checked: bool)
    ensures var st := StoreAfter(ops, checked);
            var later := Run(st, more, checked);
            && StoreOk(later, checked)
            && (forall k :: k in st.claims ==>
                              && k in later.claims
                              && later.claims[k].ownerId == st.claims[k].ownerId
                              && (!st.claims[k].status.Claimed? ==> later.claims[k] == st.claims[k]))
            && GrowsTo(st.events, later.events)
  {
    hide Replay, ValidEvent, StoreOk, Run, StoreAfter;
  }

  function OwnerOf(op: Op): Option<Text> {
    match op
    case ClaimOp(_, owner, _) => Some(owner)
    case CompleteOp(_, owner) => Some(owner)
    case CommitOp(_, owner, _) => Some(owner)
    case RiskOp(request, _) => Some(request.owner)
    case _ => None
  }

  /** Only the owner of a claim moves it. */
  lemma OnlyTheOwnerMoves(st: Store, op: Op, checked: bool, k: Text)
    requires StoreOk(st, checked) && WellFormedOp(op) && Attempt(st, op, checked).Done?
    requires k in st.claims && k in Attempt(st, op, checked).value.claims
    ensures Attempt(st, op, checked).value.claims[k] != st.claims[k] ==>
              OwnerOf(op) == Some(st.claims[k].ownerId)
  {
    hide Replay, ValidEvent, ValidValuation, StoreOk, AppendAll, FindIntent, IntentClaimed, AttachAdapter, RiskBatch;
    StoreReplays(st, checked);
  }

  /** The unique index on decisions and the duplicate-intent test of the append
      loop never fire in a commit: for a decision not yet committed the log holds
      no intent, and an intent taken by another decision is stopped by the
      unique intent column of the claim table. */
  lemma CommitStopsAtTheClaims(st: Store, intent: OrderIntent, checked: bool)
    requires StoreOk(st, checked)
    requires intent.decisionId in st.claims ==> !st.claims[intent.decisionId].status.Committed?
    ensures !DecisionTaken(st.events, intent.decisionId)
    ensures FindIntent(st.events, intent.intentId).Some? ==>
              IntentClaimed(st.claims, intent.decisionId, intent.intentId)
  {
    hide Replay, ValidEvent, StoreOk;
    LogOfStore(st, checked);
    if FindIntent(st.events, intent.intentId).Some? {
      var e :| e in st.events && Creates(e, intent.intentId);
      assert e.body.intent.decisionId in st.claims;
    }
  }

  lemma FoundIntentIsTheOne(events: seq<LedgerEvent>, e: LedgerEvent)
    requires IntentsDistinct(events) && e in events && e.body.OrderIntentCreated?
    ensures FindIntent(events, e.body.intent.intentId) == Some(e.body.intent)
  {
    var id := e.body.intent.intentId;
    assert Creates(e, id);
    forall f | f in events && Creates(f, id) ensures f == e {
      SameIntentSameEvent(events, e, f);
    }
  }

  /** Committing again, by anyone, is accepted and changes nothing. */
  lemma RepeatedCommitIsIdempotent(
    st: Store, e: LedgerEvent, owner: Text, metadata: Metadata, owner': Text, metadata': Metadata)
    requires StoreOk(st, false) && e.body.OrderIntentCreated? && ValidEvent(e)
    requires CommitIntent(st, e, owner, metadata).Done?
    ensures var st' := CommitIntent(st, e, owner, metadata).value;
            StoreOk(st', false) && Replay(st'.events).Ok? && CommitIntent(st', e, owner', metadata') == Done(st')
  {
    hide Replay, ValidEvent, StoreOk, AppendAll, FindIntent, IntentClaimed, IntentsDistinct, Advances;
    CommitKeeps(st, e, owner, metadata, false);
    StoreReplays(st, false);
    var st' := CommitIntent(st, e, owner, metadata).value;
    StoreReplays(st', false);
    CommittedIntentIsStored(st, e, owner, metadata);
    LogOfStore(st', false);
    if e in st'.events {
      FoundIntentIsTheOne(st'.events, e);
    }
  }

  /** After a commit the claim is committed and the log holds the intent. */
  lemma CommittedIntentIsStored(st: Store, e: LedgerEvent, owner: Text, metadata: Metadata)
    requires StoreOk(st, false) && e.body.OrderIntentCreated? && ValidEvent(e)
    requires Replay(st.events).Ok? && CommitIntent(st, e, owner, metadata).Done?
    ensures var st' := CommitIntent(st, e, owner, metadata).value;
            var key := e.body.intent.decisionId;
            && key in st'.claims && st'.claims[key].status == Committed(e.body.intent.intentId)
            && (e in st'.events || FindIntent(st'.events, e.body.intent.intentId) == Some(e.body.intent))
  {
    hide Replay, ValidEvent, StoreOk, AppendAll, FindIntent, IntentClaimed;
    var key := e.body.intent.decisionId;
    if !(key in st.claims && st.claims[key].status.Committed?) {
      assert [] + [e] == [e];
      AppendNothing(st.events);
      BatchCommitted(st, [], e, Claim(owner, Committed(e.body.intent.intentId), metadata), false);
    }
  }
}
