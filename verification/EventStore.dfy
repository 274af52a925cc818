/** The event store: tables that transactions update in place. */
module EventStore {
  import opened Model
  import opened Events
  import opened State
  import opened Reducers
  import opened LedgerInvariants
  import opened InvariantCheck
  import opened Codec
  import opened EventLog
  import opened StoreSpec
  import opened StoreRuns

  // ---- Queries over the rows ----

  /** The row with an event identifier. */
  function SelectEvent(rows: seq<Row>, id: Identifier): Option<Row> {
    if rows == [] then None
    else if rows[|rows| - 1].eventId == id then Some(rows[|rows| - 1])
    else SelectEvent(rows[..|rows| - 1], id)
  }

  predicate IsIntentRow(row: Row, intentId: IntentId) {
    row.eventType == IntentCreatedType && row.index.intentId == Some(intentId)
  }

  /** The row of an intent, by the indexed columns. */
  function SelectIntent(rows: seq<Row>, intentId: IntentId): Option<Row> {
    if rows == [] then None
    else if IsIntentRow(rows[|rows| - 1], intentId) then Some(rows[|rows| - 1])
    else SelectIntent(rows[..|rows| - 1], intentId)
  }

  predicate DecisionIndexed(rows: seq<Row>, decisionId: Text) {
    exists i :: 0 <= i < |rows| && rows[i].eventType == IntentCreatedType
                && rows[i].index.decisionId == Some(decisionId)
  }

  /** A row holds the payload of an event. */
  predicate Holds(row: Row, e: LedgerEvent) {
    && row.eventType == TypeOf(e.body) && row.version == SCHEMA_VERSION
    && row.payload == EncodePayload(e) && row.payloadHash == OfPayload(EncodePayload(e))
  }

  lemma {:induction false} SelectEventFinds(events: seq<LedgerEvent>, id: Identifier)
    ensures var row, e := SelectEvent(RowsOf(events), id), FindEvent(events, id);
            && (row.Some? <==> e.Some?)
            && (row.Some? ==> Holds(row.value, e.value))
    decreases |events|
  {
    hide EncodePayload;
    if events != [] {
      SelectEventFinds(events[..|events| - 1], id);
      RowsOfPrefix(events, |events| - 1);
    }
  }

  lemma {:induction false} SelectIntentFinds(events: seq<LedgerEvent>, intentId: IntentId)
    requires AllValid(events)
    ensures var row, intent := SelectIntent(RowsOf(events), intentId), FindIntent(events, intentId);
            && (row.Some? <==> intent.Some?)
            && (row.Some? ==>
                  exists e :: ValidEvent(e) && Holds(row.value, e) && Creates(e, intentId)
                              && e.body.intent == intent.value)
    decreases |events|
  {
    hide EncodePayload, ValidEvent;
    if events != [] {
      var prefix, last := events[..|events| - 1], events[|events| - 1];
      SelectIntentFinds(prefix, intentId);
      RowsOfPrefix(events, |events| - 1);
      var row := RowsOf(events)[|events| - 1];
      assert IsIntentRow(row, intentId) <==> Creates(last, intentId);
      if Creates(last, intentId) {
        assert Holds(row, last);
      }
    }
  }

  lemma DecisionIndexFinds(events: seq<LedgerEvent>, decisionId: Text)
    ensures DecisionIndexed(RowsOf(events), decisionId) <==> DecisionTaken(events, decisionId)
  {
    hide EncodePayload;
    forall i | 0 <= i < |events|
      ensures RowsOf(events)[i].eventType == TypeOf(events[i].body)
      ensures RowsOf(events)[i].index == IndexOf(events[i].body)
    {
      RowAt(events, i);
    }
  }

  lemma RowTellsEvent(row: Row, prior: LedgerEvent, e: LedgerEvent)
    requires Holds(row, prior) && ValidEvent(prior) && ValidEvent(e)
    ensures Holds(row, e) <==> prior == e
  {
    hide EncodePayload, ValidEvent;
    if Holds(row, e) {
      PayloadsAreDistinct(prior, e);
    }
  }

  // ---- The append loop ----

  datatype AppendResult = AppendResult(
    sequences: seq<int>, duplicates: seq<Identifier>, state: LedgerState, lastSequence: int, tail: Digest)

  function SequencesBetween(first: nat, last: nat): seq<int>
    requires first <= last
  {
    seq(last - first, i => first + 1 + i)
  }

  /** The identifiers of a batch that the log already held, in order. */
  ghost function RepeatedIn(events: seq<LedgerEvent>, batch: seq<LedgerEvent>, allowIntent: bool): seq<Identifier>
    requires Replay(events).Ok? && AppendAll(events, batch, allowIntent).Done?
    decreases |batch|
  {
    if batch == [] then []
    else
      var prefix, last := batch[..|batch| - 1], batch[|batch| - 1];
      var before := AppendAll(events, prefix, allowIntent).value;
      RepeatedIn(events, prefix, allowIntent) + if FindEvent(before, last.eventId).Some? then [last.eventId] else []
  }

  /** Every event of an appended batch either takes a new place in the log or is
      reported as repeated. */
  lemma {:induction false} BatchIsAccountedFor(events: seq<LedgerEvent>, batch: seq<LedgerEvent>, allowIntent: bool)
    requires Replay(events).Ok? && AppendAll(events, batch, allowIntent).Done?
    ensures var events', repeated := AppendAll(events, batch, allowIntent).value, RepeatedIn(events, batch, allowIntent);
            && |events| + |batch| == |events'| + |repeated|
            && (forall id :: id in repeated ==> exists e :: e in batch && e.eventId == id && e in events')
    decreases |batch|
  {
    hide Replay, ApplyEvent;
    if batch != [] {
      var prefix, last := batch[..|batch| - 1], batch[|batch| - 1];
      assert batch == prefix + [last];
      BatchIsAccountedFor(events, prefix, allowIntent);
      AppendOneFacts(AppendAll(events, prefix, allowIntent).value, last, allowIntent);
      var repeated := RepeatedIn(events, prefix, allowIntent);
      var after := AppendAll(events, batch, allowIntent).value;
      forall id | id in repeated ensures exists e :: e in batch && e.eventId == id && e in after {
        var e :| e in prefix && e.eventId == id && e in AppendAll(events, prefix, allowIntent).value;
        assert e in batch;
      }
    }
  }

  /** The rows and the result of appending a batch. */
  ghost predicate Appended(
    events: seq<LedgerEvent>, batch: seq<LedgerEvent>, allowIntent: bool, rows: seq<Row>, r: AppendResult)
    requires Replay(events).Ok? && AppendAll(events, batch, allowIntent).Done?
  {
    var events' := AppendAll(events, batch, allowIntent).value;
    && |events| <= |events'|
    && rows == RowsOf(events') && AllValid(events')
    && Replay(events') == Ok(r.state)
    && r.sequences == SequencesBetween(|events|, |events'|)
    && r.duplicates == RepeatedIn(events, batch, allowIntent)
    && r.lastSequence == |events'| && r.tail == Tail(rows)
  }

  /** One turn of the loop: nothing to do for a repeated event, or a new row. */
  method AppendRow(rows: seq<Row>, state: LedgerState, e: LedgerEvent, allowIntent: bool, ghost events: seq<LedgerEvent>)
    returns (r: Outcome<Option<(Row, LedgerState)>>)
    requires rows == RowsOf(events) && AllValid(events) && Replay(events) == Ok(state) && ValidEvent(e)
    ensures var spec := AppendOne(events, e, allowIntent);
            && (r.Done? <==> spec.Done?)
            && (r.Failed? ==> r.error == spec.error)
            && (r.Done? && r.value.None? ==> spec.value == events && FindEvent(events, e.eventId).Some?)
            && (r.Done? && r.value.Some? ==>
                  && spec.value == events + [e] && FindEvent(events, e.eventId).None?
                  && r.value.value.0 == RowFor(e, |rows| + 1, Tail(rows))
                  && Replay(spec.value) == Ok(r.value.value.1))
  {
    hide EncodePayload, ValidEvent, Replay, ApplyEvent, RowFor;
    if e.body.OrderIntentCreated? && !allowIntent {
      return Failed(IntentNotAllowed);
    }
    var existing := SelectEvent(rows, e.eventId);
    SelectEventFinds(events, e.eventId);
    if existing.Some? {
      RowTellsEvent(existing.value, FindEvent(events, e.eventId).value, e);
      if Holds(existing.value, e) {
        return Done(None);
      }
      return Failed(DomainFailure(DuplicateEventConflict));
    }
    if e.body.OrderIntentCreated? {
      SelectIntentFinds(events, e.body.intent.intentId);
      if SelectIntent(rows, e.body.intent.intentId).Some? {
        return Failed(DuplicateIntent);
      }
    }
    var applied := Apply(state, e);
    if applied.Err? {
      return Failed(DomainFailure(applied.error));
    }
    if e.body.OrderIntentCreated? {
      DecisionIndexFinds(events, e.body.intent.decisionId);
      if DecisionIndexed(rows, e.body.intent.decisionId) {
        return Failed(ConstraintViolated);
      }
    }
    ReplayOneMore(events, e);
    return Done(Some((RowFor(e, |rows| + 1, Tail(rows)), applied.value)));
  }

  /** `_append_events_locked`, past the load. */
  method AppendRows(
    rows: seq<Row>, state: LedgerState, batch: seq<LedgerEvent>, allowIntent: bool, ghost events: seq<LedgerEvent>)
    returns (r: Outcome<(seq<Row>, AppendResult)>)
    requires rows == RowsOf(events) && AllValid(events) && Replay(events) == Ok(state) && AllValid(batch)
    ensures var spec := AppendAll(events, batch, allowIntent);
            && (r.Done? <==> spec.Done?)
            && (r.Failed? ==> r.error == spec.error)
            && (r.Done? ==> Appended(events, batch, allowIntent, r.value.0, r.value.1))
  {
    hide EncodePayload, ValidEvent, Replay, ApplyEvent, RowFor, RowsOf, AppendOne;
    var rows', state', sequences: seq<int>, duplicates: seq<Identifier> := rows, state, [], [];
    assert batch[..0] == [];
    for i := 0 to |batch|
      invariant AppendAll(events, batch[..i], allowIntent).Done?
      invariant Appended(events, batch[..i], allowIntent, rows',
                         AppendResult(sequences, duplicates, state', |rows'|, Tail(rows')))
    {
      ghost var current := AppendAll(events, batch[..i], allowIntent).value;
      assert batch[..i + 1][..i] == batch[..i];
      var step := AppendRow(rows', state', batch[i], allowIntent, current);
      if step.Failed? {
        FailureStays(events, batch, i + 1, allowIntent);
        return Failed(step.error);
      }
      if step.value.None? {
        duplicates := duplicates + [batch[i].eventId];
      } else {
        RowsOfOneMore(current, batch[i]);
        rows', state' := rows' + [step.value.value.0], step.value.value.1;
        sequences := sequences + [|rows'|];
      }
    }
    assert batch[..|batch|] == batch;
    return Done((rows', AppendResult(sequences, duplicates, state', |rows'|, Tail(rows'))));
  }

  /** Once a prefix of a batch fails, the batch fails in the same way. */
  lemma {:induction false} FailureStays(events: seq<LedgerEvent>, batch: seq<LedgerEvent>, n: nat, allowIntent: bool)
    requires Replay(events).Ok? && n <= |batch| && AppendAll(events, batch[..n], allowIntent).Failed?
    ensures AppendAll(events, batch, allowIntent) == AppendAll(events, batch[..n], allowIntent)
    decreases |batch| - n
  {
    hide Replay, AppendOne;
    if n == |batch| {
      assert batch[..n] == batch;
    } else {
      assert batch[..n + 1][..n] == batch[..n];
      FailureStays(events, batch, n + 1, allowIntent);
    }
  }

  // ---- The store ----

  /** A transaction that did what its specification says, or failed as it says
      and left the tables alone. */
  ghost predicate Performed(before: Store, spec: Outcome<Store>, after: Store, failure: Option<StoreError>) {
    match spec
    case Done(value) => after == value && failure.None?
    case Failed(error) => after == before && failure == Some(error)
  }

  function FailureOf<T>(r: Outcome<T>): Option<StoreError> {
    if r.Failed? then Some(r.error) else None
  }

  /** An append result that describes the log it left. */
  ghost predicate Describes(r: AppendResult, before: seq<LedgerEvent>, after: seq<LedgerEvent>) {
    && |before| <= |after|
    && Replay(after) == Ok(r.state)
    && r.sequences == SequencesBetween(|before|, |after|)
    && r.lastSequence == |after| && r.tail == Tail(RowsOf(after))
  }

  class EventStore {
    /** Whether BUY intents need the portfolio-risk transaction. */
    const riskChecked: bool
    var rows: seq<Row>
    var claims: Claims
    var adapters: Adapters
    var checkpoints: Checkpoints
    ghost var events: seq<LedgerEvent>

    ghost function Tables(): Store
      reads this
    {
      Store(events, claims, adapters, checkpoints)
    }

    ghost predicate Valid()
      reads this
    {
      rows == RowsOf(events) && StoreOk(Tables(), riskChecked)
    }

    constructor (riskChecked: bool)
      ensures Valid() && Tables() == EMPTY_STORE && this.riskChecked == riskChecked
    {
      this.riskChecked := riskChecked;
      rows, claims, adapters, checkpoints, events := [], map[], map[], map[], [];
      new;
      EmptyStoreIsOk(riskChecked);
    }

    /** `_load_locked` accepts the log of every store that transactions have
        built, and rebuilds the state that its events replay to. */
    method Load() returns (r: Loaded)
      requires Valid()
      ensures r.events == events && Replay(events) == Ok(r.state)
      ensures r.lastSequence == |rows| && r.tail == Tail(rows)
    {
      hide Replay, ValidEvent, RowsOf, ClaimsAgree, AdaptersBacked, BuysChecked, EventIdsDistinct;
      assert LoadsAs(rows, checkpoints, events);
      var loaded := LoadLog(rows, checkpoints);
      RowsDetermineEvents(loaded.value.events, events);
      return loaded.value;
    }

    /** `append_many`. */
    method AppendMany(batch: seq<LedgerEvent>) returns (r: Outcome<AppendResult>)
      requires Valid() && AllValid(batch)
      modifies this
      ensures Valid() && Replay(old(events)).Ok?
      ensures Performed(old(Tables()), StoreSpec.AppendMany(old(Tables()), batch), Tables(), FailureOf(r))
      ensures r.Done? ==> Describes(r.value, old(events), events)
                          && AppendAll(old(events), batch, false).Done?
                          && r.value.duplicates == RepeatedIn(old(events), batch, false)
    {
      hide Replay, ValidEvent, RowsOf, StoreOk, AppendAll;
      StoreReplays(Tables(), riskChecked);
      LogOfStore(Tables(), riskChecked);
      var loaded := Load();
      var appended := AppendRows(rows, loaded.state, batch, false, events);
      if appended.Failed? {
        return Failed(appended.error);
      }
      AppendKeeps(Tables(), batch, riskChecked);
      rows, events := appended.value.0, AppendAll(events, batch, false).value;
      return Done(appended.value.1);
    }

    /** `claim_decision`. */
    method ClaimDecision(key: Text, owner: Text, metadata: Metadata) returns (r: Outcome<bool>)
      requires Valid()
      modifies this`claims
      ensures Valid()
      ensures Performed(old(Tables()), StoreSpec.ClaimDecision(old(Tables()), key, owner, metadata), Tables(), FailureOf(r))
      ensures r.Done? ==> r.value == (key !in old(claims))
    {
      hide StoreOk, RowsOf;
      if key in claims {
        if claims[key] == Claim(owner, Claimed, metadata) {
          return Done(false);
        }
        return Failed(ConcurrentDecision);
      }
      ClaimingKeeps(Tables(), key, owner, metadata, riskChecked);
      claims := claims[key := Claim(owner, Claimed, metadata)];
      return Done(true);
    }

    /** `complete_decision_without_intent`. */
    method CompleteDecision(key: Text, owner: Text) returns (r: Outcome<Claim>)
      requires Valid()
      modifies this`claims
      ensures Valid()
      ensures Performed(old(Tables()), StoreSpec.CompleteDecision(old(Tables()), key, owner), Tables(), FailureOf(r))
      ensures r.Done? ==> key in claims && r.value == claims[key]
    {
      hide StoreOk, RowsOf;
      if key !in claims {
        return Failed(ConcurrentDecision);
      }
      var claim := claims[key];
      if claim.status.Completed? && claim.ownerId == owner {
        return Done(claim);
      }
      if !claim.status.Claimed? || claim.ownerId != owner {
        return Failed(ConcurrentDecision);
      }
      CompletingKeeps(Tables(), key, owner, riskChecked);
      claims := claims[key := claim.(status := Completed)];
      return Done(claims[key]);
    }

    /** The checks on a decision that has already committed an intent. */
    method CheckCommitted(intent: OrderIntent, committed: IntentId) returns (failure: Option<StoreError>)
      requires Valid()
      ensures failure == FailureOf(CheckRepeat(Tables(), intent, committed))
    {
      hide StoreOk, RowsOf, Replay, EncodePayload, DecodePayload, ValidEvent;
      LogOfStore(Tables(), riskChecked);
      if committed != intent.intentId {
        return Some(DuplicateIntent);
      }
      SelectIntentFinds(events, intent.intentId);
      var row := SelectIntent(rows, intent.intentId);
      if row.None? {
        return Some(CorruptLedger);
      }
      ghost var e :| ValidEvent(e) && Holds(row.value, e) && Creates(e, intent.intentId)
                     && e.body.intent == FindIntent(events, intent.intentId).value;
      EventRoundTrip(e);
      var prior := DecodePayload(row.value.payload);
      if prior.Corrupt? || !prior.value.body.OrderIntentCreated? {
        return Some(CorruptLedger);
      }
      return if prior.value.body.intent != intent then Some(DuplicateIntent) else None;
    }

    /** The result of a call that appends nothing. */
    method Unchanged(duplicates: seq<Identifier>) returns (r: AppendResult)
      requires Valid()
      ensures Describes(r, events, events) && r.duplicates == duplicates
    {
      hide Replay, RowsOf, StoreOk;
      var loaded := Load();
      return AppendResult([], duplicates, loaded.state, loaded.lastSequence, loaded.tail);
    }

    /** Commits the claim of a decision and appends its intent. */
    method RecordCommit(e: LedgerEvent, owner: Text, metadata: Metadata) returns (r: Outcome<AppendResult>)
      requires Valid() && e.body.OrderIntentCreated? && ValidEvent(e)
      requires riskChecked ==> e.body.intent.side == Sell
      requires e.body.intent.decisionId in claims ==>
                 claims[e.body.intent.decisionId] == Claim(owner, Claimed, metadata)
      modifies this
      ensures Valid() && Replay(old(events)).Ok?
      ensures Performed(old(Tables()), CommitIntent(old(Tables()), e, owner, metadata), Tables(), FailureOf(r))
      ensures r.Done? ==> Describes(r.value, old(events), events)
    {
      hide Replay, ValidEvent, RowsOf, StoreOk, AppendAll, IntentClaimed, CheckRepeat, Advances, ClaimsAgree,
           AdaptersBacked;
      StoreReplays(Tables(), riskChecked);
      LogOfStore(Tables(), riskChecked);
      var key, id := e.body.intent.decisionId, e.body.intent.intentId;
      if IntentClaimed(claims, key, id) {
        return Failed(ConstraintViolated);
      }
      var loaded := Load();
      var appended := AppendRows(rows, loaded.state, [e], true, events);
      if appended.Failed? {
        return Failed(appended.error);
      }
      CommitKeeps(Tables(), e, owner, metadata, riskChecked);
      claims := claims[key := Claim(owner, Committed(id), metadata)];
      rows, events := appended.value.0, AppendAll(events, [e], true).value;
      return Done(appended.value.1);
    }

    /** `commit_order_intent`, of the plain store and of the risk store. */
    method CommitOrderIntent(e: LedgerEvent, owner: Text, metadata: Metadata) returns (r: Outcome<AppendResult>)
      requires Valid() && e.body.OrderIntentCreated? && ValidEvent(e)
      modifies this
      ensures Valid() && Replay(old(events)).Ok?
      ensures var spec := if riskChecked then CommitUncheckedIntent(old(Tables()), e, owner, metadata)
                          else CommitIntent(old(Tables()), e, owner, metadata);
              Performed(old(Tables()), spec, Tables(), FailureOf(r))
      ensures r.Done? ==> Describes(r.value, old(events), events)
    {
      hide Replay, ValidEvent, RowsOf, StoreOk, AppendAll, IntentClaimed, CheckRepeat;
      StoreReplays(Tables(), riskChecked);
      if riskChecked && e.body.intent.side == Buy {
        return Failed(WrongRequest);
      }
      var key := e.body.intent.decisionId;
      if key in claims {
        if claims[key].status.Committed? {
          var failure := CheckCommitted(e.body.intent, claims[key].status.intentId);
          if failure.Some? {
            return Failed(failure.value);
          }
          var current := Unchanged([e.eventId]);
          return Done(current);
        }
        if !claims[key].status.Claimed? || claims[key].ownerId != owner || claims[key].metadata != metadata {
          return Failed(ConcurrentDecision);
        }
      }
      r := RecordCommit(e, owner, metadata);
    }

    /** Completes the decision that the risk evaluation rejected. */
    method RecordRejection(q: RiskRequest, verdict: Verdict) returns (r: Outcome<AppendResult>)
      requires Valid() && q.WellFormed() && verdict.Rejected?
      requires q.Intent().decisionId in claims ==>
                 claims[q.Intent().decisionId].status.Claimed?
                 && claims[q.Intent().decisionId].ownerId == q.owner
      modifies this
      ensures Valid() && Replay(old(events)).Ok?
      ensures Performed(old(Tables()), CommitVerdict(old(Tables()), q, verdict), Tables(), FailureOf(r))
      ensures r.Done? ==> Describes(r.value, old(events), events)
    {
      hide Replay, ValidEvent, ValidValuation, RowsOf, StoreOk, AppendAll, Advances, ClaimsAgree, AdaptersBacked;
      StoreReplays(Tables(), riskChecked);
      LogOfStore(Tables(), riskChecked);
      ValuationEventIsValid(q);
      var key, claim := q.Intent().decisionId, Claim(q.owner, Completed, q.metadata + verdict.metadata);
      if verdict.valuationUnusable {
        var current := Unchanged([]);
        RejectedKeeps(Tables(), q, verdict, riskChecked);
        claims := claims[key := claim];
        return Done(current);
      }
      var loaded := Load();
      var appended := AppendRows(rows, loaded.state, [q.ValuationEvent()], false, events);
      if appended.Failed? {
        return Failed(appended.error);
      }
      RejectedKeeps(Tables(), q, verdict, riskChecked);
      claims := claims[key := claim];
      rows, events := appended.value.0, AppendAll(events, [q.ValuationEvent()], false).value;
      return Done(appended.value.1);
    }

    /** Commits the claim and appends scope, valuation and intent. */
    method RecordPermission(q: RiskRequest, verdict: Verdict) returns (r: Outcome<AppendResult>)
      requires Valid() && q.WellFormed() && verdict.Permitted? && q.scope.key == q.Intent().Key()
      requires q.Intent().decisionId in claims ==>
                 claims[q.Intent().decisionId].status.Claimed?
                 && claims[q.Intent().decisionId].ownerId == q.owner
      modifies this
      ensures Valid() && Replay(old(events)).Ok?
      ensures Performed(old(Tables()), CommitVerdict(old(Tables()), q, verdict), Tables(), FailureOf(r))
      ensures r.Done? ==> Describes(r.value, old(events), events)
    {
      hide Replay, ValidEvent, ValidValuation, RowsOf, StoreOk, AppendAll, RiskBatch, AttachAdapter, IntentClaimed;
      StoreReplays(Tables(), riskChecked);
      LogOfStore(Tables(), riskChecked);
      var key, id := q.Intent().decisionId, q.Intent().intentId;
      var claim := Claim(q.owner, Committed(id), q.metadata + verdict.metadata);
      if IntentClaimed(claims, key, id) {
        return Failed(ConstraintViolated);
      }
      var loaded := Load();
      var batch := RiskBatch(loaded.events, q);
      RiskBatchIsValid(events, q);
      var appended := AppendRows(rows, loaded.state, batch, true, events);
      if appended.Failed? {
        return Failed(appended.error);
      }
      var attached := AttachAdapter(adapters, id, q.adapter);
      if attached.Failed? {
        return Failed(attached.error);
      }
      PermittedKeeps(Tables(), q, verdict, riskChecked);
      claims, adapters := claims[key := claim], attached.value;
      rows, events := appended.value.0, AppendAll(events, batch, true).value;
      return Done(appended.value.1);
    }

    /** `commit_risk_checked_order_intent`. The verdict is what the risk
        evaluation returns for the loaded ledger. */
    method CommitRiskCheckedIntent(q: RiskRequest, verdict: Verdict) returns (r: Outcome<AppendResult>)
      requires Valid() && q.WellFormed()
      modifies this
      ensures Valid() && Replay(old(events)).Ok?
      ensures Performed(old(Tables()), CommitRiskChecked(old(Tables()), q, verdict), Tables(), FailureOf(r))
      ensures r.Done? ==> Describes(r.value, old(events), events)
    {
      hide Replay, ValidEvent, ValidValuation, RowsOf, StoreOk, AppendAll, CommitVerdict, AttachAdapter;
      StoreReplays(Tables(), riskChecked);
      var intent := q.Intent();
      var key := intent.decisionId;
      if intent.side != Buy || q.scope.key != intent.Key() {
        return Failed(WrongRequest);
      }
      if key in claims {
        var claim := claims[key];
        if claim.status.Committed? {
          var failure := CheckCommitted(intent, claim.status.intentId);
          if failure.Some? {
            return Failed(failure.value);
          }
          var attached := AttachAdapter(adapters, intent.intentId, q.adapter);
          if attached.Failed? {
            return Failed(attached.error);
          }
          var current := Unchanged([q.event.eventId]);
          RiskKeeps(Tables(), q, verdict, riskChecked);
          adapters := attached.value;
          return Done(current);
        }
        if claim.status.Completed? {
          if claim.ownerId != q.owner {
            return Failed(ConcurrentDecision);
          }
          var current := Unchanged([]);
          return Done(current);
        }
        if claim.ownerId != q.owner || claim.metadata != q.metadata {
          return Failed(ConcurrentDecision);
        }
      }
      if verdict.Rejected? {
        r := RecordRejection(q, verdict);
      } else {
        r := RecordPermission(q, verdict);
      }
    }

    /** `set_adapter_metadata`. */
    method SetAdapterMetadata(intentId: IntentId, adapter: Adapter) returns (r: Outcome<Adapter>)
      requires Valid()
      modifies this`adapters
      ensures Valid()
      ensures Performed(old(Tables()), SetAdapter(old(Tables()), intentId, adapter), Tables(), FailureOf(r))
      ensures r.Done? ==> r.value == adapter
    {
      hide StoreOk, RowsOf, ValidEvent, EncodePayload, Replay, Advances, ClaimsAgree, AdaptersBacked, Holds, LogOk;
      LogEventsValid(Tables(), riskChecked);
      SelectIntentFinds(events, intentId);
      if SelectIntent(rows, intentId).None? {
        return Failed(RecoveryRequired);
      }
      if intentId in adapters && adapters[intentId].backend != adapter.backend {
        return Failed(RecoveryRequired);
      }
      SettingKeeps(Tables(), intentId, adapter, riskChecked);
      adapters := adapters[intentId := adapter];
      return Done(adapters[intentId]);
    }

    /** `create_checkpoint`. */
    method CreateCheckpoint() returns (r: Outcome<Checkpoint>)
      requires Valid()
      modifies this`checkpoints
      ensures Valid() && Replay(events).Ok?
      ensures Performed(old(Tables()), StoreSpec.CreateCheckpoint(old(Tables())), Tables(), FailureOf(r))
      ensures r.Done? ==> |events| > 0 && |events| in checkpoints && r.value == checkpoints[|events|]
    {
      hide StoreOk, RowsOf, Replay;
      StoreReplays(Tables(), riskChecked);
      var loaded := Load();
      var n := |rows|;
      if n == 0 {
        return Failed(EmptyLedger);
      }
      var checkpoint := Checkpoint(loaded.tail, loaded.state);
      if n in checkpoints {
        return if checkpoints[n] == checkpoint then Done(checkpoint) else Failed(CorruptLedger);
      }
      CheckpointKeeps(Tables(), riskChecked);
      checkpoints := checkpoints[n := checkpoint];
      return Done(checkpoint);
    }

    /** `recover`: every order not yet closed, with what has to be done about
        it, and every decision claimed but not decided. */
    method Recover() returns (r: StartupRecovery)
      requires Valid()
      ensures Replay(events) == Ok(r.state)
      ensures r.lastSequence == |rows| && r.tail == Tail(rows)
      ensures r.pending == Unfinished(r.state.orders, adapters)
      ensures PendingAsNeeded(r, adapters)
      ensures r.decisions == (set k | k in claims && claims[k].status.Claimed?)
    {
      hide Replay, RowsOf, StoreOk;
      StoreReplays(Tables(), riskChecked);
      var loaded := Load();
      var pending := PendingOrders(loaded.state.orders, adapters);
      return StartupRecovery(
          loaded.state, loaded.lastSequence, loaded.tail, pending, set k | k in claims && claims[k].status.Claimed?);
    }
  }

  datatype StartupRecovery = StartupRecovery(
    state: LedgerState, lastSequence: int, tail: Digest, pending: map<IntentId, RecoveryAction>, decisions: set<Text>)

  /** Exactly the open orders are pending: to be submitted again where the order
      was created and has no adapter row, to be reconciled elsewhere. */
  predicate PendingAsNeeded(r: StartupRecovery, adapters: Adapters) {
    && (forall id :: id in r.pending ==> id in r.state.orders)
    && forall id :: id in r.state.orders ==>
                      var state := r.state.orders[id].state;
                      && (id in r.pending <==> state !in {Filled, OrderState.Rejected, Cancelled})
                      && (id in r.pending ==>
                            (r.pending[id] == ResumeSubmission <==> state == Created && id !in adapters))
  }

  datatype RecoveryAction = ResumeSubmission | ReconcileBackend

  /** An order that was created and never handed to a backend is submitted
      again; any other open order is reconciled with its backend. */
  function ActionFor(state: OrderState, hasAdapter: bool): RecoveryAction {
    if state == Created && !hasAdapter then ResumeSubmission else ReconcileBackend
  }

  function Unfinished(orders: map<IntentId, OrderAggregate>, adapters: Adapters): map<IntentId, RecoveryAction> {
    map id | id in orders && !orders[id].state.Terminal() :: ActionFor(orders[id].state, id in adapters)
  }

  method PendingOrders(orders: map<IntentId, OrderAggregate>, adapters: Adapters)
    returns (pending: map<IntentId, RecoveryAction>)
    ensures pending == Unfinished(orders, adapters)
  {
    pending := map[];
    var left := orders.Keys;
    while left != {}
      invariant left <= orders.Keys
      invariant pending == map id | id in orders && id !in left && !orders[id].state.Terminal() ::
                                  ActionFor(orders[id].state, id in adapters)
      decreases left
    {
      var id :| id in left;
      var state := orders[id].state;
      if state == Created && id !in adapters {
        pending := pending[id := ResumeSubmission];
      } else if state in {Created, Submitted, Acknowledged, PartiallyFilled, Unknown} {
        pending := pending[id := ReconcileBackend];
      }
      left := left - {id};
    }
  }

  lemma LogEventsValid(st: Store, checked: bool)
    requires StoreOk(st, checked)
    ensures AllValid(st.events)
  {}

  lemma ValuationEventIsValid(q: RiskRequest)
    requires q.WellFormed()
    ensures AllValid([q.ValuationEvent()])
  {}

  lemma RiskBatchIsValid(events: seq<LedgerEvent>, q: RiskRequest)
    requires q.WellFormed()
    ensures AllValid(RiskBatch(events, q))
  {
    hide ValidEvent, ScopeKnown, ValidValuation;
    BatchIsBefore(events, q);
  }
}
