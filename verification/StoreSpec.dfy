/** The tables of the event store and what each transaction does to them.

A transaction either replaces the tables or fails and leaves them as they were.
 */
module StoreSpec {
  import opened Model
  import opened Events
  import opened Reducers
  import opened LedgerInvariants
  import opened Codec
  import opened EventLog

  type Metadata = map<Text, Text>

  /** Only a committed claim names an intent. */
  datatype ClaimStatus = Claimed | Committed(intentId: IntentId) | Completed

  datatype Claim = Claim(ownerId: Text, status: ClaimStatus, metadata: Metadata)

  type Claims = map<Text, Claim>

  datatype Adapter = Adapter(backend: Text, payload: Metadata)

  type Adapters = map<IntentId, Adapter>

  datatype Store = Store(
    events: seq<LedgerEvent>, claims: Claims, adapters: Adapters, checkpoints: Checkpoints)

  datatype StoreError =
    | DomainFailure(error: DomainError) | IntentNotAllowed | DuplicateIntent | ConcurrentDecision
    | CorruptLedger | RecoveryRequired | ConstraintViolated | EmptyLedger | WrongRequest

  datatype Outcome<+T> = Done(value: T) | Failed(error: StoreError) {
    predicate IsFailure() {
      Failed?
    }
    function PropagateFailure<U>(): Outcome<U>
      requires Failed?
    {
      Failed(error)
    }
    function Extract(): T
      requires Done?
    {
      value
    }
  }

  function Require(condition: bool, error: StoreError): Outcome<()> {
    if condition then Done(()) else Failed(error)
  }

  // ---- Looking into the log ----

  /** The event recorded under an identifier. */
  function FindEvent(events: seq<LedgerEvent>, id: Identifier): (r: Option<LedgerEvent>)
    ensures r.Some? ==> r.value in events && r.value.eventId == id
    ensures r.None? ==> forall e :: e in events ==> e.eventId != id
  {
    if events == [] then None
    else if events[|events| - 1].eventId == id then Some(events[|events| - 1])
    else FindEvent(events[..|events| - 1], id)
  }

  predicate Creates(e: LedgerEvent, intentId: IntentId) {
    e.body.OrderIntentCreated? && e.body.intent.intentId == intentId
  }

  /** The intent recorded under an identifier. */
  function FindIntent(events: seq<LedgerEvent>, intentId: IntentId): (r: Option<OrderIntent>)
    ensures r.Some? ==> exists e :: e in events && Creates(e, intentId) && e.body.intent == r.value
    ensures r.None? ==> forall e :: e in events ==> !Creates(e, intentId)
  {
    if events == [] then None
    else
      var last := events[|events| - 1];
      if Creates(last, intentId) then Some(last.body.intent)
      else FindIntent(events[..|events| - 1], intentId)
  }

  /** Whether the log holds an intent of this decision. */
  predicate DecisionTaken(events: seq<LedgerEvent>, decisionId: Text) {
    exists i :: 0 <= i < |events| && events[i].body.OrderIntentCreated?
                && events[i].body.intent.decisionId == decisionId
  }

  predicate ScopeKnown(events: seq<LedgerEvent>, key: PositionKey) {
    exists i :: 0 <= i < |events| && events[i].body.RiskScopeRegistered?
                && events[i].body.scope.key == key
  }

  // ---- Appending ----

  /** One turn of the append loop. The last test is the unique index on the
      decision of an intent. */
  ghost function AppendOne(events: seq<LedgerEvent>, e: LedgerEvent, allowIntent: bool)
    : Outcome<seq<LedgerEvent>>
    requires Replay(events).Ok?
  {
    var _ :- Require(allowIntent || !e.body.OrderIntentCreated?, IntentNotAllowed);
    match FindEvent(events, e.eventId)
    case Some(prior) =>
      if prior == e then Done(events) else Failed(DomainFailure(DuplicateEventConflict))
    case None =>
      if e.body.OrderIntentCreated? && FindIntent(events, e.body.intent.intentId).Some? then
        Failed(DuplicateIntent)
      else
        match ApplyEvent(Replay(events).value, e)
        case Err(error) => Failed(DomainFailure(error))
        case Ok(_) =>
          if e.body.OrderIntentCreated? && DecisionTaken(events, e.body.intent.decisionId) then
            Failed(ConstraintViolated)
          else Done(events + [e])
  }

  /** What an appended event does to the log. */
  predicate Extends(events: seq<LedgerEvent>, events': seq<LedgerEvent>, e: LedgerEvent) {
    || (events' == events && e in events)
    || (&& events' == events + [e] && FindEvent(events, e.eventId).None?
        && (e.body.OrderIntentCreated? ==>
              && FindIntent(events, e.body.intent.intentId).None?
              && !DecisionTaken(events, e.body.intent.decisionId)))
  }

  lemma AppendOneFacts(events: seq<LedgerEvent>, e: LedgerEvent, allowIntent: bool)
    requires Replay(events).Ok? && AppendOne(events, e, allowIntent).Done?
    ensures var events' := AppendOne(events, e, allowIntent).value;
            Replay(events').Ok? && Extends(events, events', e)
    ensures e.body.OrderIntentCreated? ==> allowIntent
  {
    hide ApplyEvent, Replay;
    if FindEvent(events, e.eventId).None? {
      ReplayOneMore(events, e);
    }
  }

  /** The append loop: all events, or a failure. */
  ghost function AppendAll(events: seq<LedgerEvent>, batch: seq<LedgerEvent>, allowIntent: bool)
    : (r: Outcome<seq<LedgerEvent>>)
    requires Replay(events).Ok?
    ensures r.Done? ==> Replay(r.value).Ok?
    decreases |batch|
  {
    if batch == [] then Done(events)
    else
      var before :- AppendAll(events, batch[..|batch| - 1], allowIntent);
      var r := AppendOne(before, batch[|batch| - 1], allowIntent);
      assert r.Done? ==> Replay(r.value).Ok? by {
        if r.Done? {
          AppendOneFacts(before, batch[|batch| - 1], allowIntent);
        }
      }
      r
  }

  // ---- Claims ----

  function ClaimDecision(st: Store, key: Text, owner: Text, metadata: Metadata): Outcome<Store> {
    var claim := Claim(owner, Claimed, metadata);
    if key in st.claims then
      if st.claims[key] == claim then Done(st) else Failed(ConcurrentDecision)
    else Done(st.(claims := st.claims[key := claim]))
  }

  function CompleteDecision(st: Store, key: Text, owner: Text): Outcome<Store> {
    var _ :- Require(key in st.claims && st.claims[key].ownerId == owner, ConcurrentDecision);
    match st.claims[key].status
    case Completed => Done(st)
    case Claimed => Done(st.(claims := st.claims[key := st.claims[key].(status := Completed)]))
    case Committed(_) => Failed(ConcurrentDecision)
  }

  /** Some other decision has committed this intent. */
  predicate IntentClaimed(claims: Claims, key: Text, intentId: IntentId) {
    exists k :: k in claims && k != key && claims[k].status == Committed(intentId)
  }

  /** Writes a committed claim; the intent column is unique. */
  function WriteCommitted(claims: Claims, key: Text, claim: Claim): Outcome<Claims>
    requires claim.status.Committed?
  {
    if IntentClaimed(claims, key, claim.status.intentId) then Failed(ConstraintViolated)
    else Done(claims[key := claim])
  }

  /** A repeated commit is accepted when it carries the intent committed before. */
  function CheckRepeat(st: Store, intent: OrderIntent, committed: IntentId): Outcome<()> {
    var _ :- Require(committed == intent.intentId, DuplicateIntent);
    match FindIntent(st.events, intent.intentId)
    case None => Failed(CorruptLedger)
    case Some(prior) => Require(prior == intent, DuplicateIntent)
  }

  /** `commit_order_intent`. */
  ghost function CommitIntent(st: Store, e: LedgerEvent, owner: Text, metadata: Metadata): Outcome<Store>
    requires e.body.OrderIntentCreated? && Replay(st.events).Ok?
  {
    var intent := e.body.intent;
    var key := intent.decisionId;
    var claim := Claim(owner, Committed(intent.intentId), metadata);
    if key in st.claims && st.claims[key].status.Committed? then
      var _ :- CheckRepeat(st, intent, st.claims[key].status.intentId);
      Done(st)
    else
      var _ :- Require(key in st.claims ==> st.claims[key] == claim.(status := Claimed), ConcurrentDecision);
      var claims :- WriteCommitted(st.claims, key, claim);
      var events :- AppendAll(st.events, [e], true);
      Done(st.(claims := claims, events := events))
  }

  /** `PortfolioRiskEventStore.commit_order_intent`: BUY intents need the risk transaction. */
  ghost function CommitUncheckedIntent(st: Store, e: LedgerEvent, owner: Text, metadata: Metadata)
    : Outcome<Store>
    requires e.body.OrderIntentCreated? && Replay(st.events).Ok?
  {
    var _ :- Require(e.body.intent.side == Sell, WrongRequest);
    CommitIntent(st, e, owner, metadata)
  }

  // ---- The risk-checked commit ----

  /** What the portfolio risk evaluation decided, and the metadata it adds. */
  datatype Verdict =
    | Permitted(metadata: Metadata)
    | Rejected(valuationUnusable: bool, metadata: Metadata)

  datatype RiskRequest = RiskRequest(
    event: LedgerEvent, scope: RiskScope, valuation: PortfolioValuation, evaluatedAt: Timestamp,
    owner: Text, metadata: Metadata, adapter: Option<Adapter>)
  {
    predicate WellFormed() {
      && event.body.OrderIntentCreated?
      && ValidEvent(event) && ValidValuation(valuation)
    }

    function Intent(): OrderIntent
      requires event.body.OrderIntentCreated?
    {
      event.body.intent
    }

    function ValuationEvent(): LedgerEvent
      requires event.body.OrderIntentCreated?
    {
      LedgerEvent(ValuationId(Intent().decisionId, valuation), valuation.assembledAt,
                  PortfolioValuationRecorded(valuation))
    }

    function ScopeEvent(): LedgerEvent {
      LedgerEvent(ScopeId(scope.key), evaluatedAt, RiskScopeRegistered(scope))
    }
  }

  /** Adapter metadata must not change across an idempotent retry. */
  function AttachAdapter(adapters: Adapters, intentId: IntentId, adapter: Option<Adapter>): Outcome<Adapters> {
    if adapter.None? then Done(adapters)
    else if intentId !in adapters then Done(adapters[intentId := adapter.value])
    else if adapters[intentId] == adapter.value then Done(adapters)
    else Failed(ConcurrentDecision)
  }

  function RiskBatch(events: seq<LedgerEvent>, q: RiskRequest): seq<LedgerEvent>
    requires q.event.body.OrderIntentCreated?
  {
    if ScopeKnown(events, q.scope.key) then [q.ValuationEvent(), q.event]
    else [q.ScopeEvent(), q.ValuationEvent(), q.event]
  }

  /** The transaction past the claim checks. */
  ghost function CommitVerdict(st: Store, q: RiskRequest, verdict: Verdict): Outcome<Store>
    requires q.WellFormed() && Replay(st.events).Ok?
  {
    var intent := q.Intent();
    var key, metadata := intent.decisionId, q.metadata + verdict.metadata;
    match verdict
    case Rejected(unusable, _) =>
      var claims := st.claims[key := Claim(q.owner, Completed, metadata)];
      if unusable then Done(st.(claims := claims))
      else
        var events :- AppendAll(st.events, [q.ValuationEvent()], false);
        Done(st.(claims := claims, events := events))
    case Permitted(_) =>
      var claims :- WriteCommitted(st.claims, key, Claim(q.owner, Committed(intent.intentId), metadata));
      var events :- AppendAll(st.events, RiskBatch(st.events, q), true);
      var adapters :- AttachAdapter(st.adapters, intent.intentId, q.adapter);
      Done(st.(claims := claims, events := events, adapters := adapters))
  }

  /** `commit_risk_checked_order_intent`. */
  ghost function CommitRiskChecked(st: Store, q: RiskRequest, verdict: Verdict): Outcome<Store>
    requires q.WellFormed() && Replay(st.events).Ok?
  {
    var intent := q.Intent();
    var key := intent.decisionId;
    var _ :- Require(intent.side == Buy && q.scope.key == intent.Key(), WrongRequest);
    if key !in st.claims then CommitVerdict(st, q, verdict)
    else
      var claim := st.claims[key];
      match claim.status
      case Committed(intentId) =>
        var _ :- CheckRepeat(st, intent, intentId);
        var adapters :- AttachAdapter(st.adapters, intent.intentId, q.adapter);
        Done(st.(adapters := adapters))
      case Completed =>
        var _ :- Require(claim.ownerId == q.owner, ConcurrentDecision);
        Done(st)
      case Claimed =>
        var _ :- Require(claim.ownerId == q.owner && claim.metadata == q.metadata, ConcurrentDecision);
        CommitVerdict(st, q, verdict)
  }

  // ---- Adapter rows and checkpoints ----

  /** `set_adapter_metadata`. */
  function SetAdapter(st: Store, intentId: IntentId, adapter: Adapter): Outcome<Store> {
    var _ :- Require(FindIntent(st.events, intentId).Some?, RecoveryRequired);
    var _ :- Require(intentId in st.adapters ==> st.adapters[intentId].backend == adapter.backend,
                     RecoveryRequired);
    Done(st.(adapters := st.adapters[intentId := adapter]))
  }

  /** `create_checkpoint`. */
  ghost function CreateCheckpoint(st: Store): Outcome<Store>
    requires Replay(st.events).Ok?
  {
    var n := |st.events|;
    if n == 0 then Failed(EmptyLedger)
    else
      var checkpoint := Checkpoint(Tail(RowsOf(st.events)), Replay(st.events).value);
      if n in st.checkpoints then
        if st.checkpoints[n] == checkpoint then Done(st) else Failed(CorruptLedger)
      else Done(st.(checkpoints := st.checkpoints[n := checkpoint]))
  }

  ghost function AppendMany(st: Store, batch: seq<LedgerEvent>): Outcome<Store>
    requires Replay(st.events).Ok?
  {
    var events :- AppendAll(st.events, batch, false);
    Done(st.(events := events))
  }

  // ---- Runs ----

  /** One call by one owner. `checked` tells the risk store from the plain one. */
  datatype Op =
    | AppendOp(batch: seq<LedgerEvent>)
    | ClaimOp(key: Text, owner: Text, metadata: Metadata)
    | CompleteOp(key: Text, owner: Text)
    | CommitOp(event: LedgerEvent, owner: Text, metadata: Metadata)
    | RiskOp(request: RiskRequest, verdict: Verdict)
    | AdapterOp(intentId: IntentId, adapter: Adapter)
    | CheckpointOp

  /** Callers pass objects their constructors accepted. */
  predicate WellFormedOp(op: Op) {
    match op
    case AppendOp(batch) => AllValid(batch)
    case CommitOp(event, _, _) => event.body.OrderIntentCreated? && ValidEvent(event)
    case RiskOp(request, _) => request.WellFormed()
    case _ => true
  }

  ghost function Attempt(st: Store, op: Op, checked: bool): Outcome<Store>
    requires WellFormedOp(op) && Replay(st.events).Ok?
  {
    match op
    case AppendOp(batch) => AppendMany(st, batch)
    case ClaimOp(key, owner, metadata) => ClaimDecision(st, key, owner, metadata)
    case CompleteOp(key, owner) => CompleteDecision(st, key, owner)
    case CommitOp(event, owner, metadata) =>
      if checked then CommitUncheckedIntent(st, event, owner, metadata)
      else CommitIntent(st, event, owner, metadata)
    case RiskOp(request, verdict) =>
      if checked then CommitRiskChecked(st, request, verdict) else Failed(WrongRequest)
    case AdapterOp(intentId, adapter) => SetAdapter(st, intentId, adapter)
    case CheckpointOp => CreateCheckpoint(st)
  }

  const EMPTY_STORE := Store([], map[], map[], map[])
}
