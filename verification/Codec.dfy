/** Event payloads as an abstract JSON tree: encoding, decoding, and digests.

A string that spells an amount, a time, an identifier or an enumeration is a
leaf of its own kind; a digest is represented by the material it digests.
 */
module Codec {
  import opened Rounding
  import opened Model
  import opened Events

  const SCHEMA_VERSION := 1

  datatype EventType =
    | AccountOpenedType | IntentCreatedType | SubmittedType | AcknowledgedType | FillType
    | RejectedType | CancelledType | OutcomeUnknownType | ObservationType | EvidenceType
    | ResolvedType | SettledType | ScopeType | ValuationType

  function TypeOf(body: EventBody): EventType {
    match body
    case AccountOpened(_) => AccountOpenedType
    case OrderIntentCreated(_) => IntentCreatedType
    case OrderSubmitted(_, _) => SubmittedType
    case OrderAcknowledged(_) => AcknowledgedType
    case FillReceived(_) => FillType
    case OrderRejected(_, _) => RejectedType
    case OrderCancelled(_, _) => CancelledType
    case OrderOutcomeUnknown(_, _) => OutcomeUnknownType
    case WeatherObservationRecorded(_) => ObservationType
    case ResolutionEvidenceRecorded(_) => EvidenceType
    case MarketResolved(_) => ResolvedType
    case PositionSettled(_, _) => SettledType
    case RiskScopeRegistered(_) => ScopeType
    case PortfolioValuationRecorded(_) => ValuationType
  }

  datatype Key =
    | VersionKey | TypeKey | DataKey | EventIdKey | OccurredAtKey | InitialCashKey
    | IntentKey | IntentIdKey | StrategyIdKey | DecisionIdKey | MarketIdKey | OutcomeIdKey
    | SideKey | QuantityKey | LimitPriceKey | FeeReserveKey | CreatedAtKey | BackendOrderIdKey
    | FillIdKey | PriceKey | FeeKey | ReasonKey | EvidenceKey | ResolutionKey | PayoutsKey
    | PayoutKey | ResolvedAtKey | ConditionIdKey | SourceNameKey | SourceUrlKey
    | DeclaredSourceKey | RetrievedAtKey | FinalizedAtKey | MarketDateKey | MarketTimezoneKey
    | StatusKey | ResolutionValueKey | PayloadHashKey | StationIdKey | MeasurementBasisKey
    | TemperatureKey | UnitKey | SourceTimestampKey | SourceRevisionKey | SupersedesKey
    | ScopeKey | ScopeEventIdKey | CityKeyKey | CorrelationGroupsKey | ValuationKey
    | PositionsKey | EquityKey | AssembledAtKey | SourceKey | LiquidationValueKey | ObservedAtKey

  datatype ObservationKind = ProvisionalKind | FinalKind | RevisedKind

  /** What a JSON string spells. */
  datatype Leaf =
    | Word(text: Text) | Name(id: Identifier) | Number(value: real) | Instant(at: Timestamp)
    | Day(date: int) | SideName(side: Side) | KindName(kind: ObservationKind)
    | StatusName(status: ResolutionStatus) | TypeName(eventType: EventType)

  datatype Json =
    | JNull | JInt(n: int) | JText(leaf: Leaf) | JArray(items: seq<Json>) | JObject(fields: map<Key, Json>)

  /** A decoded value, or the exception of a payload that does not fit the schema. */
  datatype Parsed<+T> = Parsed(value: T) | Corrupt {
    predicate IsFailure() {
      Corrupt?
    }
    function PropagateFailure<U>(): Parsed<U>
      requires Corrupt?
    {
      Corrupt
    }
    function Extract(): T
      requires Parsed?
    {
      value
    }
  }

  function Check(condition: bool): Parsed<()> {
    if condition then Parsed(()) else Corrupt
  }

  // ---- Leaves ----

  function OfWord(text: Text): Json { JText(Word(text)) }
  function OfName(id: Identifier): Json { JText(Name(id)) }
  function OfAmount(micro: int): Json { JText(Number(FromMicro(micro))) }
  function OfInstant(at: Timestamp): Json { JText(Instant(at)) }
  function OfDay(date: int): Json { JText(Day(date)) }

  predicate IsLeaf(j: Json) {
    j.JText?
  }

  function AsWord(j: Json): Parsed<Text> {
    if IsLeaf(j) && j.leaf.Word? then Parsed(j.leaf.text) else Corrupt
  }

  function AsName(j: Json): Parsed<Identifier> {
    if IsLeaf(j) && j.leaf.Name? then Parsed(j.leaf.id) else Corrupt
  }

  function AsReal(j: Json): Parsed<real> {
    if IsLeaf(j) && j.leaf.Number? then Parsed(j.leaf.value) else Corrupt
  }

  /** Decoded amounts are rounded to micro-units, as every entity rounds its own. */
  function AsAmount(j: Json): Parsed<int> {
    var x :- AsReal(j);
    Parsed(ToMicro(x))
  }

  function AsQuantity(j: Json): Parsed<Quantity> {
    var q :- AsAmount(j);
    var _ :- Check(0 < q);
    Parsed(q)
  }

  function AsPrice(j: Json): Parsed<Price> {
    var p :- AsAmount(j);
    var _ :- Check(0 < p <= 1_000_000);
    Parsed(p)
  }

  function AsPayout(j: Json): Parsed<Payout> {
    var p :- AsAmount(j);
    var _ :- Check(0 <= p <= 1_000_000);
    Parsed(p)
  }

  function AsMoney(j: Json): Parsed<nat> {
    var m :- AsAmount(j);
    var _ :- Check(0 <= m);
    Parsed(m)
  }

  function AsInstant(j: Json): Parsed<Timestamp> {
    if IsLeaf(j) && j.leaf.Instant? then Parsed(j.leaf.at) else Corrupt
  }

  function AsDay(j: Json): Parsed<int> {
    if IsLeaf(j) && j.leaf.Day? then Parsed(j.leaf.date) else Corrupt
  }

  /** The fields of an object with exactly the given keys. */
  function AsObject(j: Json, keys: set<Key>): Parsed<map<Key, Json>>
    ensures AsObject(j, keys).Parsed? ==> AsObject(j, keys).value.Keys == keys
  {
    if j.JObject? && j.fields.Keys == keys then Parsed(j.fields) else Corrupt
  }

  function AsArray(j: Json): Parsed<seq<Json>> {
    if j.JArray? then Parsed(j.items) else Corrupt
  }

  /** Amounts that a constructor accepts are decoded as they were encoded. */
  lemma AmountsSurvive(micro: int)
    ensures AsAmount(OfAmount(micro)) == Parsed(micro)
    ensures 0 < micro ==> AsQuantity(OfAmount(micro)) == Parsed(micro)
    ensures 0 < micro <= 1_000_000 ==> AsPrice(OfAmount(micro)) == Parsed(micro)
    ensures 0 <= micro <= 1_000_000 ==> AsPayout(OfAmount(micro)) == Parsed(micro)
    ensures 0 <= micro ==> AsMoney(OfAmount(micro)) == Parsed(micro)
  {
    MicroUnitsSurvive(micro);
  }

  lemma LeavesSurvive()
    ensures forall text: Text :: AsWord(OfWord(text)) == Parsed(text)
    ensures forall id :: AsName(OfName(id)) == Parsed(id)
    ensures forall at :: AsInstant(OfInstant(at)) == Parsed(at)
    ensures forall date :: AsDay(OfDay(date)) == Parsed(date)
  {}

  // ---- Order intents ----

  const INTENT_KEYS :=
    {IntentIdKey, StrategyIdKey, DecisionIdKey, MarketIdKey, OutcomeIdKey, SideKey, QuantityKey,
     LimitPriceKey, FeeReserveKey, CreatedAtKey}

  function IntentFields(i: OrderIntent): map<Key, Json> {
    map[
      IntentIdKey := OfWord(i.intentId), StrategyIdKey := OfWord(i.strategyId),
      DecisionIdKey := OfWord(i.decisionId), MarketIdKey := OfWord(i.marketId),
      OutcomeIdKey := OfWord(i.outcomeId), SideKey := JText(SideName(i.side)),
      QuantityKey := OfAmount(i.quantity), LimitPriceKey := OfAmount(i.limitPrice),
      FeeReserveKey := OfAmount(i.feeReserve), CreatedAtKey := OfInstant(i.createdAt)]
  }

  function EncodeIntent(i: OrderIntent): Json {
    JObject(IntentFields(i))
  }

  /** What the constructor of an intent checks beyond its fields. */
  predicate ValidIntent(i: OrderIntent) {
    i.side == Sell ==> i.feeReserve == 0
  }

  function DecodeIntent(j: Json): Parsed<OrderIntent> {
    var f :- AsObject(j, INTENT_KEYS);
    var _ :- Check(IsLeaf(f[SideKey]) && f[SideKey].leaf.SideName?);
    var intentId :- AsWord(f[IntentIdKey]);
    var strategyId :- AsWord(f[StrategyIdKey]);
    var decisionId :- AsWord(f[DecisionIdKey]);
    var marketId :- AsWord(f[MarketIdKey]);
    var outcomeId :- AsWord(f[OutcomeIdKey]);
    var quantity :- AsQuantity(f[QuantityKey]);
    var limitPrice :- AsPrice(f[LimitPriceKey]);
    var feeReserve :- AsMoney(f[FeeReserveKey]);
    var createdAt :- AsInstant(f[CreatedAtKey]);
    var intent := OrderIntent(intentId, strategyId, decisionId, marketId, outcomeId,
                              f[SideKey].leaf.side, quantity, limitPrice, feeReserve, createdAt);
    var _ :- Check(ValidIntent(intent));
    Parsed(intent)
  }

  lemma IntentKeys(i: OrderIntent)
    ensures IntentFields(i).Keys == INTENT_KEYS
  {}

  lemma IntentRoundTrip(i: OrderIntent)
    requires ValidIntent(i)
    ensures DecodeIntent(EncodeIntent(i)) == Parsed(i)
  {
    hide OfAmount, OfWord, OfInstant, AsWord, AsQuantity, AsPrice, AsMoney, AsInstant, INTENT_KEYS;
    IntentKeys(i);
    LeavesSurvive();
    AmountsSurvive(i.quantity);
    AmountsSurvive(i.limitPrice);
    AmountsSurvive(i.feeReserve);
  }

  // ---- Weather observations ----

  const OBSERVATION_KEYS :=
    {MarketIdKey, SourceNameKey, SourceUrlKey, StationIdKey, MeasurementBasisKey, MarketDateKey,
     MarketTimezoneKey, TemperatureKey, UnitKey, RetrievedAtKey, SourceTimestampKey,
     SourceRevisionKey, StatusKey, PayloadHashKey, SupersedesKey}

  function EncodeKind(status: ObservationStatus): Json {
    JText(KindName(match status
                   case Provisional => ProvisionalKind
                   case Final => FinalKind
                   case Revised(_) => RevisedKind))
  }

  function EncodeSupersedes(status: ObservationStatus): Json {
    if status.Revised? then OfWord(status.supersedes) else JNull
  }

  function OfOptionalInstant(at: Option<Timestamp>): Json {
    if at.None? then JNull else OfInstant(at.value)
  }

  function ObservationFields(o: Observation): map<Key, Json> {
    map[
      MarketIdKey := OfWord(o.marketId), SourceNameKey := OfWord(o.identity.sourceName),
      SourceUrlKey := OfWord(o.identity.sourceUrl), StationIdKey := OfWord(o.identity.stationId),
      MeasurementBasisKey := OfWord(o.identity.measurementBasis),
      MarketDateKey := OfDay(o.identity.marketDate),
      MarketTimezoneKey := OfWord(o.identity.marketTimezone),
      TemperatureKey := JText(Number(o.temperature)), UnitKey := OfWord(o.identity.unit),
      RetrievedAtKey := OfInstant(o.retrievedAt),
      SourceTimestampKey := OfOptionalInstant(o.sourceTimestamp),
      SourceRevisionKey := OfWord(o.sourceRevision), StatusKey := EncodeKind(o.status),
      PayloadHashKey := OfWord(o.payloadHash), SupersedesKey := EncodeSupersedes(o.status)]
  }

  function EncodeObservation(o: Observation): Json {
    JObject(ObservationFields(o))
  }

  predicate ValidObservation(o: Observation) {
    o.status.Revised? ==> o.status.supersedes != o.payloadHash
  }

  function AsOptionalInstant(j: Json): Parsed<Option<Timestamp>> {
    if j.JNull? then Parsed(None)
    else
      var at :- AsInstant(j);
      Parsed(Some(at))
  }

  function AsObservationStatus(kind: Json, supersedes: Json): Parsed<ObservationStatus> {
    var _ :- Check(IsLeaf(kind) && kind.leaf.KindName?);
    if kind.leaf.kind == RevisedKind then
      var hash :- AsWord(supersedes);
      Parsed(Revised(hash))
    else
      var _ :- Check(supersedes.JNull?);
      Parsed(if kind.leaf.kind == FinalKind then Final else Provisional)
  }

  function DecodeIdentity(f: map<Key, Json>): Parsed<ObservationIdentity>
    requires f.Keys == OBSERVATION_KEYS
  {
    var sourceName :- AsWord(f[SourceNameKey]);
    var sourceUrl :- AsWord(f[SourceUrlKey]);
    var stationId :- AsWord(f[StationIdKey]);
    var basis :- AsWord(f[MeasurementBasisKey]);
    var date :- AsDay(f[MarketDateKey]);
    var timezone :- AsWord(f[MarketTimezoneKey]);
    var unit :- AsWord(f[UnitKey]);
    Parsed(ObservationIdentity(sourceName, sourceUrl, stationId, basis, date, timezone, unit))
  }

  function DecodeObservation(j: Json): Parsed<Observation> {
    var f :- AsObject(j, OBSERVATION_KEYS);
    var status :- AsObservationStatus(f[StatusKey], f[SupersedesKey]);
    var marketId :- AsWord(f[MarketIdKey]);
    var identity :- DecodeIdentity(f);
    var temperature :- AsReal(f[TemperatureKey]);
    var retrievedAt :- AsInstant(f[RetrievedAtKey]);
    var sourceTimestamp :- AsOptionalInstant(f[SourceTimestampKey]);
    var revision :- AsWord(f[SourceRevisionKey]);
    var hash :- AsWord(f[PayloadHashKey]);
    var o := Observation(marketId, identity, temperature, retrievedAt, sourceTimestamp, revision,
                         status, hash);
    var _ :- Check(ValidObservation(o));
    Parsed(o)
  }

  lemma StatusSurvives(status: ObservationStatus)
    ensures AsObservationStatus(EncodeKind(status), EncodeSupersedes(status)) == Parsed(status)
  {}

  lemma OptionalInstantSurvives(at: Option<Timestamp>)
    ensures AsOptionalInstant(OfOptionalInstant(at)) == Parsed(at)
  {}

  lemma ObservationKeys(o: Observation)
    ensures ObservationFields(o).Keys == OBSERVATION_KEYS
  {}

  lemma IdentitySurvives(o: Observation)
    ensures ObservationFields(o).Keys == OBSERVATION_KEYS
    ensures DecodeIdentity(ObservationFields(o)) == Parsed(o.identity)
  {
    hide OfWord, OfInstant, AsWord, AsInstant, OfDay, AsDay, EncodeKind, EncodeSupersedes, OfOptionalInstant,
         OBSERVATION_KEYS;
    ObservationKeys(o);
    LeavesSurvive();
  }

  lemma ObservationRoundTrip(o: Observation)
    requires ValidObservation(o)
    ensures DecodeObservation(EncodeObservation(o)) == Parsed(o)
  {
    hide OfWord, OfInstant, AsWord, AsInstant, OfDay, AsDay, EncodeKind, EncodeSupersedes, OfOptionalInstant,
         OBSERVATION_KEYS, DecodeIdentity, AsOptionalInstant, AsObservationStatus;
    IdentitySurvives(o);
    LeavesSurvive();
    StatusSurvives(o.status);
    OptionalInstantSurvives(o.sourceTimestamp);
  }

  // ---- Payouts, evidence and resolutions ----

  const PAYOUT_KEYS := {OutcomeIdKey, PayoutKey}

  function EncodePayout(p: OutcomePayout): Json {
    JObject(map[OutcomeIdKey := OfWord(p.outcomeId), PayoutKey := OfAmount(p.payout)])
  }

  function DecodePayout(j: Json): Parsed<OutcomePayout> {
    var f :- AsObject(j, PAYOUT_KEYS);
    var outcomeId :- AsWord(f[OutcomeIdKey]);
    var payout :- AsPayout(f[PayoutKey]);
    Parsed(OutcomePayout(outcomeId, payout))
  }

  lemma PayoutRoundTrip(p: OutcomePayout)
    ensures DecodePayout(EncodePayout(p)) == Parsed(p)
  {
    hide OfAmount, OfWord, AsWord, AsPayout;
    LeavesSurvive();
    AmountsSurvive(p.payout);
  }

  function EncodePayouts(payouts: seq<OutcomePayout>): (items: seq<Json>)
    ensures |items| == |payouts|
  {
    seq(|payouts|, i requires 0 <= i < |payouts| => EncodePayout(payouts[i]))
  }

  function DecodePayouts(items: seq<Json>): Parsed<seq<OutcomePayout>> {
    if items == [] then Parsed([])
    else
      var before :- DecodePayouts(items[..|items| - 1]);
      var last :- DecodePayout(items[|items| - 1]);
      Parsed(before + [last])
  }

  lemma {:induction false} PayoutsRoundTrip(payouts: seq<OutcomePayout>)
    ensures DecodePayouts(EncodePayouts(payouts)) == Parsed(payouts)
    decreases |payouts|
  {
    hide EncodePayout, DecodePayout;
    if payouts != [] {
      var prefix, last := payouts[..|payouts| - 1], payouts[|payouts| - 1];
      assert EncodePayouts(payouts)[..|prefix|] == EncodePayouts(prefix);
      assert payouts == prefix + [last];
      PayoutsRoundTrip(prefix);
      PayoutRoundTrip(last);
    }
  }

  /** The decoder's loop over a payout array. */
  method ReadPayouts(items: seq<Json>) returns (r: Parsed<seq<OutcomePayout>>)
    ensures r == DecodePayouts(items)
  {
    hide DecodePayout;
    var payouts := [];
    for i := 0 to |items|
      invariant DecodePayouts(items[..i]) == Parsed(payouts)
    {
      assert items[..i + 1][..i] == items[..i];
      var payout := DecodePayout(items[i]);
      if payout.Corrupt? {
        BadPayoutStays(items, i + 1);
        return Corrupt;
      }
      payouts := payouts + [payout.value];
    }
    assert items[..|items|] == items;
    return Parsed(payouts);
  }

  lemma {:induction false} BadPayoutStays(items: seq<Json>, n: nat)
    requires n <= |items| && DecodePayouts(items[..n]).Corrupt?
    ensures DecodePayouts(items).Corrupt?
    decreases |items| - n
  {
    hide DecodePayout;
    if n == |items| {
      assert items[..n] == items;
    } else {
      assert items[..n + 1][..n] == items[..n];
      BadPayoutStays(items, n + 1);
    }
  }

  predicate DistinctOutcomes(payouts: seq<OutcomePayout>) {
    forall i, j :: 0 <= i < j < |payouts| ==> payouts[i].outcomeId != payouts[j].outcomeId
  }

  const EVIDENCE_KEYS :=
    {MarketIdKey, ConditionIdKey, SourceNameKey, SourceUrlKey, DeclaredSourceKey, RetrievedAtKey,
     FinalizedAtKey, MarketDateKey, MarketTimezoneKey, StatusKey, ResolutionValueKey, PayoutsKey,
     PayloadHashKey}

  function EvidenceFields(e: ResolutionEvidence): map<Key, Json> {
    map[
      MarketIdKey := OfWord(e.marketId), ConditionIdKey := OfWord(e.conditionId),
      SourceNameKey := OfWord(e.sourceName), SourceUrlKey := OfWord(e.sourceUrl),
      DeclaredSourceKey := OfWord(e.declaredSource), RetrievedAtKey := OfInstant(e.retrievedAt),
      FinalizedAtKey := OfInstant(e.finalizedAt), MarketDateKey := OfDay(e.marketDate),
      MarketTimezoneKey := OfWord(e.marketTimezone), StatusKey := JText(StatusName(e.status)),
      ResolutionValueKey := OfWord(e.resolutionValue), PayoutsKey := JArray(EncodePayouts(e.payouts)),
      PayloadHashKey := OfWord(e.payloadHash)]
  }

  function EncodeEvidence(e: ResolutionEvidence): Json {
    JObject(EvidenceFields(e))
  }

  /** Two payouts that sum to one: halves when void, all and nothing when verified. */
  predicate ValidEvidence(e: ResolutionEvidence) {
    && e.finalizedAt <= e.retrievedAt
    && |e.payouts| == 2 && DistinctOutcomes(e.payouts)
    && e.payouts[0].payout + e.payouts[1].payout == 1_000_000
    && (if e.status == Void then e.payouts[0].payout == 500_000
        else e.payouts[0].payout in {0, 1_000_000})
  }

  function DecodeEvidence(j: Json): Parsed<ResolutionEvidence> {
    var f :- AsObject(j, EVIDENCE_KEYS);
    var items :- AsArray(f[PayoutsKey]);
    var payouts :- DecodePayouts(items);
    var _ :- Check(IsLeaf(f[StatusKey]) && f[StatusKey].leaf.StatusName?);
    var marketId :- AsWord(f[MarketIdKey]);
    var conditionId :- AsWord(f[ConditionIdKey]);
    var sourceName :- AsWord(f[SourceNameKey]);
    var sourceUrl :- AsWord(f[SourceUrlKey]);
    var declared :- AsWord(f[DeclaredSourceKey]);
    var retrievedAt :- AsInstant(f[RetrievedAtKey]);
    var finalizedAt :- AsInstant(f[FinalizedAtKey]);
    var date :- AsDay(f[MarketDateKey]);
    var timezone :- AsWord(f[MarketTimezoneKey]);
    var value :- AsWord(f[ResolutionValueKey]);
    var hash :- AsWord(f[PayloadHashKey]);
    var e := ResolutionEvidence(marketId, conditionId, sourceName, sourceUrl, declared, retrievedAt,
                                finalizedAt, date, timezone, f[StatusKey].leaf.status, value, payouts,
                                hash);
    var _ :- Check(ValidEvidence(e));
    Parsed(e)
  }

  lemma EvidenceKeys(e: ResolutionEvidence)
    ensures EvidenceFields(e).Keys == EVIDENCE_KEYS
  {}

  lemma EvidenceRoundTrip(e: ResolutionEvidence)
    requires ValidEvidence(e)
    ensures DecodeEvidence(EncodeEvidence(e)) == Parsed(e)
  {
    hide OfWord, OfInstant, AsWord, AsInstant, OfDay, AsDay, EVIDENCE_KEYS, EncodePayouts, DecodePayouts,
         ValidEvidence;
    EvidenceKeys(e);
    LeavesSurvive();
    PayoutsRoundTrip(e.payouts);
  }

  const RESOLUTION_KEYS := {MarketIdKey, PayoutsKey, ResolvedAtKey}

  function EncodeResolution(r: MarketResolution): Json {
    JObject(map[MarketIdKey := OfWord(r.marketId), PayoutsKey := JArray(EncodePayouts(r.payouts)),
                ResolvedAtKey := OfInstant(r.resolvedAt)])
  }

  predicate ValidResolution(r: MarketResolution) {
    r.payouts != [] && DistinctOutcomes(r.payouts)
  }

  function DecodeResolution(j: Json): Parsed<MarketResolution> {
    var f :- AsObject(j, RESOLUTION_KEYS);
    var items :- AsArray(f[PayoutsKey]);
    var payouts :- DecodePayouts(items);
    var marketId :- AsWord(f[MarketIdKey]);
    var resolvedAt :- AsInstant(f[ResolvedAtKey]);
    var r := MarketResolution(marketId, payouts, resolvedAt);
    var _ :- Check(ValidResolution(r));
    Parsed(r)
  }

  lemma ResolutionRoundTrip(r: MarketResolution)
    requires ValidResolution(r)
    ensures DecodeResolution(EncodeResolution(r)) == Parsed(r)
  {
    hide OfWord, OfInstant, AsWord, AsInstant, EncodePayouts, DecodePayouts, ValidResolution;
    LeavesSurvive();
    PayoutsRoundTrip(r.payouts);
  }

  // ---- Risk scopes ----

  const SCOPE_KEYS :=
    {MarketIdKey, OutcomeIdKey, ScopeEventIdKey, CityKeyKey, MarketDateKey, CorrelationGroupsKey}

  function EncodeGroups(groups: seq<Text>): (items: seq<Json>)
    ensures |items| == |groups|
  {
    seq(|groups|, i requires 0 <= i < |groups| => OfWord(groups[i]))
  }

  function DecodeGroups(items: seq<Json>): Parsed<seq<Text>> {
    if items == [] then Parsed([])
    else
      var before :- DecodeGroups(items[..|items| - 1]);
      var last :- AsWord(items[|items| - 1]);
      Parsed(before + [last])
  }

  lemma {:induction false} GroupsRoundTrip(groups: seq<Text>)
    ensures DecodeGroups(EncodeGroups(groups)) == Parsed(groups)
    decreases |groups|
  {
    if groups != [] {
      var prefix, last := groups[..|groups| - 1], groups[|groups| - 1];
      assert EncodeGroups(groups)[..|prefix|] == EncodeGroups(prefix);
      assert groups == prefix + [last];
      GroupsRoundTrip(prefix);
    }
  }

  function EncodeScope(s: RiskScope): Json {
    JObject(map[
      MarketIdKey := OfWord(s.key.marketId), OutcomeIdKey := OfWord(s.key.outcomeId),
      ScopeEventIdKey := OfWord(s.eventId), CityKeyKey := OfWord(s.cityKey),
      MarketDateKey := OfDay(s.marketDate),
      CorrelationGroupsKey := JArray(EncodeGroups(s.correlationGroups))])
  }

  function DecodeScope(j: Json): Parsed<RiskScope> {
    var f :- AsObject(j, SCOPE_KEYS);
    var items :- AsArray(f[CorrelationGroupsKey]);
    var groups :- DecodeGroups(items);
    var marketId :- AsWord(f[MarketIdKey]);
    var outcomeId :- AsWord(f[OutcomeIdKey]);
    var eventId :- AsWord(f[ScopeEventIdKey]);
    var cityKey :- AsWord(f[CityKeyKey]);
    var date :- AsDay(f[MarketDateKey]);
    Parsed(RiskScope(PositionKey(marketId, outcomeId), eventId, cityKey, date, groups))
  }

  lemma ScopeRoundTrip(s: RiskScope)
    ensures DecodeScope(EncodeScope(s)) == Parsed(s)
  {
    hide OfWord, AsWord, OfDay, AsDay, EncodeGroups, DecodeGroups;
    LeavesSurvive();
    GroupsRoundTrip(s.correlationGroups);
  }

  // ---- Portfolio valuations ----

  const MARK_KEYS := {MarketIdKey, OutcomeIdKey, QuantityKey, LiquidationValueKey, ObservedAtKey}

  function EncodeMark(m: PositionValuation): Json {
    JObject(map[
      MarketIdKey := OfWord(m.key.marketId), OutcomeIdKey := OfWord(m.key.outcomeId),
      QuantityKey := OfAmount(m.quantity), LiquidationValueKey := OfAmount(m.liquidationValue),
      ObservedAtKey := OfInstant(m.observedAt)])
  }

  function DecodeMark(j: Json): Parsed<PositionValuation> {
    var f :- AsObject(j, MARK_KEYS);
    var marketId :- AsWord(f[MarketIdKey]);
    var outcomeId :- AsWord(f[OutcomeIdKey]);
    var quantity :- AsQuantity(f[QuantityKey]);
    var value :- AsMoney(f[LiquidationValueKey]);
    var observedAt :- AsInstant(f[ObservedAtKey]);
    Parsed(PositionValuation(PositionKey(marketId, outcomeId), quantity, value, observedAt))
  }

  lemma MarkRoundTrip(m: PositionValuation)
    ensures DecodeMark(EncodeMark(m)) == Parsed(m)
  {
    hide OfWord, AsWord, OfAmount, AsQuantity, AsMoney, OfInstant, AsInstant;
    LeavesSurvive();
    AmountsSurvive(m.quantity);
    AmountsSurvive(m.liquidationValue);
  }

  function EncodeMarks(marks: seq<PositionValuation>): (items: seq<Json>)
    ensures |items| == |marks|
  {
    seq(|marks|, i requires 0 <= i < |marks| => EncodeMark(marks[i]))
  }

  function DecodeMarks(items: seq<Json>): Parsed<seq<PositionValuation>> {
    if items == [] then Parsed([])
    else
      var before :- DecodeMarks(items[..|items| - 1]);
      var last :- DecodeMark(items[|items| - 1]);
      Parsed(before + [last])
  }

  lemma {:induction false} MarksRoundTrip(marks: seq<PositionValuation>)
    ensures DecodeMarks(EncodeMarks(marks)) == Parsed(marks)
    decreases |marks|
  {
    hide EncodeMark, DecodeMark;
    if marks != [] {
      var prefix, last := marks[..|marks| - 1], marks[|marks| - 1];
      assert EncodeMarks(marks)[..|prefix|] == EncodeMarks(prefix);
      assert marks == prefix + [last];
      MarksRoundTrip(prefix);
      MarkRoundTrip(last);
    }
  }

  const VALUATION_KEYS := {PositionsKey, EquityKey, AssembledAtKey, SourceKey}

  function EncodeValuation(v: PortfolioValuation): Json {
    JObject(map[
      PositionsKey := JArray(EncodeMarks(v.positions)), EquityKey := OfAmount(v.equity),
      AssembledAtKey := OfInstant(v.assembledAt), SourceKey := OfWord(v.source)])
  }

  /** One mark a position, none observed after the valuation was assembled. */
  predicate ValidValuation(v: PortfolioValuation) {
    && (forall i, j :: 0 <= i < j < |v.positions| ==> v.positions[i].key != v.positions[j].key)
    && (forall i :: 0 <= i < |v.positions| ==> v.positions[i].observedAt <= v.assembledAt)
  }

  function DecodeValuation(j: Json): Parsed<PortfolioValuation> {
    var f :- AsObject(j, VALUATION_KEYS);
    var items :- AsArray(f[PositionsKey]);
    var marks :- DecodeMarks(items);
    var equity :- AsMoney(f[EquityKey]);
    var assembledAt :- AsInstant(f[AssembledAtKey]);
    var source :- AsWord(f[SourceKey]);
    var v := PortfolioValuation(marks, equity, assembledAt, source);
    var _ :- Check(ValidValuation(v));
    Parsed(v)
  }

  lemma ValuationRoundTrip(v: PortfolioValuation)
    requires ValidValuation(v)
    ensures DecodeValuation(EncodeValuation(v)) == Parsed(v)
  {
    hide OfWord, AsWord, OfAmount, AsMoney, OfInstant, AsInstant, EncodeMarks, DecodeMarks, ValidValuation;
    LeavesSurvive();
    AmountsSurvive(v.equity);
    MarksRoundTrip(v.positions);
  }

  // ---- Events ----

  function BodyFields(body: EventBody): map<Key, Json> {
    match body
    case AccountOpened(cash) => map[InitialCashKey := OfAmount(cash)]
    case OrderIntentCreated(intent) => map[IntentKey := EncodeIntent(intent)]
    case OrderSubmitted(id, backend) =>
      map[IntentIdKey := OfWord(id), BackendOrderIdKey := OfName(backend)]
    case OrderAcknowledged(id) => map[IntentIdKey := OfWord(id)]
    case FillReceived(fill) =>
      map[IntentIdKey := OfWord(fill.intentId), FillIdKey := OfName(fill.fillId),
          QuantityKey := OfAmount(fill.quantity), PriceKey := OfAmount(fill.price),
          FeeKey := OfAmount(fill.fee)]
    case OrderRejected(id, reason) => map[IntentIdKey := OfWord(id), ReasonKey := OfWord(reason)]
    case OrderCancelled(id, reason) => map[IntentIdKey := OfWord(id), ReasonKey := OfWord(reason)]
    case OrderOutcomeUnknown(id, reason) => map[IntentIdKey := OfWord(id), ReasonKey := OfWord(reason)]
    case WeatherObservationRecorded(o) => map[EvidenceKey := EncodeObservation(o)]
    case ResolutionEvidenceRecorded(e) => map[EvidenceKey := EncodeEvidence(e)]
    case MarketResolved(r) => map[ResolutionKey := EncodeResolution(r)]
    case PositionSettled(key, fee) =>
      map[MarketIdKey := OfWord(key.marketId), OutcomeIdKey := OfWord(key.outcomeId),
          FeeKey := OfAmount(fee)]
    case RiskScopeRegistered(scope) => map[ScopeKey := EncodeScope(scope)]
    case PortfolioValuationRecorded(v) => map[ValuationKey := EncodeValuation(v)]
  }

  function BodyKeys(eventType: EventType): set<Key> {
    match eventType
    case AccountOpenedType => {InitialCashKey}
    case IntentCreatedType => {IntentKey}
    case SubmittedType => {IntentIdKey, BackendOrderIdKey}
    case AcknowledgedType => {IntentIdKey}
    case FillType => {IntentIdKey, FillIdKey, QuantityKey, PriceKey, FeeKey}
    case RejectedType => {IntentIdKey, ReasonKey}
    case CancelledType => {IntentIdKey, ReasonKey}
    case OutcomeUnknownType => {IntentIdKey, ReasonKey}
    case ObservationType => {EvidenceKey}
    case EvidenceType => {EvidenceKey}
    case ResolvedType => {ResolutionKey}
    case SettledType => {MarketIdKey, OutcomeIdKey, FeeKey}
    case ScopeType => {ScopeKey}
    case ValuationType => {ValuationKey}
  }

  function DecodeFill(f: map<Key, Json>): Parsed<FillData>
    requires BodyKeys(FillType) <= f.Keys
  {
    var intentId :- AsWord(f[IntentIdKey]);
    var fillId :- AsName(f[FillIdKey]);
    var quantity :- AsQuantity(f[QuantityKey]);
    var price :- AsPrice(f[PriceKey]);
    var fee :- AsMoney(f[FeeKey]);
    Parsed(FillData(intentId, fillId, quantity, price, fee))
  }

  function DecodeReason(eventType: EventType, f: map<Key, Json>): Parsed<EventBody>
    requires BodyKeys(RejectedType) <= f.Keys
  {
    var id :- AsWord(f[IntentIdKey]);
    var reason :- AsWord(f[ReasonKey]);
    Parsed(if eventType == RejectedType then OrderRejected(id, reason)
           else if eventType == CancelledType then OrderCancelled(id, reason)
           else OrderOutcomeUnknown(id, reason))
  }

  function DecodeSettlement(f: map<Key, Json>): Parsed<EventBody>
    requires BodyKeys(SettledType) <= f.Keys
  {
    var marketId :- AsWord(f[MarketIdKey]);
    var outcomeId :- AsWord(f[OutcomeIdKey]);
    var fee :- AsMoney(f[FeeKey]);
    Parsed(PositionSettled(PositionKey(marketId, outcomeId), fee))
  }

  function DecodeSubmission(f: map<Key, Json>): Parsed<EventBody>
    requires BodyKeys(SubmittedType) <= f.Keys
  {
    var id :- AsWord(f[IntentIdKey]);
    var backend :- AsName(f[BackendOrderIdKey]);
    Parsed(OrderSubmitted(id, backend))
  }

  function DecodeBody(eventType: EventType, f: map<Key, Json>): Parsed<EventBody>
    requires BodyKeys(eventType) <= f.Keys
  {
    match eventType
    case AccountOpenedType => (var cash :- AsMoney(f[InitialCashKey]); Parsed(AccountOpened(cash)))
    case IntentCreatedType => (var i :- DecodeIntent(f[IntentKey]); Parsed(OrderIntentCreated(i)))
    case SubmittedType => DecodeSubmission(f)
    case AcknowledgedType => (var id :- AsWord(f[IntentIdKey]); Parsed(OrderAcknowledged(id)))
    case FillType => (var fill :- DecodeFill(f); Parsed(FillReceived(fill)))
    case RejectedType => DecodeReason(eventType, f)
    case CancelledType => DecodeReason(eventType, f)
    case OutcomeUnknownType => DecodeReason(eventType, f)
    case ObservationType =>
      (var o :- DecodeObservation(f[EvidenceKey]); Parsed(WeatherObservationRecorded(o)))
    case EvidenceType =>
      (var e :- DecodeEvidence(f[EvidenceKey]); Parsed(ResolutionEvidenceRecorded(e)))
    case ResolvedType => (var r :- DecodeResolution(f[ResolutionKey]); Parsed(MarketResolved(r)))
    case SettledType => DecodeSettlement(f)
    case ScopeType => (var s :- DecodeScope(f[ScopeKey]); Parsed(RiskScopeRegistered(s)))
    case ValuationType =>
      (var v :- DecodeValuation(f[ValuationKey]); Parsed(PortfolioValuationRecorded(v)))
  }

  /** What the constructors of an event and of its parts check beyond single fields. */
  predicate ValidEvent(e: LedgerEvent) {
    match e.body
    case OrderIntentCreated(intent) => ValidIntent(intent)
    case WeatherObservationRecorded(o) => ValidObservation(o)
    case ResolutionEvidenceRecorded(evidence) => ValidEvidence(evidence)
    case MarketResolved(r) => ValidResolution(r)
    case RiskScopeRegistered(scope) => e.eventId == ScopeId(scope.key)
    case PortfolioValuationRecorded(v) => ValidValuation(v) && e.occurredAt == v.assembledAt
    case _ => true
  }

  const COMMON_KEYS := {EventIdKey, OccurredAtKey}

  function EncodeData(e: LedgerEvent): Json {
    JObject(map[EventIdKey := OfName(e.eventId), OccurredAtKey := OfInstant(e.occurredAt)]
            + BodyFields(e.body))
  }

  function DecodeData(eventType: EventType, j: Json): Parsed<LedgerEvent> {
    var f :- AsObject(j, COMMON_KEYS + BodyKeys(eventType));
    var eventId :- AsName(f[EventIdKey]);
    var occurredAt :- AsInstant(f[OccurredAtKey]);
    var body :- DecodeBody(eventType, f);
    var e := LedgerEvent(eventId, occurredAt, body);
    var _ :- Check(ValidEvent(e));
    Parsed(e)
  }

  const ENVELOPE_KEYS := {VersionKey, TypeKey, DataKey}

  /** The canonical payload of an event. */
  function EncodePayload(e: LedgerEvent): Json {
    JObject(map[VersionKey := JInt(SCHEMA_VERSION), TypeKey := JText(TypeName(TypeOf(e.body))),
                DataKey := EncodeData(e)])
  }

  /** `decode_event`. */
  function DecodePayload(j: Json): Parsed<LedgerEvent> {
    var f :- AsObject(j, ENVELOPE_KEYS);
    var _ :- Check(f[VersionKey] == JInt(SCHEMA_VERSION));
    var _ :- Check(IsLeaf(f[TypeKey]) && f[TypeKey].leaf.TypeName?);
    DecodeData(f[TypeKey].leaf.eventType, f[DataKey])
  }

  lemma BodyKeysAre(body: EventBody)
    ensures BodyFields(body).Keys == BodyKeys(TypeOf(body))
    ensures BodyKeys(TypeOf(body)) !! COMMON_KEYS
  {
    hide OfAmount, OfWord, OfName, EncodeIntent, EncodeObservation, EncodeEvidence, EncodeResolution,
         EncodeScope, EncodeValuation;
  }

  /** `f` holds the fields of a body among others. */
  predicate HasBody(f: map<Key, Json>, body: EventBody) {
    && BodyKeys(TypeOf(body)) <= f.Keys
    && forall key :: key in BodyFields(body) ==> key in f && f[key] == BodyFields(body)[key]
  }

  lemma FillRoundTrip(f: map<Key, Json>, fill: FillData)
    requires HasBody(f, FillReceived(fill))
    ensures DecodeFill(f) == Parsed(fill)
  {
    hide OfAmount, OfWord, OfName, AsWord, AsName, AsQuantity, AsPrice, AsMoney;
    var g := BodyFields(FillReceived(fill));
    assert IntentIdKey in g && FillIdKey in g && QuantityKey in g && PriceKey in g && FeeKey in g;
    LeavesSurvive();
    AmountsSurvive(fill.quantity);
    AmountsSurvive(fill.price);
    AmountsSurvive(fill.fee);
  }

  lemma SmallBodiesRoundTrip(f: map<Key, Json>, body: EventBody)
    requires HasBody(f, body)
    requires body.AccountOpened? || body.OrderSubmitted? || body.OrderAcknowledged?
             || body.OrderRejected? || body.OrderCancelled? || body.OrderOutcomeUnknown?
             || body.PositionSettled?
    ensures DecodeBody(TypeOf(body), f) == Parsed(body)
  {
    hide OfAmount, OfWord, OfName, AsWord, AsName, AsMoney;
    LeavesSurvive();
    match body
    case AccountOpened(cash) => AmountsSurvive(cash); assert InitialCashKey in BodyFields(body);
    case PositionSettled(_, fee) =>
      AmountsSurvive(fee);
      assert MarketIdKey in BodyFields(body) && OutcomeIdKey in BodyFields(body) && FeeKey in BodyFields(body);
    case OrderSubmitted(_, _) => assert IntentIdKey in BodyFields(body) && BackendOrderIdKey in BodyFields(body);
    case OrderAcknowledged(_) => assert IntentIdKey in BodyFields(body);
    case OrderRejected(_, _) => assert IntentIdKey in BodyFields(body) && ReasonKey in BodyFields(body);
    case OrderCancelled(_, _) => assert IntentIdKey in BodyFields(body) && ReasonKey in BodyFields(body);
    case OrderOutcomeUnknown(_, _) => assert IntentIdKey in BodyFields(body) && ReasonKey in BodyFields(body);
    case _ =>
  }

  lemma BodyRoundTrip(f: map<Key, Json>, e: LedgerEvent)
    requires ValidEvent(e) && HasBody(f, e.body)
    ensures DecodeBody(TypeOf(e.body), f) == Parsed(e.body)
  {
    hide OfAmount, OfWord, OfName, AsWord, AsName, AsMoney, EncodeIntent, EncodeObservation, EncodeEvidence,
         EncodeResolution, EncodeScope, EncodeValuation, DecodeIntent, DecodeObservation, DecodeEvidence,
         DecodeResolution, DecodeScope, DecodeValuation, DecodeFill, ValidObservation, ValidEvidence,
         ValidResolution, ValidValuation;
    match e.body
    case OrderIntentCreated(i) => IntentRoundTrip(i); assert IntentKey in BodyFields(e.body);
    case WeatherObservationRecorded(o) => ObservationRoundTrip(o); assert EvidenceKey in BodyFields(e.body);
    case ResolutionEvidenceRecorded(v) => EvidenceRoundTrip(v); assert EvidenceKey in BodyFields(e.body);
    case MarketResolved(r) => ResolutionRoundTrip(r); assert ResolutionKey in BodyFields(e.body);
    case RiskScopeRegistered(s) => ScopeRoundTrip(s); assert ScopeKey in BodyFields(e.body);
    case PortfolioValuationRecorded(v) => ValuationRoundTrip(v); assert ValuationKey in BodyFields(e.body);
    case FillReceived(fill) => FillRoundTrip(f, fill);
    case _ => SmallBodiesRoundTrip(f, e.body);
  }

  /** Decoding what was encoded gives back the event, for every kind of event. */
  lemma EventRoundTrip(e: LedgerEvent)
    requires ValidEvent(e)
    ensures DecodePayload(EncodePayload(e)) == Parsed(e)
  {
    hide OfName, OfInstant, AsName, AsInstant, BodyFields, BodyKeys, DecodeBody, ValidEvent;
    LeavesSurvive();
    BodyKeysAre(e.body);
    var f := map[EventIdKey := OfName(e.eventId), OccurredAtKey := OfInstant(e.occurredAt)]
             + BodyFields(e.body);
    assert EventIdKey in COMMON_KEYS && OccurredAtKey in COMMON_KEYS;
    BodyRoundTrip(f, e);
  }

  /** Payloads tell events apart. */
  lemma PayloadsAreDistinct(a: LedgerEvent, b: LedgerEvent)
    requires ValidEvent(a) && ValidEvent(b) && EncodePayload(a) == EncodePayload(b)
    ensures a == b
  {
    hide EncodePayload, DecodePayload, ValidEvent;
    EventRoundTrip(a);
    EventRoundTrip(b);
  }

  lemma DecodedIsValid(j: Json)
    requires DecodePayload(j).Parsed?
    ensures ValidEvent(DecodePayload(j).value)
  {
    hide ValidEvent, DecodeBody, BodyKeys;
  }

  /** The payloads that decode to an event which encodes back to them are
      exactly the encodings of valid events. */
  lemma CanonicalPayloads(j: Json)
    ensures (DecodePayload(j).Parsed? && EncodePayload(DecodePayload(j).value) == j)
            <==> exists e :: ValidEvent(e) && EncodePayload(e) == j
  {
    hide EncodePayload, DecodePayload, ValidEvent;
    if DecodePayload(j).Parsed? {
      DecodedIsValid(j);
    }
    if e :| ValidEvent(e) && EncodePayload(e) == j {
      EventRoundTrip(e);
    }
  }

  // ---- Index columns and digests ----

  datatype Index = Index(
    intentId: Option<Text>, decisionId: Option<Text>, marketId: Option<Text>, outcomeId: Option<Text>)

  function IndexOf(body: EventBody): Index {
    match body
    case OrderIntentCreated(i) => Index(Some(i.intentId), Some(i.decisionId), Some(i.marketId), Some(i.outcomeId))
    case OrderSubmitted(id, _) => Index(Some(id), None, None, None)
    case OrderAcknowledged(id) => Index(Some(id), None, None, None)
    case FillReceived(fill) => Index(Some(fill.intentId), None, None, None)
    case OrderRejected(id, _) => Index(Some(id), None, None, None)
    case OrderCancelled(id, _) => Index(Some(id), None, None, None)
    case OrderOutcomeUnknown(id, _) => Index(Some(id), None, None, None)
    case WeatherObservationRecorded(o) => Index(None, None, Some(o.marketId), None)
    case ResolutionEvidenceRecorded(e) => Index(None, None, Some(e.marketId), None)
    case MarketResolved(r) => Index(None, None, Some(r.marketId), None)
    case PositionSettled(key, _) => Index(None, None, Some(key.marketId), Some(key.outcomeId))
    case RiskScopeRegistered(s) => Index(None, None, Some(s.key.marketId), Some(s.key.outcomeId))
    case _ => Index(None, None, None, None)
  }

  /** A digest, as the material it digests. */
  datatype Digest =
    | Genesis
    | OfPayload(payload: Json)
    | OfChain(previous: Digest, version: int, eventType: EventType, payloadHash: Digest)
}
