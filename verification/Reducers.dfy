/** Pure reducers that derive balances, orders and positions from events. */
module Reducers {
  import opened Rounding
  import opened Model
  import opened Events
  import opened State

  function FindOrder(s: LedgerState, id: IntentId): Result<OrderAggregate> {
    if id in s.orders then Ok(s.orders[id]) else Err(AggregateNotFound)
  }

  function FindPosition(s: LedgerState, key: PositionKey): Result<Position> {
    if key in s.positions then Ok(s.positions[key]) else Err(AggregateNotFound)
  }

  function PositionOrEmpty(s: LedgerState, key: PositionKey): Position {
    if key in s.positions then s.positions[key] else EmptyPosition(key)
  }

  function ReplaceOrder(s: LedgerState, o: OrderAggregate): LedgerState {
    s.(orders := s.orders[o.intent.intentId := o])
  }

  function ReplacePosition(s: LedgerState, p: Position): LedgerState {
    s.(positions := s.positions[p.key := p])
  }

  function RequireTransition(from: OrderState, target: OrderState): Result<()> {
    Need(target in AllowedTransitions(from), InvalidTransition)
  }

  function ReleaseReservations(s: LedgerState, o: OrderAggregate)
    : Result<(LedgerState, OrderAggregate)>
  {
    if o.intent.side == Buy then
      Ok((s.(reservedCash := s.reservedCash - o.reservedCash), o.(reservedCash := 0)))
    else
      var p :- FindPosition(s, o.intent.Key());
      var _ :- Need(o.reservedQuantity <= p.reservedQuantity, InvariantViolation);
      Ok((ReplacePosition(s, p.(reservedQuantity := p.reservedQuantity - o.reservedQuantity)),
          o.(reservedQuantity := 0)))
  }

  function ApplyAccountOpened(s: LedgerState, initialCash: nat): Result<LedgerState> {
    if s.isOpen then Err(InvalidTransition) else Ok(s.(isOpen := true, cash := initialCash))
  }

  function ApplyIntentCreated(s: LedgerState, intent: OrderIntent): Result<LedgerState> {
    if !s.isOpen then Err(InvalidTransition)
    else if intent.intentId in s.orders then
      if s.orders[intent.intentId].intent == intent then Ok(s) else Err(DuplicateEventConflict)
    else
      var reserved :- ReserveForIntent(s, intent);
      Ok(ReplaceOrder(reserved, NewOrder(intent)))
  }

  function ReserveForIntent(s: LedgerState, intent: OrderIntent): Result<LedgerState> {
    if intent.side == Buy then
      var _ :- Need(intent.CashReservation() <= s.AvailableCash(), InvariantViolation);
      Ok(s.(reservedCash := s.reservedCash + intent.CashReservation()))
    else
      var p :- FindPosition(s, intent.Key());
      var _ :- Need(p.status == Open, InvalidTransition);
      var _ :- Need(intent.quantity <= p.Available(), InvariantViolation);
      Ok(ReplacePosition(s, p.(reservedQuantity := p.reservedQuantity + intent.quantity)))
  }

  function ApplySubmitted(s: LedgerState, id: IntentId, backend: Identifier): Result<LedgerState> {
    var o :- FindOrder(s, id);
    var _ :- RequireTransition(o.state, Submitted);
    var _ :- Need(o.backendOrderId in {None, Some(backend)}, DuplicateEventConflict);
    Ok(ReplaceOrder(s, o.(state := Submitted, backendOrderId := Some(backend))))
  }

  function ApplyAcknowledged(s: LedgerState, id: IntentId): Result<LedgerState> {
    var o :- FindOrder(s, id);
    var _ :- RequireTransition(o.state, Acknowledged);
    Ok(ReplaceOrder(s, o.(state := Acknowledged, unknownReason := None)))
  }

  function ApplyUnknown(s: LedgerState, id: IntentId, reason: Text): Result<LedgerState> {
    var o :- FindOrder(s, id);
    var _ :- RequireTransition(o.state, Unknown);
    Ok(ReplaceOrder(s, o.(state := Unknown, unknownReason := Some(reason))))
  }

  function ApplyTerminal(s: LedgerState, id: IntentId, target: OrderState, reason: Text)
    : Result<LedgerState>
  {
    var o :- FindOrder(s, id);
    var _ :- RequireTransition(o.state, target);
    var (released, o') :- ReleaseReservations(s, o);
    Ok(ReplaceOrder(
         released, o'.(state := target, terminalReason := Some(reason), unknownReason := None)))
  }

  function ApplyBuyFill(s: LedgerState, o: OrderAggregate, fill: FillData, gross: int)
    : Result<(LedgerState, OrderAggregate)>
  {
    var _ :- Need(fill.price <= o.intent.limitPrice, InvariantViolation);
    var feesLeft := o.intent.feeReserve - o.fees;
    var _ :- Need(fill.fee <= feesLeft, InvariantViolation);
    var stillReserved :=
      MoneyFromUnitPrice(o.intent.limitPrice, o.Remaining() - fill.quantity)
      + (feesLeft - fill.fee);
    var _ :- Need(stillReserved <= o.reservedCash, InvariantViolation);
    var debit := gross + fill.fee;
    var _ :- Need(debit <= s.cash, InvariantViolation);
    var p := PositionOrEmpty(s, o.intent.Key());
    var _ :- Need(p.status == Open, InvalidTransition);
    var s' := s.(cash := s.cash - debit,
                 reservedCash := s.reservedCash - (o.reservedCash - stillReserved));
    Ok((ReplacePosition(
          s', p.(quantity := p.quantity + fill.quantity, costBasis := p.costBasis + debit)),
        o.(reservedCash := stillReserved)))
  }

  /** The cost a sale of `quantity` takes out of a position. */
  function AllocatedCost(p: Position, quantity: int): int
    requires 0 < quantity <= p.quantity
  {
    if quantity == p.quantity then p.costBasis else Scale(p.costBasis, quantity, p.quantity)
  }

  function ApplySellFill(s: LedgerState, o: OrderAggregate, fill: FillData, gross: int)
    : Result<(LedgerState, OrderAggregate)>
  {
    var _ :- Need(o.intent.limitPrice <= fill.price, InvariantViolation);
    var p :- FindPosition(s, o.intent.Key());
    var _ :- Need(p.status == Open, InvalidTransition);
    var _ :- Need(fill.quantity <= p.quantity, InvariantViolation);
    var _ :- Need(fill.quantity <= p.reservedQuantity, InvariantViolation);
    var _ :- Need(fill.quantity <= o.reservedQuantity, InvariantViolation);
    var _ :- Need(fill.fee <= gross, InvariantViolation);
    var net := gross - fill.fee;
    var cost := AllocatedCost(p, fill.quantity);
    var left := p.quantity - fill.quantity;
    var p' := p.(quantity := left,
                 reservedQuantity := p.reservedQuantity - fill.quantity,
                 costBasis := if left == 0 then 0 else p.costBasis - cost,
                 realizedPnl := p.realizedPnl + net - cost);
    Ok((ReplacePosition(s.(cash := s.cash + net), p'),
        o.(reservedQuantity := o.reservedQuantity - fill.quantity)))
  }

  /** The state a fill of this quantity leads to. */
  function FillTarget(o: OrderAggregate, quantity: int): OrderState {
    if o.filledQuantity + quantity == o.intent.quantity then Filled else PartiallyFilled
  }

  /** The order once a fill is booked on it. */
  function WithFill(o: OrderAggregate, fill: FillData, gross: int): OrderAggregate {
    o.(state := FillTarget(o, fill.quantity),
       filledQuantity := o.filledQuantity + fill.quantity,
       grossValue := o.grossValue + gross,
       fees := o.fees + fill.fee,
       fills := o.fills[fill.fillId := fill],
       unknownReason := None)
  }

  function BookFill(s: LedgerState, o: OrderAggregate, fill: FillData, gross: int)
    : Result<(LedgerState, OrderAggregate)>
  {
    if o.intent.side == Buy then ApplyBuyFill(s, o, fill, gross)
    else ApplySellFill(s, o, fill, gross)
  }

  function ApplyFill(s: LedgerState, fill: FillData): Result<LedgerState> {
    var o :- FindOrder(s, fill.intentId);
    if fill.fillId in o.fills then
      if o.fills[fill.fillId] == fill then Ok(s) else Err(DuplicateEventConflict)
    else
      var _ :- Need(o.filledQuantity + fill.quantity <= o.intent.quantity, InvariantViolation);
      var _ :- RequireTransition(o.state, FillTarget(o, fill.quantity));
      var gross := MoneyFromUnitPrice(fill.price, fill.quantity);
      var (s', o') :- BookFill(s, o, fill, gross);
      var filled := WithFill(o', fill, gross);
      if filled.state == Filled then
        var (released, done) :- ReleaseReservations(s', filled);
        Ok(ReplaceOrder(released, done))
      else
        Ok(ReplaceOrder(s', filled))
  }

  function HistoryOf(s: LedgerState, market: MarketId): seq<Observation> {
    if market in s.observations then s.observations[market] else []
  }

  /** Whether an observation with a new payload hash may extend a history. */
  function ObservationExtends(history: seq<Observation>, observation: Observation): Result<()> {
    var terminals := Terminals(history);
    match observation.status
    case Provisional => Ok(())
    case Final => Need(terminals == [], DuplicateEventConflict)
    case Revised(supersedes) =>
      var _ :- Need(exists prior :: prior in history && prior.payloadHash == supersedes,
                    DuplicateEventConflict);
      var _ :- Need(terminals != [], DuplicateEventConflict);
      var latest := terminals[|terminals| - 1];
      var _ :- Need(supersedes == latest.payloadHash, DuplicateEventConflict);
      Need(latest.identity == observation.identity, DuplicateEventConflict)
  }

  /** The first observation of a history with the given payload hash. */
  function WithPayload(history: seq<Observation>, hash: Text): Option<Observation>
    ensures WithPayload(history, hash).None? <==>
            forall i :: 0 <= i < |history| ==> history[i].payloadHash != hash
  {
    if history == [] then None
    else if history[0].payloadHash == hash then Some(history[0])
    else WithPayload(history[1..], hash)
  }

  function ApplyObservation(s: LedgerState, observation: Observation): Result<LedgerState> {
    if !s.isOpen then Err(InvalidTransition)
    else
      var history := HistoryOf(s, observation.marketId);
      match WithPayload(history, observation.payloadHash)
      case Some(prior) => if prior == observation then Ok(s) else Err(DuplicateEventConflict)
      case None =>
        var _ :- ObservationExtends(history, observation);
        Ok(s.(observations :=
                s.observations[observation.marketId := history + [observation]]))
  }

  function ApplyEvidence(s: LedgerState, evidence: ResolutionEvidence): Result<LedgerState> {
    var market := evidence.marketId;
    if !s.isOpen then Err(InvalidTransition)
    else if market in s.evidence then
      if s.evidence[market] == evidence then Ok(s) else Err(DuplicateEventConflict)
    else if market in s.resolutions && s.resolutions[market].payouts != evidence.payouts then
      Err(DuplicateEventConflict)
    else
      Ok(s.(evidence := s.evidence[market := evidence]))
  }

  function ApplyResolution(s: LedgerState, resolution: MarketResolution): Result<LedgerState> {
    var market := resolution.marketId;
    if market in s.evidence && s.evidence[market].payouts != resolution.payouts then
      Err(DuplicateEventConflict)
    else if market in s.resolutions then
      if s.resolutions[market] == resolution then Ok(s) else Err(DuplicateEventConflict)
    else
      Ok(s.(resolutions := s.resolutions[market := resolution]))
  }

  function ApplySettlement(s: LedgerState, key: PositionKey, fee: nat): Result<LedgerState> {
    var p :- FindPosition(s, key);
    var _ :- Need(p.status == Open && 0 < p.quantity, InvalidTransition);
    var _ :- Need(p.reservedQuantity == 0, InvariantViolation);
    var _ :- Need(key.marketId in s.resolutions, AggregateNotFound);
    match PayoutFor(s.resolutions[key.marketId].payouts, key.outcomeId)
    case None => Err(InvariantViolation)
    case Some(payout) =>
      var gross := MoneyFromUnitPrice(payout, p.quantity);
      var _ :- Need(fee <= gross, InvariantViolation);
      var net := gross - fee;
      var p' := p.(quantity := 0, reservedQuantity := 0, costBasis := 0,
                   realizedPnl := p.realizedPnl + net - p.costBasis,
                   status := Settled, settlementPayout := Some(payout));
      Ok(ReplacePosition(s.(cash := s.cash + net), p'))
  }

  predicate Held(p: Position) {
    p.status == Open && 0 < p.quantity
  }

  function OpenKeys(s: LedgerState): set<PositionKey> {
    set key | key in s.positions && Held(s.positions[key])
  }

  function MarkTotal(marks: seq<PositionValuation>): nat {
    if marks == [] then 0
    else MarkTotal(marks[..|marks| - 1]) + marks[|marks| - 1].liquidationValue
  }

  function ApplyValuation(s: LedgerState, valuation: PortfolioValuation): Result<LedgerState> {
    var marks := valuation.positions;
    if !s.isOpen then Err(InvalidTransition)
    else if (set mark | mark in marks :: mark.key) != OpenKeys(s) then Err(InvariantViolation)
    else if exists mark :: mark in marks && mark.key in s.positions
                           && mark.quantity != s.positions[mark.key].quantity then
      Err(InvariantViolation)
    else if valuation.equity != s.cash + MarkTotal(marks) then Err(InvariantViolation)
    else Ok(s)
  }

  /** The reducer an event selects. */
  function ApplyBody(s: LedgerState, body: EventBody): Result<LedgerState> {
    match body
    case AccountOpened(cash) => ApplyAccountOpened(s, cash)
    case OrderIntentCreated(intent) => ApplyIntentCreated(s, intent)
    case OrderSubmitted(id, backend) => ApplySubmitted(s, id, backend)
    case OrderAcknowledged(id) => ApplyAcknowledged(s, id)
    case FillReceived(fill) => ApplyFill(s, fill)
    case OrderRejected(id, reason) => ApplyTerminal(s, id, Rejected, reason)
    case OrderCancelled(id, reason) => ApplyTerminal(s, id, Cancelled, reason)
    case OrderOutcomeUnknown(id, reason) => ApplyUnknown(s, id, reason)
    case WeatherObservationRecorded(observation) => ApplyObservation(s, observation)
    case ResolutionEvidenceRecorded(evidence) => ApplyEvidence(s, evidence)
    case MarketResolved(resolution) => ApplyResolution(s, resolution)
    case PositionSettled(key, fee) => ApplySettlement(s, key, fee)
    case RiskScopeRegistered(_) => if s.isOpen then Ok(s) else Err(InvalidTransition)
    case PortfolioValuationRecorded(valuation) => ApplyValuation(s, valuation)
  }

  function Record(s: LedgerState, e: LedgerEvent): LedgerState {
    s.(fingerprints := s.fingerprints[e.eventId := e])
  }

  /** `apply_event` without its closing `assert_invariants`. */
  function Reduce(s: LedgerState, e: LedgerEvent): Result<LedgerState> {
    if e.eventId in s.fingerprints then
      if s.fingerprints[e.eventId] == e then Ok(s) else Err(DuplicateEventConflict)
    else
      var s' :- ApplyBody(s, e.body);
      Ok(Record(s', e))
  }

  /** `apply_event`. A redelivered event returns before the invariants are checked. */
  ghost function ApplyEvent(s: LedgerState, e: LedgerEvent): Result<LedgerState> {
    if e.eventId in s.fingerprints then Reduce(s, e)
    else
      var s' :- Reduce(s, e);
      var _ :- Need(Invariant(s'), InvariantViolation);
      Ok(s')
  }

  ghost function ReplayFrom(s: LedgerState, events: seq<LedgerEvent>): Result<LedgerState>
    decreases |events|
  {
    if events == [] then Ok(s)
    else
      var before :- ReplayFrom(s, events[..|events| - 1]);
      ApplyEvent(before, events[|events| - 1])
  }

  ghost function Replay(events: seq<LedgerEvent>): Result<LedgerState> {
    ReplayFrom(EMPTY_LEDGER, events)
  }
}
