/** Entities of the ledger: intents, orders, positions, resolutions, evidence.

Constraints that a constructor checks on one field are subset types; a hash of
known material is represented by the material itself.
 */
module Model {
  import opened Rounding

  datatype Option<+T> = None | Some(value: T)

  datatype DomainError =
    | InvalidTransition | InvariantViolation | DuplicateEventConflict | AggregateNotFound

  /** A reducer's new value, or the domain error it raises. */
  datatype Result<+T> = Ok(value: T) | Err(error: DomainError) {
    predicate IsFailure() {
      Err?
    }
    function PropagateFailure<U>(): Result<U>
      requires Err?
    {
      Err(error)
    }
    function Extract(): T
      requires Ok?
    {
      value
    }
  }

  function Need(condition: bool, error: DomainError): Result<()> {
    if condition then Ok(()) else Err(error)
  }

  /** A trimmed, non-blank string. */
  type Text = t: string | t != "" witness "-"
  type MarketId = Text
  type OutcomeId = Text
  type IntentId = Text
  type Timestamp = int
  type Quantity = q: int | 0 < q witness 1
  type Price = p: int | 0 < p <= 1_000_000 witness 1
  type Payout = p: int | 0 <= p <= 1_000_000

  datatype PositionKey = PositionKey(marketId: MarketId, outcomeId: OutcomeId)

  datatype Side = Buy | Sell

  datatype OrderState =
    | Created | Submitted | Acknowledged | PartiallyFilled
    | Filled | Rejected | Cancelled | Unknown
  {
    predicate Terminal() {
      this in {Filled, Rejected, Cancelled}
    }
  }

  function AllowedTransitions(state: OrderState): set<OrderState> {
    match state
    case Created => {Submitted, Rejected, Cancelled}
    case Submitted => {Acknowledged, PartiallyFilled, Filled, Rejected, Cancelled, Unknown}
    case Acknowledged => {PartiallyFilled, Filled, Cancelled, Unknown}
    case PartiallyFilled => {PartiallyFilled, Filled, Cancelled, Unknown}
    case Unknown => {Acknowledged, PartiallyFilled, Filled, Rejected, Cancelled, Unknown}
    case _ => {}
  }

  datatype OrderIntent = OrderIntent(
    intentId: IntentId,
    strategyId: Text,
    decisionId: Text,
    marketId: MarketId,
    outcomeId: OutcomeId,
    side: Side,
    quantity: Quantity,
    limitPrice: Price,
    feeReserve: nat,
    createdAt: Timestamp)
  {
    function Key(): PositionKey {
      PositionKey(marketId, outcomeId)
    }

    function LimitNotional(): int {
      MoneyFromUnitPrice(limitPrice, quantity)
    }

    function CashReservation(): int {
      if side == Sell then 0 else LimitNotional() + feeReserve
    }
  }

  /** What identifies one delivery of a fill. */
  datatype FillData = FillData(
    intentId: IntentId, fillId: Identifier, quantity: Quantity, price: Price, fee: nat)

  datatype OrderAggregate = OrderAggregate(
    intent: OrderIntent,
    state: OrderState,
    filledQuantity: int,
    grossValue: int,
    fees: int,
    reservedCash: int,
    reservedQuantity: int,
    backendOrderId: Option<Identifier>,
    terminalReason: Option<Text>,
    unknownReason: Option<Text>,
    fills: map<Identifier, FillData>)
  {
    function Remaining(): int {
      intent.quantity - filledQuantity
    }
  }

  function NewOrder(intent: OrderIntent): OrderAggregate {
    OrderAggregate(
      intent, Created, 0, 0, 0, intent.CashReservation(),
      if intent.side == Sell then intent.quantity else 0,
      None, None, None, map[])
  }

  datatype PositionStatus = Open | Settled

  datatype Position = Position(
    key: PositionKey,
    quantity: int,
    reservedQuantity: int,
    costBasis: int,
    realizedPnl: int,
    status: PositionStatus,
    settlementPayout: Option<Payout>)
  {
    function Available(): int {
      quantity - reservedQuantity
    }
  }

  function EmptyPosition(key: PositionKey): Position {
    Position(key, 0, 0, 0, 0, Open, None)
  }

  datatype OutcomePayout = OutcomePayout(outcomeId: OutcomeId, payout: Payout)

  datatype MarketResolution = MarketResolution(
    marketId: MarketId, payouts: seq<OutcomePayout>, resolvedAt: Timestamp)

  /** The payout of the first entry naming the outcome. */
  function PayoutFor(payouts: seq<OutcomePayout>, outcomeId: OutcomeId): Option<Payout> {
    if payouts == [] then None
    else if payouts[0].outcomeId == outcomeId then Some(payouts[0].payout)
    else PayoutFor(payouts[1..], outcomeId)
  }

  datatype ResolutionStatus = Verified | Void

  datatype ResolutionEvidence = ResolutionEvidence(
    marketId: MarketId,
    conditionId: Text,
    sourceName: Text,
    sourceUrl: Text,
    declaredSource: Text,
    retrievedAt: Timestamp,
    finalizedAt: Timestamp,
    marketDate: int,
    marketTimezone: Text,
    status: ResolutionStatus,
    resolutionValue: Text,
    payouts: seq<OutcomePayout>,
    payloadHash: Text)

  /** A revised observation, and only a revised one, names the payload it supersedes. */
  datatype ObservationStatus = Provisional | Final | Revised(supersedes: Text)

  /** What a revision must leave unchanged. */
  datatype ObservationIdentity = ObservationIdentity(
    sourceName: Text,
    sourceUrl: Text,
    stationId: Text,
    measurementBasis: Text,
    marketDate: int,
    marketTimezone: Text,
    unit: Text)

  datatype Observation = Observation(
    marketId: MarketId,
    identity: ObservationIdentity,
    temperature: real,
    retrievedAt: Timestamp,
    sourceTimestamp: Option<Timestamp>,
    sourceRevision: Text,
    status: ObservationStatus,
    payloadHash: Text)
  {
    predicate LearningEligible() {
      !status.Provisional?
    }
  }

  datatype RiskScope = RiskScope(
    key: PositionKey, eventId: Text, cityKey: Text, marketDate: int, correlationGroups: seq<Text>)

  datatype PositionValuation = PositionValuation(
    key: PositionKey, quantity: Quantity, liquidationValue: nat, observedAt: Timestamp)

  datatype PortfolioValuation = PortfolioValuation(
    positions: seq<PositionValuation>, equity: nat, assembledAt: Timestamp, source: Text)

  datatype PaperTag =
    | OrderTag | SubmittedTag | RejectedTag | AcknowledgedTag | FillEventTag | FillTag
    | RemainderCancelledTag | RecoveryCancelTag | IntentTag

  /** Event, fill and backend order identifiers. All but `Plain` are hashes of
      the material they carry. */
  datatype Identifier =
    | Plain(text: Text)
    | PaperId(tag: PaperTag, intentId: IntentId)
    | ScopeId(key: PositionKey)
    | ValuationId(decisionId: Text, valuation: PortfolioValuation)
}
