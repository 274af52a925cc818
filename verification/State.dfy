/** Derived ledger state and the financial invariants the ledger asserts after every event. */
module State {
  import opened Rounding
  import opened MapSums
  import opened Model
  import opened Events

  /** `fingerprints` maps each applied event identifier to the event it fingerprints. */
  datatype LedgerState = LedgerState(
    isOpen: bool,
    cash: int,
    reservedCash: int,
    orders: map<IntentId, OrderAggregate>,
    positions: map<PositionKey, Position>,
    resolutions: map<MarketId, MarketResolution>,
    evidence: map<MarketId, ResolutionEvidence>,
    observations: map<MarketId, seq<Observation>>,
    fingerprints: map<Identifier, LedgerEvent>)
  {
    function AvailableCash(): int {
      cash - reservedCash
    }
  }

  const EMPTY_LEDGER :=
    LedgerState(false, 0, 0, map[], map[], map[], map[], map[], map[])

  // ---- Orders ----

  predicate OrderOk(id: IntentId, o: OrderAggregate) {
    && id == o.intent.intentId
    && 0 <= o.filledQuantity <= o.intent.quantity
    && 0 <= o.grossValue
    && 0 <= o.fees
    && 0 <= o.reservedCash
    && 0 <= o.reservedQuantity
    && (o.state.Terminal() ==> o.reservedCash == 0 && o.reservedQuantity == 0)
    && (if o.intent.side == Buy then BuyReservationOk(o) else SellReservationOk(o))
  }

  predicate BuyReservationOk(o: OrderAggregate) {
    && o.reservedQuantity == 0
    && o.fees <= o.intent.feeReserve
    && (!o.state.Terminal() ==>
          o.reservedCash == MoneyFromUnitPrice(o.intent.limitPrice, o.Remaining())
                            + (o.intent.feeReserve - o.fees))
  }

  predicate SellReservationOk(o: OrderAggregate) {
    && o.reservedCash == 0
    && (!o.state.Terminal() ==> o.reservedQuantity == o.Remaining())
  }

  function CashHeldBy(o: OrderAggregate): int {
    if o.intent.side == Buy then o.reservedCash else 0
  }

  /** What one order holds of the position `key`. */
  function QuantityHeldOf(key: PositionKey): OrderAggregate -> int {
    (o: OrderAggregate) =>
      if o.intent.side == Sell && o.intent.Key() == key then o.reservedQuantity else 0
  }

  ghost function SellReserved(orders: map<IntentId, OrderAggregate>, key: PositionKey): int {
    Total(orders, QuantityHeldOf(key))
  }

  function ReservedAt(positions: map<PositionKey, Position>, key: PositionKey): int {
    if key in positions then positions[key].reservedQuantity else 0
  }

  // ---- Positions ----

  predicate PositionOk(key: PositionKey, p: Position) {
    && key == p.key
    && 0 <= p.reservedQuantity <= p.quantity
    && 0 <= p.costBasis
    && (p.status == Settled ==> p.quantity == 0 && p.reservedQuantity == 0 && p.costBasis == 0)
  }

  // ---- Evidence ----

  /** A recorded resolution pays what the recorded evidence says. */
  predicate EvidenceAgrees(
    evidence: map<MarketId, ResolutionEvidence>, resolutions: map<MarketId, MarketResolution>)
  {
    forall m :: m in evidence ==>
                  && evidence[m].marketId == m
                  && (m in resolutions ==> resolutions[m].payouts == evidence[m].payouts)
  }

  /** The final and revised observations of a history, in order. */
  function Terminals(history: seq<Observation>): seq<Observation> {
    if history == [] then []
    else
      var last := history[|history| - 1];
      Terminals(history[..|history| - 1]) + if last.LearningEligible() then [last] else []
  }

  /** One final root, then revisions that each supersede the one before. */
  predicate LinearRevisions(terminals: seq<Observation>) {
    && (terminals != [] ==> terminals[0].status.Final?)
    && forall i :: 0 < i < |terminals| ==>
                     terminals[i].status == Revised(terminals[i - 1].payloadHash)
  }

  predicate OneMarket(market: MarketId, history: seq<Observation>) {
    forall i :: 0 <= i < |history| ==> history[i].marketId == market
  }

  predicate HashesDistinct(history: seq<Observation>) {
    forall i, j :: 0 <= i < j < |history| ==> history[i].payloadHash != history[j].payloadHash
  }

  /** If observation `i` is a revision, some earlier one is what it supersedes. */
  predicate Grounded(history: seq<Observation>, i: nat)
    requires i < |history|
  {
    history[i].status.Revised? ==>
      exists j :: 0 <= j < i && history[j].payloadHash == history[i].status.supersedes
  }

  predicate RevisionsGrounded(history: seq<Observation>) {
    forall i :: 0 <= i < |history| ==> Grounded(history, i)
  }

  predicate EntriesOk(market: MarketId, history: seq<Observation>) {
    OneMarket(market, history) && HashesDistinct(history) && RevisionsGrounded(history)
  }

  predicate HistoryOk(market: MarketId, history: seq<Observation>) {
    EntriesOk(market, history) && LinearRevisions(Terminals(history))
  }

  // ---- The whole ledger ----

  ghost predicate OrdersOk(orders: map<IntentId, OrderAggregate>, reservedCash: int) {
    && (forall id :: id in orders ==> OrderOk(id, orders[id]))
    && Total(orders, CashHeldBy) == reservedCash
  }

  ghost predicate PositionsOk(
    orders: map<IntentId, OrderAggregate>, positions: map<PositionKey, Position>)
  {
    && (forall key :: key in positions ==> PositionOk(key, positions[key]))
    && (forall key :: SellReserved(orders, key) == ReservedAt(positions, key))
  }

  predicate ObservationsOk(observations: map<MarketId, seq<Observation>>) {
    forall m :: m in observations ==> HistoryOk(m, observations[m])
  }

  predicate NothingBeforeOpening(s: LedgerState) {
    s.isOpen
    || (&& s.cash == 0 && s.reservedCash == 0 && s.orders == map[] && s.positions == map[]
        && s.resolutions == map[] && s.evidence == map[] && s.observations == map[])
  }

  /** What `assert_invariants` accepts, apart from the available-cash clause. */
  ghost predicate InvariantButAvailable(s: LedgerState) {
    && 0 <= s.cash && 0 <= s.reservedCash
    && OrdersOk(s.orders, s.reservedCash)
    && PositionsOk(s.orders, s.positions)
    && EvidenceAgrees(s.evidence, s.resolutions)
    && ObservationsOk(s.observations)
    && NothingBeforeOpening(s)
  }

  ghost predicate Invariant(s: LedgerState) {
    InvariantButAvailable(s) && 0 <= s.AvailableCash()
  }
}
