/** Which events the ledger accepts, said without its reducers. */
module Acceptance {
  import opened Rounding
  import opened Model
  import opened Events
  import opened State
  import opened Reducers
  import opened LedgerInvariants
  import opened LedgerRuns
  import opened LifecycleSteps
  import opened Conservation
  import WorldRecords

  // ---- What reachable ledgers know of their orders ----

  /** An order still created is untouched, an open order has something left to
      fill, and a SELL order has a position. */
  predicate Tight(s: LedgerState, id: IntentId)
    requires id in s.orders
  {
    var o := s.orders[id];
    && (o.state == Created ==> o == NewOrder(o.intent))
    && (!o.state.Terminal() ==> 0 < o.Remaining())
    && (o.intent.side == Sell ==> o.intent.Key() in s.positions)
  }

  lemma PositionsStay(s: LedgerState, body: EventBody)
    requires KeysMatch(s) && ApplyBody(s, body).Ok?
    ensures forall key :: key in s.positions ==> key in ApplyBody(s, body).value.positions
  {
    hide ApplyObservation, ApplyFill, ApplyTerminal, ApplyIntentCreated, ApplyValuation, KeysMatch, MoneyFromUnitPrice,
         PayoutFor;
    if !WorldRecords.Reports(body) {
      WorldRecords.OtherBodiesKeepRecords(s, body);
    } else if body.WeatherObservationRecorded? {
      ObservationKeepsPositions(s, body.observation);
    }
  }

  lemma ObservationKeepsPositions(s: LedgerState, o: Observation)
    requires ApplyObservation(s, o).Ok?
    ensures ApplyObservation(s, o).value.positions == s.positions
  {}

  lemma NewOrderIsTight(intent: OrderIntent)
    ensures var o := NewOrder(intent);
            o.intent == intent && o.state == Created && 0 < o.Remaining()
  {}

  lemma NewSellHasPosition(s: LedgerState, intent: OrderIntent)
    requires ApplyIntentCreated(s, intent).Ok? && intent.intentId !in s.orders && intent.side == Sell
    ensures intent.Key() in s.positions
  {}

  /** A step keeps what is known of the order it is about. */
  lemma StepStaysTight(s: LedgerState, t: LedgerState, id: IntentId, body: EventBody)
    requires OneStep(s, t, id, body) && Concerns(body, id) && Tight(s, id)
    requires forall key :: key in s.positions ==> key in t.positions
    requires body.FillReceived? ==> body.fill.quantity <= s.orders[id].Remaining()
    ensures Tight(t, id)
  {
    hide MoneyFromUnitPrice, NewOrder;
  }

  lemma FillFits(s: LedgerState, fill: FillData)
    requires ApplyFill(s, fill).Ok? && fill.intentId in s.orders
    requires fill.fillId !in s.orders[fill.intentId].fills
    ensures fill.quantity <= s.orders[fill.intentId].Remaining()
  {
    hide MoneyFromUnitPrice, BookFill, ReleaseReservations;
  }

  lemma RepeatedFillChangesNothing(s: LedgerState, fill: FillData)
    requires ApplyFill(s, fill).Ok? && fill.intentId in s.orders && fill.fillId in s.orders[fill.intentId].fills
    ensures ApplyFill(s, fill).value == s
  {
    hide MoneyFromUnitPrice, BookFill, ReleaseReservations;
  }

  lemma ConcernedStaysTight(s: LedgerState, id: IntentId, e: LedgerEvent)
    requires Invariant(s) && Concerns(e.body, id) && id in s.orders && Tight(s, id)
    requires e.eventId !in s.fingerprints && ApplyEvent(s, e).Ok?
    ensures id in ApplyEvent(s, e).value.orders && Tight(ApplyEvent(s, e).value, id)
  {
    hide InvariantButAvailable, ApplyEvent, ApplyBody, Tight, OneStep;
    var t := ApplyEvent(s, e).value;
    AcceptedStep(s, e);
    InvariantGivesKeys(s);
    PositionsStay(s, e.body);
    if e.body.FillReceived? {
      FillIsBody(s, e.body.fill);
    }
    if e.body.FillReceived? && e.body.fill.fillId in s.orders[id].fills {
      RepeatedFillChangesNothing(s, e.body.fill);
      SameOrderStaysTight(s, t, id);
    } else {
      LifecycleStep(s, id, e);
      StepHasOrder(s, t, id, e.body);
      if e.body.FillReceived? {
        FillFits(s, e.body.fill);
      }
      StepStaysTight(s, t, id, e.body);
    }
  }

  lemma FillIsBody(s: LedgerState, fill: FillData)
    ensures ApplyBody(s, FillReceived(fill)) == ApplyFill(s, fill)
  {}

  lemma SameOrderStaysTight(s: LedgerState, t: LedgerState, id: IntentId)
    requires id in s.orders && Tight(s, id) && id in t.orders && t.orders[id] == s.orders[id]
    requires forall key :: key in s.positions ==> key in t.positions
    ensures Tight(t, id)
  {
    hide NewOrder;
  }

  lemma {:induction false} OrdersAreTight(events: seq<LedgerEvent>, id: IntentId)
    requires Replay(events).Ok? && id in Replay(events).value.orders
    ensures Tight(Replay(events).value, id)
    decreases |events|
  {
    hide InvariantButAvailable, ApplyEvent, ApplyBody, Concerns, Tight, Untouched;
    var prefix, last := events[..|events| - 1], events[|events| - 1];
    ReplaySplitsAtLast(EMPTY_LEDGER, events);
    ReachedIsOk(prefix);
    var s, t := Replay(prefix).value, Replay(events).value;
    AcceptedStep(s, last);
    if last.eventId in s.fingerprints {
      OrdersAreTight(prefix, id);
    } else {
      InvariantGivesKeys(s);
      PositionsStay(s, last.body);
      if Concerns(last.body, id) {
        ConcernedBodyHasOrder(s, id, last.body);
        OrdersAreTight(prefix, id);
        ConcernedStaysTight(s, id, last);
      } else {
        OtherEventUntouched(s, id, last);
        UntouchedKind(s, t, id, last.body);
        if id in s.orders {
          OrdersAreTight(prefix, id);
          SameOrderStaysTight(s, t, id);
        } else {
          NewOrderStartsTight(s, t, last.body.intent);
        }
      }
    }
  }

  lemma UntouchedKind(s: LedgerState, t: LedgerState, id: IntentId, body: EventBody)
    requires Untouched(s, t, id, body) && id in t.orders
    ensures if id in s.orders then t.orders[id] == s.orders[id]
            else body.OrderIntentCreated? && body.intent.intentId == id && t.orders[id] == NewOrder(body.intent)
  {
    hide NewOrder;
  }

  lemma NewOrderStartsTight(s: LedgerState, t: LedgerState, intent: OrderIntent)
    requires ApplyBody(s, OrderIntentCreated(intent)).Ok? && intent.intentId !in s.orders
    requires intent.intentId in t.orders && t.orders[intent.intentId] == NewOrder(intent)
    requires forall key :: key in s.positions ==> key in t.positions
    ensures Tight(t, intent.intentId)
  {
    hide NewOrder;
    NewOrderIsTight(intent);
    if intent.side == Sell {
      NewSellHasPosition(s, intent);
    }
  }

  // ---- The conditions ----

  predicate OrderIn(s: LedgerState, id: IntentId, states: set<OrderState>) {
    id in s.orders && s.orders[id].state in states
  }

  /** A new intent: a BUY whose limit value and fee reserve are available, or a
      SELL of no more than an open position has unreserved. */
  predicate AcceptsIntent(s: LedgerState, intent: OrderIntent) {
    && s.isOpen
    && if intent.intentId in s.orders then s.orders[intent.intentId].intent == intent
       else if intent.side == Buy then
         MoneyFromUnitPrice(intent.limitPrice, intent.quantity) + intent.feeReserve <= s.cash - s.reservedCash
       else
         && intent.Key() in s.positions
         && var p := s.positions[intent.Key()];
         p.status == Open && intent.quantity <= p.quantity - p.reservedQuantity
  }

  /** A fill: one already booked, or one that an order past its submission and
      not yet closed can take within its quantity, limit and fees. */
  predicate AcceptsFill(s: LedgerState, fill: FillData) {
    && fill.intentId in s.orders
    && var o := s.orders[fill.intentId];
    if fill.fillId in o.fills then o.fills[fill.fillId] == fill
    else
      && o.state in {Submitted, Acknowledged, PartiallyFilled, Unknown}
      && o.filledQuantity + fill.quantity <= o.intent.quantity
      && (if o.intent.side == Buy then AcceptsPurchase(s, o, fill)
          else o.intent.limitPrice <= fill.price && fill.fee <= MoneyFromUnitPrice(fill.price, fill.quantity))
  }

  /** A purchase within limit and fee reserve, of a position not settled; unless
      it completes the order, the cash not reserved must cover the rounding. */
  predicate AcceptsPurchase(s: LedgerState, o: OrderAggregate, fill: FillData) {
    && fill.price <= o.intent.limitPrice
    && o.fees + fill.fee <= o.intent.feeReserve
    && !(o.intent.Key() in s.positions && s.positions[o.intent.Key()].status == Settled)
    && (o.filledQuantity + fill.quantity == o.intent.quantity
        || MoneyFromUnitPrice(o.intent.limitPrice, o.intent.quantity - o.filledQuantity - fill.quantity)
           + MoneyFromUnitPrice(fill.price, fill.quantity)
           <= MoneyFromUnitPrice(o.intent.limitPrice, o.intent.quantity - o.filledQuantity) + s.cash - s.reservedCash)
  }

  /** The observations of a market, in the order of their arrival. */
  function Observed(s: LedgerState, market: MarketId): seq<Observation> {
    if market in s.observations then s.observations[market] else []
  }

  /** The last final or revised observation of a history, by position. */
  predicate IsLatestTerminal(history: seq<Observation>, i: int) {
    && 0 <= i < |history| && !history[i].status.Provisional?
    && forall j :: i < j < |history| ==> history[j].status.Provisional?
  }

  /** An observation already recorded, a provisional one, the first final one, or
      a revision of the latest final or revised one that measures the same thing. */
  predicate AcceptsObservation(s: LedgerState, o: Observation) {
    var history := Observed(s, o.marketId);
    && s.isOpen
    && if exists prior :: prior in history && prior.payloadHash == o.payloadHash then o in history
       else
         match o.status
         case Provisional => true
         case Final => forall prior :: prior in history ==> prior.status.Provisional?
         case Revised(supersedes) =>
           exists i :: 0 <= i < |history| && IsLatestTerminal(history, i)
                       && history[i].payloadHash == supersedes && history[i].identity == o.identity
  }

  predicate AcceptsEvidence(s: LedgerState, e: ResolutionEvidence) {
    && s.isOpen
    && if e.marketId in s.evidence then s.evidence[e.marketId] == e
       else e.marketId in s.resolutions ==> s.resolutions[e.marketId].payouts == e.payouts
  }

  predicate AcceptsResolution(s: LedgerState, r: MarketResolution) {
    && s.isOpen
    && (r.marketId in s.evidence ==> s.evidence[r.marketId].payouts == r.payouts)
    && (r.marketId in s.resolutions ==> s.resolutions[r.marketId] == r)
  }

  /** The first entry of a resolution that names the outcome. */
  predicate PaysAt(payouts: seq<OutcomePayout>, outcomeId: OutcomeId, i: int) {
    && 0 <= i < |payouts| && payouts[i].outcomeId == outcomeId
    && forall j :: 0 <= j < i ==> payouts[j].outcomeId != outcomeId
  }

  /** An open position that holds something and reserves nothing, in a resolved
      market that names its outcome and pays at least the fee. */
  predicate AcceptsSettlement(s: LedgerState, key: PositionKey, fee: nat) {
    && key in s.positions && key.marketId in s.resolutions
    && var p, payouts := s.positions[key], s.resolutions[key.marketId].payouts;
    && p.status == Open && 0 < p.quantity && p.reservedQuantity == 0
    && exists i :: 0 <= i < |payouts| && PaysAt(payouts, key.outcomeId, i)
                   && fee <= MoneyFromUnitPrice(payouts[i].payout, p.quantity)
  }

  /** One mark or more for every position held, none for any other, each of the
      quantity held, and equity of cash plus all marks. */
  predicate AcceptsValuation(s: LedgerState, v: PortfolioValuation) {
    && s.isOpen
    && (forall mark :: mark in v.positions ==>
                         && mark.key in s.positions && s.positions[mark.key].status == Open
                         && mark.quantity == s.positions[mark.key].quantity)
    && (forall key :: key in s.positions && s.positions[key].status == Open && 0 < s.positions[key].quantity ==>
                        exists mark :: mark in v.positions && mark.key == key)
    && v.equity == s.cash + MarkTotal(v.positions)
  }

  /** Which new event a ledger accepts. */
  predicate Accepts(s: LedgerState, body: EventBody) {
    match body
    case AccountOpened(_) => !s.isOpen
    case OrderIntentCreated(intent) => AcceptsIntent(s, intent)
    case OrderSubmitted(id, _) => OrderIn(s, id, {Created})
    case OrderAcknowledged(id) => OrderIn(s, id, {Submitted, Unknown})
    case FillReceived(fill) => AcceptsFill(s, fill)
    case OrderRejected(id, _) => OrderIn(s, id, {Created, Submitted, Unknown})
    case OrderCancelled(id, _) => OrderIn(s, id, {Created, Submitted, Acknowledged, PartiallyFilled, Unknown})
    case OrderOutcomeUnknown(id, _) => OrderIn(s, id, {Submitted, Acknowledged, PartiallyFilled, Unknown})
    case WeatherObservationRecorded(o) => AcceptsObservation(s, o)
    case ResolutionEvidenceRecorded(e) => AcceptsEvidence(s, e)
    case MarketResolved(r) => AcceptsResolution(s, r)
    case PositionSettled(key, fee) => AcceptsSettlement(s, key, fee)
    case RiskScopeRegistered(_) => s.isOpen
    case PortfolioValuationRecorded(v) => AcceptsValuation(s, v)
  }

  // ---- The reducers accept exactly these ----

  lemma SubmissionAccepted(s: LedgerState, id: IntentId, backend: Identifier)
    requires id in s.orders ==> Tight(s, id)
    ensures ApplySubmitted(s, id, backend).Ok? <==> OrderIn(s, id, {Created})
  {}

  lemma LabelsAccepted(s: LedgerState, id: IntentId, reason: Text)
    ensures ApplyAcknowledged(s, id).Ok? <==> OrderIn(s, id, {Submitted, Unknown})
    ensures ApplyUnknown(s, id, reason).Ok?
            <==> OrderIn(s, id, {Submitted, Acknowledged, PartiallyFilled, Unknown})
  {}

  lemma ClosingAccepted(s: LedgerState, id: IntentId, reason: Text)
    requires Invariant(s) && (id in s.orders ==> Tight(s, id))
    ensures ApplyTerminal(s, id, Rejected, reason).Ok? <==> OrderIn(s, id, {Created, Submitted, Unknown})
    ensures ApplyTerminal(s, id, Cancelled, reason).Ok?
            <==> OrderIn(s, id, {Created, Submitted, Acknowledged, PartiallyFilled, Unknown})
  {
    hide OrdersOk, PositionsOk, EvidenceAgrees, ObservationsOk, NewOrder;
    if id in s.orders {
      OrderFacts(s, id);
    }
  }

  lemma IntentAccepted(s: LedgerState, intent: OrderIntent)
    ensures ApplyIntentCreated(s, intent).Ok? <==> AcceptsIntent(s, intent)
  {
    hide MoneyFromUnitPrice;
  }

  /** Whether a fill leads where the order's state allows. */
  lemma FillTransitions(o: OrderAggregate, quantity: int)
    ensures FillTarget(o, quantity) in AllowedTransitions(o.state)
            <==> o.state in {Submitted, Acknowledged, PartiallyFilled, Unknown}
  {}

  lemma PurchaseAccepted(s: LedgerState, o: OrderAggregate, fill: FillData)
    requires Invariant(s) && fill.intentId in s.orders && o == s.orders[fill.intentId] && !o.state.Terminal()
    requires o.intent.side == Buy && o.filledQuantity + fill.quantity <= o.intent.quantity
    ensures ApplyBuyFill(s, o, fill, MoneyFromUnitPrice(fill.price, fill.quantity)).Ok? <==>
            && fill.price <= o.intent.limitPrice && o.fees + fill.fee <= o.intent.feeReserve
            && !(o.intent.Key() in s.positions && s.positions[o.intent.Key()].status == Settled)
  {
    hide OrdersOk, PositionsOk, EvidenceAgrees, ObservationsOk, MoneyFromUnitPrice;
    OrderFacts(s, fill.intentId);
    var limit, rest := o.intent.limitPrice, o.Remaining() - fill.quantity;
    ValueIsMonotone(limit, limit, rest, o.Remaining());
    if fill.price <= limit {
      ValueIsMonotone(fill.price, limit, fill.quantity, o.Remaining());
    }
  }

  lemma SaleAccepted(s: LedgerState, o: OrderAggregate, fill: FillData)
    requires Invariant(s) && fill.intentId in s.orders && o == s.orders[fill.intentId] && !o.state.Terminal()
    requires o.intent.side == Sell && o.filledQuantity + fill.quantity <= o.intent.quantity
    ensures ApplySellFill(s, o, fill, MoneyFromUnitPrice(fill.price, fill.quantity)).Ok? <==>
            o.intent.limitPrice <= fill.price && fill.fee <= MoneyFromUnitPrice(fill.price, fill.quantity)
  {
    hide OrdersOk, PositionsOk, EvidenceAgrees, ObservationsOk, MoneyFromUnitPrice, AllocatedCost;
    OrderFacts(s, fill.intentId);
  }

  /** What a fill needs of the order, whichever side it is on. */
  lemma FillAcceptedAs(s: LedgerState, fill: FillData)
    requires fill.intentId in s.orders && fill.fillId !in s.orders[fill.intentId].fills
    ensures var o, gross := s.orders[fill.intentId], MoneyFromUnitPrice(fill.price, fill.quantity);
            ApplyFill(s, fill).Ok? ==>
              && o.filledQuantity + fill.quantity <= o.intent.quantity
              && o.state in {Submitted, Acknowledged, PartiallyFilled, Unknown}
              && BookFill(s, o, fill, gross).Ok?
  {
    hide MoneyFromUnitPrice, BookFill, ReleaseReservations;
    FillTransitions(s.orders[fill.intentId], fill.quantity);
  }

  lemma ReleaseAccepted(s: LedgerState, o: OrderAggregate)
    requires o.intent.side == Buy
             || (o.intent.Key() in s.positions && o.reservedQuantity <= s.positions[o.intent.Key()].reservedQuantity)
    ensures ReleaseReservations(s, o).Ok?
  {}

  /** Releasing what a completing fill leaves is always accepted. */
  lemma CompletionReleases(s: LedgerState, o: OrderAggregate, fill: FillData, gross: int)
    requires Invariant(s) && fill.intentId in s.orders && o == s.orders[fill.intentId] && !o.state.Terminal()
    requires BookFill(s, o, fill, gross).Ok?
    ensures var (s', o') := BookFill(s, o, fill, gross).value;
            ReleaseReservations(s', WithFill(o', fill, gross)).Ok?
  {
    hide OrdersOk, PositionsOk, EvidenceAgrees, ObservationsOk, MoneyFromUnitPrice, ApplyBuyFill, ApplySellFill,
         SoldPosition, PositionOrEmpty;
    OrderFacts(s, fill.intentId);
    var (s', o') := BookFill(s, o, fill, gross).value;
    BookingEffects(s, o, fill, gross);
    if o.intent.side == Sell {
      SellFillResult(s, o, fill, gross);
      var key := o.intent.Key();
      SoldKeepsReserving(s.positions[key], fill.quantity, gross - fill.fee);
      KeyedByOrder(s, key);
    }
    ReleaseAccepted(s', WithFill(o', fill, gross));
  }

  lemma SoldKeepsReserving(p: Position, quantity: Quantity, net: int)
    requires quantity <= p.quantity
    ensures SoldPosition(p, quantity, net).key == p.key
    ensures SoldPosition(p, quantity, net).reservedQuantity == p.reservedQuantity - quantity
  {
    hide AllocatedCost;
  }

  lemma KeyedByOrder(s: LedgerState, key: PositionKey)
    requires Invariant(s) && key in s.positions
    ensures s.positions[key].key == key
  {}

  lemma BookedIsAccepted(s: LedgerState, fill: FillData)
    requires Invariant(s) && fill.intentId in s.orders && fill.fillId !in s.orders[fill.intentId].fills
    requires var o := s.orders[fill.intentId];
             && o.filledQuantity + fill.quantity <= o.intent.quantity
             && o.state in {Submitted, Acknowledged, PartiallyFilled, Unknown}
             && BookFill(s, o, fill, MoneyFromUnitPrice(fill.price, fill.quantity)).Ok?
    ensures ApplyFill(s, fill).Ok?
  {
    hide InvariantButAvailable, MoneyFromUnitPrice, BookFill, ReleaseReservations, AllowedTransitions;
    var o := s.orders[fill.intentId];
    FillTransitions(o, fill.quantity);
    CompletionReleases(s, o, fill, MoneyFromUnitPrice(fill.price, fill.quantity));
  }

  /** A fill, apart from the rounding of a partial purchase. */
  lemma FillReduces(s: LedgerState, fill: FillData)
    requires Invariant(s) && fill.intentId in s.orders && fill.fillId !in s.orders[fill.intentId].fills
    ensures var o := s.orders[fill.intentId];
            ApplyFill(s, fill).Ok? <==>
              && o.state in {Submitted, Acknowledged, PartiallyFilled, Unknown}
              && o.filledQuantity + fill.quantity <= o.intent.quantity
              && (if o.intent.side == Buy then
                    && fill.price <= o.intent.limitPrice && o.fees + fill.fee <= o.intent.feeReserve
                    && !(o.intent.Key() in s.positions && s.positions[o.intent.Key()].status == Settled)
                  else o.intent.limitPrice <= fill.price && fill.fee <= MoneyFromUnitPrice(fill.price, fill.quantity))
  {
    hide InvariantButAvailable, MoneyFromUnitPrice, ApplyFill, ApplyBuyFill, ApplySellFill, PositionOrEmpty;
    var o := s.orders[fill.intentId];
    FillAcceptedAs(s, fill);
    if o.state in {Submitted, Acknowledged, PartiallyFilled, Unknown}
       && o.filledQuantity + fill.quantity <= o.intent.quantity
    {
      if o.intent.side == Buy {
        PurchaseAccepted(s, o, fill);
      } else {
        SaleAccepted(s, o, fill);
      }
      if BookFill(s, o, fill, MoneyFromUnitPrice(fill.price, fill.quantity)).Ok? {
        BookedIsAccepted(s, fill);
      }
    }
  }

  // ---- Observations ----

  lemma TerminalsUnfold(history: seq<Observation>, n: nat)
    requires n == |history| - 1
    ensures Terminals(history) == Terminals(history[..n]) + if history[n].status.Provisional? then [] else [history[n]]
  {}

  lemma LatestExtends(history: seq<Observation>, n: nat, i: int)
    requires n == |history| - 1 && IsLatestTerminal(history[..n], i) && history[n].status.Provisional?
    ensures IsLatestTerminal(history, i) && history[i] == history[..n][i]
  {
    forall j | i < j < |history| ensures history[j].status.Provisional? {
      if j < n {
        assert history[..n][j] == history[j];
      }
    }
  }

  /** The observations that end in a terminal one, and which it is. */
  lemma {:induction false} TerminalsAre(history: seq<Observation>)
    ensures Terminals(history) == [] <==> forall i :: 0 <= i < |history| ==> history[i].status.Provisional?
    ensures Terminals(history) != [] ==>
              exists i :: 0 <= i < |history| && IsLatestTerminal(history, i)
                          && history[i] == Terminals(history)[|Terminals(history)| - 1]
    decreases |history|
  {
    hide Terminals, IsLatestTerminal;
    if history == [] {
      NothingTerminal();
    } else {
      var n := |history| - 1;
      TerminalsAre(history[..n]);
      TerminalsUnfold(history, n);
      if !history[n].status.Provisional? {
        LastIsLatest(history, n);
      } else {
        assert forall i :: 0 <= i < n ==> history[..n][i] == history[i];
        if Terminals(history) != [] {
          var i :| 0 <= i < n && IsLatestTerminal(history[..n], i)
                   && history[..n][i] == Terminals(history[..n])[|Terminals(history[..n])| - 1];
          LatestExtends(history, n, i);
        }
      }
    }
  }

  lemma NothingTerminal()
    ensures Terminals([]) == []
  {}

  lemma LastIsLatest(history: seq<Observation>, n: nat)
    requires n == |history| - 1 && !history[n].status.Provisional?
    ensures IsLatestTerminal(history, n)
  {}

  lemma LatestIsOne(history: seq<Observation>, i: int, j: int)
    requires IsLatestTerminal(history, i) && IsLatestTerminal(history, j)
    ensures i == j
  {}

  lemma {:induction false} FoundByHash(history: seq<Observation>, hash: Text)
    requires HashesDistinct(history)
    ensures match WithPayload(history, hash)
            case None => forall prior :: prior in history ==> prior.payloadHash != hash
            case Some(found) =>
              found in history && found.payloadHash == hash
              && forall prior :: prior in history && prior.payloadHash == hash ==> prior == found
    decreases |history|
  {
    if history != [] {
      FoundByHash(history[1..], hash);
    }
  }

  lemma ExtensionAccepted(history: seq<Observation>, o: Observation)
    ensures ObservationExtends(history, o).Ok? <==>
            match o.status
            case Provisional => true
            case Final => forall prior :: prior in history ==> prior.status.Provisional?
            case Revised(supersedes) =>
              exists i :: 0 <= i < |history| && IsLatestTerminal(history, i)
                          && history[i].payloadHash == supersedes && history[i].identity == o.identity
  {
    hide Terminals;
    TerminalsAre(history);
    if o.status.Revised? && Terminals(history) != [] {
      var i :| 0 <= i < |history| && IsLatestTerminal(history, i)
               && history[i] == Terminals(history)[|Terminals(history)| - 1];
      assert history[i] in history;
      forall j | IsLatestTerminal(history, j) ensures j == i {
        LatestIsOne(history, i, j);
      }
    }
  }

  lemma ObservationAccepted(s: LedgerState, o: Observation)
    requires Invariant(s)
    ensures ApplyObservation(s, o).Ok? <==> AcceptsObservation(s, o)
  {
    hide OrdersOk, PositionsOk, EvidenceAgrees, ObservationExtends, WithPayload, IsLatestTerminal, RevisionsGrounded,
         LinearRevisions;
    var history := Observed(s, o.marketId);
    FoundByHash(history, o.payloadHash);
    ExtensionAccepted(history, o);
  }

  // ---- Settlements and valuations ----

  lemma {:induction false} FirstPays(payouts: seq<OutcomePayout>, outcomeId: OutcomeId)
    ensures match PayoutFor(payouts, outcomeId)
            case None => forall i :: 0 <= i < |payouts| ==> payouts[i].outcomeId != outcomeId
            case Some(payout) =>
              exists i :: 0 <= i < |payouts| && PaysAt(payouts, outcomeId, i) && payouts[i].payout == payout
    decreases |payouts|
  {
    if payouts != [] {
      if payouts[0].outcomeId == outcomeId {
        assert PaysAt(payouts, outcomeId, 0);
      } else {
        FirstPays(payouts[1..], outcomeId);
        if PayoutFor(payouts[1..], outcomeId).Some? {
          var i :| 0 <= i < |payouts[1..]| && PaysAt(payouts[1..], outcomeId, i);
          LaterPays(payouts, outcomeId, i);
        }
      }
    }
  }

  lemma LaterPays(payouts: seq<OutcomePayout>, outcomeId: OutcomeId, i: nat)
    requires payouts != [] && payouts[0].outcomeId != outcomeId && i < |payouts| - 1
    requires PaysAt(payouts[1..], outcomeId, i)
    ensures PaysAt(payouts, outcomeId, i + 1) && payouts[i + 1] == payouts[1..][i]
  {
    forall j | 0 <= j < i + 1 ensures payouts[j].outcomeId != outcomeId {
      if j > 0 {
        assert payouts[1..][j - 1] == payouts[j];
      }
    }
  }

  lemma OnePays(payouts: seq<OutcomePayout>, outcomeId: OutcomeId, i: int, j: int)
    requires PaysAt(payouts, outcomeId, i) && PaysAt(payouts, outcomeId, j)
    ensures i == j
  {}

  lemma SettlementAccepted(s: LedgerState, key: PositionKey, fee: nat)
    ensures ApplySettlement(s, key, fee).Ok? <==> AcceptsSettlement(s, key, fee)
  {
    hide MoneyFromUnitPrice, PayoutFor, PaysAt;
    if key in s.positions && key.marketId in s.resolutions {
      var payouts := s.resolutions[key.marketId].payouts;
      FirstPays(payouts, key.outcomeId);
      NonePays(payouts, key.outcomeId);
      forall i, j | PaysAt(payouts, key.outcomeId, i) && PaysAt(payouts, key.outcomeId, j) ensures i == j {
        OnePays(payouts, key.outcomeId, i, j);
      }
    }
  }

  lemma NonePays(payouts: seq<OutcomePayout>, outcomeId: OutcomeId)
    ensures (forall i :: 0 <= i < |payouts| ==> payouts[i].outcomeId != outcomeId) ==>
              forall i :: !PaysAt(payouts, outcomeId, i)
  {}

  /** Settling without a fee is accepted whatever the outcome pays, a losing one included. */
  lemma SettlingForFreeIsAccepted(s: LedgerState, key: PositionKey, i: nat)
    requires key in s.positions && key.marketId in s.resolutions
    requires s.positions[key].status == Open && 0 < s.positions[key].quantity && s.positions[key].reservedQuantity == 0
    requires PaysAt(s.resolutions[key.marketId].payouts, key.outcomeId, i)
    ensures ApplySettlement(s, key, 0).Ok?
  {
    hide MoneyFromUnitPrice;
    SettlementAccepted(s, key, 0);
  }

  lemma ValuationAccepted(s: LedgerState, v: PortfolioValuation)
    ensures ApplyValuation(s, v).Ok? <==> AcceptsValuation(s, v)
  {
    hide MarkTotal;
    KeysCoverHeld(s, v.positions);
    if (set mark | mark in v.positions :: mark.key) == OpenKeys(s) {
      forall mark | mark in v.positions ensures mark.key in s.positions {
        assert mark.key in OpenKeys(s);
      }
    }
  }

  /** Marks have exactly the held positions as keys when they cover them and nothing else. */
  lemma KeysCoverHeld(s: LedgerState, marks: seq<PositionValuation>)
    ensures (set mark | mark in marks :: mark.key) == OpenKeys(s) <==>
            && (forall mark :: mark in marks ==>
                                 mark.key in s.positions && s.positions[mark.key].status == Open
                                 && 0 < s.positions[mark.key].quantity)
            && (forall key :: key in s.positions && s.positions[key].status == Open && 0 < s.positions[key].quantity ==>
                                exists mark :: mark in marks && mark.key == key)
  {
    var keys := set mark | mark in marks :: mark.key;
    forall mark | mark in marks ensures mark.key in keys {}
    if keys == OpenKeys(s) {
      forall mark | mark in marks
        ensures mark.key in s.positions && s.positions[mark.key].status == Open && 0 < s.positions[mark.key].quantity
      {
        assert mark.key in OpenKeys(s);
      }
      forall key | key in s.positions && s.positions[key].status == Open && 0 < s.positions[key].quantity
        ensures exists mark :: mark in marks && mark.key == key
      {
        assert key in keys;
      }
    }
  }

  // ---- Every event ----

  /** What the reducer of each event accepts: all but the two cases that only
      the closing check refuses. */
  lemma BodyAccepted(s: LedgerState, e: LedgerEvent)
    requires Invariant(s) && e.eventId !in s.fingerprints
    requires forall id :: id in s.orders ==> Tight(s, id)
    ensures Accepts(s, e.body)
            <==> ApplyBody(s, e.body).Ok? && !OverdrawsByRounding(s, e) && !ResolvesUnopened(s, e)
  {
    hide InvariantButAvailable, ApplyFill, ApplyTerminal, ApplyIntentCreated, ApplySettlement, ApplyObservation,
         ApplyValuation, ApplySubmitted, ApplyAcknowledged, ApplyUnknown, Tight, AcceptsIntent, AcceptsObservation,
         AcceptsSettlement, AcceptsValuation, MoneyFromUnitPrice;
    match e.body
    case OrderIntentCreated(intent) => IntentAccepted(s, intent);
    case OrderSubmitted(id, backend) => SubmissionAccepted(s, id, backend);
    case OrderAcknowledged(id) => LabelsAccepted(s, id, "-");
    case OrderOutcomeUnknown(id, reason) => LabelsAccepted(s, id, reason);
    case OrderRejected(id, reason) => ClosingAccepted(s, id, reason);
    case OrderCancelled(id, reason) => ClosingAccepted(s, id, reason);
    case FillReceived(fill) => WholeFillAccepted(s, e, fill);
    case WeatherObservationRecorded(o) => ObservationAccepted(s, o);
    case PositionSettled(key, fee) => SettlementAccepted(s, key, fee);
    case PortfolioValuationRecorded(v) => ValuationAccepted(s, v);
    case MarketResolved(r) => ResolutionAccepted(s, e, r);
    case _ =>
  }

  lemma ResolutionAccepted(s: LedgerState, e: LedgerEvent, r: MarketResolution)
    requires e.body == MarketResolved(r)
    ensures AcceptsResolution(s, r) <==> ApplyResolution(s, r).Ok? && !ResolvesUnopened(s, e)
  {}

  lemma WholeFillAccepted(s: LedgerState, e: LedgerEvent, fill: FillData)
    requires Invariant(s) && e.body == FillReceived(fill)
    ensures AcceptsFill(s, fill) <==> ApplyFill(s, fill).Ok? && !OverdrawsByRounding(s, e)
  {
    hide InvariantButAvailable, ApplyFill, MoneyFromUnitPrice;
    if fill.intentId in s.orders {
      if fill.fillId in s.orders[fill.intentId].fills {
        RepeatAccepted(s, fill);
      } else {
        FillReduces(s, fill);
      }
    } else {
      NoOrderNoFill(s, fill);
    }
  }

  lemma RepeatAccepted(s: LedgerState, fill: FillData)
    requires fill.intentId in s.orders && fill.fillId in s.orders[fill.intentId].fills
    ensures ApplyFill(s, fill).Ok? <==> s.orders[fill.intentId].fills[fill.fillId] == fill
  {
    hide MoneyFromUnitPrice, BookFill, ReleaseReservations;
  }

  lemma NoOrderNoFill(s: LedgerState, fill: FillData)
    requires fill.intentId !in s.orders
    ensures ApplyFill(s, fill).Err?
  {}

  /** Which events a reachable ledger accepts, for every kind of event: a new one
      exactly under its condition, a recorded one exactly if it is the same. */
  lemma AcceptedEvents(events: seq<LedgerEvent>, e: LedgerEvent)
    requires Replay(events).Ok?
    ensures var s := Replay(events).value;
            ApplyEvent(s, e).Ok? <==>
              if e.eventId in s.fingerprints then s.fingerprints[e.eventId] == e else Accepts(s, e.body)
  {
    hide InvariantButAvailable, ApplyBody, Accepts, Tight, ApplyEvent, OverdrawsByRounding, ResolvesUnopened;
    var s := Replay(events).value;
    ReachedIsOk(events);
    if e.eventId in s.fingerprints {
      RecordedIsAccepted(s, e);
    } else {
      forall id | id in s.orders ensures Tight(s, id) {
        OrdersAreTight(events, id);
      }
      BodyAccepted(s, e);
      AcceptedExactly(s, e);
    }
  }

  lemma RecordedIsAccepted(s: LedgerState, e: LedgerEvent)
    requires e.eventId in s.fingerprints
    ensures ApplyEvent(s, e).Ok? <==> s.fingerprints[e.eventId] == e
  {
    hide ApplyBody, InvariantButAvailable;
  }

  /** Registering a scope or recording a valuation changes nothing but the record
      of events; opening sets the cash and nothing else. */
  lemma NotesChangeNothing(s: LedgerState, body: EventBody)
    requires ApplyBody(s, body).Ok?
    ensures body.RiskScopeRegistered? || body.PortfolioValuationRecorded? ==> ApplyBody(s, body).value == s
    ensures body.AccountOpened? ==> ApplyBody(s, body).value == s.(isOpen := true, cash := body.initialCash)
  {
    hide MarkTotal;
  }
}
