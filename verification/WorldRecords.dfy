/** What the ledger remembers of the world: observations, evidence,
    resolutions, and the payouts its positions were settled at. */
module WorldRecords {
  import opened Rounding
  import opened Model
  import opened Events
  import opened State
  import opened Reducers
  import opened LedgerInvariants
  import opened LedgerRuns
  import opened Conservation

  /** The same records of the world. */
  predicate SameWorld(s: LedgerState, t: LedgerState) {
    t.evidence == s.evidence && t.resolutions == s.resolutions && t.observations == s.observations
  }

  /** No position changed whether and at what payout it is settled, and any new one is open. */
  predicate SameSettlements(s: LedgerState, t: LedgerState) {
    && (forall key :: key in s.positions ==> key in t.positions)
    && forall key :: key in t.positions ==>
                    if key in s.positions then
                      t.positions[key].status == s.positions[key].status
                      && t.positions[key].settlementPayout == s.positions[key].settlementPayout
                    else t.positions[key].status == Open
  }

  predicate SameRecords(s: LedgerState, t: LedgerState) {
    SameWorld(s, t) && SameSettlements(s, t)
  }

  lemma PositionWrittenAlike(s: LedgerState, p: Position, t: LedgerState)
    requires t.positions == s.positions[p.key := p]
    requires p.status == PositionOrEmpty(s, p.key).status
    requires p.key in s.positions ==> p.settlementPayout == s.positions[p.key].settlementPayout
    ensures SameSettlements(s, t)
  {}

  lemma PositionWriteFrame(s: LedgerState, p: Position)
    ensures SameWorld(s, ReplacePosition(s, p))
    ensures ReplacePosition(s, p).positions == s.positions[p.key := p]
  {}

  lemma ReleaseKeepsRecords(s: LedgerState, o: OrderAggregate)
    requires KeysMatch(s) && ReleaseReservations(s, o).Ok?
    ensures SameRecords(s, ReleaseReservations(s, o).value.0)
  {
    hide SameSettlements, SameWorld, ReplacePosition;
    var t, key := ReleaseReservations(s, o).value.0, o.intent.Key();
    if o.intent.side == Sell {
      var p := s.positions[key];
      var p' := p.(reservedQuantity := p.reservedQuantity - o.reservedQuantity);
      PositionWriteFrame(s, p');
      PositionWrittenAlike(s, p', t);
    } else {
      CashFrame(s, t);
      PositionsKept(s, t);
    }
  }

  lemma CashFrame(s: LedgerState, t: LedgerState)
    requires t == s.(reservedCash := t.reservedCash)
    ensures SameWorld(s, t)
  {}

  lemma PositionsKept(s: LedgerState, t: LedgerState)
    requires t.positions == s.positions
    ensures SameSettlements(s, t)
  {}

  lemma BuyKeepsRecords(s: LedgerState, o: OrderAggregate, fill: FillData, gross: int)
    requires KeysMatch(s) && ApplyBuyFill(s, o, fill, gross).Ok?
    ensures SameRecords(s, ApplyBuyFill(s, o, fill, gross).value.0)
  {
    hide SameSettlements, MoneyFromUnitPrice;
    var t, key := ApplyBuyFill(s, o, fill, gross).value.0, o.intent.Key();
    PositionWrittenAlike(s, t.positions[key], t);
  }

  lemma SellKeepsRecords(s: LedgerState, o: OrderAggregate, fill: FillData, gross: int)
    requires KeysMatch(s) && ApplySellFill(s, o, fill, gross).Ok?
    ensures SameRecords(s, ApplySellFill(s, o, fill, gross).value.0)
  {
    hide SameSettlements, AllocatedCost;
    var t, key := ApplySellFill(s, o, fill, gross).value.0, o.intent.Key();
    PositionWrittenAlike(s, t.positions[key], t);
  }

  lemma RecordsCompose(a: LedgerState, b: LedgerState, c: LedgerState)
    requires SameRecords(a, b) && SameRecords(b, c)
    ensures SameRecords(a, c)
  {}

  lemma BookingKeepsRecords(s: LedgerState, o: OrderAggregate, fill: FillData, gross: int)
    requires KeysMatch(s) && BookFill(s, o, fill, gross).Ok?
    ensures var t := BookFill(s, o, fill, gross).value.0;
            SameRecords(s, t) && KeysMatch(t)
  {
    hide SameRecords, KeysMatch, MoneyFromUnitPrice, AllocatedCost;
    if o.intent.side == Buy {
      BuyKeepsRecords(s, o, fill, gross);
      BuyFillConserves(s, o, fill, gross);
    } else {
      SellKeepsRecords(s, o, fill, gross);
      SellFillConserves(s, o, fill, gross);
    }
  }

  lemma FillKeepsRecords(s: LedgerState, fill: FillData)
    requires KeysMatch(s) && ApplyFill(s, fill).Ok?
    ensures SameRecords(s, ApplyFill(s, fill).value)
  {
    hide MoneyFromUnitPrice, BookFill, ReleaseReservations, SameSettlements, KeysMatch;
    var o := s.orders[fill.intentId];
    var t := ApplyFill(s, fill).value;
    if fill.fillId in o.fills {
      PositionsKept(s, t);
    } else {
      var gross := MoneyFromUnitPrice(fill.price, fill.quantity);
      BookingKeepsRecords(s, o, fill, gross);
      var (s', o') := BookFill(s, o, fill, gross).value;
      var filled := WithFill(o', fill, gross);
      if filled.state == Filled {
        ReleaseKeepsRecords(s', filled);
        RecordsCompose(s, s', ReleaseReservations(s', filled).value.0);
        RecordsOfOrdersOnly(s, ReleaseReservations(s', filled).value.0, t);
      } else {
        RecordsOfOrdersOnly(s, s', t);
      }
    }
  }

  lemma RecordsOfOrdersOnly(s: LedgerState, t: LedgerState, u: LedgerState)
    requires SameRecords(s, t) && SameWorld(t, u) && u.positions == t.positions
    ensures SameRecords(s, u)
  {}

  lemma TerminalKeepsRecords(s: LedgerState, id: IntentId, target: OrderState, reason: Text)
    requires KeysMatch(s) && ApplyTerminal(s, id, target, reason).Ok?
    ensures SameRecords(s, ApplyTerminal(s, id, target, reason).value)
  {
    hide ReleaseReservations, SameSettlements, KeysMatch;
    ReleaseKeepsRecords(s, s.orders[id]);
    RecordsOfOrdersOnly(s, ReleaseReservations(s, s.orders[id]).value.0, ApplyTerminal(s, id, target, reason).value);
  }

  lemma ReserveKeepsRecords(s: LedgerState, intent: OrderIntent)
    requires KeysMatch(s) && ReserveForIntent(s, intent).Ok?
    ensures SameRecords(s, ReserveForIntent(s, intent).value)
  {
    hide MoneyFromUnitPrice, SameSettlements, SameWorld, ReplacePosition;
    var t, key := ReserveForIntent(s, intent).value, intent.Key();
    if intent.side == Sell {
      var p := s.positions[key];
      var p' := p.(reservedQuantity := p.reservedQuantity + intent.quantity);
      PositionWriteFrame(s, p');
      PositionWrittenAlike(s, p', t);
    } else {
      CashFrame(s, t);
      PositionsKept(s, t);
    }
  }

  lemma IntentKeepsRecords(s: LedgerState, intent: OrderIntent)
    requires KeysMatch(s) && ApplyIntentCreated(s, intent).Ok?
    ensures SameRecords(s, ApplyIntentCreated(s, intent).value)
  {
    hide MoneyFromUnitPrice, SameSettlements, ReserveForIntent, NewOrder, KeysMatch;
    if intent.intentId in s.orders {
      PositionsKept(s, s);
    } else {
      ReserveKeepsRecords(s, intent);
      RecordsOfOrdersOnly(s, ReserveForIntent(s, intent).value, ApplyIntentCreated(s, intent).value);
    }
  }

  /** An event that reports something about the world, or settles a position. */
  predicate Reports(body: EventBody) {
    body.WeatherObservationRecorded? || body.ResolutionEvidenceRecorded? || body.MarketResolved?
    || body.PositionSettled?
  }

  lemma OtherBodiesKeepRecords(s: LedgerState, body: EventBody)
    requires KeysMatch(s) && !Reports(body) && ApplyBody(s, body).Ok?
    ensures SameRecords(s, ApplyBody(s, body).value)
  {
    hide ApplyFill, ApplyTerminal, ApplyIntentCreated, SameSettlements, KeysMatch, MarkTotal;
    match body
    case FillReceived(fill) => FillKeepsRecords(s, fill);
    case OrderIntentCreated(intent) => IntentKeepsRecords(s, intent);
    case OrderRejected(id, reason) => TerminalKeepsRecords(s, id, Rejected, reason);
    case OrderCancelled(id, reason) => TerminalKeepsRecords(s, id, Cancelled, reason);
    case AccountOpened(_) => PositionsKept(s, ApplyBody(s, body).value);
    case OrderSubmitted(_, _) => PositionsKept(s, ApplyBody(s, body).value);
    case OrderAcknowledged(_) => PositionsKept(s, ApplyBody(s, body).value);
    case OrderOutcomeUnknown(_, _) => PositionsKept(s, ApplyBody(s, body).value);
    case RiskScopeRegistered(_) => PositionsKept(s, ApplyBody(s, body).value);
    case PortfolioValuationRecorded(_) => PositionsKept(s, ApplyBody(s, body).value);
    case _ =>
  }

  /** Every position, recorded or not, is as open or settled as before. */
  ghost predicate SameStatuses(s: LedgerState, t: LedgerState) {
    forall key :: PositionOrEmpty(t, key).status == PositionOrEmpty(s, key).status
  }

  lemma SettlementsGiveStatuses(s: LedgerState, t: LedgerState, u: LedgerState)
    requires SameSettlements(s, t) && u.positions == t.positions
    ensures SameStatuses(s, u)
  {}

  /** Events that report nothing and settle nothing keep every status. */
  lemma {:induction false} StatusesAreKept(s: LedgerState, events: seq<LedgerEvent>)
    requires Invariant(s) && ReplayFrom(s, events).Ok?
    requires forall e :: e in events ==> !Reports(e.body)
    ensures SameStatuses(s, ReplayFrom(s, events).value)
    decreases |events|
  {
    hide InvariantButAvailable, ApplyEvent, ApplyBody, SameSettlements;
    if events != [] {
      var prefix, last := events[..|events| - 1], events[|events| - 1];
      ReplaySplitsAtLast(s, events);
      ReplayKeepsInvariant(s, prefix);
      StatusesAreKept(s, prefix);
      var mid := ReplayFrom(s, prefix).value;
      AcceptedStep(mid, last);
      InvariantGivesKeys(mid);
      if last.eventId !in mid.fingerprints {
        OtherBodiesKeepRecords(mid, last.body);
        SettlementsGiveStatuses(mid, ApplyBody(mid, last.body).value, ApplyEvent(mid, last).value);
      }
    }
  }

  // ---- Nothing reported is lost or altered ----

  /** The ledger remembers what an event reported. */
  predicate Remembers(s: LedgerState, body: EventBody) {
    match body
    case WeatherObservationRecorded(o) => o.marketId in s.observations && o in s.observations[o.marketId]
    case ResolutionEvidenceRecorded(e) => e.marketId in s.evidence && s.evidence[e.marketId] == e
    case MarketResolved(r) => r.marketId in s.resolutions && s.resolutions[r.marketId] == r
    case _ => true
  }

  /** Later records only add to earlier ones. */
  predicate WorldGrows(s: LedgerState, t: LedgerState) {
    && (forall m :: m in s.evidence ==> m in t.evidence && t.evidence[m] == s.evidence[m])
    && (forall m :: m in s.resolutions ==> m in t.resolutions && t.resolutions[m] == s.resolutions[m])
    && (forall m :: m in s.observations ==> m in t.observations && s.observations[m] <= t.observations[m])
  }

  lemma ObservationIsRemembered(s: LedgerState, o: Observation)
    requires ApplyObservation(s, o).Ok?
    ensures var t := ApplyObservation(s, o).value;
            WorldGrows(s, t) && o.marketId in t.observations && o in t.observations[o.marketId]
  {
    hide ObservationExtends, WithPayload;
    PriorWithPayload(HistoryOf(s, o.marketId), o.payloadHash);
  }

  lemma EvidenceIsRemembered(s: LedgerState, e: ResolutionEvidence)
    requires ApplyEvidence(s, e).Ok?
    ensures var t := ApplyEvidence(s, e).value;
            WorldGrows(s, t) && e.marketId in t.evidence && t.evidence[e.marketId] == e
  {
    var t := ApplyEvidence(s, e).value;
    assert t.evidence == s.evidence || (e.marketId !in s.evidence && t.evidence == s.evidence[e.marketId := e]);
    EvidenceAdded(s, t, e);
  }

  lemma EvidenceAdded(s: LedgerState, t: LedgerState, e: ResolutionEvidence)
    requires t.resolutions == s.resolutions && t.observations == s.observations
    requires t.evidence == s.evidence || (e.marketId !in s.evidence && t.evidence == s.evidence[e.marketId := e])
    ensures WorldGrows(s, t)
  {}

  lemma ResolutionIsRemembered(s: LedgerState, r: MarketResolution)
    requires ApplyResolution(s, r).Ok?
    ensures var t := ApplyResolution(s, r).value;
            WorldGrows(s, t) && r.marketId in t.resolutions && t.resolutions[r.marketId] == r
  {}

  lemma SettlementForgetsNothing(s: LedgerState, key: PositionKey, fee: nat)
    requires ApplySettlement(s, key, fee).Ok?
    ensures WorldGrows(s, ApplySettlement(s, key, fee).value)
  {
    hide MoneyFromUnitPrice, PayoutFor;
  }

  lemma ReportIsRemembered(s: LedgerState, body: EventBody)
    requires Reports(body) && ApplyBody(s, body).Ok?
    ensures Remembers(ApplyBody(s, body).value, body) && WorldGrows(s, ApplyBody(s, body).value)
  {
    hide ApplyObservation, ApplyEvidence, ApplyResolution, ApplySettlement, WorldGrows;
    match body
    case WeatherObservationRecorded(o) => ObservationIsRemembered(s, o);
    case ResolutionEvidenceRecorded(e) => EvidenceIsRemembered(s, e);
    case MarketResolved(r) => ResolutionIsRemembered(s, r);
    case PositionSettled(key, fee) => SettlementForgetsNothing(s, key, fee);
    case _ =>
  }

  lemma {:induction false} PriorWithPayload(history: seq<Observation>, hash: Text)
    ensures WithPayload(history, hash).Some? ==> WithPayload(history, hash).value in history
    decreases |history|
  {
    if history != [] {
      PriorWithPayload(history[1..], hash);
    }
  }

  lemma RememberedStays(s: LedgerState, t: LedgerState, body: EventBody)
    requires Remembers(s, body) && WorldGrows(s, t)
    ensures Remembers(t, body)
  {}

  lemma StepRemembers(s: LedgerState, e: LedgerEvent)
    requires Invariant(s) && ApplyEvent(s, e).Ok? && e.eventId !in s.fingerprints
    ensures var t := ApplyEvent(s, e).value; WorldGrows(s, t) && Remembers(t, e.body)
  {
    hide ApplyBody, ApplyEvent, InvariantButAvailable, Remembers;
    AcceptedStep(s, e);
    InvariantGivesKeys(s);
    if Reports(e.body) {
      ReportIsRemembered(s, e.body);
    } else {
      OtherBodiesKeepRecords(s, e.body);
    }
    RememberedAnyway(ApplyEvent(s, e).value, ApplyBody(s, e.body).value, e.body);
  }

  lemma RememberedAnyway(t: LedgerState, u: LedgerState, body: EventBody)
    requires SameWorld(u, t) && (Reports(body) ==> Remembers(u, body))
    ensures Remembers(t, body)
  {}

  /** After every accepted log: each observation, piece of evidence and
      resolution it reported is there as it was reported. */
  lemma {:induction false} NothingReportedIsLost(events: seq<LedgerEvent>, e: LedgerEvent)
    requires Replay(events).Ok? && e in events
    ensures Remembers(Replay(events).value, e.body)
    decreases |events|
  {
    hide ApplyBody, ApplyEvent, InvariantButAvailable, Remembers, WorldGrows;
    var prefix, last := events[..|events| - 1], events[|events| - 1];
    assert events == prefix + [last];
    ReplaySplitsAtLast(EMPTY_LEDGER, events);
    ReachedIsOk(prefix);
    var s := Replay(prefix).value;
    AcceptedStep(s, last);
    if last.eventId !in s.fingerprints {
      StepRemembers(s, last);
      if e in prefix {
        NothingReportedIsLost(prefix, e);
        RememberedStays(s, Replay(events).value, e.body);
      }
    } else {
      ReplayRecords(prefix);
      NothingReportedIsLost(prefix, e);
    }
  }

  // ---- One measurement identity, one payout ----

  /** All terminal observations of a market measure the same thing. */
  predicate OneIdentity(history: seq<Observation>) {
    forall i :: 0 <= i < |Terminals(history)| ==> Terminals(history)[i].identity == Terminals(history)[0].identity
  }

  /** A settled position was paid what the recorded resolution assigns to its outcome. */
  predicate PaidAsResolved(s: LedgerState, key: PositionKey)
    requires key in s.positions
  {
    s.positions[key].status == Settled ==>
      && key.marketId in s.resolutions
      && s.positions[key].settlementPayout.Some?
      && s.positions[key].settlementPayout
         == PayoutFor(s.resolutions[key.marketId].payouts, key.outcomeId)
  }

  predicate WorldOk(s: LedgerState) {
    && (forall m :: m in s.observations ==> OneIdentity(s.observations[m]))
    && (forall key :: key in s.positions ==> PaidAsResolved(s, key))
  }

  lemma ExtensionKeepsIdentity(history: seq<Observation>, o: Observation)
    requires OneIdentity(history) && ObservationExtends(history, o).Ok?
    ensures OneIdentity(history + [o])
  {
    hide Terminals;
    TerminalsGrow(history, o);
  }

  lemma ObservationKeepsWorld(s: LedgerState, o: Observation)
    requires WorldOk(s) && ApplyObservation(s, o).Ok?
    ensures WorldOk(ApplyObservation(s, o).value)
  {
    hide OneIdentity, PayoutFor, ObservationExtends, WithPayload;
    var history, t := HistoryOf(s, o.marketId), ApplyObservation(s, o).value;
    NoIdentityYet();
    if WithPayload(history, o.payloadHash).None? {
      ExtensionKeepsIdentity(history, o);
    }
    forall key | key in t.positions ensures PaidAsResolved(t, key) {
      assert PaidAsResolved(s, key);
    }
  }

  lemma NoIdentityYet()
    ensures OneIdentity([])
  {}

  lemma ResolutionKeepsWorld(s: LedgerState, r: MarketResolution)
    requires WorldOk(s) && ApplyResolution(s, r).Ok?
    ensures WorldOk(ApplyResolution(s, r).value)
  {
    hide OneIdentity, PayoutFor;
    var t := ApplyResolution(s, r).value;
    forall key | key in t.positions ensures PaidAsResolved(t, key) {
      assert PaidAsResolved(s, key);
    }
  }

  lemma SettlementKeepsWorld(s: LedgerState, key: PositionKey, fee: nat)
    requires KeysMatch(s) && WorldOk(s) && ApplySettlement(s, key, fee).Ok?
    ensures WorldOk(ApplySettlement(s, key, fee).value)
  {
    hide OneIdentity, PayoutFor, MoneyFromUnitPrice;
    var t := ApplySettlement(s, key, fee).value;
    forall k | k in t.positions ensures PaidAsResolved(t, k) {
      assert PaidAsResolved(s, k);
    }
  }

  lemma EvidenceKeepsWorld(s: LedgerState, e: ResolutionEvidence)
    requires WorldOk(s) && ApplyEvidence(s, e).Ok?
    ensures WorldOk(ApplyEvidence(s, e).value)
  {
    hide OneIdentity, PayoutFor;
    var t := ApplyEvidence(s, e).value;
    forall key | key in t.positions ensures PaidAsResolved(t, key) {
      assert PaidAsResolved(s, key);
    }
  }

  lemma ReportKeepsWorld(s: LedgerState, body: EventBody)
    requires KeysMatch(s) && WorldOk(s) && Reports(body) && ApplyBody(s, body).Ok?
    ensures WorldOk(ApplyBody(s, body).value)
  {
    hide WorldOk, ApplyObservation, ApplyEvidence, ApplyResolution, ApplySettlement, KeysMatch;
    match body
    case WeatherObservationRecorded(o) => ObservationKeepsWorld(s, o);
    case ResolutionEvidenceRecorded(e) => EvidenceKeepsWorld(s, e);
    case MarketResolved(r) => ResolutionKeepsWorld(s, r);
    case PositionSettled(key, fee) => SettlementKeepsWorld(s, key, fee);
    case _ =>
  }

  lemma RecordsKeepWorld(s: LedgerState, t: LedgerState)
    requires WorldOk(s) && SameRecords(s, t)
    ensures WorldOk(t)
  {
    hide OneIdentity, PayoutFor;
    forall key | key in t.positions ensures PaidAsResolved(t, key) {
      assert key in s.positions ==> PaidAsResolved(s, key);
    }
  }

  /** In every reachable ledger the terminal observations of a market share one
      measurement identity, and every settled position was settled at the
      payout that the market's one resolution assigns to its outcome. */
  lemma {:induction false} WorldIsConsistent(events: seq<LedgerEvent>)
    requires Replay(events).Ok?
    ensures WorldOk(Replay(events).value)
    decreases |events|
  {
    hide ApplyBody, ApplyEvent, InvariantButAvailable, WorldOk;
    if events == [] {
      NothingKnown();
    } else {
      var prefix, e := events[..|events| - 1], events[|events| - 1];
      ReplaySplitsAtLast(EMPTY_LEDGER, events);
      WorldIsConsistent(prefix);
      ReachedIsOk(prefix);
      var s := Replay(prefix).value;
      AcceptedStep(s, e);
      InvariantGivesKeys(s);
      if e.eventId !in s.fingerprints {
        if Reports(e.body) {
          ReportKeepsWorld(s, e.body);
        } else {
          OtherBodiesKeepRecords(s, e.body);
          RecordsKeepWorld(s, ApplyBody(s, e.body).value);
        }
        RecordKeepsWorld(ApplyBody(s, e.body).value, e);
      }
    }
  }

  lemma RecordKeepsWorld(s: LedgerState, e: LedgerEvent)
    requires WorldOk(s)
    ensures WorldOk(Record(s, e))
  {
    hide OneIdentity, PayoutFor;
    forall key | key in s.positions ensures PaidAsResolved(Record(s, e), key) {
      assert PaidAsResolved(s, key);
    }
  }

  lemma NothingKnown()
    ensures WorldOk(EMPTY_LEDGER)
  {}

  // ---- What sales and settlements are worth ----

  /** Settling pays the position's quantity at the resolved payout, less the fee. */
  lemma SettlementPays(s: LedgerState, key: PositionKey, fee: nat, entry: OutcomePayout)
    requires KeysMatch(s) && ApplySettlement(s, key, fee).Ok?
    requires key.marketId in s.resolutions && entry in s.resolutions[key.marketId].payouts
    requires entry.outcomeId == key.outcomeId
    requires forall other :: other in s.resolutions[key.marketId].payouts && other.outcomeId == key.outcomeId ==>
                               other == entry
    ensures var t, p := ApplySettlement(s, key, fee).value, s.positions[key];
            var proceeds := t.cash - s.cash;
            && -500_000 <= entry.payout * p.quantity - 1_000_000 * (proceeds + fee) <= 500_000
            && t == s.(cash := t.cash, positions := s.positions[key := t.positions[key]])
            && t.positions[key]
               == Position(key, 0, 0, 0, p.realizedPnl + proceeds - p.costBasis, Settled, Some(entry.payout))
  {
    PayoutForFinds(s.resolutions[key.marketId].payouts, entry);
  }

  lemma {:induction false} PayoutForFinds(payouts: seq<OutcomePayout>, entry: OutcomePayout)
    requires entry in payouts
    requires forall other :: other in payouts && other.outcomeId == entry.outcomeId ==> other == entry
    ensures PayoutFor(payouts, entry.outcomeId) == Some(entry.payout)
    decreases |payouts|
  {
    if payouts[0].outcomeId != entry.outcomeId {
      PayoutForFinds(payouts[1..], entry);
    }
  }

  /** What a report adds: nothing if it is there already, otherwise itself. */
  lemma ReportsAddThemselves(s: LedgerState, body: EventBody)
    requires Reports(body) && !body.PositionSettled? && ApplyBody(s, body).Ok?
    ensures ApplyBody(s, body).value ==
            match body
            case WeatherObservationRecorded(o) =>
              var history := if o.marketId in s.observations then s.observations[o.marketId] else [];
              if o in history then s else s.(observations := s.observations[o.marketId := history + [o]])
            case ResolutionEvidenceRecorded(e) =>
              if e.marketId in s.evidence then s else s.(evidence := s.evidence[e.marketId := e])
            case MarketResolved(r) =>
              if r.marketId in s.resolutions then s else s.(resolutions := s.resolutions[r.marketId := r])
            case _ => s
  {
    hide ObservationExtends, ApplyEvidence, ApplyResolution;
    match body
    case WeatherObservationRecorded(o) => ObservationAddsItself(s, o);
    case ResolutionEvidenceRecorded(e) => EvidenceAddsItself(s, e);
    case MarketResolved(r) => ResolutionAddsItself(s, r);
    case _ =>
  }

  lemma ObservationAddsItself(s: LedgerState, o: Observation)
    requires ApplyObservation(s, o).Ok?
    ensures var history := if o.marketId in s.observations then s.observations[o.marketId] else [];
            ApplyObservation(s, o).value ==
            if o in history then s else s.(observations := s.observations[o.marketId := history + [o]])
  {
    hide ObservationExtends, WithPayload;
    PriorWithPayload(HistoryOf(s, o.marketId), o.payloadHash);
  }

  lemma EvidenceAddsItself(s: LedgerState, e: ResolutionEvidence)
    requires ApplyEvidence(s, e).Ok?
    ensures ApplyEvidence(s, e).value ==
            if e.marketId in s.evidence then s else s.(evidence := s.evidence[e.marketId := e])
  {}

  lemma ResolutionAddsItself(s: LedgerState, r: MarketResolution)
    requires ApplyResolution(s, r).Ok?
    ensures ApplyResolution(s, r).value ==
            if r.marketId in s.resolutions then s else s.(resolutions := s.resolutions[r.marketId := r])
  {}

  /** A sale takes out of the position the nearest whole share of its cost, and
      all of it with the last of the quantity. */
  lemma SaleAllocatesCost(s: LedgerState, o: OrderAggregate, fill: FillData, gross: int)
    requires KeysMatch(s) && ApplySellFill(s, o, fill, gross).Ok?
    ensures var key := o.intent.Key();
            var p, p' := s.positions[key], ApplySellFill(s, o, fill, gross).value.0.positions[key];
            var taken := p.costBasis - p'.costBasis;
            && p'.quantity == p.quantity - fill.quantity
            && p'.reservedQuantity == p.reservedQuantity - fill.quantity
            && p'.realizedPnl == p.realizedPnl + gross - fill.fee - taken
            && (if p'.quantity == 0 then p'.costBasis == 0
                else Nearest(p.costBasis * fill.quantity, p.quantity, taken))
  {
    hide Nearest;
  }
}
