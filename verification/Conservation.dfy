/** Cash is conserved: what a ledger holds, what its positions cost and what it has realized. */
module Conservation {
  import opened Rounding
  import opened MapSums
  import opened Model
  import opened Events
  import opened State
  import opened Reducers
  import opened LedgerRuns

  function CostOf(p: Position): int {
    p.costBasis
  }

  function PnlOf(p: Position): int {
    p.realizedPnl
  }

  /** Cash plus everything open positions cost, less everything realized. */
  ghost function BookValue(s: LedgerState): int {
    s.cash + Total(s.positions, CostOf) - Total(s.positions, PnlOf)
  }

  lemma PositionWriteMovesBook(s: LedgerState, p: Position)
    ensures BookValue(ReplacePosition(s, p))
            == BookValue(s) + p.costBasis - p.realizedPnl
               - PositionOrEmpty(s, p.key).costBasis + PositionOrEmpty(s, p.key).realizedPnl
  {
    TotalUpdate(s.positions, CostOf, p.key, p);
    TotalUpdate(s.positions, PnlOf, p.key, p);
  }

  /** Positions are stored under their own key. */
  predicate KeysMatch(s: LedgerState) {
    forall key :: key in s.positions ==> s.positions[key].key == key
  }

  lemma ReleaseConserves(s: LedgerState, o: OrderAggregate)
    requires KeysMatch(s) && ReleaseReservations(s, o).Ok?
    ensures BookValue(ReleaseReservations(s, o).value.0) == BookValue(s)
    ensures KeysMatch(ReleaseReservations(s, o).value.0)
  {
    if o.intent.side == Sell {
      var p := s.positions[o.intent.Key()];
      PositionWriteMovesBook(
        s, p.(reservedQuantity := p.reservedQuantity - o.reservedQuantity));
    }
  }

  lemma BuyFillConserves(s: LedgerState, o: OrderAggregate, fill: FillData, gross: int)
    requires KeysMatch(s) && ApplyBuyFill(s, o, fill, gross).Ok?
    ensures BookValue(ApplyBuyFill(s, o, fill, gross).value.0) == BookValue(s)
    ensures KeysMatch(ApplyBuyFill(s, o, fill, gross).value.0)
  {
    hide MoneyFromUnitPrice;
    var s' := ApplyBuyFill(s, o, fill, gross).value.0;
    PositionWriteMovesBook(s.(cash := s'.cash, reservedCash := s'.reservedCash),
                           s'.positions[o.intent.Key()]);
  }

  lemma SellFillConserves(s: LedgerState, o: OrderAggregate, fill: FillData, gross: int)
    requires KeysMatch(s) && ApplySellFill(s, o, fill, gross).Ok?
    ensures BookValue(ApplySellFill(s, o, fill, gross).value.0) == BookValue(s)
    ensures KeysMatch(ApplySellFill(s, o, fill, gross).value.0)
  {
    hide Scale;
    var s' := ApplySellFill(s, o, fill, gross).value.0;
    PositionWriteMovesBook(s.(cash := s'.cash), s'.positions[o.intent.Key()]);
  }

  lemma FillConserves(s: LedgerState, fill: FillData)
    requires KeysMatch(s) && ApplyFill(s, fill).Ok?
    ensures BookValue(ApplyFill(s, fill).value) == BookValue(s)
  {
    hide MoneyFromUnitPrice, KeysMatch, ApplyBuyFill, ApplySellFill, ReleaseReservations;
    var o := s.orders[fill.intentId];
    if fill.fillId !in o.fills {
      var gross := MoneyFromUnitPrice(fill.price, fill.quantity);
      if o.intent.side == Buy {
        BuyFillConserves(s, o, fill, gross);
      } else {
        SellFillConserves(s, o, fill, gross);
      }
      var (s', o') := BookFill(s, o, fill, gross).value;
      var filled := WithFill(o', fill, gross);
      if filled.state == Filled {
        ReleaseConserves(s', filled);
      }
    }
  }

  lemma SettlementConserves(s: LedgerState, key: PositionKey, fee: nat)
    requires KeysMatch(s) && ApplySettlement(s, key, fee).Ok?
    ensures BookValue(ApplySettlement(s, key, fee).value) == BookValue(s)
  {
    hide MoneyFromUnitPrice, PayoutFor;
    var t := ApplySettlement(s, key, fee).value;
    PositionWriteMovesBook(s.(cash := t.cash), t.positions[key]);
  }

  lemma IntentConserves(s: LedgerState, intent: OrderIntent)
    requires KeysMatch(s) && ApplyIntentCreated(s, intent).Ok?
    ensures BookValue(ApplyIntentCreated(s, intent).value) == BookValue(s)
  {
    hide MoneyFromUnitPrice;
    if intent.intentId !in s.orders && intent.side == Sell {
      var p := s.positions[intent.Key()];
      PositionWriteMovesBook(s, p.(reservedQuantity := p.reservedQuantity + intent.quantity));
    }
  }

  lemma TerminalConserves(s: LedgerState, id: IntentId, target: OrderState, reason: Text)
    requires KeysMatch(s) && ApplyTerminal(s, id, target, reason).Ok?
    ensures BookValue(ApplyTerminal(s, id, target, reason).value) == BookValue(s)
  {
    ReleaseConserves(s, s.orders[id]);
  }

  /** Only opening the account changes the book value. */
  lemma BodyConserves(s: LedgerState, body: EventBody)
    requires KeysMatch(s) && ApplyBody(s, body).Ok?
    ensures var t := ApplyBody(s, body).value;
            BookValue(t) == BookValue(s)
                            + if body.AccountOpened? then body.initialCash - s.cash else 0
  {
    hide ApplyFill, ApplySettlement, ApplyTerminal, ApplyIntentCreated, KeysMatch, ObservationExtends, WithPayload;
    match body
    case FillReceived(fill) => FillConserves(s, fill);
    case PositionSettled(key, fee) => SettlementConserves(s, key, fee);
    case OrderIntentCreated(intent) => IntentConserves(s, intent);
    case OrderRejected(id, reason) => TerminalConserves(s, id, Rejected, reason);
    case OrderCancelled(id, reason) => TerminalConserves(s, id, Cancelled, reason);
    case _ =>
  }

  /** The cash of the first account opening in a log, as the status report reads it. */
  function InitialCash(events: seq<LedgerEvent>): Option<nat> {
    if events == [] then None
    else
      var before := InitialCash(events[..|events| - 1]);
      var last := events[|events| - 1].body;
      if before.None? && last.AccountOpened? then Some(last.initialCash) else before
  }

  /** After every accepted log, to the micro-unit: cash plus the cost of all
      positions is the initial cash plus all realized profit and loss. */
  lemma {:induction false} CashIsConserved(events: seq<LedgerEvent>)
    requires Replay(events).Ok?
    ensures var s := Replay(events).value;
            && (s.isOpen <==> InitialCash(events).Some?)
            && s.cash + Total(s.positions, CostOf)
               == (if s.isOpen then InitialCash(events).value else 0) + Total(s.positions, PnlOf)
    decreases |events|
  {
    hide ApplyBody, InvariantButAvailable, ApplyEvent;
    if events != [] {
      var prefix, e := events[..|events| - 1], events[|events| - 1];
      ReplaySplitsAtLast(EMPTY_LEDGER, events);
      CashIsConserved(prefix);
      ReachedIsOk(prefix);
      var s := Replay(prefix).value;
      AcceptedStep(s, e);
      InvariantGivesKeys(s);
      if e.eventId !in s.fingerprints {
        BodyConserves(s, e.body);
        BodyFrame(s, e.body);
      } else {
        RecordedOpeningWasSeen(prefix, e);
      }
    }
  }

  lemma InvariantGivesKeys(s: LedgerState)
    requires Invariant(s)
    ensures KeysMatch(s) && (!s.isOpen ==> s.cash == 0)
  {}

  lemma RecordedOpeningWasSeen(prefix: seq<LedgerEvent>, e: LedgerEvent)
    requires Replay(prefix).Ok? && e.eventId in Replay(prefix).value.fingerprints
    requires Replay(prefix).value.fingerprints[e.eventId] == e
    ensures e.body.AccountOpened? ==> InitialCash(prefix).Some?
  {
    hide ApplyBody, InvariantButAvailable, ApplyEvent;
    ReplayRecords(prefix);
    if e.body.AccountOpened? {
      OpeningIsFound(prefix, e);
    }
  }

  lemma {:induction false} OpeningIsFound(events: seq<LedgerEvent>, e: LedgerEvent)
    requires e in events && e.body.AccountOpened?
    ensures InitialCash(events).Some?
    decreases |events|
  {
    if e != events[|events| - 1] {
      OpeningIsFound(events[..|events| - 1], e);
    }
  }
}
