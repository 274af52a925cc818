/** A position that holds nothing costs nothing, over every accepted log. */
module CostBasis {
  import opened Rounding
  import opened Model
  import opened Events
  import opened State
  import opened Reducers
  import opened LedgerRuns
  import opened Conservation

  predicate EmptyIsFree(s: LedgerState) {
    forall key :: key in s.positions && s.positions[key].quantity == 0 ==> s.positions[key].costBasis == 0
  }

  lemma SamePositionsSameCost(s: LedgerState, t: LedgerState)
    requires EmptyIsFree(s) && t.positions == s.positions
    ensures EmptyIsFree(t)
  {}

  lemma PositionIsFree(s: LedgerState, key: PositionKey)
    requires EmptyIsFree(s) && key in s.positions
    ensures s.positions[key].quantity == 0 ==> s.positions[key].costBasis == 0
  {}

  /** One position written, cash and reservations moved. */
  lemma WriteKeepsZeroCost(s: LedgerState, p: Position, t: LedgerState)
    requires EmptyIsFree(s) && (p.quantity == 0 ==> p.costBasis == 0)
    requires t.positions == s.positions[p.key := p]
    ensures EmptyIsFree(t)
  {}

  lemma ReleaseKeepsZeroCost(s: LedgerState, o: OrderAggregate)
    requires KeysMatch(s) && EmptyIsFree(s) && ReleaseReservations(s, o).Ok?
    ensures EmptyIsFree(ReleaseReservations(s, o).value.0)
  {
    hide EmptyIsFree;
    var t := ReleaseReservations(s, o).value.0;
    if o.intent.side == Buy {
      SamePositionsSameCost(s, t);
    } else {
      PositionIsFree(s, o.intent.Key());
      WriteKeepsZeroCost(s, t.positions[o.intent.Key()], t);
    }
  }

  lemma BuyKeepsZeroCost(s: LedgerState, o: OrderAggregate, fill: FillData, gross: int)
    requires KeysMatch(s) && EmptyIsFree(s) && ApplyBuyFill(s, o, fill, gross).Ok?
    requires 0 <= PositionOrEmpty(s, o.intent.Key()).quantity
    ensures EmptyIsFree(ApplyBuyFill(s, o, fill, gross).value.0)
  {
    hide MoneyFromUnitPrice, EmptyIsFree;
    var t := ApplyBuyFill(s, o, fill, gross).value.0;
    WriteKeepsZeroCost(s, t.positions[o.intent.Key()], t);
  }

  lemma SellKeepsZeroCost(s: LedgerState, o: OrderAggregate, fill: FillData, gross: int)
    requires KeysMatch(s) && EmptyIsFree(s) && ApplySellFill(s, o, fill, gross).Ok?
    ensures EmptyIsFree(ApplySellFill(s, o, fill, gross).value.0)
  {
    hide AllocatedCost, EmptyIsFree;
    var t := ApplySellFill(s, o, fill, gross).value.0;
    WriteKeepsZeroCost(s, t.positions[o.intent.Key()], t);
  }

  lemma BookingKeepsZeroCost(s: LedgerState, o: OrderAggregate, fill: FillData, gross: int)
    requires KeysMatch(s) && EmptyIsFree(s) && BookFill(s, o, fill, gross).Ok?
    requires 0 <= PositionOrEmpty(s, o.intent.Key()).quantity
    ensures EmptyIsFree(BookFill(s, o, fill, gross).value.0)
  {
    hide ApplyBuyFill, ApplySellFill, EmptyIsFree, PositionOrEmpty;
    if o.intent.side == Buy {
      BuyKeepsZeroCost(s, o, fill, gross);
    } else {
      SellKeepsZeroCost(s, o, fill, gross);
    }
  }

  lemma BookingKeepsKeys(s: LedgerState, o: OrderAggregate, fill: FillData, gross: int)
    requires KeysMatch(s) && BookFill(s, o, fill, gross).Ok?
    ensures KeysMatch(BookFill(s, o, fill, gross).value.0)
  {
    hide ApplyBuyFill, ApplySellFill, KeysMatch;
    if o.intent.side == Buy {
      BuyFillConserves(s, o, fill, gross);
    } else {
      SellFillConserves(s, o, fill, gross);
    }
  }

  lemma FillKeepsZeroCost(s: LedgerState, fill: FillData)
    requires KeysMatch(s) && EmptyIsFree(s) && ApplyFill(s, fill).Ok? && fill.intentId in s.orders
    requires 0 <= PositionOrEmpty(s, s.orders[fill.intentId].intent.Key()).quantity
    ensures EmptyIsFree(ApplyFill(s, fill).value)
  {
    hide MoneyFromUnitPrice, BookFill, ReleaseReservations, EmptyIsFree, KeysMatch, PositionOrEmpty;
    var o := s.orders[fill.intentId];
    if fill.fillId !in o.fills {
      var gross := MoneyFromUnitPrice(fill.price, fill.quantity);
      BookingKeepsZeroCost(s, o, fill, gross);
      BookingKeepsKeys(s, o, fill, gross);
      var (s', o') := BookFill(s, o, fill, gross).value;
      var filled := WithFill(o', fill, gross);
      if filled.state == Filled {
        ReleaseKeepsZeroCost(s', filled);
        SamePositionsSameCost(ReleaseReservations(s', filled).value.0, ApplyFill(s, fill).value);
      } else {
        SamePositionsSameCost(s', ApplyFill(s, fill).value);
      }
    }
  }

  lemma IntentKeepsZeroCost(s: LedgerState, intent: OrderIntent)
    requires KeysMatch(s) && EmptyIsFree(s) && ApplyIntentCreated(s, intent).Ok?
    ensures EmptyIsFree(ApplyIntentCreated(s, intent).value)
  {
    hide MoneyFromUnitPrice, EmptyIsFree;
    var t := ApplyIntentCreated(s, intent).value;
    if intent.intentId in s.orders || intent.side == Buy {
      SamePositionsSameCost(s, t);
    } else {
      PositionIsFree(s, intent.Key());
      WriteKeepsZeroCost(s, t.positions[intent.Key()], t);
    }
  }

  lemma TerminalKeepsZeroCost(s: LedgerState, id: IntentId, target: OrderState, reason: Text)
    requires KeysMatch(s) && EmptyIsFree(s) && ApplyTerminal(s, id, target, reason).Ok?
    ensures EmptyIsFree(ApplyTerminal(s, id, target, reason).value)
  {
    hide ReleaseReservations, EmptyIsFree, KeysMatch;
    ReleaseKeepsZeroCost(s, s.orders[id]);
    SamePositionsSameCost(ReleaseReservations(s, s.orders[id]).value.0, ApplyTerminal(s, id, target, reason).value);
  }

  lemma SettlementKeepsZeroCost(s: LedgerState, key: PositionKey, fee: nat)
    requires KeysMatch(s) && EmptyIsFree(s) && ApplySettlement(s, key, fee).Ok?
    ensures EmptyIsFree(ApplySettlement(s, key, fee).value)
  {
    hide MoneyFromUnitPrice, PayoutFor, EmptyIsFree;
    var t := ApplySettlement(s, key, fee).value;
    WriteKeepsZeroCost(s, t.positions[key], t);
  }

  lemma OrdersPositionIsNonNegative(s: LedgerState, key: PositionKey)
    requires Invariant(s)
    ensures 0 <= PositionOrEmpty(s, key).quantity
  {
    hide OrdersOk, ObservationsOk, EvidenceAgrees;
  }

  lemma BodyKeepsZeroCost(s: LedgerState, body: EventBody)
    requires Invariant(s) && EmptyIsFree(s) && ApplyBody(s, body).Ok?
    ensures EmptyIsFree(ApplyBody(s, body).value)
  {
    hide ApplyFill, ApplySettlement, ApplyTerminal, ApplyIntentCreated, InvariantButAvailable, KeysMatch, EmptyIsFree,
         ObservationExtends, WithPayload, MarkTotal, PositionOrEmpty;
    InvariantGivesKeys(s);
    match body
    case FillReceived(fill) =>
      FillEffects(s, fill);
      OrdersPositionIsNonNegative(s, s.orders[fill.intentId].intent.Key());
      FillKeepsZeroCost(s, fill);
    case OrderIntentCreated(intent) => IntentKeepsZeroCost(s, intent);
    case OrderRejected(id, reason) => TerminalKeepsZeroCost(s, id, Rejected, reason);
    case OrderCancelled(id, reason) => TerminalKeepsZeroCost(s, id, Cancelled, reason);
    case PositionSettled(key, fee) => SettlementKeepsZeroCost(s, key, fee);
    case _ => SamePositionsSameCost(s, ApplyBody(s, body).value);
  }

  /** Over every accepted log, a position with no quantity has no cost. */
  lemma {:induction false} EmptyPositionsCostNothing(events: seq<LedgerEvent>)
    requires Replay(events).Ok?
    ensures EmptyIsFree(Replay(events).value)
    decreases |events|
  {
    hide ApplyBody, ApplyEvent, InvariantButAvailable;
    if events != [] {
      var prefix, e := events[..|events| - 1], events[|events| - 1];
      ReplaySplitsAtLast(EMPTY_LEDGER, events);
      EmptyPositionsCostNothing(prefix);
      ReachedIsOk(prefix);
      var s := Replay(prefix).value;
      AcceptedStep(s, e);
      if e.eventId !in s.fingerprints {
        BodyKeepsZeroCost(s, e.body);
      }
    }
  }
}
