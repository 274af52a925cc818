/** Resuming a plan from any point at which it was interrupted. */
module PaperRecovery {
  import opened Rounding
  import opened Model
  import opened Events
  import opened State
  import opened Reducers
  import opened LedgerRuns
  import opened LifecycleSteps
  import opened PaperPlan
  import opened PaperLedger

  /** The same cash, reservations, positions, orders and records of the world;
      only the applied event identifiers may differ. */
  predicate SameLedger(t: LedgerState, u: LedgerState) {
    u == t.(fingerprints := u.fingerprints)
  }

  /** `u` is `t`, except that the order's outcome may be marked unknown. */
  predicate Tracks(t: LedgerState, u: LedgerState, id: IntentId) {
    && id in t.orders && id in u.orders
    && u == t.(fingerprints := u.fingerprints, orders := t.orders[id := u.orders[id]])
    && (u.orders[id] == t.orders[id] || u.orders[id] == Doubtful(t.orders[id], u.orders[id].unknownReason))
  }

  function Doubtful(o: OrderAggregate, reason: Option<Text>): OrderAggregate {
    o.(state := Unknown, unknownReason := reason)
  }

  /** An event that decides the order's next state whether or not its outcome was unknown. */
  predicate Decides(t: LedgerState, u: LedgerState, id: IntentId, body: EventBody)
    requires id in t.orders && id in u.orders
  {
    var from, from' := t.orders[id].state, u.orders[id].state;
    match body
    case OrderSubmitted(i, _) =>
      i == id && Submitted in AllowedTransitions(from) * AllowedTransitions(from')
    case OrderAcknowledged(i) =>
      i == id && Acknowledged in AllowedTransitions(from) * AllowedTransitions(from')
    case FillReceived(fill) =>
      fill.intentId == id
      && FillTarget(t.orders[id], fill.quantity) in AllowedTransitions(from) * AllowedTransitions(from')
    case OrderRejected(i, _) =>
      i == id && Rejected in AllowedTransitions(from) * AllowedTransitions(from')
    case OrderCancelled(i, _) =>
      i == id && Cancelled in AllowedTransitions(from) * AllowedTransitions(from')
    case _ => false
  }

  // ---- One step brings the two ledgers together ----

  lemma AcknowledgementDecides(t: LedgerState, u: LedgerState, id: IntentId)
    requires IdsMatch(t.orders) && Tracks(t, u, id) && Decides(t, u, id, OrderAcknowledged(id))
    ensures ApplyAcknowledged(t, id).Ok? && ApplyAcknowledged(u, id).Ok?
    ensures SameLedger(ApplyAcknowledged(t, id).value, ApplyAcknowledged(u, id).value)
  {}

  /** The same money and positions beside other orders and records. */
  function Beside(t: LedgerState, u: LedgerState): LedgerState {
    t.(orders := u.orders, fingerprints := u.fingerprints)
  }

  /** The same order under another label. */
  function Labelled(o: OrderAggregate, mark: OrderAggregate): OrderAggregate {
    o.(state := mark.state, unknownReason := mark.unknownReason)
  }

  lemma BesidePositions(t: LedgerState, u: LedgerState, p: Position)
    ensures ReplacePosition(Beside(t, u), p) == Beside(ReplacePosition(t, p), u)
  {}

  lemma BesideCash(t: LedgerState, u: LedgerState, cash: int, reserved: int)
    ensures Beside(t, u).(cash := cash, reservedCash := reserved)
            == Beside(t.(cash := cash, reservedCash := reserved), u)
  {}

  lemma ReleaseFrame(t: LedgerState, u: LedgerState, o: OrderAggregate, mark: OrderAggregate)
    ensures var r, r' := ReleaseReservations(t, o), ReleaseReservations(Beside(t, u), Labelled(o, mark));
            && (r.Ok? <==> r'.Ok?)
            && (r.Ok? ==> r'.value == (Beside(r.value.0, u), Labelled(r.value.1, mark)))
  {
    hide ReplacePosition;
    var key := o.intent.Key();
    if o.intent.side == Sell && key in t.positions {
      var p := t.positions[key];
      BesidePositions(t, u, p.(reservedQuantity := p.reservedQuantity - o.reservedQuantity));
    }
  }

  lemma BuyFillFrame(
    t: LedgerState, u: LedgerState, o: OrderAggregate, mark: OrderAggregate, fill: FillData, gross: int)
    ensures var r := ApplyBuyFill(t, o, fill, gross);
            var r' := ApplyBuyFill(Beside(t, u), Labelled(o, mark), fill, gross);
            && (r.Ok? <==> r'.Ok?)
            && (r.Ok? ==> r'.value == (Beside(r.value.0, u), Labelled(r.value.1, mark)))
  {
    hide MoneyFromUnitPrice, ReplacePosition, PositionOrEmpty;
    var feesLeft := o.intent.feeReserve - o.fees;
    var still := MoneyFromUnitPrice(o.intent.limitPrice, o.Remaining() - fill.quantity)
                 + (feesLeft - fill.fee);
    var debit, p := gross + fill.fee, PositionOrEmpty(t, o.intent.Key());
    var cash, reserved := t.cash - debit, t.reservedCash - (o.reservedCash - still);
    SamePositions(t, u, o.intent.Key());
    BesideCash(t, u, cash, reserved);
    BesidePositions(t.(cash := cash, reservedCash := reserved), u,
                    p.(quantity := p.quantity + fill.quantity, costBasis := p.costBasis + debit));
  }

  lemma SamePositions(t: LedgerState, u: LedgerState, key: PositionKey)
    ensures PositionOrEmpty(Beside(t, u), key) == PositionOrEmpty(t, key)
  {}

  lemma SellFillFrame(
    t: LedgerState, u: LedgerState, o: OrderAggregate, mark: OrderAggregate, fill: FillData, gross: int)
    ensures var r := ApplySellFill(t, o, fill, gross);
            var r' := ApplySellFill(Beside(t, u), Labelled(o, mark), fill, gross);
            && (r.Ok? <==> r'.Ok?)
            && (r.Ok? ==> r'.value == (Beside(r.value.0, u), Labelled(r.value.1, mark)))
  {
    hide AllocatedCost;
  }

  /** Booking a fill sees the same money, position and reservations. */
  lemma BookingFrame(
    t: LedgerState, u: LedgerState, o: OrderAggregate, mark: OrderAggregate, fill: FillData, gross: int)
    ensures var r := BookFill(t, o, fill, gross);
            var r' := BookFill(Beside(t, u), Labelled(o, mark), fill, gross);
            && (r.Ok? <==> r'.Ok?)
            && (r.Ok? ==> r'.value == (Beside(r.value.0, u), Labelled(r.value.1, mark)))
  {
    hide ApplyBuyFill, ApplySellFill;
    BuyFillFrame(t, u, o, mark, fill, gross);
    SellFillFrame(t, u, o, mark, fill, gross);
  }

  lemma TracksIsBeside(t: LedgerState, u: LedgerState, id: IntentId)
    requires Tracks(t, u, id)
    ensures id in t.orders && id in u.orders
    ensures u == Beside(t, u) && u.orders[id] == Labelled(t.orders[id], u.orders[id])
    ensures u.orders == t.orders[id := u.orders[id]]
  {}

  lemma RewriteAgrees(t: LedgerState, u: LedgerState, id: IntentId, o: OrderAggregate)
    requires id in u.orders && u.orders == t.orders[id := u.orders[id]] && o.intent.intentId == id
    ensures SameLedger(ReplaceOrder(t, o), ReplaceOrder(Beside(t, u), o))
  {
    assert u.orders[id := o] == t.orders[id := o];
  }

  lemma TerminalDecides(t: LedgerState, u: LedgerState, id: IntentId, target: OrderState, reason: Text)
    requires IdsMatch(t.orders) && Tracks(t, u, id)
    requires target in AllowedTransitions(t.orders[id].state) * AllowedTransitions(u.orders[id].state)
    ensures ApplyTerminal(t, id, target, reason).Ok? <==> ApplyTerminal(u, id, target, reason).Ok?
    ensures ApplyTerminal(t, id, target, reason).Ok? ==>
              SameLedger(ApplyTerminal(t, id, target, reason).value,
                         ApplyTerminal(u, id, target, reason).value)
  {
    hide ReleaseReservations, Tracks, SameLedger;
    TracksIsBeside(t, u, id);
    var o := t.orders[id];
    ReleaseFrame(t, u, o, u.orders[id]);
    if ReleaseReservations(t, o).Ok? {
      ReleaseEffects(t, o);
      var (t', o') := ReleaseReservations(t, o).value;
      RewriteAgrees(t', u, id, o'.(state := target, terminalReason := Some(reason), unknownReason := None));
    }
  }

  lemma FillDecides(t: LedgerState, u: LedgerState, id: IntentId, fill: FillData)
    requires IdsMatch(t.orders) && Tracks(t, u, id) && Decides(t, u, id, FillReceived(fill))
    requires fill.fillId !in t.orders[id].fills
    ensures ApplyFill(t, fill).Ok? <==> ApplyFill(u, fill).Ok?
    ensures ApplyFill(t, fill).Ok? ==> SameLedger(ApplyFill(t, fill).value, ApplyFill(u, fill).value)
  {
    hide MoneyFromUnitPrice, BookFill, ReleaseReservations, Tracks, SameLedger;
    TracksIsBeside(t, u, id);
    var o, gross := t.orders[id], MoneyFromUnitPrice(fill.price, fill.quantity);
    BookingFrame(t, u, o, u.orders[id], fill, gross);
    if BookFill(t, o, fill, gross).Ok? {
      BookingEffects(t, o, fill, gross);
      var (t', o') := BookFill(t, o, fill, gross).value;
      var filled := WithFill(o', fill, gross);
      assert WithFill(Labelled(o', u.orders[id]), fill, gross) == filled;
      ReleaseFrame(t', u, filled, filled);
      if filled.state == Filled && ReleaseReservations(t', filled).Ok? {
        ReleaseEffects(t', filled);
        RewriteAgrees(ReleaseReservations(t', filled).value.0, u, id,
                      ReleaseReservations(t', filled).value.1);
      }
      RewriteAgrees(t', u, id, filled);
    }
  }

  lemma SubmissionDecides(t: LedgerState, u: LedgerState, id: IntentId, backend: Identifier)
    requires IdsMatch(t.orders) && Tracks(t, u, id) && Decides(t, u, id, OrderSubmitted(id, backend))
    ensures ApplySubmitted(t, id, backend).Ok? <==> ApplySubmitted(u, id, backend).Ok?
    ensures ApplySubmitted(t, id, backend).Ok? ==>
              SameLedger(ApplySubmitted(t, id, backend).value, ApplySubmitted(u, id, backend).value)
  {}

  lemma BodyDecides(t: LedgerState, u: LedgerState, id: IntentId, body: EventBody)
    requires IdsMatch(t.orders) && Tracks(t, u, id) && Decides(t, u, id, body)
    requires body.FillReceived? ==> body.fill.fillId !in t.orders[id].fills
    ensures ApplyBody(t, body).Ok? <==> ApplyBody(u, body).Ok?
    ensures ApplyBody(t, body).Ok? ==> SameLedger(ApplyBody(t, body).value, ApplyBody(u, body).value)
  {
    hide ApplyFill, ApplyTerminal, ApplyAcknowledged, ApplySubmitted, Tracks, SameLedger,
         ApplyIntentCreated, ApplySettlement, ApplyObservation, ApplyValuation, ApplyEvidence,
         ApplyResolution, ApplyAccountOpened, ApplyUnknown, FillTarget, AllowedTransitions, IdsMatch;
    TracksIsBeside(t, u, id);
    match body
    case OrderSubmitted(_, backend) => SubmissionDecides(t, u, id, backend);
    case OrderAcknowledged(_) => AcknowledgementDecides(t, u, id);
    case FillReceived(fill) => FillDecides(t, u, id, fill);
    case OrderRejected(_, reason) => TerminalDecides(t, u, id, Rejected, reason);
    case OrderCancelled(_, reason) => TerminalDecides(t, u, id, Cancelled, reason);
  }

  lemma SameInvariant(t: LedgerState, u: LedgerState)
    requires SameLedger(t, u)
    ensures Invariant(t) == Invariant(u)
  {}

  lemma RecordAgrees(t: LedgerState, u: LedgerState, e: LedgerEvent)
    requires SameLedger(t, u)
    ensures SameLedger(Record(t, e), Record(u, e))
  {}

  /** A new deciding event is accepted by both ledgers or by neither, and
      leaves them the same. */
  lemma StepAgrees(t: LedgerState, u: LedgerState, id: IntentId, e: LedgerEvent)
    requires Invariant(t) && Tracks(t, u, id) && Decides(t, u, id, e.body)
    requires e.body.FillReceived? ==> e.body.fill.fillId !in t.orders[id].fills
    requires e.eventId !in t.fingerprints && e.eventId !in u.fingerprints
    ensures ApplyEvent(t, e).Ok? <==> ApplyEvent(u, e).Ok?
    ensures ApplyEvent(t, e).Ok? ==> SameLedger(ApplyEvent(t, e).value, ApplyEvent(u, e).value)
  {
    hide ApplyBody, InvariantButAvailable, SameLedger, Tracks;
    InvariantGivesIds(t);
    BodyDecides(t, u, id, e.body);
    if ApplyBody(t, e.body).Ok? {
      RecordAgrees(ApplyBody(t, e.body).value, ApplyBody(u, e.body).value, e);
      SameInvariant(Record(ApplyBody(t, e.body).value, e), Record(ApplyBody(u, e.body).value, e));
    }
  }

  // ---- The uninterrupted run, event by event ----

  ghost function Reached(s: LedgerState, plan: Plan, j: nat): Result<LedgerState>
    requires plan.Valid() && j <= |PlannedEvents(plan)|
  {
    ReplayFrom(s, PlannedEvents(plan)[..j])
  }

  lemma ReachedNext(s: LedgerState, plan: Plan, j: nat)
    requires plan.Valid() && j < |PlannedEvents(plan)|
    ensures var before := Reached(s, plan, j);
            Reached(s, plan, j + 1)
            == if before.Ok? then ApplyEvent(before.value, PlannedEvents(plan)[j]) else before
  {
    hide PlannedEvents, ApplyEvent;
    var events := PlannedEvents(plan);
    assert events[..j + 1] == events[..j] + [events[j]];
    ReplayNext(s, events[..j], events[j]);
  }

  /** The order's state after `j` planned events. */
  function StateAt(status: PlanStatus, j: nat): OrderState {
    match j
    case 0 => Created
    case 1 => Submitted
    case 2 => if status == Refused then Rejected else Acknowledged
    case 3 => if status == FullFill then Filled else PartiallyFilled
    case _ => Cancelled
  }

  /** What is known of the ledger after `j` planned events. */
  ghost predicate At(t: LedgerState, intent: OrderIntent, plan: Plan, j: nat)
    requires plan.Valid() && j <= |PlannedEvents(plan)|
  {
    && Invariant(t)
    && intent.intentId in t.orders
    && var o := t.orders[intent.intentId];
    && o.intent == intent
    && o.state == StateAt(plan.status, j)
    && (j <= 2 ==> o.fills == map[] && o.filledQuantity == 0)
    && forall i :: j <= i < |PlannedEvents(plan)| ==> PlannedEvents(plan)[i].eventId !in t.fingerprints
  }

  /** The state a lifecycle event puts its order in. */
  function Target(o: OrderAggregate, body: EventBody): OrderState {
    match body
    case OrderSubmitted(_, _) => Submitted
    case OrderAcknowledged(_) => Acknowledged
    case OrderRejected(_, _) => Rejected
    case OrderCancelled(_, _) => Cancelled
    case FillReceived(fill) => FillTarget(o, fill.quantity)
    case _ => Unknown
  }

  /** The order after a lifecycle event: its state is the event's target. */
  predicate Follows(o: OrderAggregate, o': OrderAggregate, body: EventBody) {
    && o'.intent == o.intent
    && o'.state == Target(o, body)
    && (!body.FillReceived? ==> o'.fills == o.fills && o'.filledQuantity == o.filledQuantity)
  }

  lemma FillFollows(t: LedgerState, fill: FillData)
    requires IdsMatch(t.orders) && ApplyFill(t, fill).Ok?
    requires fill.fillId !in t.orders[fill.intentId].fills
    ensures var t' := ApplyFill(t, fill).value;
            fill.intentId in t'.orders
            && Follows(t.orders[fill.intentId], t'.orders[fill.intentId], FillReceived(fill))
  {
    hide MoneyFromUnitPrice, ApplyFill;
    FillEffects(t, fill);
  }

  lemma TerminalFollows(t: LedgerState, id: IntentId, target: OrderState, reason: Text, body: EventBody)
    requires IdsMatch(t.orders) && ApplyTerminal(t, id, target, reason).Ok?
    requires !body.FillReceived? && Target(t.orders[id], body) == target
    ensures var t' := ApplyTerminal(t, id, target, reason).value;
            id in t'.orders && Follows(t.orders[id], t'.orders[id], body)
  {
    hide ReleaseReservations, FillTarget;
    ReleaseEffects(t, t.orders[id]);
  }

  lemma RelabelFollows(t: LedgerState, id: IntentId, body: EventBody)
    requires body.OrderSubmitted? || body.OrderAcknowledged? || body.OrderOutcomeUnknown?
    requires IdsMatch(t.orders) && id in t.orders && body.intentId == id && ApplyBody(t, body).Ok?
    ensures var t' := ApplyBody(t, body).value;
            id in t'.orders && Follows(t.orders[id], t'.orders[id], body)
  {}

  lemma BodyFollows(t: LedgerState, id: IntentId, body: EventBody)
    requires IdsMatch(t.orders) && id in t.orders && Concerns(body, id) && ApplyBody(t, body).Ok?
    requires body.FillReceived? ==> body.fill.fillId !in t.orders[id].fills
    ensures var t' := ApplyBody(t, body).value;
            id in t'.orders && Follows(t.orders[id], t'.orders[id], body)
  {
    hide ApplyFill, ApplyTerminal, FillTarget, Follows, IdsMatch, ApplySubmitted, ApplyAcknowledged, ApplyUnknown,
         ApplyIntentCreated, ApplySettlement, ApplyObservation, ApplyValuation, ApplyEvidence,
         ApplyResolution, ApplyAccountOpened;
    match body
    case FillReceived(fill) => FillFollows(t, fill);
    case OrderRejected(_, reason) => TerminalFollows(t, id, Rejected, reason, body);
    case OrderCancelled(_, reason) => TerminalFollows(t, id, Cancelled, reason, body);
    case _ => RelabelFollows(t, id, body);
  }

  lemma OrderAfter(t: LedgerState, id: IntentId, e: LedgerEvent)
    requires Invariant(t) && id in t.orders && Concerns(e.body, id)
    requires e.eventId !in t.fingerprints && ApplyEvent(t, e).Ok?
    requires e.body.FillReceived? ==> e.body.fill.fillId !in t.orders[id].fills
    ensures var t' := ApplyEvent(t, e).value;
            id in t'.orders && Follows(t.orders[id], t'.orders[id], e.body)
  {
    hide InvariantButAvailable, ApplyBody, ApplyEvent, Follows, Concerns, IdsMatch;
    AcceptedStep(t, e);
    InvariantGivesIds(t);
    BodyFollows(t, id, e.body);
  }

  lemma StepsAlong(t: LedgerState, intent: OrderIntent, plan: Plan, j: nat)
    requires Fits(intent, plan) && j < |PlannedEvents(plan)|
    requires At(t, intent, plan, j) && ApplyEvent(t, PlannedEvents(plan)[j]).Ok?
    ensures At(ApplyEvent(t, PlannedEvents(plan)[j]).value, intent, plan, j + 1)
  {
    hide InvariantButAvailable, MoneyFromUnitPrice, TotalFilled, ApplyBody, ApplyEvent;
    var e, id := PlannedEvents(plan)[j], intent.intentId;
    AcceptedStep(t, e);
    OrderAfter(t, id, e);
  }

  lemma {:induction false} ReachedFacts(s: LedgerState, intent: OrderIntent, plan: Plan, j: nat)
    requires Awaits(s, intent) && Fits(intent, plan) && j <= |PlannedEvents(plan)|
    requires Reached(s, plan, j).Ok?
    ensures At(Reached(s, plan, j).value, intent, plan, j)
  {
    hide InvariantButAvailable, MoneyFromUnitPrice, TotalFilled, ApplyEvent;
    if j > 0 {
      ReachedNext(s, plan, j - 1);
      ReachedFacts(s, intent, plan, j - 1);
      StepsAlong(Reached(s, plan, j - 1).value, intent, plan, j - 1);
    }
  }

  // ---- The interrupted run ----

  /** A report that the outcome of the order is unknown, under an identifier of its own. */
  predicate Doubt(e: LedgerEvent, id: IntentId) {
    && e.body.OrderOutcomeUnknown? && e.body.intentId == id
    && forall tag :: tag in PLAN_TAGS ==> e.eventId != PaperId(tag, id)
  }

  /** `run` is the first `j` planned events with doubts anywhere between them. */
  ghost predicate Interrupted(run: seq<LedgerEvent>, plan: Plan, j: nat)
    requires plan.Valid() && j <= |PlannedEvents(plan)|
    decreases |run|
  {
    if run == [] then j == 0
    else
      var prefix, last := run[..|run| - 1], run[|run| - 1];
      || (Doubt(last, plan.intentId) && Interrupted(prefix, plan, j))
      || (0 < j && last == PlannedEvents(plan)[j - 1] && Interrupted(prefix, plan, j - 1))
  }

  predicate Seen(u: LedgerState, planned: seq<LedgerEvent>, j: nat)
    requires j <= |planned|
  {
    forall i :: 0 <= i < j ==>
                  planned[i].eventId in u.fingerprints && u.fingerprints[planned[i].eventId] == planned[i]
  }

  predicate NotSeen(u: LedgerState, planned: seq<LedgerEvent>, j: nat)
    requires j <= |planned|
  {
    forall i :: j <= i < |planned| ==> planned[i].eventId !in u.fingerprints
  }

  /** A ledger from which the plan can go on after its first `j` events. */
  ghost predicate Resumable(s: LedgerState, u: LedgerState, plan: Plan, j: nat)
    requires plan.Valid() && j <= |PlannedEvents(plan)|
  {
    && Reached(s, plan, j).Ok?
    && Invariant(u)
    && Tracks(Reached(s, plan, j).value, u, plan.intentId)
    && NotSeen(u, PlannedEvents(plan), j)
    && (u.orders[plan.intentId].state == Unknown ==>
          Unknown in AllowedTransitions(StateAt(plan.status, j)))
  }

  lemma PlannedEventDecides(t: LedgerState, u: LedgerState, intent: OrderIntent, plan: Plan, j: nat)
    requires Fits(intent, plan) && j < |PlannedEvents(plan)|
    requires At(t, intent, plan, j) && Tracks(t, u, intent.intentId)
    requires u.orders[intent.intentId].state == Unknown ==>
               Unknown in AllowedTransitions(StateAt(plan.status, j))
    ensures Decides(t, u, intent.intentId, PlannedEvents(plan)[j].body)
  {
    hide InvariantButAvailable, MoneyFromUnitPrice, TotalFilled;
  }

  lemma PlannedFillIsNew(t: LedgerState, intent: OrderIntent, plan: Plan, j: nat)
    requires Fits(intent, plan) && j < |PlannedEvents(plan)| && At(t, intent, plan, j)
    ensures var e := PlannedEvents(plan)[j];
            && e.eventId !in t.fingerprints
            && (e.body.FillReceived? ==> e.body.fill.fillId !in t.orders[intent.intentId].fills)
  {
    hide InvariantButAvailable, MoneyFromUnitPrice, TotalFilled;
  }

  lemma PlannedIdsAreDistinct(plan: Plan, i: nat, j: nat)
    requires plan.Valid() && i < j < |PlannedEvents(plan)|
    ensures PlannedEvents(plan)[i].eventId != PlannedEvents(plan)[j].eventId
  {
    hide TotalFilled;
  }

  lemma StillNotSeen(u: LedgerState, plan: Plan, j: nat)
    requires plan.Valid() && j < |PlannedEvents(plan)| && NotSeen(u, PlannedEvents(plan), j)
    requires ApplyEvent(u, PlannedEvents(plan)[j]).Ok?
    ensures NotSeen(ApplyEvent(u, PlannedEvents(plan)[j]).value, PlannedEvents(plan), j + 1)
  {
    hide ApplyBody, InvariantButAvailable, ApplyEvent, PlannedEvents;
    var events := PlannedEvents(plan);
    AcceptedStep(u, events[j]);
    forall i | j + 1 <= i < |events| ensures events[i].eventId !in ApplyEvent(u, events[j]).value.fingerprints {
      PlannedIdsAreDistinct(plan, j, i);
    }
  }

  lemma SameLedgerTracks(t: LedgerState, u: LedgerState, id: IntentId)
    requires SameLedger(t, u) && id in t.orders
    ensures Tracks(t, u, id) && u.orders[id] == t.orders[id] && Invariant(t) == Invariant(u)
  {
    SameInvariant(t, u);
  }

  /** The next planned event has the same effect on both ledgers. */
  lemma NextPlanned(s: LedgerState, u: LedgerState, intent: OrderIntent, plan: Plan, j: nat)
    requires Awaits(s, intent) && Fits(intent, plan) && j < |PlannedEvents(plan)|
    requires Resumable(s, u, plan, j)
    ensures var r := ApplyEvent(u, PlannedEvents(plan)[j]);
            && (r.Ok? <==> Reached(s, plan, j + 1).Ok?)
            && (r.Ok? ==> Resumable(s, r.value, plan, j + 1)
                          && SameLedger(Reached(s, plan, j + 1).value, r.value))
  {
    hide InvariantButAvailable, MoneyFromUnitPrice, TotalFilled, ApplyEvent, Reached, Decides, PlannedEvents,
         SameLedger, Tracks, Awaits;
    var t, e := Reached(s, plan, j).value, PlannedEvents(plan)[j];
    ReachedNext(s, plan, j);
    ReachedFacts(s, intent, plan, j);
    PlannedEventDecides(t, u, intent, plan, j);
    PlannedFillIsNew(t, intent, plan, j);
    StepAgrees(t, u, intent.intentId, e);
    if ApplyEvent(u, e).Ok? {
      ReachedFacts(s, intent, plan, j + 1);
      SameLedgerTracks(Reached(s, plan, j + 1).value, ApplyEvent(u, e).value, intent.intentId);
      StillNotSeen(u, plan, j);
      StateIsUnlikeUnknown(plan.status, j + 1);
    }
  }

  lemma StateIsUnlikeUnknown(status: PlanStatus, j: nat)
    ensures StateAt(status, j) != Unknown
  {}

  lemma DoubtChangesOnlyTheLabel(s: LedgerState, u: LedgerState, intent: OrderIntent, plan: Plan, j: nat, e: LedgerEvent)
    requires Awaits(s, intent) && Fits(intent, plan) && j <= |PlannedEvents(plan)|
    requires Resumable(s, u, plan, j) && Doubt(e, plan.intentId) && ApplyEvent(u, e).Ok?
    ensures Resumable(s, ApplyEvent(u, e).value, plan, j)
  {
    hide InvariantButAvailable, MoneyFromUnitPrice, TotalFilled, ApplyBody, ApplyEvent, Reached, StateAt;
    var t, v := Reached(s, plan, j).value, ApplyEvent(u, e).value;
    AcceptedStep(u, e);
    if e.eventId !in u.fingerprints {
      ReachedFacts(s, intent, plan, j);
      InvariantGivesIds(u);
      UnknownIsApplied(u, e);
      UnknownTracks(t, u, plan.intentId, e.body.reason);
    }
  }

  lemma UnknownIsApplied(u: LedgerState, e: LedgerEvent)
    requires e.body.OrderOutcomeUnknown?
    ensures ApplyBody(u, e.body) == ApplyUnknown(u, e.body.intentId, e.body.reason)
  {}

  lemma UnknownTracks(t: LedgerState, u: LedgerState, id: IntentId, reason: Text)
    requires IdsMatch(u.orders) && Tracks(t, u, id) && ApplyUnknown(u, id, reason).Ok?
    requires u.orders[id].state == Unknown ==> Unknown in AllowedTransitions(t.orders[id].state)
    ensures Tracks(t, ApplyUnknown(u, id, reason).value, id)
    ensures Unknown in AllowedTransitions(t.orders[id].state)
  {}

  lemma {:induction false} InterruptedIsResumable(
    s: LedgerState, intent: OrderIntent, plan: Plan, run: seq<LedgerEvent>, j: nat)
    requires Awaits(s, intent) && Fits(intent, plan) && j <= |PlannedEvents(plan)|
    requires Interrupted(run, plan, j) && ReplayFrom(s, run).Ok?
    ensures Resumable(s, ReplayFrom(s, run).value, plan, j)
    ensures Seen(ReplayFrom(s, run).value, PlannedEvents(plan), j)
    decreases |run|
  {
    hide InvariantButAvailable, MoneyFromUnitPrice, TotalFilled, ApplyEvent, ApplyBody, Resumable, PlannedEvents,
         Doubt, Awaits, Seen;
    if run == [] {
      NothingApplied(s, intent, plan);
    } else {
      var prefix, last := run[..|run| - 1], run[|run| - 1];
      ReplaySplitsAtLast(s, run);
      var u := ReplayFrom(s, prefix).value;
      AcceptedStep(u, last);
      if Doubt(last, plan.intentId) && Interrupted(prefix, plan, j) {
        InterruptedIsResumable(s, intent, plan, prefix, j);
        DoubtChangesOnlyTheLabel(s, u, intent, plan, j, last);
        SeenStays(u, PlannedEvents(plan), j, last);
      } else {
        InterruptedIsResumable(s, intent, plan, prefix, j - 1);
        NextPlanned(s, u, intent, plan, j - 1);
        SeenStays(u, PlannedEvents(plan), j - 1, last);
        OneMoreSeen(ApplyEvent(u, last).value, PlannedEvents(plan), j - 1);
      }
    }
  }

  lemma NothingApplied(s: LedgerState, intent: OrderIntent, plan: Plan)
    requires Awaits(s, intent) && Fits(intent, plan)
    ensures Resumable(s, s, plan, 0) && Seen(s, PlannedEvents(plan), 0)
  {
    hide InvariantButAvailable, MoneyFromUnitPrice, TotalFilled;
  }

  lemma SeenStays(u: LedgerState, planned: seq<LedgerEvent>, j: nat, e: LedgerEvent)
    requires j <= |planned| && Seen(u, planned, j) && ApplyEvent(u, e).Ok?
    ensures Seen(ApplyEvent(u, e).value, planned, j)
    ensures e.eventId in ApplyEvent(u, e).value.fingerprints
    ensures ApplyEvent(u, e).value.fingerprints[e.eventId] == e
  {
    hide ApplyBody, InvariantButAvailable, ApplyEvent;
    AcceptedStep(u, e);
  }

  lemma OneMoreSeen(u: LedgerState, planned: seq<LedgerEvent>, j: nat)
    requires j < |planned| && Seen(u, planned, j)
    requires planned[j].eventId in u.fingerprints && u.fingerprints[planned[j].eventId] == planned[j]
    ensures Seen(u, planned, j + 1)
  {}

  // ---- Going on ----

  lemma {:induction false} ReplayConcat(s: LedgerState, first: seq<LedgerEvent>, second: seq<LedgerEvent>)
    ensures var mid := ReplayFrom(s, first);
            ReplayFrom(s, first + second) == if mid.Ok? then ReplayFrom(mid.value, second) else mid
    decreases |second|
  {
    hide ApplyEvent;
    if second == [] {
      assert first + second == first;
    } else {
      var prefix, last := second[..|second| - 1], second[|second| - 1];
      assert first + second == (first + prefix) + [last];
      assert second == prefix + [last];
      ReplayConcat(s, first, prefix);
      ReplayNext(s, first + prefix, last);
      if ReplayFrom(s, first).Ok? {
        ReplayNext(ReplayFrom(s, first).value, prefix, last);
      }
    }
  }

  lemma ReplayFirst(s: LedgerState, e: LedgerEvent, rest: seq<LedgerEvent>)
    ensures ReplayFrom(s, [e] + rest)
            == if ApplyEvent(s, e).Ok? then ReplayFrom(ApplyEvent(s, e).value, rest) else ApplyEvent(s, e)
  {
    hide ApplyEvent;
    ReplayNext(s, [], e);
    assert [] + [e] == [e];
    ReplayConcat(s, [e], rest);
  }

  /** The outcomes of two replays agree up to event identifiers. */
  ghost predicate Agree(r: Result<LedgerState>, r': Result<LedgerState>) {
    && (r.Ok? <==> r'.Ok?)
    && (r.Ok? ==> SameLedger(r.value, r'.value))
  }

  /** Once one event has arrived undoubted, the remaining events lead where
      the uninterrupted run leads. */
  lemma {:induction false} RemainderAgrees(
    s: LedgerState, u: LedgerState, intent: OrderIntent, plan: Plan, j: nat)
    requires Awaits(s, intent) && Fits(intent, plan) && j <= |PlannedEvents(plan)|
    requires Resumable(s, u, plan, j)
    ensures Agree(ReplayFrom(s, PlannedEvents(plan)), ReplayFrom(u, PlannedEvents(plan)[j..]))
    decreases |PlannedEvents(plan)| - j
  {
    hide InvariantButAvailable, MoneyFromUnitPrice, TotalFilled, ApplyEvent, Resumable, PlannedEvents,
         Awaits, SameLedger;
    var planned := PlannedEvents(plan);
    ReachedIsPrefix(s, plan, j);
    if j == |planned| {
      assert planned[..j] == planned && planned[j..] == [];
      FinishedIsSame(s, u, intent, plan);
    } else {
      assert planned[j..] == [planned[j]] + planned[j + 1..];
      ReplayFirst(u, planned[j], planned[j + 1..]);
      NextPlanned(s, u, intent, plan, j);
      if Reached(s, plan, j + 1).Ok? {
        RemainderAgrees(s, ApplyEvent(u, planned[j]).value, intent, plan, j + 1);
      } else {
        ReachedIsPrefix(s, plan, j + 1);
        FailedPrefix(s, planned, j + 1);
      }
    }
  }

  lemma ReachedIsPrefix(s: LedgerState, plan: Plan, j: nat)
    requires plan.Valid() && j <= |PlannedEvents(plan)|
    ensures Reached(s, plan, j) == ReplayFrom(s, PlannedEvents(plan)[..j])
  {}

  lemma FailedPrefix(s: LedgerState, events: seq<LedgerEvent>, n: nat)
    requires n <= |events| && ReplayFrom(s, events[..n]).Err?
    ensures ReplayFrom(s, events).Err?
  {
    ReplayConcat(s, events[..n], events[n..]);
    assert events[..n] + events[n..] == events;
  }

  lemma FinishedIsSame(s: LedgerState, u: LedgerState, intent: OrderIntent, plan: Plan)
    requires Awaits(s, intent) && Fits(intent, plan)
    requires Resumable(s, u, plan, |PlannedEvents(plan)|)
    ensures Reached(s, plan, |PlannedEvents(plan)|).Ok?
    ensures SameLedger(Reached(s, plan, |PlannedEvents(plan)|).value, u)
    ensures u.orders[intent.intentId].state.Terminal()
  {
    hide InvariantButAvailable, MoneyFromUnitPrice, TotalFilled, ReplayFrom;
    ReachedFacts(s, intent, plan, |PlannedEvents(plan)|);
  }

  /** The state of the order a resumable ledger holds. */
  lemma ResumableOrder(s: LedgerState, u: LedgerState, intent: OrderIntent, plan: Plan, j: nat)
    requires Awaits(s, intent) && Fits(intent, plan) && j <= |PlannedEvents(plan)|
    requires Resumable(s, u, plan, j)
    ensures intent.intentId in u.orders
    ensures var o := u.orders[intent.intentId];
            && o.intent == intent
            && (o.state == StateAt(plan.status, j)
                || (o.state == Unknown && Unknown in AllowedTransitions(StateAt(plan.status, j))))
  {
    hide InvariantButAvailable, MoneyFromUnitPrice, TotalFilled, ReplayFrom;
    ReachedFacts(s, intent, plan, j);
  }

  /** An order in doubt after its submission is as good as acknowledged. */
  lemma DoubtSkipsAcknowledgement(s: LedgerState, u: LedgerState, intent: OrderIntent, plan: Plan)
    requires Awaits(s, intent) && Fits(intent, plan) && plan.status != Refused
    requires Resumable(s, u, plan, 1) && u.orders[intent.intentId].state == Unknown
    ensures Resumable(s, u, plan, 2)
  {
    hide InvariantButAvailable, MoneyFromUnitPrice, TotalFilled, ApplyEvent, ReplayFrom;
    var events := PlannedEvents(plan);
    ReachedStart(s, intent, plan);
  }

  lemma ReachedStart(s: LedgerState, intent: OrderIntent, plan: Plan)
    requires Awaits(s, intent) && Fits(intent, plan) && plan.status != Refused
    ensures Reached(s, plan, 1) == Ok(AfterSubmission(s, intent, plan))
    ensures Reached(s, plan, 2) == Ok(AfterAcknowledgement(s, intent, plan))
  {
    hide InvariantButAvailable, MoneyFromUnitPrice, TotalFilled, ApplyEvent, AfterSubmission, AfterAcknowledgement;
    ReachedNext(s, plan, 0);
    ReachedNext(s, plan, 1);
    SubmissionApplies(s, intent, plan);
    AcknowledgementApplies(s, intent, plan);
  }

  /** The fill an order in doubt has already booked is skipped. */
  lemma SeenFillIsSkipped(s: LedgerState, u: LedgerState, intent: OrderIntent, plan: Plan)
    requires Awaits(s, intent) && Fits(intent, plan) && plan.status == PartialFill
    requires Seen(u, PlannedEvents(plan), 3)
    ensures ReplayFrom(u, PlannedEvents(plan)[2..]) == ReplayFrom(u, PlannedEvents(plan)[3..])
  {
    hide InvariantButAvailable, MoneyFromUnitPrice, TotalFilled, ApplyEvent, ReplayFrom;
    var planned := PlannedEvents(plan);
    assert planned[2..] == [planned[2]] + planned[3..];
    RecordedEventIsSkipped(u, planned[2]);
    ReplayFirst(u, planned[2], planned[3..]);
  }

  /** `reconcile` finds the events that are still missing, or ones that lead to the same place. */
  lemma ReconcileAgrees(s: LedgerState, u: LedgerState, intent: OrderIntent, plan: Plan, j: nat)
    requires Awaits(s, intent) && Fits(intent, plan) && j <= |PlannedEvents(plan)|
    requires Resumable(s, u, plan, j) && Seen(u, PlannedEvents(plan), j)
    ensures intent.intentId in u.orders
    ensures var rest := Reconcile(u.orders[intent.intentId], Some(plan));
            rest.Some? && Agree(ReplayFrom(s, PlannedEvents(plan)), ReplayFrom(u, rest.value))
  {
    hide InvariantButAvailable, MoneyFromUnitPrice, TotalFilled, ApplyEvent, Resumable, Awaits,
         Reached, ReplayFrom, Agree, Seen, SubmittedEvent, AcknowledgedEvent, RejectedEvent, FillEvent,
         CancelledEvent;
    var planned := PlannedEvents(plan);
    ResumableOrder(s, u, intent, plan, j);
    var o := u.orders[intent.intentId];
    RemainderAgrees(s, u, intent, plan, j);
    assert planned[0..] == planned && planned[|planned|..] == [];
    if o.state == Unknown && plan.status != Refused {
      if j == 1 {
        DoubtSkipsAcknowledgement(s, u, intent, plan);
        RemainderAgrees(s, u, intent, plan, 2);
      } else if j == 3 {
        SeenFillIsSkipped(s, u, intent, plan);
      }
    }
  }

  lemma SameLedgerIsExecuted(
    s: LedgerState, t: LedgerState, u: LedgerState, intent: OrderIntent, plan: Plan)
    requires Executed(s, t, intent, plan) && SameLedger(t, u)
    ensures Executed(s, u, intent, plan) && u.orders[intent.intentId].state.Terminal()
  {}

  /** Interrupt a plan after any number of its events, with reports of an
      unknown outcome anywhere after the submission. What `reconcile` then emits
      is accepted exactly when the uninterrupted plan is, leads to the same
      cash, reservations, positions and order, and leaves nothing for a second
      recovery to do. */
  lemma RecoveryCompletesThePlan(
    s: LedgerState, intent: OrderIntent, plan: Plan, run: seq<LedgerEvent>, j: nat)
    requires Awaits(s, intent) && Fits(intent, plan) && j <= |PlannedEvents(plan)|
    requires Interrupted(run, plan, j) && ReplayFrom(s, run).Ok?
    ensures var u := ReplayFrom(s, run).value;
            && intent.intentId in u.orders
            && var rest := Reconcile(u.orders[intent.intentId], Some(plan));
            && rest.Some?
            && var r := ReplayFrom(u, rest.value);
            && Agree(ReplayFrom(s, PlannedEvents(plan)), r)
            && (r.Ok? <==> Affordable(s, intent, plan))
            && (r.Ok? ==>
                  && Executed(s, r.value, intent, plan)
                  && Reconcile(r.value.orders[intent.intentId], Some(plan)) == Some([]))
  {
    hide InvariantButAvailable, MoneyFromUnitPrice, TotalFilled, ApplyEvent, Resumable, Awaits,
         Reached, ReplayFrom, Seen, PlannedEvents, Executed, Affordable, SameLedger, Interrupted;
    var u := ReplayFrom(s, run).value;
    InterruptedIsResumable(s, intent, plan, run, j);
    ReconcileAgrees(s, u, intent, plan, j);
    ExecutorRefinesLedger(s, intent, plan);
    var r := ReplayFrom(u, Reconcile(u.orders[intent.intentId], Some(plan)).value);
    if r.Ok? {
      SameLedgerIsExecuted(s, ReplayFrom(s, PlannedEvents(plan)).value, r.value, intent, plan);
    }
  }
}
