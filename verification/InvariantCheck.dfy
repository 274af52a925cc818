/** The loops of `assert_invariants` and `replay`, against `Invariant` and `Replay`. */
module InvariantCheck {
  import opened MapSums
  import opened Model
  import opened Events
  import opened State
  import opened Reducers
  import opened LedgerInvariants

  function ValueOr0(sums: map<PositionKey, int>, key: PositionKey): int {
    if key in sums then sums[key] else 0
  }

  /** `sums` holds, key by key, what the orders hold of each position. */
  ghost predicate SumsSellReservations(sums: map<PositionKey, int>, orders: Orders) {
    forall key :: ValueOr0(sums, key) == SellReserved(orders, key)
  }

  lemma SumsExtend(sums: map<PositionKey, int>, done: Orders, id: IntentId, o: OrderAggregate)
    requires SumsSellReservations(sums, done) && id !in done
    ensures var key := o.intent.Key();
            SumsSellReservations(
              if o.intent.side == Buy then sums
              else sums[key := ValueOr0(sums, key) + o.reservedQuantity],
              done[id := o])
  {
    var key := o.intent.Key();
    var sums' := if o.intent.side == Buy then sums
                 else sums[key := ValueOr0(sums, key) + o.reservedQuantity];
    forall k ensures ValueOr0(sums', k) == SellReserved(done[id := o], k) {
      assert ValueOr0(sums, k) == SellReserved(done, k);
      TotalUpdate(done, QuantityHeldOf(k), id, o);
    }
  }

  /** Checks every order, and sums what the orders hold of cash and of each position. */
  method CheckOrders(orders: Orders)
    returns (ok: bool, cash: int, sells: map<PositionKey, int>)
    ensures ok <==> forall id :: id in orders ==> OrderOk(id, orders[id])
    ensures ok ==> cash == Total(orders, CashHeldBy) && SumsSellReservations(sells, orders)
  {
    hide OrderOk;
    ok, cash, sells := true, 0, map[];
    var left := orders.Keys;
    ghost var done: Orders := map[];
    while left != {}
      invariant left <= orders.Keys && done.Keys == orders.Keys - left
      invariant forall id :: id in done ==> done[id] == orders[id] && OrderOk(id, orders[id])
      invariant cash == Total(done, CashHeldBy) && SumsSellReservations(sells, done)
      decreases left
    {
      var id :| id in left;
      var o := orders[id];
      if !OrderOk(id, o) {
        return false, cash, sells;
      }
      SumsExtend(sells, done, id, o);
      TotalUpdate(done, CashHeldBy, id, o);
      if o.intent.side == Buy {
        cash := cash + o.reservedCash;
      } else {
        sells := sells[o.intent.Key() := ValueOr0(sells, o.intent.Key()) + o.reservedQuantity];
      }
      left, done := left - {id}, done[id := o];
    }
    assert done == orders;
  }

  /** Checks every position against what the sell orders hold of it. */
  method CheckPositions(positions: map<PositionKey, Position>, sells: map<PositionKey, int>)
    returns (ok: bool)
    ensures ok <==>
            && (forall key :: key in positions ==> PositionOk(key, positions[key]))
            && (forall key :: ValueOr0(sells, key) == ReservedAt(positions, key))
  {
    var left := positions.Keys;
    while left != {}
      invariant left <= positions.Keys
      invariant forall key :: key in positions && key !in left ==>
                                && PositionOk(key, positions[key])
                                && ValueOr0(sells, key) == positions[key].reservedQuantity
      decreases left
    {
      var key :| key in left;
      if !PositionOk(key, positions[key])
         || positions[key].reservedQuantity != ValueOr0(sells, key)
      {
        assert ValueOr0(sells, key) == ReservedAt(positions, key) ==> !PositionOk(key, positions[key]);
        return false;
      }
      left := left - {key};
    }
    var unseen := sells.Keys;
    while unseen != {}
      invariant unseen <= sells.Keys
      invariant forall key :: key in sells && key !in unseen && key !in positions ==> sells[key] == 0
      decreases unseen
    {
      var key :| key in unseen;
      if sells[key] != 0 && key !in positions {
        assert ValueOr0(sells, key) != ReservedAt(positions, key);
        return false;
      }
      unseen := unseen - {key};
    }
    return true;
  }

  lemma EntriesShrink(market: MarketId, history: seq<Observation>, n: nat)
    requires n <= |history| && EntriesOk(market, history)
    ensures EntriesOk(market, history[..n])
  {
    forall i | 0 <= i < n ensures Grounded(history[..n], i) {
      assert Grounded(history, i);
      if history[i].status.Revised? {
        var j :| 0 <= j < i && history[j].payloadHash == history[i].status.supersedes;
        assert history[..n][j] == history[j];
      }
    }
  }

  /** Whether the observation at `n` fits the entries before it, whose hashes are given. */
  lemma NextEntry(market: MarketId, history: seq<Observation>, n: nat, hashes: set<Text>)
    requires n < |history| && EntriesOk(market, history[..n])
    requires forall h :: h in hashes <==> exists i :: 0 <= i < n && history[i].payloadHash == h
    ensures var o := history[n];
            EntriesOk(market, history[..n + 1])
            <==> (o.marketId == market && o.payloadHash !in hashes
                  && (o.status.Revised? ==> o.status.supersedes in hashes))
  {
    var o := history[n];
    assert history[..n + 1] == history[..n] + [o];
    if o.marketId == market && o.payloadHash !in hashes && (o.status.Revised? ==> o.status.supersedes in hashes) {
      if o.status.Revised? {
        var i :| 0 <= i < n && history[i].payloadHash == o.status.supersedes;
        assert history[..n][i] == history[i];
      }
      EntriesGrow(market, history[..n], o);
    }
    if EntriesOk(market, history[..n + 1]) {
      assert history[..n + 1][n] == o && Grounded(history[..n + 1], n);
    }
  }

  /** Walks one observation history with the set of hashes seen and the list of
      terminal observations met so far. */
  method CheckEntries(market: MarketId, history: seq<Observation>)
    returns (ok: bool, terminals: seq<Observation>)
    ensures ok <==> EntriesOk(market, history)
    ensures ok ==> terminals == Terminals(history)
  {
    hide EntriesOk;
    var hashes: set<Text> := {};
    terminals := [];
    NoEntries(market, history);
    for n := 0 to |history|
      invariant EntriesOk(market, history[..n])
      invariant forall h :: h in hashes <==> exists i :: 0 <= i < n && history[i].payloadHash == h
      invariant terminals == Terminals(history[..n])
    {
      var o := history[n];
      NextEntry(market, history, n, hashes);
      if o.marketId != market || o.payloadHash in hashes
         || (o.status.Revised? && o.status.supersedes !in hashes)
      {
        if EntriesOk(market, history) {
          EntriesShrink(market, history, n + 1);
        }
        return false, [];
      }
      hashes := hashes + {o.payloadHash};
      assert history[..n + 1][..n] == history[..n];
      if o.LearningEligible() {
        terminals := terminals + [o];
      }
    }
    assert history[..|history|] == history;
    return true, terminals;
  }

  lemma NoEntries(market: MarketId, history: seq<Observation>)
    ensures EntriesOk(market, history[..0]) && Terminals(history[..0]) == []
  {}

  /** The chain clause on the terminal observations. */
  method CheckChain(terminals: seq<Observation>) returns (ok: bool)
    ensures ok <==> LinearRevisions(terminals)
  {
    if terminals == [] {
      return true;
    }
    if !terminals[0].status.Final? {
      return false;
    }
    for i := 1 to |terminals|
      invariant forall j :: 0 < j < i ==>
                              terminals[j].status == Revised(terminals[j - 1].payloadHash)
    {
      if terminals[i].status != Revised(terminals[i - 1].payloadHash) {
        return false;
      }
    }
    return true;
  }

  method CheckHistory(market: MarketId, history: seq<Observation>) returns (ok: bool)
    ensures ok <==> HistoryOk(market, history)
  {
    hide EntriesOk, LinearRevisions, Terminals;
    var entries, terminals := CheckEntries(market, history);
    if !entries {
      return false;
    }
    ok := CheckChain(terminals);
  }

  method CheckObservations(observations: map<MarketId, seq<Observation>>) returns (ok: bool)
    ensures ok <==> ObservationsOk(observations)
  {
    hide HistoryOk;
    var left := observations.Keys;
    while left != {}
      invariant left <= observations.Keys
      invariant forall m :: m in observations && m !in left ==> HistoryOk(m, observations[m])
      decreases left
    {
      var m :| m in left;
      ok := CheckHistory(m, observations[m]);
      if !ok {
        return;
      }
      left := left - {m};
    }
    return true;
  }

  /** `assert_invariants`: returns false where the source raises. */
  method AssertInvariants(s: LedgerState) returns (ok: bool)
    ensures ok <==> Invariant(s)
  {
    hide OrderOk, PositionOk, HistoryOk, ObservationsOk, EvidenceAgrees;
    if s.cash < 0 || s.reservedCash < 0 || s.AvailableCash() < 0 {
      return false;
    }
    var ordersOk, cash, sells := CheckOrders(s.orders);
    if !ordersOk || cash != s.reservedCash {
      return false;
    }
    var positionsOk := CheckPositions(s.positions, sells);
    assert positionsOk <==> PositionsOk(s.orders, s.positions);
    if !positionsOk || !EvidenceAgrees(s.evidence, s.resolutions) {
      return false;
    }
    var observationsOk := CheckObservations(s.observations);
    return observationsOk && NothingBeforeOpening(s);
  }

  /** `apply_event`. */
  method Apply(s: LedgerState, e: LedgerEvent) returns (r: Result<LedgerState>)
    ensures r == ApplyEvent(s, e)
  {
    hide ApplyBody, InvariantButAvailable;
    r := Reduce(s, e);
    if e.eventId !in s.fingerprints && r.Ok? {
      var ok := AssertInvariants(r.value);
      if !ok {
        r := Err(InvariantViolation);
      }
    }
  }

  /** `replay`: folds `apply_event` over a log and stops at the first error. */
  method ReplayLog(events: seq<LedgerEvent>) returns (r: Result<LedgerState>)
    ensures r == Replay(events)
  {
    hide ApplyEvent;
    var s := EMPTY_LEDGER;
    for i := 0 to |events|
      invariant Replay(events[..i]) == Ok(s)
    {
      assert events[..i + 1][..i] == events[..i];
      r := Apply(s, events[i]);
      if r.Err? {
        ErrorStays(events, i + 1);
        return;
      }
      s := r.value;
    }
    assert events[..|events|] == events;
    return Ok(s);
  }

  /** Once a prefix of a log fails to replay, the log fails in the same way. */
  lemma {:induction false} ErrorStays(events: seq<LedgerEvent>, n: nat)
    requires n <= |events| && Replay(events[..n]).Err?
    ensures Replay(events) == Replay(events[..n])
    decreases |events| - n
  {
    hide ApplyEvent;
    if n == |events| {
      assert events[..n] == events;
    } else {
      assert events[..n + 1][..n] == events[..n];
      ErrorStays(events, n + 1);
    }
  }
}
