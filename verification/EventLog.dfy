/** The ledger_events table: rows chained by digests, and the loop that verifies and replays them. */
module EventLog {
  import opened Model
  import opened Events
  import opened State
  import opened Reducers
  import opened LedgerInvariants
  import opened InvariantCheck
  import opened Codec

  datatype Row = Row(
    sequence: int,
    eventId: Identifier,
    eventType: EventType,
    version: int,
    occurredAt: Timestamp,
    index: Index,
    payload: Json,
    payloadHash: Digest,
    previousHash: Digest,
    chainHash: Digest)

  type Sequence = n: int | 0 < n witness 1

  /** A verified state; its hash is the state itself. */
  datatype Checkpoint = Checkpoint(chainHash: Digest, state: LedgerState)

  type Checkpoints = map<Sequence, Checkpoint>

  function ChainHash(previous: Digest, version: int, eventType: EventType, payloadHash: Digest): Digest {
    OfChain(previous, version, eventType, payloadHash)
  }

  /** The row that records an event after the row with digest `previous`. */
  function RowFor(e: LedgerEvent, sequence: int, previous: Digest): Row {
    var payload, eventType := EncodePayload(e), TypeOf(e.body);
    var hash := OfPayload(payload);
    Row(sequence, e.eventId, eventType, SCHEMA_VERSION, e.occurredAt, IndexOf(e.body), payload, hash,
        previous, ChainHash(previous, SCHEMA_VERSION, eventType, hash))
  }

  function Tail(rows: seq<Row>): Digest {
    if rows == [] then Genesis else rows[|rows| - 1].chainHash
  }

  function RowsOf(events: seq<LedgerEvent>): (rows: seq<Row>)
    ensures |rows| == |events|
  {
    if events == [] then []
    else
      var before := RowsOf(events[..|events| - 1]);
      before + [RowFor(events[|events| - 1], |events|, Tail(before))]
  }

  predicate AllValid(events: seq<LedgerEvent>) {
    forall i :: 0 <= i < |events| ==> ValidEvent(events[i])
  }

  /** `rows` is what appending `events` writes. */
  predicate Records(rows: seq<Row>, events: seq<LedgerEvent>) {
    AllValid(events) && rows == RowsOf(events)
  }

  lemma RowsOfOneMore(events: seq<LedgerEvent>, e: LedgerEvent)
    ensures RowsOf(events + [e]) == RowsOf(events) + [RowFor(e, |events| + 1, Tail(RowsOf(events)))]
  {
    assert (events + [e])[..|events|] == events;
  }

  lemma {:induction false} RowsOfPrefix(events: seq<LedgerEvent>, n: nat)
    requires n <= |events|
    ensures RowsOf(events)[..n] == RowsOf(events[..n])
    decreases |events| - n
  {
    if n == |events| {
      assert events[..n] == events;
    } else {
      RowsOfPrefix(events, n + 1);
      assert events[..n + 1][..n] == events[..n];
      assert RowsOf(events)[..n] == RowsOf(events)[..n + 1][..n];
    }
  }

  lemma RowAt(events: seq<LedgerEvent>, i: nat)
    requires i < |events|
    ensures RowsOf(events)[i] == RowFor(events[i], i + 1, Tail(RowsOf(events)[..i]))
  {
    hide RowFor;
    RowsOfPrefix(events, i);
    RowsOfPrefix(events, i + 1);
    assert events[..i + 1] == events[..i] + [events[i]];
    RowsOfOneMore(events[..i], events[i]);
    assert RowsOf(events)[i] == RowsOf(events)[..i + 1][i];
  }

  /** What each row says: its place, its event's own columns, the payload that
      decodes to the event, and a link to the row before. */
  lemma RowsAreChained(events: seq<LedgerEvent>, i: nat)
    requires i < |events| && ValidEvent(events[i])
    ensures var rows, e := RowsOf(events), events[i];
            && rows[i].sequence == i + 1 && rows[i].version == 1
            && rows[i].eventId == e.eventId && rows[i].occurredAt == e.occurredAt
            && DecodePayload(rows[i].payload) == Parsed(e) && rows[i].payloadHash == OfPayload(rows[i].payload)
            && rows[i].previousHash == (if i == 0 then Genesis else rows[i - 1].chainHash)
            && rows[i].chainHash
               == OfChain(rows[i].previousHash, rows[i].version, rows[i].eventType, rows[i].payloadHash)
            && (e.body.OrderIntentCreated? ==>
                  rows[i].index == Index(Some(e.body.intent.intentId), Some(e.body.intent.decisionId),
                                         Some(e.body.intent.marketId), Some(e.body.intent.outcomeId)))
  {
    hide ValidEvent, EncodePayload, DecodePayload, RowsOf;
    RowAt(events, i);
    EventRoundTrip(events[i]);
    assert i > 0 ==> RowsOf(events)[..i][i - 1] == RowsOf(events)[i - 1];
  }

  /** A log records one sequence of events only. */
  lemma RowsDetermineEvents(a: seq<LedgerEvent>, b: seq<LedgerEvent>)
    requires AllValid(a) && AllValid(b) && RowsOf(a) == RowsOf(b)
    ensures a == b
  {
    hide EncodePayload, ValidEvent;
    assert |a| == |b|;
    forall i | 0 <= i < |a| ensures a[i] == b[i] {
      RowAt(a, i);
      RowAt(b, i);
      PayloadsAreDistinct(a[i], b[i]);
    }
  }

  /** How many rows a chain digest covers. */
  function Depth(d: Digest): nat {
    if d.OfChain? then Depth(d.previous) + 1 else 0
  }

  lemma {:induction false} DepthOfTail(events: seq<LedgerEvent>)
    ensures Depth(Tail(RowsOf(events))) == |events|
    decreases |events|
  {
    if events != [] {
      DepthOfTail(events[..|events| - 1]);
    }
  }

  /** The uniqueness constraint on chain digests never fires. */
  lemma ChainHashesAreUnique(events: seq<LedgerEvent>, i: nat, j: nat)
    requires i < j < |events|
    ensures RowsOf(events)[i].chainHash != RowsOf(events)[j].chainHash
  {
    hide RowFor, RowsOf, Depth;
    RowsOfPrefix(events, i + 1);
    RowsOfPrefix(events, j + 1);
    DepthOfTail(events[..i + 1]);
    DepthOfTail(events[..j + 1]);
  }

  // ---- Loading ----

  /** The checkpoints up to row `n` agree with the rows and with replay. */
  ghost predicate CheckpointsAgree(checkpoints: Checkpoints, rows: seq<Row>, events: seq<LedgerEvent>, n: nat)
    requires n <= |rows| && n <= |events|
  {
    forall k :: k in checkpoints && k <= n ==>
                  && checkpoints[k].chainHash == rows[k - 1].chainHash
                  && Replay(events[..k]) == Ok(checkpoints[k].state)
  }

  predicate NoOrphans(checkpoints: Checkpoints, n: nat) {
    forall k :: k in checkpoints ==> k <= n
  }

  /** The events a log records replay, and its checkpoints describe that replay. */
  ghost predicate LoadsAs(rows: seq<Row>, checkpoints: Checkpoints, events: seq<LedgerEvent>) {
    && Records(rows, events)
    && Replay(events).Ok?
    && CheckpointsAgree(checkpoints, rows, events, |events|)
    && NoOrphans(checkpoints, |events|)
  }

  ghost predicate Loadable(rows: seq<Row>, checkpoints: Checkpoints) {
    exists events :: LoadsAs(rows, checkpoints, events)
  }

  datatype Loaded = Loaded(events: seq<LedgerEvent>, state: LedgerState, lastSequence: int, tail: Digest)

  /** The checks on one row: the event it records, or none where the source
      reports corruption. */
  method CheckRow(row: Row, expected: int, previous: Digest) returns (r: Option<LedgerEvent>)
    ensures r.Some? ==> ValidEvent(r.value) && row == RowFor(r.value, expected, previous)
    ensures r.None? ==> forall e :: ValidEvent(e) ==> row != RowFor(e, expected, previous)
  {
    hide EncodePayload, DecodePayload, ValidEvent;
    forall e | ValidEvent(e) && row == RowFor(e, expected, previous)
      ensures DecodePayload(row.payload) == Parsed(e)
    {
      EventRoundTrip(e);
    }
    if row.sequence != expected || row.payloadHash != OfPayload(row.payload) {
      return None;
    }
    if row.previousHash != previous
       || row.chainHash != ChainHash(previous, row.version, row.eventType, row.payloadHash)
    {
      return None;
    }
    var decoded := DecodePayload(row.payload);
    if decoded.Corrupt? {
      return None;
    }
    var e := decoded.value;
    DecodedIsValid(row.payload);
    if EncodePayload(e) != row.payload {
      return None;
    }
    if row.eventId != e.eventId || row.eventType != TypeOf(e.body) || row.version != SCHEMA_VERSION
       || row.occurredAt != e.occurredAt || row.index != IndexOf(e.body)
    {
      return None;
    }
    return Some(e);
  }

  lemma RecordsSplit(rows: seq<Row>, full: seq<LedgerEvent>, i: nat)
    requires Records(rows, full) && i < |rows|
    ensures Records(rows[..i], full[..i]) && ValidEvent(full[i])
    ensures rows[i] == RowFor(full[i], i + 1, Tail(rows[..i]))
  {
    hide EncodePayload, ValidEvent;
    RowsOfPrefix(full, i);
    RowAt(full, i);
  }

  /** Everything known about a prefix already verified is true of any events
      the whole log could record. */
  lemma PrefixIsForced(rows: seq<Row>, checkpoints: Checkpoints, events: seq<LedgerEvent>, full: seq<LedgerEvent>)
    requires |events| < |rows| && Records(rows[..|events|], events) && LoadsAs(rows, checkpoints, full)
    ensures |full| == |rows| && full[..|events|] == events && ValidEvent(full[|events|])
    ensures rows[|events|] == RowFor(full[|events|], |events| + 1, Tail(rows[..|events|]))
    ensures Replay(events + [full[|events|]]).Ok?
    ensures |events| + 1 in checkpoints ==>
              && checkpoints[|events| + 1].chainHash == rows[|events|].chainHash
              && Replay(events + [full[|events|]]) == Ok(checkpoints[|events| + 1].state)
  {
    hide EncodePayload, ValidEvent, Replay;
    var i := |events|;
    RecordsSplit(rows, full, i);
    RowsDetermineEvents(full[..i], events);
    assert full[..i + 1] == events + [full[i]];
    PrefixReplays(full, i + 1);
  }

  lemma {:induction false} PrefixReplays(events: seq<LedgerEvent>, n: nat)
    requires n <= |events| && Replay(events).Ok?
    ensures Replay(events[..n]).Ok?
    decreases |events| - n
  {
    hide ApplyEvent;
    if n == |events| {
      assert events[..n] == events;
    } else {
      PrefixReplays(events, n + 1);
      assert events[..n + 1][..n] == events[..n];
    }
  }

  /** Two rows that record events are the same only for the same event. */
  lemma RowsTellEventsApart(a: LedgerEvent, b: LedgerEvent, sequence: int, previous: Digest)
    requires ValidEvent(a) && ValidEvent(b) && RowFor(a, sequence, previous) == RowFor(b, sequence, previous)
    ensures a == b
  {
    hide EncodePayload, ValidEvent;
    PayloadsAreDistinct(a, b);
  }

  /** `_load_locked`: accepts exactly the logs that appends write, with
      checkpoints that describe their replay, and rebuilds the replayed state. */
  method LoadLog(rows: seq<Row>, checkpoints: Checkpoints) returns (r: Option<Loaded>)
    ensures r.Some? <==> Loadable(rows, checkpoints)
    ensures r.Some? ==> && LoadsAs(rows, checkpoints, r.value.events)
                        && Replay(r.value.events) == Ok(r.value.state)
                        && r.value.lastSequence == |rows| && r.value.tail == Tail(rows)
  {
    hide EncodePayload, ValidEvent, Replay, ApplyEvent, RowFor, Records, LoadsAs;
    var events: seq<LedgerEvent>, state, previous := [], EMPTY_LEDGER, Genesis;
    NothingRecorded(rows);
    for i := 0 to |rows|
      invariant |events| == i && Records(rows[..i], events)
      invariant Replay(events) == Ok(state) && previous == Tail(rows[..i])
      invariant CheckpointsAgree(checkpoints, rows, events, i)
    {
      var checked := CheckRow(rows[i], i + 1, previous);
      forall full | LoadsAs(rows, checkpoints, full)
        ensures |full| == |rows| && checked == Some(full[i])
        ensures Replay(events + [full[i]]).Ok?
        ensures i + 1 in checkpoints ==>
                  && checkpoints[i + 1].chainHash == rows[i].chainHash
                  && Replay(events + [full[i]]) == Ok(checkpoints[i + 1].state)
      {
        PrefixIsForced(rows, checkpoints, events, full);
        if checked.Some? {
          RowsTellEventsApart(checked.value, full[i], i + 1, previous);
        }
      }
      if checked.None? {
        return None;
      }
      var applied := Apply(state, checked.value);
      ReplayOneMore(events, checked.value);
      if applied.Err? {
        return None;
      }
      RecordsOneMore(rows, events, checked.value);
      if i + 1 in checkpoints
         && (checkpoints[i + 1].chainHash != rows[i].chainHash || checkpoints[i + 1].state != applied.value)
      {
        return None;
      }
      CheckpointsExtend(checkpoints, rows, events, checked.value);
      events, state, previous := events + [checked.value], applied.value, rows[i].chainHash;
    }
    assert rows[..|rows|] == rows;
    if exists k :: k in checkpoints.Keys && |rows| < k {
      OrphansAreFatal(rows, checkpoints);
      return None;
    }
    LoadedAll(rows, checkpoints, events);
    return Some(Loaded(events, state, |rows|, previous));
  }

  lemma NothingRecorded(rows: seq<Row>)
    ensures Records(rows[..0], []) && Replay([]) == Ok(EMPTY_LEDGER)
  {}

  lemma RecordsOneMore(rows: seq<Row>, events: seq<LedgerEvent>, e: LedgerEvent)
    requires |events| < |rows| && Records(rows[..|events|], events) && ValidEvent(e)
    requires rows[|events|] == RowFor(e, |events| + 1, Tail(rows[..|events|]))
    ensures Records(rows[..|events| + 1], events + [e])
  {
    hide EncodePayload, ValidEvent, RowFor;
    RowsOfOneMore(events, e);
    assert rows[..|events| + 1] == rows[..|events|] + [rows[|events|]];
  }

  lemma CheckpointsExtend(checkpoints: Checkpoints, rows: seq<Row>, events: seq<LedgerEvent>, e: LedgerEvent)
    requires |events| < |rows| && CheckpointsAgree(checkpoints, rows, events, |events|)
    requires |events| + 1 in checkpoints ==>
               && checkpoints[|events| + 1].chainHash == rows[|events|].chainHash
               && Replay(events + [e]) == Ok(checkpoints[|events| + 1].state)
    ensures CheckpointsAgree(checkpoints, rows, events + [e], |events| + 1)
  {
    hide Replay;
    forall k | k in checkpoints && k <= |events| + 1
      ensures checkpoints[k].chainHash == rows[k - 1].chainHash
      ensures Replay((events + [e])[..k]) == Ok(checkpoints[k].state)
    {
      if k <= |events| {
        assert (events + [e])[..k] == events[..k];
      } else {
        assert (events + [e])[..k] == events + [e];
      }
    }
  }

  lemma OrphansAreFatal(rows: seq<Row>, checkpoints: Checkpoints)
    requires exists k :: k in checkpoints && |rows| < k
    ensures !Loadable(rows, checkpoints)
  {
    hide Replay, RowFor, ValidEvent;
  }

  lemma LoadedAll(rows: seq<Row>, checkpoints: Checkpoints, events: seq<LedgerEvent>)
    requires |events| == |rows| && Records(rows, events) && Replay(events).Ok?
    requires CheckpointsAgree(checkpoints, rows, events, |rows|)
    requires forall k :: k in checkpoints ==> k <= |rows|
    ensures LoadsAs(rows, checkpoints, events)
  {
    hide Replay, RowFor, ValidEvent;
  }
}
