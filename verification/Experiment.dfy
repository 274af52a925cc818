/** The experiment loop: decisions in order, and hypothetical settlements that
    no earlier decision may see.

Case identifiers are integers in the order of the source's strings.
 */
module Experiment {
  import opened Model

  /** `hasSignal` and `hasBook` tell whether the case reaches the economic entry. */
  datatype Case = Case(
    caseId: int, decisionAt: Timestamp, hasSignal: bool, hasBook: bool, resolvedAt: Option<Timestamp>)
  {
    /** A settlement cannot precede the decision. */
    predicate Valid() {
      resolvedAt.Some? ==> decisionAt <= resolvedAt.value
    }

    /** The case enters the simulated ledger and will be settled. */
    predicate Settles() {
      hasSignal && hasBook && resolvedAt.Some?
    }
  }

  /** What the constructor of an experiment checks of its cases. */
  predicate ValidCases(cases: seq<Case>) {
    && cases != []
    && (forall i :: 0 <= i < |cases| ==> cases[i].Valid())
    && (forall i, j :: 0 <= i < j < |cases| ==>
                         && cases[i].caseId != cases[j].caseId
                         && cases[i].decisionAt <= cases[j].decisionAt)
  }

  datatype EconomicStatus = Disabled | Unavailable | Evaluated

  datatype SettlementOutcome = SettledFor(cash: int) | NotSettled

  datatype SettlementReport = NoSettlement | NeedsEconomics | NeedsEntry | Waiting | Attempted(outcome: SettlementOutcome)

  datatype CaseResult = CaseResult(caseId: int, status: EconomicStatus, settlement: SettlementReport)

  /** What the simulated ledger goes through, in order. */
  datatype Action = Decide(index: nat) | Settle(index: nat)

  // ---- The order of settlements ----

  function Resolution(c: Case): Timestamp {
    if c.resolvedAt.Some? then c.resolvedAt.value else c.decisionAt
  }

  /** `a` is settled before `b`: earlier resolution, then smaller identifier. */
  predicate Earlier(cases: seq<Case>, a: nat, b: nat) {
    && a < |cases| && b < |cases|
    && (Resolution(cases[a]) < Resolution(cases[b])
        || (Resolution(cases[a]) == Resolution(cases[b]) && cases[a].caseId < cases[b].caseId))
  }

  predicate InOrder(cases: seq<Case>, indices: seq<nat>) {
    forall i, j :: 0 <= i < j < |indices| ==> Earlier(cases, indices[i], indices[j])
  }

  predicate InRange(cases: seq<Case>, indices: seq<nat>) {
    forall i :: 0 <= i < |indices| ==> indices[i] < |cases|
  }

  function Insert(cases: seq<Case>, sorted: seq<nat>, index: nat): seq<nat> {
    if sorted == [] then [index]
    else if Earlier(cases, index, sorted[0]) then [index] + sorted
    else [sorted[0]] + Insert(cases, sorted[1..], index)
  }

  /** Sorting by resolution time, then identifier. */
  function Sorted(cases: seq<Case>, indices: seq<nat>): seq<nat> {
    if indices == [] then []
    else Insert(cases, Sorted(cases, indices[..|indices| - 1]), indices[|indices| - 1])
  }

  lemma OneOrTheOther(cases: seq<Case>, a: nat, b: nat)
    requires ValidCases(cases) && a < |cases| && b < |cases| && a != b
    ensures Earlier(cases, a, b) || Earlier(cases, b, a)
  {
    if a < b {
      assert cases[a].caseId != cases[b].caseId;
    } else {
      assert cases[b].caseId != cases[a].caseId;
    }
  }

  lemma EarlierComposes(cases: seq<Case>, a: nat, b: nat, c: nat)
    requires Earlier(cases, a, b) && Earlier(cases, b, c)
    ensures Earlier(cases, a, c)
  {}

  lemma Prepended(cases: seq<Case>, head: nat, rest: seq<nat>)
    requires InOrder(cases, rest) && forall k :: k in rest ==> Earlier(cases, head, k)
    ensures InOrder(cases, [head] + rest)
  {
    hide Earlier;
    var all := [head] + rest;
    forall i, j | 0 <= i < j < |all| ensures Earlier(cases, all[i], all[j]) {
      assert all[j] == rest[j - 1] && rest[j - 1] in rest;
      if 0 < i {
        assert all[i] == rest[i - 1];
      }
    }
  }

  lemma HeadIsEarliest(cases: seq<Case>, sorted: seq<nat>, k: nat)
    requires InOrder(cases, sorted) && sorted != [] && k in sorted[1..]
    ensures Earlier(cases, sorted[0], k)
  {
    hide Earlier;
    var i :| 0 <= i < |sorted| - 1 && sorted[1..][i] == k;
    assert sorted[i + 1] == k;
  }

  lemma TailInOrder(cases: seq<Case>, sorted: seq<nat>)
    requires InOrder(cases, sorted) && sorted != []
    ensures InOrder(cases, sorted[1..])
  {
    hide Earlier;
  }

  predicate SameMembers(xs: seq<nat>, ys: seq<nat>, extra: nat) {
    && extra in xs
    && (forall i :: 0 <= i < |xs| ==> xs[i] == extra || xs[i] in ys)
    && (forall i :: 0 <= i < |ys| ==> ys[i] in xs)
  }

  lemma {:induction false} InsertKeepsOrder(cases: seq<Case>, sorted: seq<nat>, index: nat)
    requires ValidCases(cases) && InRange(cases, sorted) && index < |cases|
    requires InOrder(cases, sorted) && index !in sorted
    ensures var r := Insert(cases, sorted, index);
            InOrder(cases, r) && SameMembers(r, sorted, index) && |r| == |sorted| + 1
    decreases |sorted|
  {
    hide Earlier, ValidCases, InOrder;
    if sorted == [] {
      OnlyOne(cases, index);
    } else {
      var head, rest := sorted[0], sorted[1..];
      if Earlier(cases, index, head) {
        forall k | k in sorted ensures Earlier(cases, index, k) {
          if k != head {
            HeadIsEarliest(cases, sorted, k);
            EarlierComposes(cases, index, head, k);
          }
        }
        Prepended(cases, index, sorted);
      } else {
        TailInOrder(cases, sorted);
        InsertKeepsOrder(cases, rest, index);
        OneOrTheOther(cases, index, head);
        forall k | k in Insert(cases, rest, index) ensures Earlier(cases, head, k) {
          if k != index {
            HeadIsEarliest(cases, sorted, k);
          }
        }
        Prepended(cases, head, Insert(cases, rest, index));
      }
    }
  }

  lemma OnlyOne(cases: seq<Case>, index: nat)
    ensures InOrder(cases, [index]) && InOrder(cases, [])
  {}

  predicate Unrepeated(indices: seq<nat>) {
    forall i, j :: 0 <= i < j < |indices| ==> indices[i] != indices[j]
  }

  predicate SameSet(xs: seq<nat>, ys: seq<nat>) {
    && (forall i :: 0 <= i < |xs| ==> xs[i] in ys)
    && (forall i :: 0 <= i < |ys| ==> ys[i] in xs)
  }

  lemma OneMoreMember(xs: seq<nat>, sorted: seq<nat>, indices: seq<nat>, prefix: seq<nat>, last: nat)
    requires SameMembers(xs, sorted, last) && SameSet(sorted, prefix) && indices == prefix + [last]
    ensures SameSet(xs, indices)
  {}

  lemma LastIsNew(sorted: seq<nat>, indices: seq<nat>)
    requires indices != [] && Unrepeated(indices) && SameSet(sorted, indices[..|indices| - 1])
    ensures indices[|indices| - 1] !in sorted
  {}

  lemma {:induction false} SortingSorts(cases: seq<Case>, indices: seq<nat>)
    requires ValidCases(cases) && InRange(cases, indices) && Unrepeated(indices)
    ensures var r := Sorted(cases, indices);
            InOrder(cases, r) && SameSet(r, indices) && |r| == |indices|
    decreases |indices|
  {
    hide Earlier, ValidCases, InOrder, Insert, SameMembers;
    if indices == [] {
      OnlyOne(cases, 0);
    } else {
      var prefix, last := indices[..|indices| - 1], indices[|indices| - 1];
      assert indices == prefix + [last];
      SortingSorts(cases, prefix);
      var r := Sorted(cases, prefix);
      hide SameSet;
      MembersInRange(cases, r, prefix);
      LastIsNew(r, indices);
      InsertKeepsOrder(cases, r, last);
      OneMoreMember(Insert(cases, r, last), r, indices, prefix, last);
    }
  }

  lemma MembersInRange(cases: seq<Case>, xs: seq<nat>, ys: seq<nat>)
    requires SameSet(xs, ys) && InRange(cases, ys)
    ensures InRange(cases, xs)
  {}

  // ---- What a trace says ----

  /** The settlements attempted, in order. */
  function Attempts(trace: seq<Action>): seq<nat> {
    if trace == [] then []
    else
      var last := trace[|trace| - 1];
      Attempts(trace[..|trace| - 1]) + if last.Settle? then [last.index] else []
  }

  /** The decisions taken, in order. */
  function Decisions(trace: seq<Action>): seq<nat> {
    if trace == [] then []
    else
      var last := trace[|trace| - 1];
      Decisions(trace[..|trace| - 1]) + if last.Decide? then [last.index] else []
  }

  /** What the simulated ledger answers to a settlement, given all that happened before. */
  type Answers = (seq<Action>, nat) -> SettlementOutcome

  /** The report of a settlement that the trace attempts at most once. */
  function OutcomeOf(trace: seq<Action>, answers: Answers, index: nat): SettlementReport {
    if trace == [] then Waiting
    else
      var prefix := trace[..|trace| - 1];
      if trace[|trace| - 1] == Settle(index) then Attempted(answers(prefix, index))
      else OutcomeOf(prefix, answers, index)
  }

  /** The settlements attempted are exactly those resolved strictly before decision `i`. */
  predicate SeesExactly(cases: seq<Case>, attempts: seq<nat>, i: nat) {
    i < |cases|
    && forall j :: 0 <= j < |cases| ==>
                     (j in attempts
                      <==> (j < i && cases[j].Settles() && Resolution(cases[j]) < cases[i].decisionAt))
  }

  /** No decision sees a settlement from its future, or misses one from its past. */
  predicate NoLookAhead(cases: seq<Case>, trace: seq<Action>) {
    forall p :: 0 <= p < |trace| && trace[p].Decide? ==>
                  SeesExactly(cases, Attempts(trace[..p]), trace[p].index)
  }

  function StatusFor(c: Case, enabled: bool): EconomicStatus {
    if !enabled then Disabled else if c.hasSignal && c.hasBook then Evaluated else Unavailable
  }

  function ResultFor(c: Case, enabled: bool, trace: seq<Action>, answers: Answers, index: nat): CaseResult {
    CaseResult(
      c.caseId, StatusFor(c, enabled),
      if c.resolvedAt.None? then NoSettlement
      else if !enabled then NeedsEconomics
      else if !c.Settles() then NeedsEntry
      else OutcomeOf(trace, answers, index))
  }

  lemma OneMoreAction(trace: seq<Action>, action: Action)
    ensures Attempts(trace + [action]) == Attempts(trace) + if action.Settle? then [action.index] else []
    ensures Decisions(trace + [action]) == Decisions(trace) + if action.Decide? then [action.index] else []
  {
    assert (trace + [action])[..|trace|] == trace;
  }

  lemma OutcomeExtends(trace: seq<Action>, action: Action, answers: Answers, index: nat)
    ensures OutcomeOf(trace + [action], answers, index)
            == if action == Settle(index) then Attempted(answers(trace, index))
               else OutcomeOf(trace, answers, index)
  {
    assert (trace + [action])[..|trace|] == trace;
  }

  lemma LookAheadExtends(cases: seq<Case>, trace: seq<Action>, action: Action)
    requires NoLookAhead(cases, trace)
    requires action.Decide? ==> SeesExactly(cases, Attempts(trace), action.index)
    ensures NoLookAhead(cases, trace + [action])
  {
    hide SeesExactly, Attempts;
    var trace' := trace + [action];
    forall p | 0 <= p < |trace'| && trace'[p].Decide?
      ensures SeesExactly(cases, Attempts(trace'[..p]), trace'[p].index)
    {
      assert trace'[..p] == trace[..p];
      if p == |trace| {
        assert trace[..p] == trace;
      }
    }
  }

  /** Earlier attempts and later ones, apart by a time between them. */
  lemma InOrderAcross(cases: seq<Case>, first: seq<nat>, second: seq<nat>, bound: Timestamp)
    requires InOrder(cases, first) && InOrder(cases, second)
    requires InRange(cases, first) && InRange(cases, second)
    requires forall k :: k in first ==> Resolution(cases[k]) < bound
    requires forall k :: k in second ==> bound <= Resolution(cases[k])
    ensures InOrder(cases, first + second)
  {
    var all := first + second;
    forall i, j | 0 <= i < j < |all| ensures Earlier(cases, all[i], all[j]) {
      if i < |first| <= j {
        assert all[i] in first && all[j] in second;
      }
    }
  }

  // ---- The engine ----

  function FirstIndices(n: nat): seq<nat> {
    seq(n, i => i)
  }

  /** The settlements still pending and those attempted so far are, together
      and without repetition, those of the first `k` cases; a time separates
      what has been attempted from what is pending. */
  ghost predicate Partition(
    cases: seq<Case>, k: nat, attempts: seq<nat>, pending: seq<nat>, bound: Timestamp)
    requires k <= |cases|
  {
    && InOrder(cases, attempts) && Unrepeated(pending)
    && (forall j :: j in attempts ==> j < k && cases[j].Settles() && Resolution(cases[j]) < bound && j !in pending)
    && (forall j :: j in pending ==> j < k && cases[j].Settles() && bound <= Resolution(cases[j]))
    && (forall j :: 0 <= j < k && cases[j].Settles() ==> j in attempts || j in pending)
  }

  /** The pending settlements that are due, or that are not. */
  function Select(cases: seq<Case>, pending: seq<nat>, before: Option<Timestamp>, due: bool): seq<nat> {
    if pending == [] then []
    else
      var last := pending[|pending| - 1];
      Select(cases, pending[..|pending| - 1], before, due)
      + if IsDue(cases, last, before) == due then [last] else []
  }

  predicate IsDue(cases: seq<Case>, index: nat, before: Option<Timestamp>) {
    before.None? || (index < |cases| && Resolution(cases[index]) < before.value)
  }

  lemma {:induction false} SelectSelects(cases: seq<Case>, pending: seq<nat>, before: Option<Timestamp>, due: bool)
    requires Unrepeated(pending)
    ensures var r := Select(cases, pending, before, due);
            && Unrepeated(r)
            && forall j :: j in r <==> j in pending && IsDue(cases, j, before) == due
    decreases |pending|
  {
    hide IsDue;
    if pending != [] {
      var prefix, last := pending[..|pending| - 1], pending[|pending| - 1];
      SelectSelects(cases, prefix, before, due);
      assert pending == prefix + [last];
    }
  }

  /** The split of the pending list into what is due and what remains. */
  method SplitPending(cases: seq<Case>, pending: seq<nat>, before: Option<Timestamp>)
    returns (due: seq<nat>, remaining: seq<nat>)
    ensures due == Select(cases, pending, before, true)
    ensures remaining == Select(cases, pending, before, false)
  {
    due, remaining := [], [];
    for i := 0 to |pending|
      invariant due == Select(cases, pending[..i], before, true)
      invariant remaining == Select(cases, pending[..i], before, false)
    {
      assert pending[..i + 1][..i] == pending[..i];
      if IsDue(cases, pending[i], before) {
        due := due + [pending[i]];
      } else {
        remaining := remaining + [pending[i]];
      }
    }
    assert pending[..|pending|] == pending;
  }

  /** Attempting everything due moves the partition to a later time. */
  lemma PartitionAdvances(
    cases: seq<Case>, k: nat, attempts: seq<nat>, pending: seq<nat>, bound: Timestamp, later: Timestamp)
    requires ValidCases(cases) && k <= |cases| && Partition(cases, k, attempts, pending, bound) && bound <= later
    ensures var due := Sorted(cases, Select(cases, pending, Some(later), true));
            Partition(cases, k, attempts + due, Select(cases, pending, Some(later), false), later)
  {
    hide ValidCases, Sorted;
    var due := Select(cases, pending, Some(later), true);
    SelectSelects(cases, pending, Some(later), true);
    SelectSelects(cases, pending, Some(later), false);
    forall i | 0 <= i < |due| ensures due[i] < |cases| {
      assert due[i] in due;
    }
    SortingSorts(cases, due);
    SameSetMembers(Sorted(cases, due), due);
    InOrderAcross(cases, attempts, Sorted(cases, due), bound);
  }

  lemma SameSetMembers(xs: seq<nat>, ys: seq<nat>)
    requires SameSet(xs, ys)
    ensures forall j :: j in xs <==> j in ys
  {}

  /** Attempting everything that is left. */
  lemma PartitionEnds(cases: seq<Case>, attempts: seq<nat>, pending: seq<nat>, bound: Timestamp)
    requires ValidCases(cases) && Partition(cases, |cases|, attempts, pending, bound)
    ensures var all := attempts + Sorted(cases, Select(cases, pending, None, true));
            && InOrder(cases, all)
            && forall j :: j in all <==> 0 <= j < |cases| && cases[j].Settles()
    ensures Select(cases, pending, None, false) == []
  {
    hide ValidCases, Sorted;
    var due := Select(cases, pending, None, true);
    SelectSelects(cases, pending, None, true);
    SelectSelects(cases, pending, None, false);
    forall i | 0 <= i < |due| ensures due[i] < |cases| {
      assert due[i] in due;
    }
    SortingSorts(cases, due);
    SameSetMembers(Sorted(cases, due), due);
    InOrderAcross(cases, attempts, Sorted(cases, due), bound);
    EmptyOrMember(Select(cases, pending, None, false));
  }

  lemma EmptyOrMember(xs: seq<nat>)
    ensures xs == [] || xs[0] in xs
  {}

  lemma PartitionGrows(cases: seq<Case>, k: nat, attempts: seq<nat>, pending: seq<nat>)
    requires ValidCases(cases) && k < |cases| && Partition(cases, k, attempts, pending, cases[k].decisionAt)
    ensures SeesExactly(cases, attempts, k)
    ensures Partition(cases, k + 1, attempts, if cases[k].Settles() then pending + [k] else pending, cases[k].decisionAt)
  {
    hide InOrder, Earlier;
    assert cases[k].Valid();
    LaterCasesResolveLater(cases, k);
  }

  lemma LaterCasesResolveLater(cases: seq<Case>, k: nat)
    requires ValidCases(cases) && k < |cases|
    ensures forall j :: k <= j < |cases| && cases[j].Settles() ==> cases[k].decisionAt <= Resolution(cases[j])
  {
    forall j | k <= j < |cases| && cases[j].Settles() ensures cases[k].decisionAt <= Resolution(cases[j]) {
      assert cases[j].Valid();
    }
  }

  class Engine {
    const cases: seq<Case>
    /** Whether the experiment simulates economics at all. */
    const enabled: bool
    const answers: Answers
    var results: seq<CaseResult>
    var pending: seq<nat>
    /** What the simulated ledger has been asked to do. */
    var trace: seq<Action>

    constructor (cases: seq<Case>, enabled: bool, answers: Answers)
      requires ValidCases(cases)
      ensures this.cases == cases && this.enabled == enabled && this.answers == answers
      ensures results == [] && pending == [] && trace == []
    {
      this.cases, this.enabled, this.answers := cases, enabled, answers;
      results, pending, trace := [], [], [];
    }

    /** The results and decisions of the first `k` cases. */
    ghost predicate Reported(k: nat)
      requires k <= |cases|
      reads this
    {
      && |results| == k
      && (forall j :: 0 <= j < k ==> results[j] == ResultFor(cases[j], enabled, trace, answers, j))
      && (enabled ==> Decisions(trace) == FirstIndices(k))
      && NoLookAhead(cases, trace)
    }

    /** `_settle_due_positions`. */
    method SettleDue(before: Option<Timestamp>, k: nat)
      requires ValidCases(cases) && enabled && k <= |cases| && Reported(k)
      requires InRange(cases, pending) && Unrepeated(pending)
      requires forall j :: j in pending ==> j < k && cases[j].Settles() && j !in Attempts(trace)
      modifies this`results, this`pending, this`trace
      ensures Reported(k)
      ensures Attempts(trace)
              == old(Attempts(trace)) + Sorted(cases, Select(cases, old(pending), before, true))
      ensures pending == Select(cases, old(pending), before, false)
    {
      hide NoLookAhead, ValidCases, Sorted, Select, Attempts, Decisions, InOrder;
      var due, remaining := SplitPending(cases, pending, before);
      SelectSelects(cases, pending, before, true);
      forall i | 0 <= i < |due| ensures due[i] < |cases| {
        assert due[i] in due;
      }
      SortingSorts(cases, due);
      SameSetMembers(Sorted(cases, due), due);
      InOrderHasNoRepeats(cases, Sorted(cases, due));
      var sorted := Sorted(cases, due);
      for i := 0 to |sorted|
        invariant Reported(k) && pending == old(pending)
        invariant Attempts(trace) == old(Attempts(trace)) + sorted[..i]
      {
        var index := sorted[i];
        assert index in sorted;
        var outcome := answers(trace, index);
        ResultsFollow(cases, enabled, trace, Settle(index), answers);
        LookAheadExtends(cases, trace, Settle(index));
        OneMoreAction(trace, Settle(index));
        assert sorted[..i + 1] == sorted[..i] + [index];
        results := results[index := results[index].(settlement := Attempted(outcome))];
        trace := trace + [Settle(index)];
      }
      assert sorted[..|sorted|] == sorted;
      pending := remaining;
    }

    /** The attempts and pending settlements after `k` cases, when economics are simulated. */
    ghost predicate Tracked(k: nat, bound: Timestamp)
      requires k <= |cases|
      reads this
    {
      if enabled then Partition(cases, k, Attempts(trace), pending, bound) else trace == [] && pending == []
    }

    /** One case, once the settlements due before it have been attempted. */
    method DecideCase(k: nat)
      requires ValidCases(cases) && k < |cases| && Reported(k) && Tracked(k, cases[k].decisionAt)
      modifies this`results, this`pending, this`trace
      ensures Reported(k + 1) && Tracked(k + 1, cases[k].decisionAt)
    {
      hide NoLookAhead, ValidCases, Attempts, Decisions, InOrder, SeesExactly, Earlier, Partition;
      var c := cases[k];
      var status, report := Disabled, NoSettlement;
      if enabled {
        PendingIsReady(cases, k, Attempts(trace), pending, c.decisionAt);
        NotAttemptedIsWaiting(trace, answers, k);
        ResultsFollow(cases, enabled, trace, Decide(k), answers);
        PartitionGrows(cases, k, Attempts(trace), pending);
        LookAheadExtends(cases, trace, Decide(k));
        OneMoreAction(trace, Decide(k));
        assert FirstIndices(k + 1) == FirstIndices(k) + [k];
        assert Attempts(trace) + [] == Attempts(trace);
        status := if c.hasSignal && c.hasBook then Evaluated else Unavailable;
        trace := trace + [Decide(k)];
      }
      if c.resolvedAt.Some? {
        report := if !enabled then NeedsEconomics else if status != Evaluated then NeedsEntry else Waiting;
      }
      results := results + [CaseResult(c.caseId, status, report)];
      if c.resolvedAt.Some? && status == Evaluated {
        pending := pending + [k];
      }
    }

    /** `evaluate`: the loop over the cases and the settlements left at the end. */
    method Evaluate()
      requires ValidCases(cases) && results == [] && pending == [] && trace == []
      modifies this`results, this`pending, this`trace
      ensures Reported(|cases|) && pending == []
      ensures InOrder(cases, Attempts(trace)) && Unrepeated(Attempts(trace))
      ensures forall j :: j in Attempts(trace) <==> enabled && 0 <= j < |cases| && cases[j].Settles()
    {
      hide NoLookAhead, ValidCases, Sorted, Select, Attempts, Decisions, InOrder, Partition;
      ghost var bound := FirstDecision(cases);
      NothingYet(cases, bound);
      for k := 0 to |cases|
        invariant Reported(k) && Tracked(k, bound)
        invariant k < |cases| ==> bound <= cases[k].decisionAt
      {
        if enabled {
          PendingIsReady(cases, k, Attempts(trace), pending, bound);
          PartitionAdvances(cases, k, Attempts(trace), pending, bound, cases[k].decisionAt);
          SettleDue(Some(cases[k].decisionAt), k);
        }
        DecideCase(k);
        bound := cases[k].decisionAt;
        NextDecision(cases, k);
      }
      if enabled {
        PendingIsReady(cases, |cases|, Attempts(trace), pending, bound);
        PartitionEnds(cases, Attempts(trace), pending, bound);
        SettleDue(None, |cases|);
      }
      NothingYet(cases, bound);
      InOrderHasNoRepeats(cases, Attempts(trace));
    }
  }

  /** What one more action changes in the expected results. */
  lemma ResultsFollow(cases: seq<Case>, enabled: bool, trace: seq<Action>, action: Action, answers: Answers)
    ensures forall j :: 0 <= j < |cases| ==>
                          var before := ResultFor(cases[j], enabled, trace, answers, j);
                          ResultFor(cases[j], enabled, trace + [action], answers, j)
                          == if action == Settle(j) && enabled && cases[j].Settles()
                             then before.(settlement := Attempted(answers(trace, j))) else before
  {
    hide OutcomeOf;
    forall j | 0 <= j < |cases|
      ensures var before := ResultFor(cases[j], enabled, trace, answers, j);
              ResultFor(cases[j], enabled, trace + [action], answers, j)
              == if action == Settle(j) && enabled && cases[j].Settles()
                 then before.(settlement := Attempted(answers(trace, j))) else before
    {
      OutcomeExtends(trace, action, answers, j);
    }
  }

  lemma {:induction false} NotAttemptedIsWaiting(trace: seq<Action>, answers: Answers, index: nat)
    requires index !in Attempts(trace)
    ensures OutcomeOf(trace, answers, index) == Waiting
    decreases |trace|
  {
    if trace != [] {
      NotAttemptedIsWaiting(trace[..|trace| - 1], answers, index);
    }
  }

  function FirstDecision(cases: seq<Case>): Timestamp {
    if cases == [] then 0 else cases[0].decisionAt
  }

  lemma NothingYet(cases: seq<Case>, bound: Timestamp)
    ensures Partition(cases, 0, [], [], bound) && Attempts([]) == [] && Decisions([]) == [] == FirstIndices(0)
    ensures NoLookAhead(cases, [])
  {}

  lemma NextDecision(cases: seq<Case>, k: nat)
    requires ValidCases(cases) && k < |cases|
    ensures k + 1 < |cases| ==> cases[k].decisionAt <= cases[k + 1].decisionAt
  {}

  lemma PendingIsReady(cases: seq<Case>, k: nat, attempts: seq<nat>, pending: seq<nat>, bound: Timestamp)
    requires k <= |cases| && Partition(cases, k, attempts, pending, bound)
    ensures InRange(cases, pending) && Unrepeated(pending) && InOrder(cases, attempts)
    ensures forall j :: j in pending ==> j < k && cases[j].Settles() && j !in attempts
    ensures forall j :: j in attempts ==> j < k
  {
    forall i | 0 <= i < |pending| ensures pending[i] < |cases| {
      assert pending[i] in pending;
    }
  }

  lemma InOrderHasNoRepeats(cases: seq<Case>, xs: seq<nat>)
    requires InOrder(cases, xs)
    ensures Unrepeated(xs)
  {}

  // ---- What a result says ----

  /** The first attempt at a settlement, and what it was answered given all before it. */
  lemma {:induction false} OutcomeIsAnswer(trace: seq<Action>, answers: Answers, index: nat)
    requires Unrepeated(Attempts(trace))
    ensures OutcomeOf(trace, answers, index).Waiting? <==> Settle(index) !in trace
    ensures forall p :: 0 <= p < |trace| && trace[p] == Settle(index) ==>
                          OutcomeOf(trace, answers, index) == Attempted(answers(trace[..p], index))
    decreases |trace|
  {
    if trace != [] {
      var prefix, last := trace[..|trace| - 1], trace[|trace| - 1];
      assert trace == prefix + [last];
      OneMoreAction(prefix, last);
      PrefixUnrepeated(Attempts(prefix), last);
      OutcomeIsAnswer(prefix, answers, index);
      forall p | 0 <= p < |trace| && trace[p] == Settle(index)
        ensures OutcomeOf(trace, answers, index) == Attempted(answers(trace[..p], index))
      {
        if p < |prefix| {
          assert prefix[p] == Settle(index) && trace[..p] == prefix[..p];
          AttemptIsCounted(prefix, p);
          if last == Settle(index) {
            OnceMore(Attempts(prefix), index);
          }
        }
      }
    }
  }

  lemma PrefixUnrepeated(xs: seq<nat>, last: Action)
    requires Unrepeated(xs + if last.Settle? then [last.index] else [])
    ensures Unrepeated(xs)
  {
    var all := xs + if last.Settle? then [last.index] else [];
    forall i, j | 0 <= i < j < |xs| ensures xs[i] != xs[j] {
      assert all[i] == xs[i] && all[j] == xs[j];
    }
  }

  lemma {:induction false} AttemptIsCounted(trace: seq<Action>, p: nat)
    requires p < |trace| && trace[p].Settle?
    ensures trace[p].index in Attempts(trace)
    decreases |trace|
  {
    if p < |trace| - 1 {
      AttemptIsCounted(trace[..|trace| - 1], p);
    }
  }

  lemma OnceMore(xs: seq<nat>, x: nat)
    requires x in xs
    ensures !Unrepeated(xs + [x])
  {
    var i :| 0 <= i < |xs| && xs[i] == x;
    assert (xs + [x])[i] == (xs + [x])[|xs|];
  }

  /** The status of a case and the report of its settlement, case by case. */
  lemma ResultSays(c: Case, enabled: bool, trace: seq<Action>, answers: Answers, index: nat)
    requires Unrepeated(Attempts(trace))
    ensures var r := ResultFor(c, enabled, trace, answers, index);
            && r.caseId == c.caseId
            && (r.status == Disabled <==> !enabled)
            && (r.status == Evaluated <==> enabled && c.hasSignal && c.hasBook)
            && (r.settlement == NoSettlement <==> c.resolvedAt.None?)
            && (r.settlement == NeedsEconomics <==> c.resolvedAt.Some? && !enabled)
            && (r.settlement == NeedsEntry <==> c.resolvedAt.Some? && enabled && !(c.hasSignal && c.hasBook))
            && (r.settlement.Attempted? <==>
                  c.resolvedAt.Some? && enabled && c.hasSignal && c.hasBook && Settle(index) in trace)
            && (r.settlement.Attempted? ==>
                  exists p :: 0 <= p < |trace| && trace[p] == Settle(index)
                              && r.settlement.outcome == answers(trace[..p], index))
  {
    OutcomeIsAnswer(trace, answers, index);
  }
}
