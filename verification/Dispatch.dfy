/** Which candidates may be dispatched, in what order, with how many slots, and the spawn
    itself. */
module Dispatch {
  import opened Prelude
  import opened Tracker
  import opened EventLoop
  import opened Retry
  import opened State

  // ---------------------------------------------------------------------
  // Eligibility
  // ---------------------------------------------------------------------

  function Normalized(names: seq<string>): set<string> {
    set s | s in names :: Lower(s)
  }

  /** A blocker whose state is unknown blocks. */
  predicate HasNonTerminalBlocker(issue: Issue, terminal: set<string>) {
    exists b :: b in issue.blockedBy && (b.state == None || Lower(b.state.value) !in terminal)
  }

  predicate Eligible(issue: Issue, st: OState, active: set<string>, terminal: set<string>) {
    && Lower(issue.state) in active && Lower(issue.state) !in terminal
    && issue.id !in st.running && issue.id !in st.claimed
    && !HasNonTerminalBlocker(issue, terminal)
  }

  function Filtered(issues: seq<Issue>, st: OState, active: set<string>, terminal: set<string>): seq<Issue> {
    if issues == [] then []
    else
      var last := issues[|issues| - 1];
      Filtered(issues[..|issues| - 1], st, active, terminal) + if Eligible(last, st, active, terminal) then [last] else []
  }

  method FilterCandidates(issues: seq<Issue>, state: OrchestratorState, activeStates: seq<string>, terminalStates: seq<string>)
    returns (out: seq<Issue>)
    requires state.Valid()
    ensures out == Filtered(issues, state.View(), Normalized(activeStates), Normalized(terminalStates))
  {
    var active, terminal := Normalized(activeStates), Normalized(terminalStates);
    ghost var st := state.View();
    out := [];
    for i := 0 to |issues|
      invariant out == Filtered(issues[..i], st, active, terminal)
    {
      var issue := issues[i];
      assert issues[..i + 1][..i] == issues[..i];
      var stateNorm := Lower(issue.state);
      if stateNorm in terminal { continue; }
      if stateNorm !in active { continue; }
      if issue.id in state.running { continue; }
      if issue.id in state.claimed { continue; }
      if HasNonTerminalBlocker(issue, terminal) { continue; }
      out := out + [issue];
    }
    assert issues[..|issues|] == issues;
  }

  /** Eligible, in full: in an active state and in no terminal one, up to case; neither running nor
      claimed; and every blocker known to be in a terminal state. */
  lemma EligibleExactly(issue: Issue, st: OState, activeStates: seq<string>, terminalStates: seq<string>)
    ensures Eligible(issue, st, Normalized(activeStates), Normalized(terminalStates)) <==>
      && (exists name :: name in activeStates && Lower(name) == Lower(issue.state))
      && (forall name :: name in terminalStates ==> Lower(name) != Lower(issue.state))
      && issue.id !in st.running && issue.id !in st.claimed
      && (forall b :: b in issue.blockedBy ==>
            b.state.Some? && exists name :: name in terminalStates && Lower(name) == Lower(b.state.value))
  {
    hide Lower;
  }

  predicate DistinctIds(issues: seq<Issue>) {
    forall i, j :: 0 <= i < j < |issues| ==> issues[i].id != issues[j].id
  }

  /** The filter keeps exactly the eligible candidates, and no more copies of an id than came in. */
  lemma {:induction false} FilteredMembers(issues: seq<Issue>, st: OState, active: set<string>, terminal: set<string>)
    ensures forall x :: x in Filtered(issues, st, active, terminal) <==> x in issues && Eligible(x, st, active, terminal)
    ensures DistinctIds(issues) ==> DistinctIds(Filtered(issues, st, active, terminal))
  {
    if issues != [] {
      var init, last := issues[..|issues| - 1], issues[|issues| - 1];
      assert issues == init + [last];
      FilteredMembers(init, st, active, terminal);
      if DistinctIds(issues) {
        forall x | x in init ensures x.id != last.id {
          var i :| 0 <= i < |init| && init[i] == x;
          assert issues[i].id != issues[|init|].id;
        }
      }
    }
  }

  // ---------------------------------------------------------------------
  // Order
  // ---------------------------------------------------------------------

  /** The instant that stands for "no creation date". */
  const FAR_FUTURE := 315537897599999999

  datatype SortKey = SortKey(bucket: int, priority: int, created: int, identifier: string)

  function DispatchSortKey(issue: Issue): SortKey {
    SortKey(
      if issue.priority.Some? then 0 else 1,
      if issue.priority.Some? then issue.priority.value else 0,
      if issue.createdAt.Some? then issue.createdAt.value.at else FAR_FUTURE,
      issue.identifier)
  }

  /** Code-point order on strings. */
  predicate StringLe(s: string, t: string) {
    s == "" || (t != "" && (s[0] < t[0] || (s[0] == t[0] && StringLe(s[1..], t[1..]))))
  }

  predicate KeyLe(a: SortKey, b: SortKey) {
    a.bucket < b.bucket || (a.bucket == b.bucket &&
    (a.priority < b.priority || (a.priority == b.priority &&
    (a.created < b.created || (a.created == b.created &&
    StringLe(a.identifier, b.identifier))))))
  }

  predicate DispatchLe(a: Issue, b: Issue) {
    KeyLe(DispatchSortKey(a), DispatchSortKey(b))
  }

  function Insert(x: Issue, sorted: seq<Issue>): seq<Issue> {
    if sorted == [] || DispatchLe(x, sorted[0]) then [x] + sorted else [sorted[0]] + Insert(x, sorted[1..])
  }

  /** A stable sort by the dispatch key. */
  function SortForDispatch(issues: seq<Issue>): seq<Issue> {
    if issues == [] then [] else Insert(issues[0], SortForDispatch(issues[1..]))
  }

  /** A missing creation date stands for an instant. */
  predicate IsInstant(issue: Issue) {
    issue.createdAt.Some? ==> issue.createdAt.value.offset.Some?
  }

  /** Two candidates of equal priority are told apart by their creation dates, which must then be
      of one kind. */
  predicate Comparable(a: Issue, b: Issue) {
    a.priority == b.priority ==> IsInstant(a) == IsInstant(b)
  }

  predicate Sortable(issues: seq<Issue>) {
    forall a, b :: a in issues && b in issues ==> Comparable(a, b)
  }

  /** The comparison sorting makes, which may raise. */
  function ComesFirst(a: Issue, b: Issue): Reply<bool> {
    if Comparable(a, b) then Returned(DispatchLe(a, b))
    else Raised("can't compare offset-naive and offset-aware datetimes")
  }

  function InsertComparing(x: Issue, sorted: seq<Issue>): Reply<seq<Issue>> {
    if sorted == [] then Returned([x])
    else
      match ComesFirst(x, sorted[0])
      case Raised(error) => Raised(error)
      case Returned(true) => Returned([x] + sorted)
      case Returned(false) =>
        match InsertComparing(x, sorted[1..])
        case Raised(error) => Raised(error)
        case Returned(rest) => Returned([sorted[0]] + rest)
  }

  function SortComparing(issues: seq<Issue>): Reply<seq<Issue>> {
    if issues == [] then Returned([])
    else
      match SortComparing(issues[1..])
      case Raised(error) => Raised(error)
      case Returned(rest) => InsertComparing(issues[0], rest)
  }

  lemma {:induction false} StringLeTotal(s: string, t: string)
    ensures StringLe(s, t) || StringLe(t, s)
    ensures StringLe(s, t) && StringLe(t, s) ==> s == t
  {
    if s != "" && t != "" {
      StringLeTotal(s[1..], t[1..]);
      assert s == [s[0]] + s[1..] && t == [t[0]] + t[1..];
    }
  }

  lemma {:induction false} StringLeTransitive(s: string, t: string, u: string)
    requires StringLe(s, t) && StringLe(t, u)
    ensures StringLe(s, u)
  {
    if s != "" && s[0] == t[0] == u[0] {
      StringLeTransitive(s[1..], t[1..], u[1..]);
    }
  }

  lemma DispatchLeTotal(a: Issue, b: Issue)
    ensures DispatchLe(a, b) || DispatchLe(b, a)
    ensures DispatchLe(a, b) && DispatchLe(b, a) ==> DispatchSortKey(a) == DispatchSortKey(b)
  {
    StringLeTotal(a.identifier, b.identifier);
  }

  lemma DispatchLeTransitive(a: Issue, b: Issue, c: Issue)
    requires DispatchLe(a, b) && DispatchLe(b, c)
    ensures DispatchLe(a, c)
  {
    if StringLe(a.identifier, b.identifier) && StringLe(b.identifier, c.identifier) {
      StringLeTransitive(a.identifier, b.identifier, c.identifier);
    }
  }

  predicate InDispatchOrder(issues: seq<Issue>) {
    forall i, j :: 0 <= i < j < |issues| ==> DispatchLe(issues[i], issues[j])
  }

  /** The issues carrying one key, in sequence order. */
  function WithKey(issues: seq<Issue>, k: SortKey): seq<Issue> {
    if issues == [] then []
    else (if DispatchSortKey(issues[0]) == k then [issues[0]] else []) + WithKey(issues[1..], k)
  }

  lemma {:induction false} InsertOrdered(x: Issue, sorted: seq<Issue>)
    requires InDispatchOrder(sorted)
    ensures InDispatchOrder(Insert(x, sorted))
    ensures multiset(Insert(x, sorted)) == multiset{x} + multiset(sorted)
  {
    hide DispatchLe;
    if sorted == [] {
    } else if DispatchLe(x, sorted[0]) {
      forall i | 0 <= i < |sorted| ensures DispatchLe(x, sorted[i]) {
        if i > 0 {
          DispatchLeTransitive(x, sorted[0], sorted[i]);
        }
      }
    } else {
      DispatchLeTotal(x, sorted[0]);
      var rest := Insert(x, sorted[1..]);
      InsertOrdered(x, sorted[1..]);
      assert sorted == [sorted[0]] + sorted[1..];
      forall i | 0 <= i < |rest| ensures DispatchLe(sorted[0], rest[i]) {
        assert rest[i] in multiset(rest);
        assert rest[i] == x || rest[i] in sorted[1..];
      }
    }
  }

  lemma {:induction false} InsertStable(x: Issue, sorted: seq<Issue>, k: SortKey)
    ensures WithKey(Insert(x, sorted), k) == WithKey([x] + sorted, k)
  {
    assert ([x] + sorted)[1..] == sorted;
    if sorted != [] && !DispatchLe(x, sorted[0]) {
      InsertStable(x, sorted[1..], k);
      DispatchLeTotal(x, sorted[0]);
      var r := Insert(x, sorted[1..]);
      assert ([sorted[0]] + r)[1..] == r;
      assert ([x] + sorted[1..])[1..] == sorted[1..];
      assert DispatchSortKey(x) != DispatchSortKey(sorted[0]) by {
        if DispatchSortKey(x) == DispatchSortKey(sorted[0]) {
          StringLeTotal(x.identifier, x.identifier);
        }
      }
    }
  }

  /** Sorted by the key, a permutation of the input, and issues with equal keys keep their
      order. */
  lemma {:induction false} SortedForDispatch(issues: seq<Issue>, k: SortKey)
    ensures InDispatchOrder(SortForDispatch(issues))
    ensures multiset(SortForDispatch(issues)) == multiset(issues)
    ensures WithKey(SortForDispatch(issues), k) == WithKey(issues, k)
  {
    if issues != [] {
      var rest := SortForDispatch(issues[1..]);
      SortedForDispatch(issues[1..], k);
      InsertOrdered(issues[0], rest);
      InsertStable(issues[0], rest, k);
      assert ([issues[0]] + rest)[1..] == rest;
      assert issues == [issues[0]] + issues[1..];
    }
  }

  /** `s` comes before `t` in code-point order: they agree up to position `n`, where `s` ends or has
      the smaller character. */
  predicate BeforeAt(s: string, t: string, n: nat) {
    n <= |s| && n < |t| && s[..n] == t[..n] && (n < |s| ==> s[n] < t[n])
  }

  lemma {:induction false} StringLeExactly(s: string, t: string)
    ensures StringLe(s, t) <==> s == t || exists n: nat :: BeforeAt(s, t, n)
  {
    if s == "" {
      assert t != "" ==> BeforeAt(s, t, 0);
    } else if t != "" && s[0] == t[0] {
      StringLeExactly(s[1..], t[1..]);
      assert s == [s[0]] + s[1..] && t == [t[0]] + t[1..];
      if exists n: nat :: BeforeAt(s[1..], t[1..], n) {
        var n: nat :| BeforeAt(s[1..], t[1..], n);
        assert s[..n + 1] == [s[0]] + s[1..][..n] && t[..n + 1] == [t[0]] + t[1..][..n];
        assert BeforeAt(s, t, n + 1);
      }
      forall n: nat | BeforeAt(s, t, n) ensures BeforeAt(s[1..], t[1..], n - 1) {
        assert s[1..][..n - 1] == s[..n][1..] && t[1..][..n - 1] == t[..n][1..];
      }
    } else if t != "" {
      assert s[0] < t[0] ==> BeforeAt(s, t, 0);
      forall n: nat | BeforeAt(s, t, n) ensures n == 0 {
        DifferentHeads(s, t, n);
      }
    }
  }

  lemma DifferentHeads(s: string, t: string, n: nat)
    requires s != "" && t != "" && s[0] != t[0] && n <= |s| && n <= |t|
    ensures n > 0 ==> s[..n] != t[..n]
  {
    if n > 0 {
      assert s[..n][0] == s[0] && t[..n][0] == t[0];
    }
  }

  /** `x` was created no later than `y`; a missing date stands for the last microsecond of the year 9999. */
  predicate NoLater(x: Option<Stamp>, y: Option<Stamp>) {
    (if x.Some? then x.value.at else 315_537_897_599_999_999) <= (if y.Some? then y.value.at else 315_537_897_599_999_999)
  }

  /** The order on the fields of the issues: one with a priority comes before one without, a smaller
      priority before a larger one; at equal priority the earlier creation date comes first, and at
      equal dates the identifier that is not greater. */
  lemma DispatchOrderOnFields(issues: seq<Issue>, i: nat, j: nat)
    requires i < j < |SortForDispatch(issues)|
    ensures var a, b := SortForDispatch(issues)[i], SortForDispatch(issues)[j];
      && (b.priority.Some? ==> a.priority.Some? && a.priority.value <= b.priority.value)
      && (a.priority == b.priority ==>
            && NoLater(a.createdAt, b.createdAt)
            && (NoLater(b.createdAt, a.createdAt) ==>
                  a.identifier == b.identifier || exists n: nat :: BeforeAt(a.identifier, b.identifier, n)))
  {
    var a, b := SortForDispatch(issues)[i], SortForDispatch(issues)[j];
    SortedForDispatch(issues, DispatchSortKey(a));
    assert DispatchLe(a, b);
    StringLeExactly(a.identifier, b.identifier);
    hide SortForDispatch, BeforeAt, StringLe;
  }

  lemma {:induction false} SortKeepsMembers(issues: seq<Issue>)
    ensures forall x :: x in SortForDispatch(issues) <==> x in issues
  {
    if issues != [] {
      SortKeepsMembers(issues[1..]);
      InsertMembers(issues[0], SortForDispatch(issues[1..]));
      assert issues == [issues[0]] + issues[1..];
    }
  }

  lemma {:induction false} InsertMembers(x: Issue, sorted: seq<Issue>)
    ensures forall y :: y in Insert(x, sorted) <==> y == x || y in sorted
  {
    if sorted != [] && !DispatchLe(x, sorted[0]) {
      InsertMembers(x, sorted[1..]);
      assert sorted == [sorted[0]] + sorted[1..];
    }
  }

  /** Inserting meets an issue it cannot compare with exactly if there is one. */
  lemma {:induction false} InsertRaisesExactly(x: Issue, sorted: seq<Issue>)
    requires InDispatchOrder(sorted) && Sortable(sorted)
    ensures InsertComparing(x, sorted).Raised? <==> exists y :: y in sorted && !Comparable(x, y)
    ensures InsertComparing(x, sorted).Returned? ==> InsertComparing(x, sorted).value == Insert(x, sorted)
  {
    if sorted != [] {
      assert sorted == [sorted[0]] + sorted[1..];
      InsertRaisesExactly(x, sorted[1..]);
      if Comparable(x, sorted[0]) && DispatchLe(x, sorted[0]) {
        forall y | y in sorted ensures Comparable(x, y) {
          var i :| 0 <= i < |sorted| && sorted[i] == y;
          assert Comparable(sorted[0], y);
          assert i > 0 ==> DispatchLe(sorted[0], sorted[i]);
        }
      }
    }
  }

  /** Sorting raises exactly if two candidates of equal priority have creation dates of different
      kinds, and otherwise sorts. */
  lemma {:induction false} SortRaisesExactly(issues: seq<Issue>)
    ensures SortComparing(issues).Raised? <==> !Sortable(issues)
    ensures SortComparing(issues).Returned? ==> SortComparing(issues).value == SortForDispatch(issues)
  {
    hide InDispatchOrder, Comparable, Insert, InsertComparing;
    if issues != [] {
      var first, rest := issues[0], issues[1..];
      assert issues == [first] + rest;
      SortRaisesExactly(rest);
      if Sortable(rest) {
        SortedForDispatch(rest, DispatchSortKey(first));
        SortKeepsMembers(rest);
        InsertRaisesExactly(first, SortForDispatch(rest));
        SelfComparable(first);
      }
    }
  }

  /** In the fields of the issues: two of equal priority, of which one has a creation date without an
      offset, and the other one with an offset or none at all. */
  lemma UnsortableExactly(issues: seq<Issue>)
    ensures SortComparing(issues).Raised? <==>
      exists a, b :: a in issues && b in issues && a.priority == b.priority
        && a.createdAt.Some? && a.createdAt.value.offset == None
        && (b.createdAt.Some? ==> b.createdAt.value.offset.Some?)
  {
    hide SortComparing, SortForDispatch;
    SortRaisesExactly(issues);
    if !Sortable(issues) {
      var a, b :| a in issues && b in issues && !Comparable(a, b);
      assert !IsInstant(a) || !IsInstant(b);
    }
    forall a, b | a in issues && b in issues && a.priority == b.priority
        && a.createdAt.Some? && a.createdAt.value.offset == None
        && (b.createdAt.Some? ==> b.createdAt.value.offset.Some?)
      ensures !Comparable(a, b)
    {
    }
  }

  lemma SelfComparable(x: Issue)
    ensures Comparable(x, x)
    ensures forall y :: Comparable(x, y) <==> Comparable(y, x)
  {
  }

  lemma {:induction false} SortKeepsDistinctIds(issues: seq<Issue>)
    requires DistinctIds(issues)
    ensures DistinctIds(SortForDispatch(issues))
    ensures forall x :: x in SortForDispatch(issues) <==> x in issues
  {
    if issues != [] {
      assert DistinctIds(issues[1..]);
      SortKeepsDistinctIds(issues[1..]);
      forall x | x in issues[1..] ensures x.id != issues[0].id {
        var i :| 0 <= i < |issues[1..]| && issues[1..][i] == x;
        assert issues[0].id != issues[i + 1].id;
      }
      InsertKeepsDistinctIds(issues[0], SortForDispatch(issues[1..]));
      assert issues == [issues[0]] + issues[1..];
    }
  }

  lemma {:induction false} InsertKeepsDistinctIds(x: Issue, sorted: seq<Issue>)
    requires DistinctIds(sorted) && forall y :: y in sorted ==> y.id != x.id
    ensures DistinctIds(Insert(x, sorted))
    ensures forall y :: y in Insert(x, sorted) <==> y == x || y in sorted
  {
    if sorted != [] && !DispatchLe(x, sorted[0]) {
      assert DistinctIds(sorted[1..]);
      InsertKeepsDistinctIds(x, sorted[1..]);
      assert sorted == [sorted[0]] + sorted[1..];
      var rest := Insert(x, sorted[1..]);
      forall j | 0 <= j < |rest| ensures rest[j].id != sorted[0].id {
        assert rest[j] in rest;
        if rest[j] != x {
          var i :| 0 <= i < |sorted[1..]| && sorted[1..][i] == rest[j];
          assert sorted[0].id != sorted[i + 1].id;
        }
      }
    }
  }

  // ---------------------------------------------------------------------
  // Slots
  // ---------------------------------------------------------------------

  /** The last entry of the map whose key agrees up to case, or the default. */
  function StateCap(perState: seq<(string, int)>, name: string, default: int): int {
    if perState == [] then default
    else
      var (key, cap) := perState[|perState| - 1];
      if Lower(key) == Lower(name) then cap else StateCap(perState[..|perState| - 1], name, default)
  }

  function AvailableSlots(name: string, maxGlobal: int, total: int, perState: seq<(string, int)>, inState: int): int {
    Min(Max(maxGlobal - total, 0), Max(StateCap(perState, name, maxGlobal) - inState, 0))
  }

  predicate HasSlot(st: OState, name: string, perState: seq<(string, int)>) {
    AvailableSlots(name, st.maxConcurrentAgents, |st.running|, perState, CountInState(st, name)) > 0
  }

  /** A slot is free exactly when both the global cap and the state's cap leave room. */
  lemma SlotFree(st: OState, name: string, perState: seq<(string, int)>)
    ensures HasSlot(st, name, perState) <==>
      |st.running| < st.maxConcurrentAgents && CountInState(st, name) < StateCap(perState, name, st.maxConcurrentAgents)
  {
  }

  /** The cap is the default exactly when no key agrees with the state up to case, and otherwise
      that of the last key that does. */
  lemma {:induction false} StateCapIsLast(perState: seq<(string, int)>, name: string, default: int) returns (at: Option<nat>)
    ensures at == None <==> forall i :: 0 <= i < |perState| ==> Lower(perState[i].0) != Lower(name)
    ensures at == None ==> StateCap(perState, name, default) == default
    ensures at.Some? ==>
      && at.value < |perState| && Lower(perState[at.value].0) == Lower(name)
      && (forall j :: at.value < j < |perState| ==> Lower(perState[j].0) != Lower(name))
      && StateCap(perState, name, default) == perState[at.value].1
  {
    hide Lower;
    if perState == [] {
      at := None;
    } else if Lower(perState[|perState| - 1].0) == Lower(name) {
      at := Some(|perState| - 1);
    } else {
      var init := perState[..|perState| - 1];
      at := StateCapIsLast(init, name, default);
      assert forall i :: 0 <= i < |init| ==> init[i] == perState[i];
    }
  }

  lemma {:induction false} StateCapUpToCase(perState: seq<(string, int)>, a: string, b: string, default: int)
    requires Lower(a) == Lower(b)
    ensures StateCap(perState, a, default) == StateCap(perState, b, default)
  {
    if perState != [] {
      StateCapUpToCase(perState[..|perState| - 1], a, b, default);
    }
  }

  method ConcurrencyCheck(issue: Issue, state: OrchestratorState, perState: seq<(string, int)>) returns (ok: bool)
    requires state.Valid()
    ensures ok == HasSlot(state.View(), issue.state, perState)
  {
    var inState := state.CountRunningInState(issue.state);
    assert |state.View().running| == |state.View().running.Keys| == |state.running.Keys| == |state.running|;
    ok := AvailableSlots(issue.state, state.maxConcurrentAgents, |state.running|, perState, inState) > 0;
  }

  // ---------------------------------------------------------------------
  // The spawn
  // ---------------------------------------------------------------------

  /** Whether building the worker task succeeds. */
  datatype Spawn = Spawned | SpawnFailed(error: string)

  /** Hands out worker tasks. */
  class WorkerFactory {
    var next: nat

    constructor ()
      ensures next == 0
    {
      next := 0;
    }

    method Create(spawn: Spawn) returns (r: Reply<nat>)
      modifies this
      ensures spawn.Spawned? ==> r == Returned(old(next)) && next == old(next) + 1
      ensures spawn.SpawnFailed? ==> r == Raised(spawn.error) && next == old(next)
    {
      if spawn.SpawnFailed? {
        return Raised(spawn.error);
      }
      r := Returned(next);
      next := next + 1;
    }
  }

  /** What the per-issue handlers work on. */
  datatype Core = Core(st: OState, q: Queue, nextTask: nat)

  /** What a handler leaves behind, and whether it ended by raising. */
  datatype Outcome = Outcome(core: Core, raised: bool)

  ghost function CoreView(state: OrchestratorState, queue: RetryQueue, workers: WorkerFactory): Core
    reads state, queue, queue.loop, workers
  {
    Core(state.View(), queue.View(), workers.next)
  }

  function Dispatched(c: Core, issue: Issue, attempt: int, spawn: Spawn, now: int, maxBackoffMs: int): Outcome {
    var q1 := Cancelled(c.q, issue.id);
    match spawn
    case Spawned =>
      var entry := FreshEntry(c.nextTask, issue, now, attempt);
      Outcome(Core(AddedRunning(c.st.(claimed := c.st.claimed + {issue.id}), issue.id, entry), q1, c.nextTask + 1), false)
    case SpawnFailed(error) =>
      var st := c.st.(claimed := c.st.claimed - {issue.id});
      match Scheduled(q1, now, issue.id, attempt + 1, Failure, maxBackoffMs, DoNothing(issue.id), Some(error))
      case Raised(_) => Outcome(Core(st, q1, c.nextTask), true)
      case Returned(q2) => Outcome(Core(st, q2, c.nextTask), false)
  }

  /** `raised` reports the rejected attempt number escaping from the failure branch. */
  method DispatchIssue(state: OrchestratorState, queue: RetryQueue, workers: WorkerFactory,
                       issue: Issue, attempt: int, spawn: Spawn, now: int, maxBackoffMs: int)
    returns (entry: Option<RunningEntry>, raised: bool)
    requires state.Valid()
    modifies state, queue, queue.loop, workers
    ensures state.Valid()
    ensures entry.Some? <==> spawn.Spawned?
    ensures fresh(state.pool - old(state.pool))
    ensures Outcome(CoreView(state, queue, workers), raised)
         == Dispatched(old(CoreView(state, queue, workers)), issue, attempt, spawn, now, maxBackoffMs)
  {
    hide Scheduled, Cancelled, OrchestratorState.Valid;
    var _ := queue.Cancel(issue.id);
    state.MarkClaimed(issue.id);
    assert state.Valid();
    var task := workers.Create(spawn);
    assert state.Valid();
    if task.Raised? {
      state.Unclaim(issue.id);
      assert old(state.claimed) + {issue.id} - {issue.id} == old(state.claimed) - {issue.id};
      assert state.Valid();
      var r := queue.Schedule(now, issue.id, attempt + 1, Failure, maxBackoffMs, DoNothing(issue.id), Some(task.error));
      entry, raised := None, r.Raised?;
    } else {
      var e := new RunningEntry(task.value, issue, now, attempt);
      assert state.Valid();
      state.AddRunning(e);
      entry, raised := Some(e), false;
    }
  }
}
