/** Small worlds for concrete runs: plain issues, a gate that finds everything clear, a first tick. */
module Scenario {
  import opened Prelude
  import opened Tracker
  import opened Clarification
  import opened State
  import opened Dispatch
  import opened Lifecycle
  import opened World
  import opened Mailboxes

  const CONFIG := Config(["todo"], [], 2, [], 0, 1, 0)
  const ISSUE := Issue("1", "R-1", "t", "todo", None, None, [], None, None)

  /** There are no comments, and the analysis is content. */
  function Candidate(spawn: Spawn): CandidateEnv {
    CandidateEnv(0, Returned([]), [], Returned(Decision(true, [], None)), [], Returned(()), [], spawn)
  }

  function TickOver(config: Config, fetched: seq<Issue>, candidate: nat -> CandidateEnv): TickEnv {
    TickEnv(0, {}, Returned([]), [], Returned(Some(config)), Returned(fetched), [], candidate)
  }

  predicate Ascii(s: string) {
    forall c :: c in s ==> c as int < 128
  }

  /** An issue whose texts can be encoded. */
  predicate Plain(x: Issue) {
    Ascii(x.id) && Ascii(x.identifier) && Ascii(x.title) && x.description == None && x.updatedAt == None
  }

  lemma PlainHashes(p: Primitives, x: Issue)
    requires Plain(x)
    ensures InputFingerprint(p, x, []).Returned?
  {
    FingerprintsRaiseExactly(p, x, [], []);
  }

  /** The gate lets a plain issue that is not waiting through at once. */
  lemma PlainTurn(p: Primitives, w: World, x: Issue, spawn: Spawn)
    requires w.core.st.clarificationWaiting == map[] && Plain(x)
    ensures Considered(p, w, x, Candidate(spawn)) ==
      if !HasSlot(w.core.st, x.state, w.config.maxConcurrentByState) then w
      else Absorb(w.(gateLog := w.gateLog + [Cleared(x.id)]), Dispatched(w.core, x, 1, spawn, 0, w.config.maxRetryBackoffMs))
  {
    hide InputFingerprint, NonClarificationCommentIds, Dispatched, HasSlot, Plain;
    PlainHashes(p, x);
    assert w.core.st.clarificationWaiting - {x.id} == w.core.st.clarificationWaiting;
  }

  /** With one worker running, the slots are counted at a glance. */
  lemma OneRunning(st: OState, id: string, e: Entry, name: string)
    requires st.order == [id] && st.running == map[id := e]
    ensures CountInState(st, name) == if Lower(e.issue.state) == Lower(name) then 1 else 0
    ensures |st.running| == 1
  {
    hide Lower;
    var order, weight := st.order, InState(name);
    assert |order| == 1 && order[..|order| - 1] == [];
    assert Total(order, st.running, weight) == Total([], st.running, weight) + WeightOf(st.running, order[0], weight);
  }

  /** Candidates that are all eligible and in order already stay as they are. */
  lemma AllInOrder(w: World, xs: seq<Issue>)
    requires InDispatchOrder(xs)
    requires forall x :: x in xs ==>
      Eligible(x, w.core.st, Normalized(w.config.activeStates), Normalized(w.config.terminalStates))
    ensures EligibleNow(w, xs) == xs && EligibleInOrder(w, xs) == xs
  {
    hide Eligible, Normalized, InDispatchOrder;
    FilterKeepsAll(xs, w.core.st, Normalized(w.config.activeStates), Normalized(w.config.terminalStates));
    SortOfSorted(xs);
  }

  lemma {:induction false} FilterKeepsAll(xs: seq<Issue>, st: OState, active: set<string>, terminal: set<string>)
    requires forall x :: x in xs ==> Eligible(x, st, active, terminal)
    ensures Filtered(xs, st, active, terminal) == xs
  {
    hide Eligible;
    if xs != [] {
      FilterKeepsAll(xs[..|xs| - 1], st, active, terminal);
      assert xs == xs[..|xs| - 1] + [xs[|xs| - 1]];
    }
  }

  lemma {:induction false} SortOfSorted(xs: seq<Issue>)
    requires InDispatchOrder(xs)
    ensures SortForDispatch(xs) == xs
  {
    hide DispatchLe;
    if xs != [] {
      SortOfSorted(xs[1..]);
      assert xs == [xs[0]] + xs[1..];
      assert |xs| > 1 ==> DispatchLe(xs[0], xs[1]);
    }
  }

  lemma UndatedSortable(xs: seq<Issue>)
    requires forall x :: x in xs ==> x.createdAt == None
    ensures Sortable(xs)
  {
  }

  /** The world in which the first tick runs. */
  function Start(config: Config): World {
    Initial(config).(box := [])
  }

  lemma FirstTick(p: Primitives, config: Config, fetched: seq<Issue>, candidate: nat -> CandidateEnv, retry: RetryEnv)
    ensures var tick := TickOver(config, fetched, candidate);
      Run(p, Initial(config), [Deliver(HandlerEnv(0, tick, retry))]) == Polled(p, Start(config), tick)
  {
    hide Polled;
    var events := [Deliver(HandlerEnv(0, TickOver(config, fetched, candidate), retry))];
    assert events[..0] == [];
    assert Run(p, Initial(config), events[..0]) == Initial(config);
    assert [PollTick][1..] == [];
    assert Reconciled(Start(config), TickOver(config, fetched, candidate)) == Start(config);
  }

  /** A tick over candidates that are in order already. */
  lemma PolledInOrder(p: Primitives, w: World, config: Config, fetched: seq<Issue>, candidate: nat -> CandidateEnv)
    requires Sortable(fetched) && EligibleNow(w, fetched) == fetched == EligibleInOrder(w, fetched)
    ensures var r := DispatchedFirst(p, w, fetched, |fetched|, candidate);
      Polled(p, w, TickOver(config, fetched, candidate)) == if r.status == Crashed then r else TickScheduled(r)
  {
    hide DispatchedFirst, Sortable, EligibleNow, EligibleInOrder, TickScheduled;
    assert Awaited(w, []) == w;
  }
}
