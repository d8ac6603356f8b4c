/** A first tick in which a candidate is overtaken by a later one of its own state: a fetch lists
    an issue twice, in two states, and its second listing frees the slot of the first. */
module Overtaking {
  import opened Prelude
  import opened Tracker
  import opened State
  import opened Clarification
  import opened Dispatch
  import opened Lifecycle
  import opened World
  import opened Capacity
  import opened Scenario

  /** Four slots in all, one of them for the state "a". */
  const CAPPED := Config(["a", "b"], [], 4, [("a", 1)], 0, 1, 0)

  const FIRST := Issue("1", "R-1", "t", "a", None, Some(1), [], None, None)
  const REFUSED := Issue("2", "R-2", "t", "a", None, Some(2), [], None, None)
  const AGAIN := Issue("1", "R-1", "t", "b", None, Some(3), [], None, None)
  const LATE := Issue("3", "R-3", "t", "a", None, Some(4), [], None, None)
  const FETCHED := [FIRST, REFUSED, AGAIN, LATE]

  function AlwaysSpawned(n: nat): CandidateEnv {
    Candidate(Spawned)
  }

  /** One worker runs, on the snapshot `x` of the first issue. */
  ghost predicate Occupied(w: World, x: Issue, task: nat) {
    && w.status == Live && w.config == CAPPED && w.core.st.maxConcurrentAgents == 4 && w.core.nextTask == task + 1
    && w.core.st.order == ["1"] && w.core.st.running == map["1" := FreshEntry(task, x, 0, 1)]
    && w.core.st.clarificationWaiting == map[]
  }

  lemma FetchedInOrder(w: World)
    requires w == Start(CAPPED)
    ensures EligibleNow(w, FETCHED) == FETCHED == EligibleInOrder(w, FETCHED)
  {
    assert "a" in ["a", "b"] && "b" in ["a", "b"];
    assert Lower("a") in Normalized(["a", "b"]) && Lower("b") in Normalized(["a", "b"]);
    assert Normalized([]) == {};
    AllInOrder(w, FETCHED);
  }

  lemma EmptyCount(name: string)
    ensures Total([], map[], InState(name)) == 0
  {
  }

  lemma AFree(w: World)
    ensures w == Start(CAPPED) ==> HasSlot(w.core.st, "a", [("a", 1)])
    ensures Occupied(w, FIRST, 0) ==> !HasSlot(w.core.st, "a", [("a", 1)]) && HasSlot(w.core.st, "b", [("a", 1)])
    ensures Occupied(w, AGAIN, 1) ==> HasSlot(w.core.st, "a", [("a", 1)])
  {
    hide Total, HasSlot;
    assert [("a", 1)][..0] == [];
    assert Lower("a") == "a" && Lower("b") == "b";
    SlotFree(w.core.st, "a", [("a", 1)]);
    SlotFree(w.core.st, "b", [("a", 1)]);
    if Occupied(w, FIRST, 0) {
      OneRunning(w.core.st, "1", FreshEntry(0, FIRST, 0, 1), "a");
      OneRunning(w.core.st, "1", FreshEntry(0, FIRST, 0, 1), "b");
    }
    if Occupied(w, AGAIN, 1) {
      OneRunning(w.core.st, "1", FreshEntry(1, AGAIN, 0, 1), "a");
    }
    EmptyCount("a");
  }

  lemma FirstTurn(p: Primitives, w: World)
    requires w == Start(CAPPED)
    ensures Occupied(Considered(p, w, FIRST, Candidate(Spawned)), FIRST, 0)
  {
    hide Considered, HasSlot;
    AFree(w);
    PlainTurn(p, w, FIRST, Spawned);
  }

  lemma ThirdTurn(p: Primitives, w: World)
    requires Occupied(w, FIRST, 0)
    ensures Occupied(Considered(p, w, AGAIN, Candidate(Spawned)), AGAIN, 1)
    ensures Starts(p, w, AGAIN, Candidate(Spawned)) && Leaves(w.core.st, AGAIN, "a")
  {
    hide HasSlot;
    AFree(w);
    PlainTurn(p, w, AGAIN, Spawned);
    PlainHashes(p, AGAIN);
    hide InputFingerprint, NonClarificationCommentIds;
    assert Lower("a") == "a" && Lower("b") == "b";
  }

  lemma LastTurn(p: Primitives, w: World)
    requires Occupied(w, AGAIN, 1)
    ensures var r := Considered(p, w, LATE, Candidate(Spawned));
      r.core.st.running == map["1" := FreshEntry(1, AGAIN, 0, 1), "3" := FreshEntry(2, LATE, 0, 1)] && r.status == Live
  {
    hide Considered, HasSlot;
    AFree(w);
    PlainTurn(p, w, LATE, Spawned);
  }

  /** The refused candidate stays out while the later one of its state, with lower priority, runs. */
  lemma RefusedIsOvertaken(p: Primitives, retry: RetryEnv)
    ensures var w := Start(CAPPED);
      && EligibleInOrder(w, FETCHED) == FETCHED && REFUSED.state == LATE.state
      && RefusedAt(p, w, FETCHED, 1, AlwaysSpawned) && MovesAt(p, w, FETCHED, 2, AlwaysSpawned, "a")
      && DispatchedAt(p, w, FETCHED, 3, AlwaysSpawned)
    ensures var events := [Deliver(HandlerEnv(0, TickOver(CAPPED, FETCHED, AlwaysSpawned), retry))];
      Run(p, Initial(CAPPED), events).core.st.running.Keys == {"1", "3"}
  {
    var w := Start(CAPPED);
    FetchedInOrder(w);
    UndatedSortable(FETCHED);
    hide EligibleNow, EligibleInOrder, Sortable, Polled, Run, HasSlot, Considered, Starts, Leaves;
    FirstTick(p, CAPPED, FETCHED, AlwaysSpawned, retry);
    PolledInOrder(p, w, CAPPED, FETCHED, AlwaysSpawned);
    Turns(p, w);
    var last := DispatchedFirst(p, w, FETCHED, 4, AlwaysSpawned);
    assert TickScheduled(last).core.st == last.core.st;
  }

  lemma Turns(p: Primitives, w: World)
    requires w == Start(CAPPED)
    ensures RefusedAt(p, w, FETCHED, 1, AlwaysSpawned) && MovesAt(p, w, FETCHED, 2, AlwaysSpawned, "a")
    ensures DispatchedAt(p, w, FETCHED, 3, AlwaysSpawned)
    ensures var r := DispatchedFirst(p, w, FETCHED, 4, AlwaysSpawned);
      r.core.st.running.Keys == {"1", "3"} && r.status == Live
  {
    hide Considered, HasSlot, Starts, Leaves;
    assert DispatchedFirst(p, w, FETCHED, 0, AlwaysSpawned) == w;
    FirstTurn(p, w);
    var w1 := DispatchedFirst(p, w, FETCHED, 1, AlwaysSpawned);
    AFree(w1);
    PlainTurn(p, w1, REFUSED, Spawned);
    assert DispatchedFirst(p, w, FETCHED, 2, AlwaysSpawned) == w1;
    ThirdTurn(p, w1);
    var w3 := DispatchedFirst(p, w, FETCHED, 3, AlwaysSpawned);
    LastTurn(p, w3);
    assert "3" in DispatchedFirst(p, w, FETCHED, 4, AlwaysSpawned).core.st.running && "3" !in w3.core.st.running;
  }
}
