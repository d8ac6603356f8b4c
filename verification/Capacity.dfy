/** How many workers run: caps hold where workers start, and no candidate is overtaken within
    a tick. */
module Capacity {
  import opened Prelude
  import opened Tracker
  import opened Mailboxes
  import opened Retry
  import opened State
  import opened Clarification
  import opened Dispatch
  import opened Lifecycle
  import opened World
  import opened Framing
  import opened Consistency
  import opened Admission

  // ---------------------------------------------------------------------
  // One turn
  // ---------------------------------------------------------------------

  /** The candidate's turn starts a worker. */
  predicate Starts(p: Primitives, w: World, issue: Issue, e: CandidateEnv) {
    && w.status != Crashed && HasSlot(w.core.st, issue.state, w.config.maxConcurrentByState)
    && Gate(p, w, issue, e).1 && e.spawn.Spawned?
  }

  /** The issue already runs in the state `name`, and is now fetched in another. */
  predicate Leaves(st: OState, issue: Issue, name: string) {
    && issue.id in st.running && Lower(st.running[issue.id].issue.state) == Lower(name)
    && Lower(issue.state) != Lower(name)
  }

  lemma {:induction false} SameWeightSameTotal(order: seq<string>, m: map<string, Entry>, f: Entry -> int, g: Entry -> int)
    requires forall e :: f(e) == g(e)
    ensures Total(order, m, f) == Total(order, m, g)
  {
    if order != [] {
      SameWeightSameTotal(order[..|order| - 1], m, f, g);
    }
  }

  lemma SameStateSameCount(st: OState, a: string, b: string)
    requires Lower(a) == Lower(b)
    ensures CountInState(st, a) == CountInState(st, b)
  {
    SameWeightSameTotal(st.order, st.running, InState(a), InState(b));
  }

  /** A worker counts in its own state, and no longer in the one it may have run in before. */
  lemma AddedCounts(st: OState, issue: Issue, e: Entry, name: string)
    requires Ordered(st) && e.issue == issue
    ensures var st1 := AddedRunning(st, issue.id, e);
      && Ordered(st1)
      && CountInState(st1, name) == CountInState(st, name) + InState(name)(e)
                                    - (if issue.id in st.running then InState(name)(st.running[issue.id]) else 0)
  {
    hide Total, InState;
    if issue.id in st.running {
      TotalUpdate(st.order, st.running, issue.id, e, InState(name));
    } else {
      TotalAppend(st.order, st.running, issue.id, e, InState(name));
    }
  }

  /** A turn changes the running map only by starting a worker. */
  lemma ConsideredStarts(p: Primitives, w: World, issue: Issue, e: CandidateEnv)
    requires w.status != Crashed
    ensures var st, st1 := w.core.st, Considered(p, w, issue, e).core.st;
      if Starts(p, w, issue, e) then
        exists entry: Entry :: entry.issue == issue && st1.running == AddedRunning(st, issue.id, entry).running
                        && st1.order == AddedRunning(st, issue.id, entry).order
      else st1.running == st.running && st1.order == st.order
  {
    hide Gate, Dispatched, HasSlot;
    GateFrame(p, w, issue, e);
    var w1 := Gate(p, w, issue, e).0;
    DispatchedFrame(w1.core, issue, 1, e.spawn, e.now, w1.config.maxRetryBackoffMs);
    assert FreshEntry(w1.core.nextTask, issue, e.now, 1).issue == issue;
  }

  /** The count of a state falls at a turn exactly when the turn starts a worker for an issue that
      already runs in that state and is now fetched in another. */
  lemma CountFallsExactly(p: Primitives, w: World, issue: Issue, e: CandidateEnv, name: string)
    requires Ordered(w.core.st) && w.status != Crashed
    ensures var r := Considered(p, w, issue, e);
      && Ordered(r.core.st)
      && (CountInState(r.core.st, name) < CountInState(w.core.st, name) <==>
            Starts(p, w, issue, e) && Leaves(w.core.st, issue, name))
  {
    hide Starts, Considered, Total;
    var st, st1 := w.core.st, Considered(p, w, issue, e).core.st;
    ConsideredStarts(p, w, issue, e);
    if Starts(p, w, issue, e) {
      var entry: Entry :| entry.issue == issue && st1.running == AddedRunning(st, issue.id, entry).running
                   && st1.order == AddedRunning(st, issue.id, entry).order;
      AddedCounts(st, issue, entry, name);
    }
  }

  // ---------------------------------------------------------------------
  // The dispatch loop
  // ---------------------------------------------------------------------

  /** The candidate at position `i` finds no slot when its turn comes. */
  predicate RefusedAt(p: Primitives, w: World, eligible: seq<Issue>, i: nat, candidate: nat -> CandidateEnv)
    requires i < |eligible|
  {
    var wi := DispatchedFirst(p, w, eligible, i, candidate);
    !HasSlot(wi.core.st, eligible[i].state, wi.config.maxConcurrentByState)
  }

  /** The turn of the candidate at position `i` changes the running map. */
  predicate DispatchedAt(p: Primitives, w: World, eligible: seq<Issue>, i: nat, candidate: nat -> CandidateEnv)
    requires i < |eligible|
  {
    DispatchedFirst(p, w, eligible, i + 1, candidate).core.st.running
    != DispatchedFirst(p, w, eligible, i, candidate).core.st.running
  }

  /** The turn at position `i` starts a worker for an issue that runs in the state `name`, on a
      snapshot in another state. */
  predicate MovesAt(p: Primitives, w: World, eligible: seq<Issue>, i: nat, candidate: nat -> CandidateEnv, name: string)
    requires i < |eligible|
  {
    var wi := DispatchedFirst(p, w, eligible, i, candidate);
    Starts(p, wi, eligible[i], candidate(i)) && Leaves(wi.core.st, eligible[i], name)
  }

  ghost predicate NoMoves(p: Primitives, w: World, eligible: seq<Issue>, i: nat, j: nat, candidate: nat -> CandidateEnv, name: string)
    requires i <= j <= |eligible|
  {
    forall k :: i <= k < j ==> !MovesAt(p, w, eligible, k, candidate, name)
  }

  /** The count of a state after the first `i` turns. */
  function CountAt(p: Primitives, w: World, eligible: seq<Issue>, i: nat, candidate: nat -> CandidateEnv, name: string): int
    requires i <= |eligible|
  {
    CountInState(DispatchedFirst(p, w, eligible, i, candidate).core.st, name)
  }

  /** Inside the loop the caps stay and the running total never falls, whatever the candidates. */
  lemma {:induction false} TotalsGrow(p: Primitives, w: World, eligible: seq<Issue>, i: nat, j: nat, candidate: nat -> CandidateEnv)
    requires i <= j <= |eligible|
    ensures var a, b := DispatchedFirst(p, w, eligible, i, candidate), DispatchedFirst(p, w, eligible, j, candidate);
      && b.core.st.maxConcurrentAgents == a.core.st.maxConcurrentAgents && b.config == a.config
      && |a.core.st.running| <= |b.core.st.running|
    decreases j
  {
    hide Considered;
    if i < j {
      TotalsGrow(p, w, eligible, i, j - 1, candidate);
      ConsideredFrame(p, DispatchedFirst(p, w, eligible, j - 1, candidate), eligible[j - 1], candidate(j - 1));
    }
  }

  /** The count of a state falls at a turn of the loop exactly when the turn moves an issue out of it. */
  lemma {:induction false} TurnFallsExactly(p: Primitives, w: World, eligible: seq<Issue>, i: nat,
                                            candidate: nat -> CandidateEnv, name: string)
    requires Ordered(w.core.st) && i < |eligible|
    ensures Ordered(DispatchedFirst(p, w, eligible, i, candidate).core.st)
    ensures CountAt(p, w, eligible, i + 1, candidate, name) < CountAt(p, w, eligible, i, candidate, name)
       <==> MovesAt(p, w, eligible, i, candidate, name)
  {
    hide Considered, HasSlot, Gate, Total, Ordered;
    LoopOrdered(p, w, eligible, i, candidate);
    var wi := DispatchedFirst(p, w, eligible, i, candidate);
    if wi.status != Crashed {
      CountFallsExactly(p, wi, eligible[i], candidate(i), name);
    }
  }

  lemma {:induction false} LoopOrdered(p: Primitives, w: World, eligible: seq<Issue>, n: nat, candidate: nat -> CandidateEnv)
    requires Ordered(w.core.st) && n <= |eligible|
    ensures Ordered(DispatchedFirst(p, w, eligible, n, candidate).core.st)
  {
    hide Considered, Ordered;
    if n > 0 {
      LoopOrdered(p, w, eligible, n - 1, candidate);
      var w1 := DispatchedFirst(p, w, eligible, n - 1, candidate);
      if w1.status != Crashed {
        CountFallsExactly(p, w1, eligible[n - 1], candidate(n - 1), "");
      }
    }
  }

  /** So it never falls in a stretch without such turns. */
  lemma {:induction false} CountsGrow(p: Primitives, w: World, eligible: seq<Issue>, i: nat, j: nat,
                                      candidate: nat -> CandidateEnv, name: string)
    requires Ordered(w.core.st) && i <= j <= |eligible| && NoMoves(p, w, eligible, i, j, candidate, name)
    ensures CountAt(p, w, eligible, i, candidate, name) <= CountAt(p, w, eligible, j, candidate, name)
    decreases j
  {
    hide CountAt, MovesAt, DispatchedFirst, Ordered;
    if i < j {
      CountsGrow(p, w, eligible, i, j - 1, candidate, name);
      TurnFallsExactly(p, w, eligible, j - 1, candidate, name);
    }
  }

  /** A candidate is dispatched only into a slot that was free at its turn. */
  lemma DispatchedNotRefused(p: Primitives, w: World, eligible: seq<Issue>, i: nat, candidate: nat -> CandidateEnv)
    requires i < |eligible|
    ensures DispatchedAt(p, w, eligible, i, candidate) ==> !RefusedAt(p, w, eligible, i, candidate)
  {
    hide HasSlot, Gate;
  }

  /** Once the global cap is reached, every later candidate is refused; and while no turn moves an
      issue out of a state, one refusal in that state refuses every later candidate in it. */
  lemma RefusalsPersist(p: Primitives, w: World, eligible: seq<Issue>, i: nat, j: nat, candidate: nat -> CandidateEnv)
    requires i <= j < |eligible|
    ensures var wi := DispatchedFirst(p, w, eligible, i, candidate);
      |wi.core.st.running| >= wi.core.st.maxConcurrentAgents ==> RefusedAt(p, w, eligible, j, candidate)
    ensures Ordered(w.core.st) && RefusedAt(p, w, eligible, i, candidate)
      && Lower(eligible[i].state) == Lower(eligible[j].state) && NoMoves(p, w, eligible, i, j, candidate, eligible[i].state)
      ==> RefusedAt(p, w, eligible, j, candidate)
  {
    hide DispatchedFirst, CountInState, StateCap, NoMoves, Ordered;
    var a, b := DispatchedFirst(p, w, eligible, i, candidate), DispatchedFirst(p, w, eligible, j, candidate);
    TotalsGrow(p, w, eligible, i, j, candidate);
    SlotFree(a.core.st, eligible[i].state, a.config.maxConcurrentByState);
    SlotFree(b.core.st, eligible[j].state, b.config.maxConcurrentByState);
    if Ordered(w.core.st) && Lower(eligible[i].state) == Lower(eligible[j].state)
       && NoMoves(p, w, eligible, i, j, candidate, eligible[i].state) {
      StateCapUpToCase(a.config.maxConcurrentByState, eligible[i].state, eligible[j].state, a.core.st.maxConcurrentAgents);
      SameStateSameCount(b.core.st, eligible[i].state, eligible[j].state);
      CountsGrow(p, w, eligible, i, j, candidate, eligible[i].state);
    }
  }

  lemma NoInversion(p: Primitives, w: World, eligible: seq<Issue>, i: nat, j: nat, candidate: nat -> CandidateEnv)
    requires i < j < |eligible|
    ensures var wi := DispatchedFirst(p, w, eligible, i, candidate);
      DispatchedAt(p, w, eligible, j, candidate) ==>
      && |wi.core.st.running| < wi.core.st.maxConcurrentAgents
      && (Ordered(w.core.st) && RefusedAt(p, w, eligible, i, candidate) && Lower(eligible[i].state) == Lower(eligible[j].state)
          ==> exists k :: i < k < j && MovesAt(p, w, eligible, k, candidate, eligible[i].state))
  {
    hide DispatchedFirst, RefusedAt, MovesAt, DispatchedAt, Ordered, Lower;
    DispatchedNotRefused(p, w, eligible, j, candidate);
    RefusalsPersist(p, w, eligible, i, j, candidate);
    RefusedMovesNothing(p, w, eligible, i, candidate, eligible[i].state);
  }

  lemma RefusedMovesNothing(p: Primitives, w: World, eligible: seq<Issue>, i: nat, candidate: nat -> CandidateEnv, name: string)
    requires i < |eligible|
    ensures RefusedAt(p, w, eligible, i, candidate) ==> !MovesAt(p, w, eligible, i, candidate, name)
  {
    hide DispatchedFirst, HasSlot, Gate;
  }

  /** Priority, in any world and for any candidates: when a candidate is dispatched, none before it in
      dispatch order was turned away by the global cap; and if one before it was turned away in the
      same state, a turn in between has moved an issue out of that state. */
  lemma NoPriorityInversion(p: Primitives, w: World, candidates: seq<Issue>, i: nat, j: nat, candidate: nat -> CandidateEnv)
    requires i < j < |EligibleInOrder(w, candidates)|
    ensures var a, b := EligibleInOrder(w, candidates)[i], EligibleInOrder(w, candidates)[j];
      b.priority.Some? ==> a.priority.Some? && a.priority.value <= b.priority.value
    ensures var eligible := EligibleInOrder(w, candidates);
      var wi := DispatchedFirst(p, w, eligible, i, candidate);
      DispatchedAt(p, w, eligible, j, candidate) ==>
      && |wi.core.st.running| < wi.core.st.maxConcurrentAgents
      && (Ordered(w.core.st) && RefusedAt(p, w, eligible, i, candidate) && Lower(eligible[i].state) == Lower(eligible[j].state)
          ==> exists k :: i < k < j && MovesAt(p, w, eligible, k, candidate, eligible[i].state))
  {
    hide DispatchedFirst, RefusedAt, MovesAt, DispatchedAt, EligibleNow, SortForDispatch, Ordered, Lower, NoLater;
    NoInversion(p, w, EligibleInOrder(w, candidates), i, j, candidate);
    DispatchOrderOnFields(EligibleNow(w, candidates), i, j);
  }

  /** `a` has a priority, and `b` a larger number or none. */
  predicate MoreUrgent(a: Issue, b: Issue) {
    a.priority.Some? && (b.priority.Some? ==> a.priority.value < b.priority.value)
  }

  /** So whenever a candidate is dispatched, each more urgent one has had its turn before, when the global
      cap still left room. */
  lemma UrgentGoesFirst(p: Primitives, w: World, candidates: seq<Issue>, i: nat, j: nat, candidate: nat -> CandidateEnv)
    requires i < |EligibleInOrder(w, candidates)| && j < |EligibleInOrder(w, candidates)|
    ensures var eligible := EligibleInOrder(w, candidates);
      MoreUrgent(eligible[i], eligible[j]) && DispatchedAt(p, w, eligible, j, candidate) ==>
      && i < j
      && var wi := DispatchedFirst(p, w, eligible, i, candidate);
         |wi.core.st.running| < wi.core.st.maxConcurrentAgents
  {
    hide EligibleInOrder, DispatchedFirst, DispatchedAt, RefusedAt, MovesAt, Ordered, Lower;
    if i < j {
      NoPriorityInversion(p, w, candidates, i, j, candidate);
    } else if j < i {
      NoPriorityInversion(p, w, candidates, j, i, candidate);
    }
  }

  // ---------------------------------------------------------------------
  // Fetches in which an issue has one state
  // ---------------------------------------------------------------------

  /** However often an id occurs, its state is the same up to case. */
  predicate OneStateEach(issues: seq<Issue>) {
    forall a, b :: a in issues && b in issues && a.id == b.id ==> Lower(a.state) == Lower(b.state)
  }

  lemma DistinctHaveOneState(issues: seq<Issue>)
    requires DistinctIds(issues)
    ensures OneStateEach(issues)
  {
    forall a, b | a in issues && b in issues && a.id == b.id ensures a == b {
      var i :| 0 <= i < |issues| && issues[i] == a;
      var j :| 0 <= j < |issues| && issues[j] == b;
      assert !(i < j) && !(j < i);
    }
  }

  /** Then no turn of the loop moves an issue. */
  lemma OneStateNoMoves(p: Primitives, w: World, candidates: seq<Issue>, k: nat, candidate: nat -> CandidateEnv, name: string)
    requires OneStateEach(candidates) && k < |EligibleInOrder(w, candidates)|
    ensures !MovesAt(p, w, EligibleInOrder(w, candidates), k, candidate, name)
  {
    hide EligibleInOrder, DispatchedFirst, HasSlot, Gate, Lower;
    var eligible := EligibleInOrder(w, candidates);
    EligibleInOrderOk(w, candidates);
    EligibleAreCandidates(w, candidates);
    LoopAdmits(p, w, eligible, k, candidate);
    var wk := DispatchedFirst(p, w, eligible, k, candidate);
    var id := eligible[k].id;
    if id in wk.core.st.running {
      assert id !in w.core.st.running;
      var i :| 0 <= i < k && AdmittedAs(w, wk, id, eligible[i]);
      assert eligible[i] in eligible && eligible[k] in eligible;
    }
  }

  lemma EligibleAreCandidates(w: World, candidates: seq<Issue>)
    ensures forall x :: x in EligibleInOrder(w, candidates) ==> x in candidates
  {
    FilteredMembers(candidates, w.core.st, Normalized(w.config.activeStates), Normalized(w.config.terminalStates));
    SortKeepsMembers(EligibleNow(w, candidates));
  }

  /** And no candidate is overtaken by a later one of its own state. */
  lemma NoInversionWithinState(p: Primitives, w: World, candidates: seq<Issue>, i: nat, j: nat, candidate: nat -> CandidateEnv)
    requires Ordered(w.core.st) && OneStateEach(candidates)
    requires i < j < |EligibleInOrder(w, candidates)|
    ensures var eligible := EligibleInOrder(w, candidates);
      DispatchedAt(p, w, eligible, j, candidate) && Lower(eligible[i].state) == Lower(eligible[j].state)
      ==> !RefusedAt(p, w, eligible, i, candidate)
  {
    hide EligibleInOrder, DispatchedFirst, HasSlot, MovesAt, RefusedAt, DispatchedAt, Ordered;
    var eligible := EligibleInOrder(w, candidates);
    forall k | i < k < j ensures !MovesAt(p, w, eligible, k, candidate, eligible[i].state) {
      OneStateNoMoves(p, w, candidates, k, candidate, eligible[i].state);
    }
    NoPriorityInversion(p, w, candidates, i, j, candidate);
  }

  // ---------------------------------------------------------------------
  // Every step
  // ---------------------------------------------------------------------

  /** A retry starts a worker only into a free slot of the issue's current state, whatever the
      state of the books. */
  lemma RetryWithinCap(c: Core, box: seq<Message>, id: string, env: RetryEnv, perState: seq<(string, int)>, cap: int)
    ensures var o := RetryTimerHandled(c, box, id, env, perState, cap);
            && o.core.st.maxConcurrentAgents == c.st.maxConcurrentAgents
            && (o.core.st.running != c.st.running ==>
                  && id in c.q.entries && env.fetch.Returned? && FindIssue(env.fetch.value, id).Some?
                  && var issue := FindIssue(env.fetch.value, id).value;
                  && HasSlot(c.st, issue.state, perState) && |c.st.running| < c.st.maxConcurrentAgents
                  && o.core.st.running == c.st.running[id := FreshEntry(c.nextTask, issue, env.now, c.q.entries[id].attempt)]
                  && |o.core.st.running| == |c.st.running| + (if id in c.st.running then 0 else 1))
  {
    hide RetryTimerHandled, CountInState, StateCap;
    RetryFrame(c, box, id, env, perState, cap);
    var running := RetryTimerHandled(c, box, id, env, perState, cap).core.st.running;
    if running != c.st.running {
      assert running.Keys == c.st.running.Keys + {id};
    }
  }

  /** No step, of any world, takes the running set above the cap it starts under. */
  lemma StepWithinCap(p: Primitives, w: World, e: Event)
    ensures |Step(p, w, e).core.st.running| <= Max(|w.core.st.running|, w.core.st.maxConcurrentAgents)
  {
    hide Ticked, RetryTimerHandled, Scheduled, ProduceAll, EntryUpdated, ReportedIncrease, Drop;
    if e.Deliver? && w.status == Live && w.box != [] {
      var w1 := w.(box := w.box[1..]);
      var running := w.core.st.running;
      match w.box[0] {
        case PollTick => TickFrame(p, w1, e.env.tick);
        case WorkerExit(id, _, _, _, _) =>
          assert (running - {id}).Keys == running.Keys - {id};
        case CodexUpdate(id, event) =>
          assert Step(p, w, e).core.st.running.Keys == running.Keys;
        case RetryTimerFired(id) =>
          RetryFrame(w1.core, w1.box, id, e.env.retry, w.config.maxConcurrentByState, w.config.maxRetryBackoffMs);
        case _ =>
      }
    }
  }

  /** The largest global cap that has been in force. */
  function PeakCap(p: Primitives, config: Config, events: seq<Event>): int {
    if events == [] then Max(0, config.maxConcurrentAgents)
    else Max(PeakCap(p, config, events[..|events| - 1]), Run(p, Initial(config), events).core.st.maxConcurrentAgents)
  }

  /** Over every run, even one whose configuration lowers the cap under the running workers,
      the number of running workers never exceeds the largest cap that has been in force. */
  lemma {:induction false} RunWithinPeakCap(p: Primitives, config: Config, events: seq<Event>)
    ensures |Run(p, Initial(config), events).core.st.running| <= PeakCap(p, config, events)
    ensures Run(p, Initial(config), events).core.st.maxConcurrentAgents <= PeakCap(p, config, events)
  {
    if events != [] {
      var init := events[..|events| - 1];
      RunWithinPeakCap(p, config, init);
      StepWithinCap(p, Run(p, Initial(config), init), events[|events| - 1]);
    }
  }
}
