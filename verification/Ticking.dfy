/** What a tick does, both ways: whom it starts, and what it does when it starts nobody. */
module Ticking {
  import opened Prelude
  import opened Tracker
  import opened EventLoop
  import opened Mailboxes
  import opened Retry
  import opened Usage
  import opened State
  import opened Clarification
  import opened Dispatch
  import opened World
  import opened Framing

  // ---------------------------------------------------------------------
  // One turn of the dispatch loop
  // ---------------------------------------------------------------------

  /** Both caps leave room for one more issue in this state. */
  predicate RoomFor(w: World, state: string) {
    && |w.core.st.running| < w.core.st.maxConcurrentAgents
    && CountInState(w.core.st, state) < StateCap(w.config.maxConcurrentByState, state, w.core.st.maxConcurrentAgents)
  }

  /** The issue is claimed and runs as a first attempt, and a retry it waited for is off. */
  ghost predicate StartedIn(a: World, b: World, issue: Issue, now: int) {
    && b == a.(core := b.core)
    && b.core.st == a.core.st.(order := b.core.st.order, running := b.core.st.running, claimed := a.core.st.claimed + {issue.id},
                               identifierIndex := a.core.st.identifierIndex[issue.id := issue.identifier])
    && b.core.st.running == a.core.st.running[issue.id :=
         Entry(a.core.nextTask, issue.identifier, issue, None, TokenSnapshot(0, 0, 0), now, None, None, None, [], 1)]
    && b.core.q.entries == a.core.q.entries - {issue.id} && b.core.nextTask == a.core.nextTask + 1
    && (issue.id in a.core.q.entries ==> a.core.q.entries[issue.id].handle !in b.core.q.timers.live)
  }

  /** The issue is not claimed, and waits for attempt two, twenty seconds or the cap away, behind a timer
      that posts nothing. */
  ghost predicate ShelvedIn(a: World, b: World, issue: Issue, now: int, error: string) {
    && b == a.(core := b.core)
    && b.core.st == a.core.st.(claimed := a.core.st.claimed - {issue.id}) && b.core.nextTask == a.core.nextTask
    && var delay := Min(20_000, a.config.maxRetryBackoffMs);
    && issue.id in b.core.q.entries && b.core.q.entries == a.core.q.entries[issue.id := b.core.q.entries[issue.id]]
    && b.core.q.entries[issue.id] ==
         RetryEntry(issue.id, 2, Failure, now, now + 1000 * delay, b.core.q.entries[issue.id].handle, Some(error))
    && b.core.q.entries[issue.id].handle in b.core.q.timers.live
    && b.core.q.timers.live[b.core.q.entries[issue.id].handle] == Timer(delay, DoNothing(issue.id))
  }

  /** A turn: without room nothing happens; else the gate decides; and if it opens, the issue starts, or
      its spawn fails and it is shelved. The dispatcher survives that. */
  lemma TurnExactly(p: Primitives, w: World, issue: Issue, e: CandidateEnv)
    ensures var r, (gate, opens) := Considered(p, w, issue, e), Gate(p, w, issue, e);
      if !RoomFor(w, issue.state) then r == w
      else if !opens then r == gate
      else
        match e.spawn
        case Spawned => StartedIn(gate, r, issue, e.now)
        case SpawnFailed(error) => ShelvedIn(gate, r, issue, e.now, error)
  {
    hide Gate, StateCap, CountInState, Dispatched, StartedIn, ShelvedIn;
    SlotFree(w.core.st, issue.state, w.config.maxConcurrentByState);
    GateFrame(p, w, issue, e);
    SpawnEndsTurn(Gate(p, w, issue, e).0, issue, e.spawn, e.now);
  }

  lemma SpawnEndsTurn(w: World, issue: Issue, spawn: Spawn, now: int)
    ensures var r := Absorb(w, Dispatched(w.core, issue, 1, spawn, now, w.config.maxRetryBackoffMs));
      match spawn
      case Spawned => StartedIn(w, r, issue, now)
      case SpawnFailed(error) => ShelvedIn(w, r, issue, now, error)
  {
    hide Cancelled;
    CancelledExactly(w.core.q, issue.id);
    CancelledExactly(Cancelled(w.core.q, issue.id), issue.id);
    assert Pow2(1) == 2 * Pow2(0) == 2;
    assert DelayMs(Failure, 2, w.config.maxRetryBackoffMs) == Returned(Min(20_000, w.config.maxRetryBackoffMs));
  }

  lemma CancelledExactly(q: Queue, id: string)
    ensures Cancelled(q, id).entries == q.entries - {id}
    ensures Cancelled(q, id).timers.next == q.timers.next
    ensures id in q.entries ==> q.entries[id].handle !in Cancelled(q, id).timers.live
  {
  }

  // ---------------------------------------------------------------------
  // The loop
  // ---------------------------------------------------------------------

  /** Turn `m` of the loop starts a worker for `id`. */
  ghost predicate StartsAt(p: Primitives, w: World, eligible: seq<Issue>, m: nat, candidate: nat -> CandidateEnv, id: string)
    requires m < |eligible|
  {
    var before := DispatchedFirst(p, w, eligible, m, candidate);
    && before.status != Crashed && eligible[m].id == id && RoomFor(before, eligible[m].state)
    && Gate(p, before, eligible[m], candidate(m)).1 && candidate(m).spawn.Spawned?
  }

  lemma TurnStarts(p: Primitives, w: World, eligible: seq<Issue>, m: nat, candidate: nat -> CandidateEnv, id: string)
    requires m < |eligible|
    ensures id in DispatchedFirst(p, w, eligible, m + 1, candidate).core.st.running <==>
      id in DispatchedFirst(p, w, eligible, m, candidate).core.st.running || StartsAt(p, w, eligible, m, candidate, id)
  {
    hide RoomFor, Gate, Considered;
    var before := DispatchedFirst(p, w, eligible, m, candidate);
    TurnExactly(p, before, eligible[m], candidate(m));
    GateFrame(p, before, eligible[m], candidate(m));
  }

  /** After the loop there runs what ran before, and each issue that some turn has started: a candidate
      with room in both caps when its turn comes, for which the gate opens and the spawn works. */
  lemma {:induction false} LoopStartsExactly(p: Primitives, w: World, eligible: seq<Issue>, n: nat,
                                             candidate: nat -> CandidateEnv, id: string)
    requires n <= |eligible|
    ensures id in DispatchedFirst(p, w, eligible, n, candidate).core.st.running <==>
      id in w.core.st.running || exists m: nat :: m < n && StartsAt(p, w, eligible, m, candidate, id)
  {
    hide RoomFor, Gate, Considered, StartsAt;
    if n > 0 {
      LoopStartsExactly(p, w, eligible, n - 1, candidate, id);
      TurnStarts(p, w, eligible, n - 1, candidate, id);
    }
  }

  // ---------------------------------------------------------------------
  // The tick
  // ---------------------------------------------------------------------

  /** The tick comes to candidates it can sort. */
  ghost predicate ComesToCandidates(w: World, env: TickEnv) {
    && env.loader.Returned? && env.loader.value.Some? && env.fetch.Returned?
    && Sortable(EligibleNow(AtFetch(w, env), env.fetch.value))
  }

  /** What the loop starts from: reconciled, under the configuration just loaded. */
  function AtFetch(w: World, env: TickEnv): World
    requires env.loader.Returned? && env.loader.value.Some?
  {
    Awaited(Reconciled(w, env).(config := env.loader.value.value), env.duringFetch)
  }

  /** A tick starts exactly the issues its loop starts; what it stops and cleans up is what
      reconciliation does, whose messages come first; and if the configuration or the candidates cannot
      be had, or the candidates not be sorted, it shows the gate nothing and starts nobody. */
  lemma TickStartsExactly(p: Primitives, w: World, env: TickEnv, id: string)
    ensures var r, reconciled := Ticked(p, w, env), Reconciled(w, env);
      && r.cancelledWorkers == reconciled.cancelledWorkers && r.cleanups == reconciled.cleanups && reconciled.box <= r.box
      && (!ComesToCandidates(w, env) ==> r.core.st == reconciled.core.st && r.gateLog == w.gateLog)
      && (id in r.core.st.running <==>
            || id in w.core.st.running
            || (ComesToCandidates(w, env)
                && var eligible := EligibleInOrder(AtFetch(w, env), env.fetch.value);
                exists m: nat :: m < |eligible| && StartsAt(p, AtFetch(w, env), eligible, m, env.candidate, id)))
  {
    hide Reconciled, DispatchedFirst, EligibleInOrder, EligibleNow, Sortable, ProduceAll, StartsAt;
    ReconciledFrame(w, env);
    if env.loader.Returned? && env.loader.value.Some? {
      AwaitedFrame(Reconciled(w, env).(config := env.loader.value.value), env.duringFetch);
      if ComesToCandidates(w, env) {
        var w1 := AtFetch(w, env);
        var eligible := EligibleInOrder(w1, env.fetch.value);
        LoopStartsExactly(p, w1, eligible, |eligible|, env.candidate, id);
        LoopFrame(p, w1, eligible, |eligible|, env.candidate);
        LoopStopsNobody(p, w1, eligible, |eligible|, env.candidate);
      }
    }
  }

  lemma {:induction false} LoopStopsNobody(p: Primitives, w: World, eligible: seq<Issue>, n: nat, candidate: nat -> CandidateEnv)
    requires n <= |eligible|
    ensures var r := DispatchedFirst(p, w, eligible, n, candidate);
      r.cancelledWorkers == w.cancelledWorkers && r.cleanups == w.cleanups
  {
    hide Gate, HasSlot, Dispatched;
    if n > 0 {
      LoopStopsNobody(p, w, eligible, n - 1, candidate);
      GateFrame(p, DispatchedFirst(p, w, eligible, n - 1, candidate), eligible[n - 1], candidate(n - 1));
    }
  }
}
