/** What a tick and a retry can never touch, in any world whatsoever. */
module Framing {
  import opened Prelude
  import opened Tracker
  import opened EventLoop
  import opened Mailboxes
  import opened Retry
  import opened State
  import opened Clarification
  import opened Dispatch
  import opened Lifecycle
  import opened Reconcile
  import opened World

  /** Dispatching touches the running map and its indexes, the claims and the waiting list; it
      adds running issues only below the global cap. */
  ghost predicate Touches(a: OState, b: OState) {
    && b == a.(order := b.order, running := b.running, claimed := b.claimed,
               identifierIndex := b.identifierIndex, clarificationWaiting := b.clarificationWaiting)
    && |b.running| <= Max(|a.running|, a.maxConcurrentAgents)
  }

  lemma {:induction false} ProduceAllGrows(t: Timers, q: seq<Message>, ps: seq<Producer>)
    ensures q <= ProduceAll(t, q, ps).1
    decreases ps
  {
    if ps != [] {
      var (t1, q1) := Produce(t, q, ps[0]);
      ProduceAllGrows(t1, q1, ps[1..]);
    }
  }

  lemma OneProducer(t: Timers, q: seq<Message>, p: Producer)
    ensures ProduceAll(t, q, [p]) == Produce(t, q, p)
  {
    hide Produce;
    assert [p][1..] == [];
  }

  lemma AwaitedFrame(w: World, ps: seq<Producer>)
    ensures var r := Awaited(w, ps);
      && r == w.(core := w.core.(q := w.core.q.(timers := r.core.q.timers)), box := r.box)
      && w.box <= r.box
  {
    hide ProduceAll;
    ProduceAllGrows(w.core.q.timers, w.box, ps);
  }

  lemma {:induction false} StallsReportedFrame(w: World, ids: seq<string>, now: int, finished: set<nat>)
    ensures var r := StallsReported(w, ids, now, finished);
            w.box <= r.box && r == w.(box := r.box, cancelledWorkers := r.cancelledWorkers)
  {
    if ids != [] {
      StallsReportedFrame(w, ids[..|ids| - 1], now, finished);
    }
  }

  lemma {:induction false} WorkersStoppedFrame(w: World, ids: seq<string>, clean: bool, finished: set<nat>)
    ensures var r := WorkersStopped(w, ids, clean, finished);
            r == w.(cancelledWorkers := r.cancelledWorkers, cleanups := r.cleanups)
  {
    if ids != [] {
      WorkersStoppedFrame(w, ids[..|ids| - 1], clean, finished);
    }
  }

  /** An entry may have got a newer issue snapshot, and nothing else. */
  ghost predicate SnapshotsOnly(a: OState, b: OState) {
    && b == a.(running := b.running)
    && b.running.Keys == a.running.Keys
    && forall k :: k in a.running ==> b.running[k] == a.running[k].(issue := b.running[k].issue)
  }

  lemma ActedFrame(w: World, a: ReconcileActions, finished: set<nat>)
    ensures var r := Acted(w, a, finished);
      && r == w.(core := w.core.(st := r.core.st), cancelledWorkers := r.cancelledWorkers, cleanups := r.cleanups)
      && r.core.st.running == Refreshed(w.core.st.running, a.updateSnapshot)
      && SnapshotsOnly(w.core.st, r.core.st)
  {
    var w1 := WorkersStopped(w, a.terminateWithCleanup, true, finished);
    WorkersStoppedFrame(w, a.terminateWithCleanup, true, finished);
    WorkersStoppedFrame(w1, a.terminateWithoutCleanup, false, finished);
  }

  /** Reconciliation touches issue snapshots of running entries, the mailbox, the timers that fire
      meanwhile, and the two lists of what was stopped. */
  lemma ReconciledFrame(w: World, env: TickEnv)
    ensures var r := Reconciled(w, env);
      && SnapshotsOnly(w.core.st, r.core.st) && w.box <= r.box
      && r == w.(core := w.core.(st := r.core.st, q := w.core.q.(timers := r.core.q.timers)), box := r.box,
                 cancelledWorkers := r.cancelledWorkers, cleanups := r.cleanups)
  {
    hide StalledIds, ActionsFor, ById, ProduceAll, Acted, StallsReported;
    var ids := StalledIds(w.core.st.order, w.core.st.running, env.now, w.config.stallTimeoutMs);
    var w1 := StallsReported(w, ids, env.now, env.finished);
    StallsReportedFrame(w, ids, env.now, env.finished);
    var w2 := Awaited(w1, env.duringRefresh);
    AwaitedFrame(w1, env.duringRefresh);
    if env.refresh.Returned? {
      ActedFrame(w2, ActionsFor(w.core.st.order, ById(env.refresh.value), Normalized(w.config.terminalStates),
                                Normalized(w.config.activeStates)), env.finished);
    }
  }

  /** The gate touches the waiting list, its own log, the mailbox and the timers, and may take the
      dispatcher down. */
  lemma GateFrame(p: Primitives, w: World, issue: Issue, e: CandidateEnv)
    ensures var (r, allowed) := Gate(p, w, issue, e);
      && r == w.(core := w.core.(st := r.core.st, q := w.core.q.(timers := r.core.q.timers)), box := r.box,
                 gateLog := r.gateLog, status := r.status)
      && r.core.st == w.core.st.(clarificationWaiting := r.core.st.clarificationWaiting)
      && w.gateLog <= r.gateLog && w.box <= r.box
      && (r.status == w.status || r.status == Crashed)
      && (allowed ==> r.gateLog == w.gateLog + [Cleared(issue.id)] && r.status == w.status)
  {
    hide InputFingerprint, NonClarificationCommentIds, QuestionFingerprint, ProduceAll, NextPollAt;
    var w1 := Awaited(w, e.duringComments);
    AwaitedFrame(w, e.duringComments);
    AwaitedFrame(w1, e.duringAnalysis);
    AwaitedFrame(Awaited(w1, e.duringAnalysis), e.duringAddComment);
  }

  /** A dispatch adds at most its own issue to the running map, and removes nothing. */
  lemma DispatchedFrame(c: Core, issue: Issue, attempt: int, spawn: Spawn, now: int, cap: int)
    ensures var d := Dispatched(c, issue, attempt, spawn, now, cap).core;
      && d.st == c.st.(order := d.st.order, running := d.st.running, claimed := d.st.claimed, identifierIndex := d.st.identifierIndex)
      && d.st.running == (if spawn.Spawned? then c.st.running[issue.id := FreshEntry(c.nextTask, issue, now, attempt)]
                          else c.st.running)
      && d.st.order == (if spawn.Spawned? && issue.id !in c.st.running then c.st.order + [issue.id] else c.st.order)
      && |c.st.running| <= |d.st.running| <= |c.st.running| + 1
  {
    hide Scheduled, Cancelled;
    var d := Dispatched(c, issue, attempt, spawn, now, cap).core;
    assert d.st.running.Keys == c.st.running.Keys + if spawn.Spawned? then {issue.id} else {};
  }

  /** The retry a failed first attempt schedules has attempt number two, which is never rejected. */
  lemma FirstAttemptNeverRaises(c: Core, issue: Issue, spawn: Spawn, now: int, cap: int)
    ensures !Dispatched(c, issue, 1, spawn, now, cap).raised
  {
  }

  lemma ConsideredFrame(p: Primitives, w: World, issue: Issue, e: CandidateEnv)
    ensures var r := Considered(p, w, issue, e);
      && Touches(w.core.st, r.core.st) && |w.core.st.running| <= |r.core.st.running|
      && r.config == w.config && w.gateLog <= r.gateLog && w.box <= r.box
  {
    hide Gate, Dispatched, CountInState, StateCap;
    GateFrame(p, w, issue, e);
    var (w1, allowed) := Gate(p, w, issue, e);
    DispatchedFrame(w1.core, issue, 1, e.spawn, e.now, w1.config.maxRetryBackoffMs);
  }

  lemma {:induction false} LoopFrame(p: Primitives, w: World, eligible: seq<Issue>, n: nat, candidate: nat -> CandidateEnv)
    requires n <= |eligible|
    ensures var r := DispatchedFirst(p, w, eligible, n, candidate);
      && Touches(w.core.st, r.core.st) && |w.core.st.running| <= |r.core.st.running|
      && r.config == w.config && w.gateLog <= r.gateLog && w.box <= r.box
  {
    hide Considered;
    if n > 0 {
      LoopFrame(p, w, eligible, n - 1, candidate);
      ConsideredFrame(p, DispatchedFirst(p, w, eligible, n - 1, candidate), eligible[n - 1], candidate(n - 1));
    }
  }

  lemma TickFrame(p: Primitives, w: World, env: TickEnv)
    ensures Touches(w.core.st, Ticked(p, w, env).core.st) && w.box <= Ticked(p, w, env).box
  {
    hide Reconciled, DispatchedFirst, EligibleInOrder, EligibleNow, Sortable, ProduceAll;
    var w1 := Reconciled(w, env);
    ReconciledFrame(w, env);
    assert |w1.core.st.running| == |w1.core.st.running.Keys| == |w.core.st.running.Keys| == |w.core.st.running|;
    if env.loader.Returned? && env.loader.value.Some? {
      var w2 := w1.(config := env.loader.value.value);
      var w3 := Awaited(w2, env.duringFetch);
      AwaitedFrame(w2, env.duringFetch);
      if env.fetch.Returned? {
        var eligible := EligibleInOrder(w3, env.fetch.value);
        LoopFrame(p, w3, eligible, |eligible|, env.candidate);
      }
    }
  }

  /** The issue a retry starts: its own, as fetched, into a free slot. */
  predicate Restarts(c: Core, id: string, env: RetryEnv, perState: seq<(string, int)>) {
    && id in c.q.entries && id !in c.st.completed && env.spawn.Spawned?
    && env.fetch.Returned? && FindIssue(env.fetch.value, id).Some?
    && HasSlot(c.st, FindIssue(env.fetch.value, id).value.state, perState)
  }

  function Restarted(c: Core, id: string, env: RetryEnv): Entry
    requires id in c.q.entries && env.fetch.Returned? && FindIssue(env.fetch.value, id).Some?
  {
    FreshEntry(c.nextTask, FindIssue(env.fetch.value, id).value, env.now, c.q.entries[id].attempt)
  }

  /** A retry touches the claims, and the running map exactly when it restarts its issue. */
  lemma RetryFrame(c: Core, box: seq<Message>, id: string, env: RetryEnv, perState: seq<(string, int)>, cap: int)
    ensures box <= RetryTimerHandled(c, box, id, env, perState, cap).box
    ensures var st := RetryTimerHandled(c, box, id, env, perState, cap).core.st;
      && Touches(c.st, st) && st.clarificationWaiting == c.st.clarificationWaiting
      && st.running == (if Restarts(c, id, env, perState) then c.st.running[id := Restarted(c, id, env)] else c.st.running)
      && st.order == (if Restarts(c, id, env, perState) && id !in c.st.running then c.st.order + [id] else c.st.order)
  {
    hide Scheduled, ProduceAll, Dispatched, CountInState, StateCap;
    ProduceAllGrows(c.q.timers, box, env.duringFetch);
    if id in c.q.entries && env.fetch.Returned? && FindIssue(env.fetch.value, id).Some? {
      FindIssueHasId(env.fetch.value, id);
      var c1 := c.(q := Popped(c.q, id));
      var (timers, box2) := ProduceAll(c1.q.timers, box, env.duringFetch);
      DispatchedFrame(c1.(q := c1.q.(timers := timers)), FindIssue(env.fetch.value, id).value, c.q.entries[id].attempt,
                      env.spawn, env.now, cap);
    }
  }
}
