/** What holds of the orchestrator between any two messages, in every run. */
module Consistency {
  import opened Prelude
  import opened Tracker
  import opened EventLoop
  import opened Mailboxes
  import opened Retry
  import opened State
  import opened Clarification
  import opened Dispatch
  import opened Lifecycle
  import opened Reconcile
  import opened World
  import opened Framing

  // ---------------------------------------------------------------------
  // The invariant
  // ---------------------------------------------------------------------

  ghost predicate RunningOk(st: OState, k: string) {
    && k in st.running
    && st.running[k].issue.id == k
    && k in st.identifierIndex && st.identifierIndex[k] == st.running[k].identifier
    && st.running[k].retryAttempt >= 1
  }

  ghost predicate RetryOk(c: Core, k: string) {
    && k in c.q.entries
    && c.q.entries[k].issueId == k
    && c.q.entries[k].attempt >= 2
    && (c.q.entries[k].kind == Continuation ==> k in c.st.completed)
  }

  /** The books are in order: only what runs and does not wait for a retry is claimed, everything is
      filed under its own id and can be found by its identifier, and no attempt number is too small
      for a backoff. */
  ghost predicate Filed(c: Core) {
    && Ordered(c.st)
    && c.st.claimed <= c.st.running.Keys && c.st.claimed !! c.q.entries.Keys
    && (forall k :: k in c.st.running ==> RunningOk(c.st, k))
    && (forall k :: k in c.st.completed ==> k in c.st.identifierIndex)
    && (forall k :: k in c.q.entries ==> RetryOk(c, k))
    && Armed(c.q)
  }

  /** The books agree: everything that runs is claimed, and nothing runs while it waits for a retry. */
  ghost predicate Agreeing(c: Core) {
    && c.st.running.Keys <= c.st.claimed
    && c.st.running.Keys !! c.q.entries.Keys
  }

  ghost predicate Consistent(c: Core) {
    Filed(c) && Agreeing(c)
  }

  /** A handler leaves the books in order, and in agreement if they were. */
  ghost predicate Keeps(a: Core, b: Core) {
    Filed(b) && (Agreeing(a) ==> Agreeing(b))
  }

  ghost function TickTimers(t: Timers): set<nat> {
    set h | h in t.live && t.live[h].callback == PostPollTick
  }

  /** The only tick timer that can be live is the remembered one; before shutdown the next
      poll is on its way, after shutdown none will come. */
  ghost predicate Beating(w: World) {
    && TickTimers(w.core.q.timers) <= (if w.nextTick.Some? then {w.nextTick.value} else {})
    && (w.status == Live ==> PollTick in w.box || TickTimers(w.core.q.timers) != {})
    && (w.status == Stopped ==> TickTimers(w.core.q.timers) == {})
  }

  /** What every run keeps. */
  ghost predicate Steady(w: World) {
    Filed(w.core) && Beating(w)
  }

  /** What a run keeps besides, as long as no spawn fails for an issue that already runs. */
  ghost predicate Sound(w: World) {
    Steady(w) && Agreeing(w.core)
  }

  /** No id occurs twice in one candidate fetch. */
  predicate OrderlyTick(env: TickEnv) {
    env.fetch.Returned? ==> DistinctIds(env.fetch.value)
  }

  predicate Orderly(e: Event) {
    e.Deliver? ==> OrderlyTick(e.env.tick)
  }

  // ---------------------------------------------------------------------
  // Timers
  // ---------------------------------------------------------------------

  /** `b` is what is left of `a` after some timers fired. */
  ghost predicate FewerTimers(a: Timers, b: Timers) {
    b.next == a.next && forall h :: h in b.live ==> h in a.live && b.live[h] == a.live[h]
  }

  lemma {:induction false} ProduceAllShrinks(t: Timers, q: seq<Message>, ps: seq<Producer>)
    ensures var (t2, q2) := ProduceAll(t, q, ps);
            && FewerTimers(t, t2)
            && (PollTick in q2 || TickTimers(t2) == TickTimers(t))
    decreases ps
  {
    if ps != [] {
      var (t1, q1) := Produce(t, q, ps[0]);
      ProduceAllShrinks(t1, q1, ps[1..]);
      if PollTick !in q1 {
        assert TickTimers(t1) == TickTimers(t);
      }
      ProduceAllGrows(t1, q1, ps[1..]);
      assert forall m :: m in q1 ==> m in ProduceAll(t1, q1, ps[1..]).1;
    }
  }

  lemma FewerTimersArmed(q: Queue, t: Timers)
    requires Armed(q) && FewerTimers(q.timers, t)
    ensures Armed(q.(timers := t))
  {
  }

  /** Scheduling with an attempt of at least one never raises, replaces the one entry, and
      leaves the tick timers alone. */
  lemma ScheduleOk(q: Queue, now: int, id: string, attempt: int, kind: Kind, cap: int, posts: bool, err: Option<string>)
    requires Armed(q) && attempt >= 1
    ensures var r := Scheduled(q, now, id, attempt, kind, cap, RetryCallback(posts, id), err);
            && r.Returned?
            && Armed(r.value)
            && r.value.entries == q.entries[id := r.value.entries[id]]
            && r.value.entries[id].issueId == id
            && r.value.entries[id].attempt == attempt && r.value.entries[id].kind == kind
            && TickTimers(r.value.timers) == TickTimers(q.timers)
  {
    ArmedAfter(q, ScheduleOp(now, id, attempt, kind, cap, posts, err));
    CancelOk(q, id);
    var r := Scheduled(q, now, id, attempt, kind, cap, RetryCallback(posts, id), err);
    assert r.value.entries == q.entries[id := r.value.entries[id]];
    assert q.timers.next !in Cancelled(q, id).timers.live;
  }

  lemma CancelOk(q: Queue, id: string)
    requires Armed(q)
    ensures Armed(Cancelled(q, id))
    ensures Cancelled(q, id).entries == q.entries - {id}
    ensures TickTimers(Cancelled(q, id).timers) == TickTimers(q.timers)
    ensures Cancelled(q, id).timers.next == q.timers.next
  {
    ArmedAfter(q, CancelOp(id));
  }

  // ---------------------------------------------------------------------
  // Per-issue handlers
  // ---------------------------------------------------------------------

  /** The tick timers are untouched. */
  ghost predicate KeepsTicks(a: Core, b: Core) {
    TickTimers(b.q.timers) == TickTimers(a.q.timers)
  }

  lemma DispatchOrdered(c: Core, issue: Issue, attempt: int, spawn: Spawn, now: int, cap: int)
    requires Ordered(c.st)
    ensures Ordered(Dispatched(c, issue, attempt, spawn, now, cap).core.st)
  {
    hide Scheduled, Cancelled;
    if issue.id !in c.st.running {
      Appended(c.st.order, issue.id);
    }
  }

  /** A dispatch keeps the books in order, and in agreement exactly unless its spawn fails for an
      issue that is already running: that failure releases the claim of the live worker and
      queues a retry beside it. */
  lemma DispatchKeeps(c: Core, issue: Issue, attempt: int, spawn: Spawn, now: int, cap: int)
    requires Filed(c) && attempt >= 1
    ensures var o := Dispatched(c, issue, attempt, spawn, now, cap);
            Filed(o.core) && !o.raised && KeepsTicks(c, o.core)
    ensures Agreeing(c) ==>
            (Agreeing(Dispatched(c, issue, attempt, spawn, now, cap).core) <==> !(issue.id in c.st.running && spawn.SpawnFailed?))
  {
    hide Scheduled, Cancelled, Armed, TickTimers, Ordered;
    CancelOk(c.q, issue.id);
    DispatchOrdered(c, issue, attempt, spawn, now, cap);
    var q1 := Cancelled(c.q, issue.id);
    var o := Dispatched(c, issue, attempt, spawn, now, cap);
    match spawn {
      case Spawned =>
        forall k | k in o.core.st.running ensures RunningOk(o.core.st, k) {
          if k != issue.id {
            assert RunningOk(c.st, k);
          }
        }
        forall k | k in o.core.q.entries ensures RetryOk(o.core, k) {
          assert RetryOk(c, k);
        }
      case SpawnFailed(error) =>
        ScheduleOk(q1, now, issue.id, attempt + 1, Failure, cap, false, Some(error));
        assert o.core.st.running == c.st.running;
        forall k | k in o.core.st.running ensures RunningOk(o.core.st, k) {
          assert RunningOk(c.st, k);
        }
        forall k | k in o.core.q.entries ensures RetryOk(o.core, k) {
          if k != issue.id {
            assert RetryOk(c, k);
          }
        }
        assert issue.id !in o.core.st.claimed;
    }
  }

  lemma ExitOrdered(c: Core, id: string, ok: bool, seconds: real, err: Option<string>, now: int, cap: int)
    requires Ordered(c.st)
    ensures Ordered(WorkerExited(c, id, ok, seconds, err, now, cap).core.st)
  {
    hide Scheduled, Drop;
  }

  lemma WorkerExitKeeps(c: Core, id: string, ok: bool, seconds: real, err: Option<string>, now: int, cap: int)
    requires Filed(c)
    ensures var o := WorkerExited(c, id, ok, seconds, err, now, cap);
            Keeps(c, o.core) && !o.raised && KeepsTicks(c, o.core)
  {
    hide Scheduled, Armed, TickTimers, Ordered;
    if id in c.st.running {
      ExitOrdered(c, id, ok, seconds, err, now, cap);
      assert RunningOk(c.st, id);
      var kind := if ok then Continuation else Failure;
      var attempt := NextAttemptFrom(c.st.running[id]);
      ScheduleOk(c.q, now, id, attempt, kind, cap, true, if ok then None else err);
      var o := WorkerExited(c, id, ok, seconds, err, now, cap);
      forall k | k in o.core.st.running ensures RunningOk(o.core.st, k) {
        assert RunningOk(c.st, k);
      }
      forall k | k in o.core.q.entries ensures RetryOk(o.core, k) {
        if k != id {
          assert RetryOk(c, k);
        }
      }
    }
  }

  lemma PopKeeps(c: Core, id: string)
    requires Filed(c)
    ensures Keeps(c, c.(q := Popped(c.q, id)))
  {
    ArmedAfter(c.q, PopOp(id));
    var c1 := c.(q := Popped(c.q, id));
    forall k | k in c1.q.entries ensures RetryOk(c1, k) {
      assert RetryOk(c, k);
    }
  }

  lemma FewerTimersKeeps(c: Core, t: Timers)
    requires Filed(c) && FewerTimers(c.q.timers, t)
    ensures Keeps(c, c.(q := c.q.(timers := t)))
  {
    FewerTimersArmed(c.q, t);
    var c1 := c.(q := c.q.(timers := t));
    forall k | k in c1.q.entries ensures RetryOk(c1, k) {
      assert RetryOk(c, k);
    }
  }

  /** Releasing a claim keeps the books in order; where there is none, nothing changes. */
  lemma ReleaseKeeps(c: Core, id: string)
    requires Filed(c)
    ensures Filed(Released(c, id))
    ensures id !in c.st.claimed ==> Released(c, id) == c
  {
    var c1 := Released(c, id);
    forall k | k in c1.st.running ensures RunningOk(c1.st, k) {
      assert RunningOk(c.st, k);
    }
    forall k | k in c1.q.entries ensures RetryOk(c1, k) {
      assert RetryOk(c, k);
    }
    if id !in c.st.claimed {
      assert c.st.claimed - {id} == c.st.claimed;
    }
  }

  lemma RescheduleKeeps(c: Core, box: seq<Message>, entry: RetryEntry, id: string, now: int, cap: int, why: string)
    requires Filed(c) && id !in c.st.claimed
    requires entry.attempt >= 2 && (entry.kind == Continuation ==> id in c.st.completed)
    ensures var o := Rescheduled(c, box, entry, id, now, cap, why);
            && Filed(o.core) && (Agreeing(c) && id !in c.st.running ==> Agreeing(o.core))
            && !o.raised && KeepsTicks(c, o.core) && o.box == box
  {
    hide Scheduled, Armed, TickTimers;
    ScheduleOk(c.q, now, id, entry.attempt, entry.kind, cap, true, Some(why));
    var o := Rescheduled(c, box, entry, id, now, cap, why);
    forall k | k in o.core.q.entries ensures RetryOk(o.core, k) {
      if k != id {
        assert RetryOk(c, k);
      }
    }
  }

  lemma RetryFetchedKeeps(c: Core, box: seq<Message>, entry: RetryEntry, id: string, env: RetryEnv,
                          perState: seq<(string, int)>, cap: int)
    requires Filed(c) && id !in c.st.claimed
    requires entry.attempt >= 2 && (entry.kind == Continuation ==> id in c.st.completed)
    ensures var o := RetryFetched(c, box, entry, id, env, perState, cap);
            && Filed(o.core) && (Agreeing(c) && id !in c.st.running ==> Agreeing(o.core))
            && !o.raised && KeepsTicks(c, o.core) && o.box == box
  {
    hide Scheduled, Cancelled, Dispatched, HasSlot, Filed;
    match env.fetch {
      case Raised(error) =>
        RescheduleKeeps(c, box, entry, id, env.now, cap, "fetch failed: " + error);
      case Returned(candidates) =>
        FindIssueHasId(candidates, id);
        match FindIssue(candidates, id) {
          case None => ReleaseKeeps(c, id);
          case Some(issue) =>
            if HasSlot(c.st, issue.state, perState) {
              DispatchKeeps(c, issue, entry.attempt, env.spawn, env.now, cap);
            } else {
              RescheduleKeeps(c, box, entry, id, env.now, cap, "no available orchestrator slots");
            }
        }
    }
  }

  lemma RetryTimerKeeps(c: Core, box: seq<Message>, id: string, env: RetryEnv, perState: seq<(string, int)>, cap: int)
    requires Filed(c)
    ensures var o := RetryTimerHandled(c, box, id, env, perState, cap);
            && Keeps(c, o.core) && !o.raised && box <= o.box
            && TickTimers(o.core.q.timers) <= TickTimers(c.q.timers)
            && (PollTick in o.box || KeepsTicks(c, o.core))
  {
    if id in c.q.entries {
      assert RetryOk(c, id);
      PopKeeps(c, id);
      var c1 := c.(q := Popped(c.q, id));
      assert Agreeing(c) ==> id !in c.st.running;
      if id in c.st.completed {
        ReleaseKeeps(c1, id);
      } else {
        ProduceAllShrinks(c1.q.timers, box, env.duringFetch);
        ProduceAllGrows(c1.q.timers, box, env.duringFetch);
        var (timers, box2) := ProduceAll(c1.q.timers, box, env.duringFetch);
        FewerTimersKeeps(c1, timers);
        RetryFetchedKeeps(c1.(q := c1.q.(timers := timers)), box2, c.q.entries[id], id, env, perState, cap);
      }
    }
  }

  lemma CodexUpdateKeeps(c: Core, id: string, event: RuntimeEvent)
    requires Filed(c)
    ensures Keeps(c, c.(st := CodexUpdated(c.st, id, event)))
  {
    var st := CodexUpdated(c.st, id, event);
    forall k | k in st.running ensures RunningOk(st, k) {
      assert RunningOk(c.st, k);
    }
    forall k | k in c.q.entries ensures RetryOk(c.(st := st), k) {
      assert RetryOk(c, k);
    }
  }

  // ---------------------------------------------------------------------
  // The tick
  // ---------------------------------------------------------------------

  /** Part of a handler's work: the books stay in order, the mailbox has only grown, and a tick
      timer that is gone has left a poll tick behind. */
  ghost predicate Proceeds(a: World, b: World) {
    && Filed(b.core)
    && b.nextTick == a.nextTick && (b.status == a.status || b.status == Crashed)
    && a.box <= b.box
    && TickTimers(b.core.q.timers) <= TickTimers(a.core.q.timers)
    && (PollTick in b.box || TickTimers(b.core.q.timers) == TickTimers(a.core.q.timers))
  }

  lemma ProceedsTransitive(a: World, b: World, c: World)
    requires Proceeds(a, b) && Proceeds(b, c)
    ensures Proceeds(a, c)
  {
  }

  lemma AwaitedProceeds(w: World, ps: seq<Producer>)
    requires Filed(w.core)
    ensures Proceeds(w, Awaited(w, ps)) && Keeps(w.core, Awaited(w, ps).core)
  {
    ProduceAllShrinks(w.core.q.timers, w.box, ps);
    ProduceAllGrows(w.core.q.timers, w.box, ps);
    FewerTimersKeeps(w.core, ProduceAll(w.core.q.timers, w.box, ps).0);
  }

  lemma RefreshedKeeps(c: Core, updates: map<string, Issue>)
    requires Filed(c) && forall id :: id in updates ==> updates[id].id == id
    ensures Keeps(c, c.(st := c.st.(running := Refreshed(c.st.running, updates))))
  {
    var c1 := c.(st := c.st.(running := Refreshed(c.st.running, updates)));
    assert c1.st.running.Keys == c.st.running.Keys;
    forall k | k in c1.st.running ensures RunningOk(c1.st, k) {
      assert RunningOk(c.st, k);
    }
    forall k | k in c1.q.entries ensures RetryOk(c1, k) {
      assert RetryOk(c, k);
    }
  }

  lemma ReconciledProceeds(w: World, env: TickEnv)
    requires Filed(w.core)
    ensures Proceeds(w, Reconciled(w, env)) && Keeps(w.core, Reconciled(w, env).core)
  {
    hide ProduceAll, StalledIds, ActionsFor, Acted, Filed, Agreeing, RetryOk, RunningOk, StallsReported;
    var st := w.core.st;
    var ids := StalledIds(st.order, st.running, env.now, w.config.stallTimeoutMs);
    var w1 := StallsReported(w, ids, env.now, env.finished);
    StallsReportedFrame(w, ids, env.now, env.finished);
    assert Proceeds(w, w1);
    if st.running != map[] {
      var w2 := Awaited(w1, env.duringRefresh);
      AwaitedProceeds(w1, env.duringRefresh);
      ProceedsTransitive(w, w1, w2);
      if env.refresh.Returned? {
        var refreshed := ById(env.refresh.value);
        var terminal, active := Normalized(w.config.terminalStates), Normalized(w.config.activeStates);
        var a := ActionsFor(st.order, refreshed, terminal, active);
        OneActionEach(st.order, refreshed, terminal, active);
        ActedFrame(w2, a, env.finished);
        RefreshedKeeps(w2.core, a.updateSnapshot);
      }
    }
  }

  lemma WaitingKeeps(w: World, waiting: map<string, WaitEntry>)
    requires Filed(w.core)
    ensures Keeps(w.core, WithState(w, w.core.st.(clarificationWaiting := waiting)).core)
  {
    var c := WithState(w, w.core.st.(clarificationWaiting := waiting)).core;
    forall k | k in c.st.running ensures RunningOk(c.st, k) {
      assert RunningOk(w.core.st, k);
    }
    forall k | k in c.q.entries ensures RetryOk(c, k) {
      assert RetryOk(w.core, k);
    }
  }

  lemma GateProceeds(p: Primitives, w: World, issue: Issue, e: CandidateEnv)
    requires Filed(w.core)
    ensures Proceeds(w, Gate(p, w, issue, e).0) && Keeps(w.core, Gate(p, w, issue, e).0.core)
  {
    hide GateDecides, ProduceAll, Filed, Agreeing;
    var waits := w.core.st.clarificationWaiting;
    if issue.id in waits && e.now < waits[issue.id].nextPollAt {
    } else {
      var w1 := Awaited(w, e.duringComments);
      AwaitedProceeds(w, e.duringComments);
      if e.comments.Returned? {
        GateDecidesProceeds(p, w1, issue, e.comments.value, e);
        ProceedsTransitive(w, w1, Gate(p, w, issue, e).0);
      }
    }
  }

  lemma GateDecidesProceeds(p: Primitives, w: World, issue: Issue, comments: seq<Comment>, e: CandidateEnv)
    requires Filed(w.core)
    ensures Proceeds(w, GateDecides(p, w, issue, comments, e).0) && Keeps(w.core, GateDecides(p, w, issue, comments, e).0.core)
  {
    hide ProduceAll, InputFingerprint, QuestionFingerprint, NonClarificationCommentIds, GateAsks, Filed, Agreeing, TickTimers;
    var waits := w.core.st.clarificationWaiting;
    var hashed := InputFingerprint(p, issue, comments);
    var seen := NonClarificationCommentIds(comments);
    var now := GateDecides(p, w, issue, comments, e).0.core.st.clarificationWaiting;
    if hashed.Raised? {
    } else if issue.id in waits && NoNewInput(waits[issue.id], seen, hashed.value) {
      WaitingKeeps(w, now);
    } else {
      var w1 := Awaited(w, e.duringAnalysis);
      AwaitedProceeds(w, e.duringAnalysis);
      if e.analysis.Raised? {
      } else if e.analysis.value.sufficient {
        WaitingKeeps(w1, now);
      } else {
        var asked := QuestionFingerprint(p, e.analysis.value.questions);
        if asked.Returned? {
          GateAsksProceeds(w1, issue, seen, hashed.value, asked.value, e);
        }
      }
    }
  }

  lemma GateAsksProceeds(w: World, issue: Issue, seen: set<string>, fingerprint: string, asked: string, e: CandidateEnv)
    requires Filed(w.core)
    ensures Proceeds(w, GateAsks(w, issue, seen, fingerprint, asked, e))
    ensures Keeps(w.core, GateAsks(w, issue, seen, fingerprint, asked, e).core)
  {
    hide ProduceAll, Filed, Agreeing, TickTimers;
    AwaitedProceeds(w, e.duringAddComment);
    var now := GateAsks(w, issue, seen, fingerprint, asked, e).core.st.clarificationWaiting;
    WaitingKeeps(w, now);
    WaitingKeeps(Awaited(w, e.duringAddComment), now);
  }

  /** The candidate's turn comes to a spawn that fails although the issue runs. */
  predicate FailsWhileRunning(p: Primitives, w: World, issue: Issue, e: CandidateEnv) {
    && w.status != Crashed && HasSlot(w.core.st, issue.state, w.config.maxConcurrentByState)
    && Gate(p, w, issue, e).1
    && issue.id in w.core.st.running && e.spawn.SpawnFailed?
  }

  lemma ConsideredProceeds(p: Primitives, w: World, issue: Issue, e: CandidateEnv)
    requires Filed(w.core)
    ensures Proceeds(w, Considered(p, w, issue, e))
    ensures Agreeing(w.core) && w.status != Crashed ==>
            (Agreeing(Considered(p, w, issue, e).core) <==> !FailsWhileRunning(p, w, issue, e))
  {
    hide Gate, HasSlot, Dispatched, Filed, Agreeing, TickTimers;
    var (w1, allowed) := Gate(p, w, issue, e);
    GateProceeds(p, w, issue, e);
    GateFrame(p, w, issue, e);
    if HasSlot(w.core.st, issue.state, w.config.maxConcurrentByState) && allowed {
      DispatchKeeps(w1.core, issue, 1, e.spawn, e.now, w1.config.maxRetryBackoffMs);
    }
  }

  lemma {:induction false} LoopProceeds(p: Primitives, w: World, eligible: seq<Issue>, n: nat, candidate: nat -> CandidateEnv)
    requires n <= |eligible| && Filed(w.core)
    ensures Proceeds(w, DispatchedFirst(p, w, eligible, n, candidate))
  {
    hide Considered, Filed;
    if n > 0 {
      var w1 := DispatchedFirst(p, w, eligible, n - 1, candidate);
      LoopProceeds(p, w, eligible, n - 1, candidate);
      ConsideredProceeds(p, w1, eligible[n - 1], candidate(n - 1));
      ProceedsTransitive(w, w1, Considered(p, w1, eligible[n - 1], candidate(n - 1)));
    }
  }

  /** The books agree before, between and after the first `n` turns. */
  ghost predicate AgreesThroughout(p: Primitives, w: World, eligible: seq<Issue>, n: nat, candidate: nat -> CandidateEnv)
    requires n <= |eligible|
  {
    Agreeing(DispatchedFirst(p, w, eligible, n, candidate).core) && (n > 0 ==> AgreesThroughout(p, w, eligible, n - 1, candidate))
  }

  /** None of the first `n` turns is a failing spawn for an issue that already runs. */
  predicate NeverFailsWhileRunning(p: Primitives, w: World, eligible: seq<Issue>, n: nat, candidate: nat -> CandidateEnv)
    requires n <= |eligible|
  {
    n > 0 ==>
      && NeverFailsWhileRunning(p, w, eligible, n - 1, candidate)
      && !FailsWhileRunning(p, DispatchedFirst(p, w, eligible, n - 1, candidate), eligible[n - 1], candidate(n - 1))
  }

  /** Books that agree at the start of the loop agree throughout it if and only if no turn is a
      failing spawn for an issue that already runs. */
  lemma {:induction false} LoopAgreesExactly(p: Primitives, w: World, eligible: seq<Issue>, n: nat, candidate: nat -> CandidateEnv)
    requires n <= |eligible| && Consistent(w.core)
    ensures AgreesThroughout(p, w, eligible, n, candidate) <==> NeverFailsWhileRunning(p, w, eligible, n, candidate)
  {
    hide Considered, Filed, Agreeing, HasSlot, Gate;
    if n > 0 {
      LoopAgreesExactly(p, w, eligible, n - 1, candidate);
      LoopProceeds(p, w, eligible, n - 1, candidate);
      ConsideredProceeds(p, DispatchedFirst(p, w, eligible, n - 1, candidate), eligible[n - 1], candidate(n - 1));
    }
  }

  /** None of the candidates from position `n` on is running. */
  ghost predicate Ahead(eligible: seq<Issue>, n: nat, w: World) {
    forall i :: n <= i < |eligible| ==> eligible[i].id !in w.core.st.running
  }

  lemma ConsideredGains(p: Primitives, w: World, issue: Issue, e: CandidateEnv)
    ensures var r := Considered(p, w, issue, e);
      && (forall k :: k in w.core.st.running ==> k in r.core.st.running)
      && (forall k :: k in r.core.st.running ==> k in w.core.st.running || k == issue.id)
  {
    hide Gate, HasSlot, Dispatched;
    GateFrame(p, w, issue, e);
    DispatchedFrame(Gate(p, w, issue, e).0.core, issue, 1, e.spawn, e.now, Gate(p, w, issue, e).0.config.maxRetryBackoffMs);
  }

  /** With distinct ids the candidates still to come are not running. */
  lemma {:induction false} LoopStaysAhead(p: Primitives, w: World, eligible: seq<Issue>, n: nat, candidate: nat -> CandidateEnv)
    requires n <= |eligible| && DistinctIds(eligible) && Ahead(eligible, 0, w)
    ensures Ahead(eligible, n, DispatchedFirst(p, w, eligible, n, candidate))
  {
    hide Considered;
    if n > 0 {
      LoopStaysAhead(p, w, eligible, n - 1, candidate);
      ConsideredGains(p, DispatchedFirst(p, w, eligible, n - 1, candidate), eligible[n - 1], candidate(n - 1));
    }
  }

  /** So none of them meets a failing spawn while it runs. */
  lemma {:induction false} LoopUntroubled(p: Primitives, w: World, eligible: seq<Issue>, n: nat, candidate: nat -> CandidateEnv)
    requires n <= |eligible| && DistinctIds(eligible) && Ahead(eligible, 0, w)
    ensures NeverFailsWhileRunning(p, w, eligible, n, candidate)
  {
    hide Considered, Gate, HasSlot;
    if n > 0 {
      LoopUntroubled(p, w, eligible, n - 1, candidate);
      LoopStaysAhead(p, w, eligible, n - 1, candidate);
    }
  }

  lemma EligibleInOrderOk(w: World, candidates: seq<Issue>)
    ensures Ahead(EligibleInOrder(w, candidates), 0, w)
    ensures DistinctIds(candidates) ==> DistinctIds(EligibleInOrder(w, candidates))
  {
    var active, terminal := Normalized(w.config.activeStates), Normalized(w.config.terminalStates);
    var kept := Filtered(candidates, w.core.st, active, terminal);
    FilteredMembers(candidates, w.core.st, active, terminal);
    SortKeepsMembers(kept);
    if DistinctIds(candidates) {
      SortKeepsDistinctIds(kept);
    }
    var eligible := EligibleInOrder(w, candidates);
    forall i | 0 <= i < |eligible| ensures eligible[i].id !in w.core.st.running {
      assert eligible[i] in eligible;
    }
  }

  /** Rescheduling always ends with one live tick timer, the remembered one. */
  lemma TickScheduledSteady(w: World)
    requires Filed(w.core) && w.status == Live
    requires TickTimers(w.core.q.timers) <= (if w.nextTick.Some? then {w.nextTick.value} else {})
    ensures Steady(TickScheduled(w)) && Keeps(w.core, TickScheduled(w).core)
    ensures TickTimers(TickScheduled(w).core.q.timers) == {TickScheduled(w).nextTick.value}
  {
    var r := TickScheduled(w);
    var h := r.nextTick.value;
    assert h in r.core.q.timers.live && h in TickTimers(r.core.q.timers);
    assert forall x :: x in TickTimers(r.core.q.timers) && x != h ==> x in TickTimers(w.core.q.timers);
    assert Armed(r.core.q);
    forall k | k in r.core.q.entries ensures RetryOk(r.core, k) {
      assert RetryOk(w.core, k);
    }
  }

  /** The candidates come in and can be sorted. */
  predicate ReachesLoop(w: World, env: TickEnv) {
    env.fetch.Returned? && Sortable(EligibleNow(Awaited(w, env.duringFetch), env.fetch.value))
  }

  /** The books agree throughout the dispatch loop, if the poll gets that far. */
  ghost predicate PollAgrees(p: Primitives, w: World, env: TickEnv) {
    ReachesLoop(w, env) ==>
      var w1 := Awaited(w, env.duringFetch);
      var eligible := EligibleInOrder(w1, env.fetch.value);
      AgreesThroughout(p, w1, eligible, |eligible|, env.candidate)
  }

  predicate PollUntroubled(p: Primitives, w: World, env: TickEnv) {
    ReachesLoop(w, env) ==>
      var w1 := Awaited(w, env.duringFetch);
      var eligible := EligibleInOrder(w1, env.fetch.value);
      NeverFailsWhileRunning(p, w1, eligible, |eligible|, env.candidate)
  }

  lemma PolledSteady(p: Primitives, w: World, env: TickEnv)
    requires Filed(w.core) && w.status == Live
    requires TickTimers(w.core.q.timers) <= (if w.nextTick.Some? then {w.nextTick.value} else {})
    ensures Steady(Polled(p, w, env))
    ensures Agreeing(w.core) && PollAgrees(p, w, env) ==> Agreeing(Polled(p, w, env).core)
    ensures Agreeing(w.core) ==> (PollAgrees(p, w, env) <==> PollUntroubled(p, w, env))
  {
    hide ProduceAll, DispatchedFirst, EligibleInOrder, EligibleNow, Sortable, TickScheduled, Filed, Agreeing;
    hide NeverFailsWhileRunning;
    var w1 := Awaited(w, env.duringFetch);
    AwaitedProceeds(w, env.duringFetch);
    if env.fetch.Raised? {
      TickScheduledSteady(w1);
    } else if ReachesLoop(w, env) {
      var eligible := EligibleInOrder(w1, env.fetch.value);
      LoopProceeds(p, w1, eligible, |eligible|, env.candidate);
      if Agreeing(w1.core) {
        LoopAgreesExactly(p, w1, eligible, |eligible|, env.candidate);
      }
      var w2 := DispatchedFirst(p, w1, eligible, |eligible|, env.candidate);
      if w2.status != Crashed {
        TickScheduledSteady(w2);
      }
    }
  }

  ghost predicate TickAgrees(p: Primitives, w: World, env: TickEnv) {
    env.loader.Returned? && env.loader.value.Some? ==>
      PollAgrees(p, Reconciled(w, env).(config := env.loader.value.value), env)
  }

  predicate TickUntroubled(p: Primitives, w: World, env: TickEnv) {
    env.loader.Returned? && env.loader.value.Some? ==>
      PollUntroubled(p, Reconciled(w, env).(config := env.loader.value.value), env)
  }

  /** A tick ends steady on every path, with the next tick scheduled. */
  lemma TickedSteady(p: Primitives, w: World, env: TickEnv)
    requires Filed(w.core) && w.status == Live
    requires TickTimers(w.core.q.timers) <= (if w.nextTick.Some? then {w.nextTick.value} else {})
    ensures Steady(Ticked(p, w, env))
    ensures Agreeing(w.core) && TickAgrees(p, w, env) ==> Agreeing(Ticked(p, w, env).core)
    ensures Agreeing(w.core) ==> (TickAgrees(p, w, env) <==> TickUntroubled(p, w, env))
  {
    hide Reconciled, Polled, PollAgrees, PollUntroubled, TickScheduled, Filed, Agreeing, Steady;
    var w1 := Reconciled(w, env);
    ReconciledFrame(w, env);
    ReconciledProceeds(w, env);
    if env.loader.Raised? || env.loader.value == None {
      TickScheduledSteady(w1);
    } else {
      PolledSteady(p, w1.(config := env.loader.value.value), env);
    }
  }

  lemma OrderlyTickUntroubled(p: Primitives, w: World, env: TickEnv)
    requires OrderlyTick(env)
    ensures TickUntroubled(p, w, env)
  {
    hide Reconciled, Awaited, EligibleInOrder, EligibleNow, Sortable, NeverFailsWhileRunning;
    if env.loader.Returned? && env.loader.value.Some? && env.fetch.Returned? {
      var w1 := Awaited(Reconciled(w, env).(config := env.loader.value.value), env.duringFetch);
      var eligible := EligibleInOrder(w1, env.fetch.value);
      EligibleInOrderOk(w1, env.fetch.value);
      LoopUntroubled(p, w1, eligible, |eligible|, env.candidate);
    }
  }

  // ---------------------------------------------------------------------
  // Every step, every run
  // ---------------------------------------------------------------------

  lemma ReloadKeeps(c: Core, poll: int, agents: int)
    requires Filed(c)
    ensures Keeps(c, c.(st := c.st.(pollIntervalMs := poll, maxConcurrentAgents := agents)))
  {
    var c1 := c.(st := c.st.(pollIntervalMs := poll, maxConcurrentAgents := agents));
    forall k | k in c1.st.running ensures RunningOk(c1.st, k) {
      assert RunningOk(c.st, k);
    }
    forall k | k in c1.q.entries ensures RetryOk(c1, k) {
      assert RetryOk(c, k);
    }
  }

  /** The tick a step runs, and the world it starts in. */
  function TickOf(w: World, env: HandlerEnv): Option<(World, TickEnv)> {
    if w.status == Live && w.box != [] && w.box[0].PollTick? then Some((w.(box := w.box[1..]), env.tick)) else None
  }

  lemma DeliveredSteady(p: Primitives, w: World, env: HandlerEnv)
    requires Steady(w)
    ensures Steady(Delivered(p, w, env))
    ensures Agreeing(w.core) && TickOf(w, env).None? ==> Agreeing(Delivered(p, w, env).core)
    ensures Agreeing(w.core) && TickOf(w, env).Some? ==>
            var (w1, tick) := TickOf(w, env).value;
            && (TickAgrees(p, w1, tick) ==> Agreeing(Delivered(p, w, env).core))
            && (TickAgrees(p, w1, tick) <==> TickUntroubled(p, w1, tick))
  {
    hide TickAgrees, TickUntroubled, Ticked, WorkerExited, CodexUpdated, RetryTimerHandled, TickCancelled, Filed, Agreeing;
    if w.status == Live && w.box != [] {
      var w1 := w.(box := w.box[1..]);
      assert w.box == [w.box[0]] + w1.box;
      match w.box[0] {
        case PollTick =>
          TickedSteady(p, w1, env.tick);
        case WorkerExit(id, _, ok, seconds, error) =>
          WorkerExitKeeps(w.core, id, ok, seconds, error, env.now, w.config.maxRetryBackoffMs);
        case CodexUpdate(id, event) =>
          CodexUpdateKeeps(w.core, id, event);
        case RetryTimerFired(id) =>
          RetryTimerKeeps(w1.core, w1.box, id, env.retry, w.config.maxConcurrentByState, w.config.maxRetryBackoffMs);
        case ConfigReloaded(config) =>
          ReloadKeeps(w.core, config.pollIntervalMs, config.maxConcurrentAgents);
        case Shutdown =>
          TickCancelledKeeps(w1);
      }
    }
  }

  lemma TickCancelledKeeps(w: World)
    requires Filed(w.core)
    requires TickTimers(w.core.q.timers) <= (if w.nextTick.Some? then {w.nextTick.value} else {})
    ensures Keeps(w.core, TickCancelled(w).core)
    ensures TickTimers(TickCancelled(w).core.q.timers) == {}
    ensures TickCancelled(w).nextTick == None
  {
    if w.nextTick.Some? {
      FewerTimersKeeps(w.core, Without(w.core.q.timers, w.nextTick.value));
    }
  }

  lemma TearDownSteady(p: Primitives, w: World)
    requires Steady(w)
    ensures Steady(Step(p, w, TearDown))
    ensures Agreeing(w.core) ==> Agreeing(Step(p, w, TearDown).core)
  {
    if w.status != Live {
      var w1 := TickCancelled(w);
      TickCancelledKeeps(w);
      ArmedAfter(w1.core.q, CancelAllOp);
    }
  }

  /** The books agree after the step and, if it is a tick, throughout its dispatch loop. */
  ghost predicate StepAgrees(p: Primitives, w: World, e: Event) {
    && Agreeing(Step(p, w, e).core)
    && (e.Deliver? && TickOf(w, e.env).Some? ==> TickAgrees(p, TickOf(w, e.env).value.0, TickOf(w, e.env).value.1))
  }

  /** In no turn of the step's dispatch loop, if it has one, a spawn fails for an issue that runs. */
  predicate Untroubled(p: Primitives, w: World, e: Event) {
    e.Deliver? && TickOf(w, e.env).Some? ==> TickUntroubled(p, TickOf(w, e.env).value.0, TickOf(w, e.env).value.1)
  }

  /** Every step keeps the unconditional part, and loses the agreement exactly if it is troubled. */
  lemma StepSteady(p: Primitives, w: World, e: Event)
    requires Steady(w)
    ensures Steady(Step(p, w, e))
    ensures Agreeing(w.core) ==> (StepAgrees(p, w, e) <==> Untroubled(p, w, e))
  {
    hide Delivered, ProduceAll, Filed, Agreeing, TickCancelled, TickAgrees, TickUntroubled;
    match e {
      case Deliver(env) => DeliveredSteady(p, w, env);
      case Outside(producer) => AwaitedProceeds(w, [producer]);
      case TearDown => TearDownSteady(p, w);
    }
  }

  /** In every run, whatever is fetched, delivered, duplicated or stale: the books are in order,
      the dispatcher never dies of a rejected attempt number, and the heartbeat is neither lost
      nor doubled. */
  lemma {:induction false} RunSteady(p: Primitives, config: Config, events: seq<Event>)
    ensures Steady(Run(p, Initial(config), events))
  {
    hide Step, Steady;
    if events == [] {
      StartSound(config);
    } else {
      RunSteady(p, config, events[..|events| - 1]);
      StepSteady(p, Run(p, Initial(config), events[..|events| - 1]), events[|events| - 1]);
    }
  }

  lemma StartSound(config: Config)
    ensures Sound(Initial(config))
  {
  }

  /** The books agree at the start, after every step and throughout every dispatch loop. */
  ghost predicate AlwaysAgrees(p: Primitives, w: World, events: seq<Event>) {
    if events == [] then Agreeing(w.core)
    else
      var init := events[..|events| - 1];
      AlwaysAgrees(p, w, init) && StepAgrees(p, Run(p, w, init), events[|events| - 1])
  }

  predicate NeverTroubled(p: Primitives, w: World, events: seq<Event>) {
    events != [] ==>
      var init := events[..|events| - 1];
      NeverTroubled(p, w, init) && Untroubled(p, Run(p, w, init), events[|events| - 1])
  }

  /** The exact condition over runs: the books always agree if and only if no spawn ever fails, in
      a dispatch loop, for an issue that already runs. */
  lemma {:induction false} RunAgreesExactly(p: Primitives, config: Config, events: seq<Event>)
    ensures AlwaysAgrees(p, Initial(config), events) <==> NeverTroubled(p, Initial(config), events)
    ensures AlwaysAgrees(p, Initial(config), events) ==> Agreeing(Run(p, Initial(config), events).core)
  {
    hide Step, Steady, Agreeing, TickOf, TickAgrees, Untroubled;
    if events == [] {
      StartSound(config);
    } else {
      var init := events[..|events| - 1];
      RunAgreesExactly(p, config, init);
      RunSteady(p, config, init);
      StepSteady(p, Run(p, Initial(config), init), events[|events| - 1]);
    }
  }

  lemma {:induction false} OrderlyNeverTroubled(p: Primitives, w: World, events: seq<Event>)
    requires forall i :: 0 <= i < |events| ==> Orderly(events[i])
    ensures NeverTroubled(p, w, events)
  {
    hide Run, OrderlyTick, TickUntroubled;
    if events != [] {
      var init, last := events[..|events| - 1], events[|events| - 1];
      OrderlyNeverTroubled(p, w, init);
      assert Orderly(last);
      if last.Deliver? && TickOf(Run(p, w, init), last.env).Some? {
        OrderlyTickUntroubled(p, TickOf(Run(p, w, init), last.env).value.0, last.env.tick);
      }
    }
  }

  /** So they do in every run whose fetches repeat no id. */
  lemma RunSound(p: Primitives, config: Config, events: seq<Event>)
    requires forall i :: 0 <= i < |events| ==> Orderly(events[i])
    ensures Sound(Run(p, Initial(config), events)) && AlwaysAgrees(p, Initial(config), events)
  {
    hide Run, Steady, Agreeing, AlwaysAgrees, NeverTroubled, Orderly;
    RunSteady(p, config, events);
    OrderlyNeverTroubled(p, Initial(config), events);
    RunAgreesExactly(p, config, events);
  }
}
