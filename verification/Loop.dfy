/** The orchestrator: one dispatcher that owns the state, takes messages off the mailbox and
    handles them one at a time. */
module OrchestratorLoop {
  import opened Prelude
  import opened Tracker
  import opened EventLoop
  import opened Mailboxes
  import opened Retry
  import opened State
  import opened Clarification
  import opened Dispatch
  import opened Lifecycle
  import opened Reconcile
  import opened World

  class Orchestrator {
    const primitives: Primitives
    const state: OrchestratorState
    const mailbox: Mailbox
    const queue: RetryQueue
    const workers: WorkerFactory
    var config: Config
    var nextTick: Option<nat>
    var cancelledWorkers: set<nat>
    var cleanups: seq<string>
    var stopped: bool
    ghost var gateLog: seq<GateEvent>

    ghost predicate Valid()
      reads state`running, state`entries, state`pool, state.pool
    {
      state.Valid()
    }

    ghost function View(raised: bool): World
      reads this, state, mailbox, queue, queue.loop, workers
    {
      World(CoreView(state, queue, workers), mailbox.queue, config, nextTick, cancelledWorkers, cleanups, gateLog,
            if raised then Crashed else if stopped then Stopped else Live)
    }

    constructor (primitives: Primitives, config: Config)
      ensures Valid() && !stopped
      ensures fresh(state) && fresh(mailbox) && fresh(queue) && fresh(queue.loop) && fresh(workers)
      ensures state.pool == {}
      ensures View(false) == Initial(config).(box := [])
    {
      var loop := new Loop();
      this.primitives := primitives;
      this.state := new OrchestratorState(config.pollIntervalMs, config.maxConcurrentAgents);
      this.mailbox := new Mailbox();
      this.queue := new RetryQueue(loop);
      this.workers := new WorkerFactory();
      this.config := config;
      this.nextTick := None;
      this.cancelledWorkers := {};
      this.cleanups := [];
      this.stopped := false;
      this.gateLog := [];
    }

    // -------------------------------------------------------------------
    // Tick scheduling
    // -------------------------------------------------------------------

    method ScheduleNextTick()
      modifies this`nextTick, queue.loop
      ensures View(false) == TickScheduled(old(View(false)))
    {
      if nextTick.Some? {
        queue.loop.Cancel(nextTick.value);
      }
      var h := queue.loop.CallLater(config.pollIntervalMs, PostPollTick);
      nextTick := Some(h);
    }

    method ScheduleInitialTick()
      modifies mailbox
      ensures View(false) == old(View(false)).(box := old(mailbox.queue) + [PollTick])
    {
      mailbox.Send(PollTick);
    }

    method CancelNextTick()
      modifies this`nextTick, queue.loop
      ensures View(false) == TickCancelled(old(View(false)))
    {
      if nextTick.Some? {
        queue.loop.Cancel(nextTick.value);
        nextTick := None;
      }
    }

    // -------------------------------------------------------------------
    // Reconciliation
    // -------------------------------------------------------------------

    method TerminateWorker(handle: nat, finished: set<nat>)
      modifies this`cancelledWorkers
      ensures View(false) == WorkerCancelled(old(View(false)), handle, finished)
    {
      if handle in finished {
        return;
      }
      cancelledWorkers := cancelledWorkers + {handle};
    }

    method ReportStalls(ids: seq<string>, now: int, finished: set<nat>)
      requires Valid()
      modifies this`cancelledWorkers, mailbox
      ensures View(false) == StallsReported(old(View(false)), ids, now, finished)
    {
      ghost var w := View(false);
      for i := 0 to |ids|
        invariant View(false) == StallsReported(w, ids[..i], now, finished)
        invariant View(false) == w.(box := mailbox.queue, cancelledWorkers := cancelledWorkers)
      {
        assert ids[..i + 1][..i] == ids[..i];
        if ids[i] in state.running {
          var entry := state.running[ids[i]];
          TerminateWorker(entry.workerHandle, finished);
          mailbox.Send(WorkerExit(
            ids[i], "stall_terminated", false, (now - entry.startedAt) as real / 1000000.0,
            Some("stall timeout " + (if config.stallTimeoutMs >= 0 then Decimal(config.stallTimeoutMs) else "") + "ms exceeded")));
        }
      }
      assert ids[..|ids|] == ids;
    }

    method StopWorkers(ids: seq<string>, clean: bool, finished: set<nat>)
      requires Valid()
      modifies this`cancelledWorkers, this`cleanups
      ensures View(false) == WorkersStopped(old(View(false)), ids, clean, finished)
    {
      ghost var w := View(false);
      for i := 0 to |ids|
        invariant View(false) == WorkersStopped(w, ids[..i], clean, finished)
        invariant View(false) == w.(cleanups := cleanups, cancelledWorkers := cancelledWorkers)
      {
        assert ids[..i + 1][..i] == ids[..i];
        if ids[i] in state.running {
          var entry := state.running[ids[i]];
          TerminateWorker(entry.workerHandle, finished);
          if clean {
            cleanups := cleanups + [entry.identifier];
          }
        }
      }
      assert ids[..|ids|] == ids;
    }

    method RefreshSnapshots(updates: map<string, Issue>)
      requires Valid()
      modifies state`entries, state.pool
      ensures Valid()
      ensures state.entries == Refreshed(old(state.entries), updates)
    {
      hide OrchestratorState.Valid;
      state.SameKeys();
      var todo := updates.Keys;
      ghost var done: set<string> := {};
      while todo != {}
        invariant Valid() && done + todo == updates.Keys && done !! todo
        invariant state.entries.Keys == old(state.entries).Keys
        invariant forall k :: k in state.entries ==>
          state.entries[k] == if k in done then old(state.entries)[k].(issue := updates[k]) else old(state.entries)[k]
        decreases todo
      {
        var id :| id in todo;
        state.SameKeys();
        if id in state.running {
          state.RefreshRunning(id, updates[id]);
        }
        todo := todo - {id};
        done := done + {id};
      }
      assert state.entries == Refreshed(old(state.entries), updates);
    }

    method ReconcileRunning(env: TickEnv)
      requires Valid()
      modifies this`cancelledWorkers, this`cleanups, mailbox, queue.loop, state`entries, state.pool
      ensures Valid()
      ensures View(false) == Reconciled(old(View(false)), env)
    {
      hide StallsReported, StalledIds, Acted, ActionsFor, ById, ProduceAll, OrchestratorState.Valid;
      state.SameKeys();
      var stalled := DetectStalls(state, env.now, config.stallTimeoutMs);
      ReportStalls(stalled, env.now, env.finished);
      if state.running == map[] {
        return;
      }
      assert state.entries.Keys != {};
      Await(queue.loop, mailbox, env.duringRefresh);
      if env.refresh.Raised? {
        return;
      }
      var actions := ReconcileRunningWithTracker(state, env.refresh.value, config.terminalStates, config.activeStates);
      Act(actions, env.finished);
    }

    method Act(actions: ReconcileActions, finished: set<nat>)
      requires Valid()
      modifies this`cancelledWorkers, this`cleanups, state`entries, state.pool
      ensures Valid()
      ensures View(false) == Acted(old(View(false)), actions, finished)
    {
      hide WorkersStopped, Refreshed, OrchestratorState.Valid;
      StopWorkers(actions.terminateWithCleanup, true, finished);
      StopWorkers(actions.terminateWithoutCleanup, false, finished);
      RefreshSnapshots(actions.updateSnapshot);
    }

    // -------------------------------------------------------------------
    // Clarification gate
    // -------------------------------------------------------------------

    /** `raised` reports an exception that escapes from hashing a text. */
    method ClarificationGateAllowsDispatch(issue: Issue, env: CandidateEnv) returns (allowed: bool, raised: bool)
      requires Valid() && !stopped
      modifies state`clarificationWaiting, mailbox, queue.loop, this`gateLog
      ensures Valid()
      ensures allowed ==> !raised
      ensures (View(raised), allowed) == Gate(primitives, old(View(false)), issue, env)
    {
      hide GateDecides, ProduceAll, OrchestratorState.Valid;
      var known := issue.id in state.clarificationWaiting;
      if known && env.now < state.clarificationWaiting[issue.id].nextPollAt {
        return false, false;
      }
      Await(queue.loop, mailbox, env.duringComments);
      if env.comments.Raised? {
        return false, false;
      }
      allowed, raised := GateDecision(issue, env.comments.value, env);
    }

    /** The gate from the point where the comments have been fetched. */
    method GateDecision(issue: Issue, comments: seq<Comment>, env: CandidateEnv) returns (allowed: bool, raised: bool)
      requires Valid() && !stopped
      modifies state`clarificationWaiting, mailbox, queue.loop, this`gateLog
      ensures Valid()
      ensures allowed ==> !raised
      ensures (View(raised), allowed) == GateDecides(primitives, old(View(false)), issue, comments, env)
    {
      hide ProduceAll, InputFingerprint, QuestionFingerprint, NonClarificationCommentIds, GateAsks, Valid, OrchestratorState.Valid;
      var known := issue.id in state.clarificationWaiting;
      var seen := NonClarificationCommentIds(comments);
      var hashed := FingerprintClarificationInputs(primitives, issue, comments);
      if hashed.Raised? {
        return false, true;
      }
      var fingerprint := hashed.value;
      if known {
        var waiting := state.clarificationWaiting[issue.id];
        var noNewInput := if waiting.lastInputFingerprint.Some? then fingerprint == waiting.lastInputFingerprint.value
                          else seen <= waiting.lastSeenCommentIds;
        if noNewInput {
          state.clarificationWaiting :=
            state.clarificationWaiting[issue.id := waiting.(nextPollAt := NextPollAt(env.now))];
          return false, false;
        }
      }
      Await(queue.loop, mailbox, env.duringAnalysis);
      if env.analysis.Raised? {
        return false, false;
      }
      var decision := env.analysis.value;
      if decision.sufficient {
        state.clarificationWaiting := state.clarificationWaiting - {issue.id};
        gateLog := gateLog + [Cleared(issue.id)];
        return true, false;
      }
      var asked := QuestionFingerprint(primitives, decision.questions);
      if asked.Raised? {
        return false, true;
      }
      AskFor(issue, seen, fingerprint, asked.value, env);
      return false, false;
    }

    method AskFor(issue: Issue, seen: set<string>, fingerprint: string, asked: string, env: CandidateEnv)
      requires Valid() && !stopped
      modifies state`clarificationWaiting, mailbox, queue.loop, this`gateLog
      ensures Valid()
      ensures View(false) == GateAsks(old(View(false)), issue, seen, fingerprint, asked, env)
    {
      hide ProduceAll, Valid, OrchestratorState.Valid;
      if issue.id !in state.clarificationWaiting
         || state.clarificationWaiting[issue.id].lastQuestionFingerprint != Some(asked) {
        Await(queue.loop, mailbox, env.duringAddComment);
        if env.addComment.Raised? {
          return;
        }
        gateLog := gateLog + [Commented(issue.id, asked)];
      }
      state.clarificationWaiting := state.clarificationWaiting[issue.id :=
        WaitEntry(issue.id, issue.identifier, seen, Some(asked), NextPollAt(env.now), Some(fingerprint))];
    }

    // -------------------------------------------------------------------
    // Tick
    // -------------------------------------------------------------------

    method Consider(issue: Issue, env: CandidateEnv) returns (raised: bool)
      requires Valid() && !stopped
      modifies this`gateLog, state, mailbox, queue, queue.loop, workers
      ensures Valid()
      ensures fresh(state.pool - old(state.pool))
      ensures View(raised) == Considered(primitives, old(View(false)), issue, env)
    {
      hide Gate, HasSlot, Dispatched, OrchestratorState.Valid;
      var room := ConcurrencyCheck(issue, state, config.maxConcurrentByState);
      if !room {
        return false;
      }
      var allowed, fallen := ClarificationGateAllowsDispatch(issue, env);
      if !allowed {
        return fallen;
      }
      var _, failed := DispatchIssue(state, queue, workers, issue, 1, env.spawn, env.now, config.maxRetryBackoffMs);
      return failed;
    }

    method DispatchEligible(eligible: seq<Issue>, candidate: nat -> CandidateEnv) returns (raised: bool)
      requires Valid() && !stopped
      modifies this`gateLog, state, mailbox, queue, queue.loop, workers
      ensures Valid()
      ensures fresh(state.pool - old(state.pool))
      ensures View(raised) == DispatchedFirst(primitives, old(View(false)), eligible, |eligible|, candidate)
    {
      hide Considered, OrchestratorState.Valid;
      raised := false;
      ghost var w := View(false);
      for i := 0 to |eligible|
        invariant Valid() && !stopped
        invariant fresh(state.pool - old(state.pool))
        invariant View(raised) == DispatchedFirst(primitives, w, eligible, i, candidate)
      {
        if !raised {
          raised := Consider(eligible[i], candidate(i));
        }
      }
    }

    method OnTick(env: TickEnv) returns (raised: bool)
      requires Valid() && !stopped
      modifies this, state, mailbox, queue, queue.loop, workers, state.pool
      ensures Valid() && stopped == old(stopped)
      ensures fresh(state.pool - old(state.pool))
      ensures View(raised) == Ticked(primitives, old(View(false)), env)
    {
      hide Reconciled, TickScheduled, Polled, OrchestratorState.Valid;
      ReconcileRunning(env);
      if env.loader.Raised? || env.loader.value == None {
        ScheduleNextTick();
        return false;
      }
      config := env.loader.value.value;
      raised := Poll(env);
    }

    method Poll(env: TickEnv) returns (raised: bool)
      requires Valid() && !stopped
      modifies this`gateLog, this`nextTick, state, mailbox, queue, queue.loop, workers
      ensures Valid()
      ensures fresh(state.pool - old(state.pool))
      ensures View(raised) == Polled(primitives, old(View(false)), env)
    {
      hide ProduceAll, DispatchedFirst, TickScheduled, Filtered, SortForDispatch, SortComparing, Sortable, OrchestratorState.Valid;
      Await(queue.loop, mailbox, env.duringFetch);
      if env.fetch.Raised? {
        ScheduleNextTick();
        return false;
      }
      var eligible := FilterCandidates(env.fetch.value, state, config.activeStates, config.terminalStates);
      var sorted := SortComparing(eligible);
      SortRaisesExactly(eligible);
      if sorted.Raised? {
        return true;
      }
      raised := DispatchEligible(sorted.value, env.candidate);
      if !raised {
        ScheduleNextTick();
      }
    }

    // -------------------------------------------------------------------
    // Main loop
    // -------------------------------------------------------------------

    /** The live caps are mirrored onto the state. */
    method AdoptConfig(cfg: Config)
      modifies this`config, state`pollIntervalMs, state`maxConcurrentAgents
      ensures View(false) == WithState(old(View(false)).(config := cfg),
                old(state.View()).(pollIntervalMs := cfg.pollIntervalMs, maxConcurrentAgents := cfg.maxConcurrentAgents))
    {
      config := cfg;
      state.pollIntervalMs := cfg.pollIntervalMs;
      state.maxConcurrentAgents := cfg.maxConcurrentAgents;
    }

    method HandleNext(env: HandlerEnv) returns (raised: bool)
      requires Valid() && !stopped && mailbox.queue != []
      modifies this, state, mailbox, queue, queue.loop, workers, state.pool
      ensures Valid()
      ensures fresh(state.pool - old(state.pool))
      ensures View(raised) == Delivered(primitives, old(View(false)), env)
    {
      hide Ticked, WorkerExited, CodexUpdated, RetryTimerHandled, TickCancelled, OrchestratorState.Valid;
      var msg := mailbox.Recv();
      match msg {
        case PollTick =>
          raised := OnTick(env.tick);
        case ConfigReloaded(cfg) =>
          AdoptConfig(cfg);
          raised := false;
        case Shutdown =>
          Stop();
          raised := false;
        case _ =>
          raised := HandleOfIssue(msg, env);
      }
    }

    method Stop()
      modifies this`nextTick, this`stopped, queue.loop
      ensures stopped && View(false) == TickCancelled(old(View(false))).(status := Stopped)
    {
      CancelNextTick();
      stopped := true;
    }

    /** The messages that concern one issue. */
    method HandleOfIssue(msg: Message, env: HandlerEnv) returns (raised: bool)
      requires Valid() && !stopped
      requires msg.WorkerExit? || msg.CodexUpdate? || msg.RetryTimerFired?
      modifies this, state, mailbox, queue, queue.loop, workers, state.pool
      ensures Valid() && !stopped
      ensures fresh(state.pool - old(state.pool))
      ensures View(raised) == Handled(primitives, old(View(false)), msg, env)
    {
      hide WorkerExited, CodexUpdated, RetryTimerHandled, OrchestratorState.Valid;
      raised := false;
      match msg {
        case WorkerExit(id, _, ok, seconds, error) =>
          raised := OnWorkerExit(state, queue, workers, id, ok, seconds, error, env.now, config.maxRetryBackoffMs);
        case CodexUpdate(id, event) =>
          OnCodexUpdate(state, id, event);
        case RetryTimerFired(id) =>
          raised := OnRetryTimer(state, queue, workers, mailbox, id, env.retry,
                                 config.maxConcurrentByState, config.maxRetryBackoffMs);
      }
    }

    /** The teardown after the dispatcher has left its loop. */
    method CancelTimers()
      modifies this`nextTick, queue, queue.loop
      ensures View(false) == var w1 := TickCancelled(old(View(false))); w1.(core := w1.core.(q := AllCancelled(w1.core.q)))
    {
      CancelNextTick();
      queue.CancelAll();
    }

    /** The dispatcher and its surroundings, interleaved as `events` says: each delivery takes
        the message at the front of the mailbox, if the dispatcher is still in its loop. */
    method Execute(events: seq<Event>) returns (raised: bool)
      requires Valid()
      modifies this, state, mailbox, queue, queue.loop, workers, state.pool
      ensures Valid()
      ensures View(raised) == Run(primitives, old(View(false)), events)
    {
      hide Handled, ProduceAll, AllCancelled, OrchestratorState.Valid;
      raised := false;
      ghost var w := View(false);
      for i := 0 to |events|
        invariant Valid()
        invariant fresh(state.pool - old(state.pool))
        invariant View(raised) == Run(primitives, w, events[..i])
      {
        assert events[..i + 1][..i] == events[..i];
        match events[i] {
          case Deliver(env) =>
            if !raised && !stopped && mailbox.queue != [] {
              raised := HandleNext(env);
            }
          case Outside(producer) =>
            assert [producer][1..] == [];
            Await(queue.loop, mailbox, [producer]);
          case TearDown =>
            if raised || stopped {
              CancelTimers();
            }
        }
      }
      assert events[..|events|] == events;
    }
  }
}
