/** The whole effect, in any run, of the messages that end and retry an attempt: what changes for
    the issue at hand, and that nothing changes for any other. */
module Effects {
  import opened Prelude
  import opened Tracker
  import opened EventLoop
  import opened Mailboxes
  import opened Retry
  import opened State
  import opened Clarification
  import opened Dispatch
  import opened Lifecycle
  import opened World
  import opened Consistency

  /** Other issues keep their retry entries, and their timers stay live. */
  ghost predicate OthersKeepRetries(a: Queue, b: Queue, id: string) {
    && (forall k :: k != id ==> (k in b.entries <==> k in a.entries))
    && (forall k :: k != id && k in a.entries ==> b.entries[k] == a.entries[k])
    && (forall h :: h in a.timers.live && RetryFor(a.timers.live[h].callback) != Some(id) ==>
          h in b.timers.live && b.timers.live[h] == a.timers.live[h])
  }

  /** `id` waits for its next attempt: one entry, one live timer with the entry's delay. */
  ghost predicate WaitsFor(q: Queue, id: string, attempt: int, kind: Kind, now: int, delayMs: int, callback: Callback) {
    && id in q.entries
    && var e := q.entries[id];
    && e.attempt == attempt && e.kind == kind && e.scheduledAt == now && e.fireAt == now + 1000 * delayMs
    && e.handle in q.timers.live && q.timers.live[e.handle] == Timer(delayMs, callback)
  }

  /** One second before a continuation, ten seconds doubling up to the cap before a failure's retry. */
  function WaitMs(kind: Kind, attempt: int, cap: int): int {
    if kind == Continuation then 1000 else if attempt < 1 then 0 else Min(10_000 * Pow2(attempt - 1), cap)
  }

  lemma ScheduledEffect(q: Queue, now: int, id: string, attempt: int, kind: Kind, cap: int, callback: Callback,
                        err: Option<string>)
    requires Armed(q) && attempt >= 1
    ensures var r := Scheduled(q, now, id, attempt, kind, cap, callback, err);
      && r.Returned?
      && WaitsFor(r.value, id, attempt, kind, now, WaitMs(kind, attempt, cap), callback)
      && r.value.entries[id].lastError == err
      && OthersKeepRetries(q, r.value, id)
  {
  }

  /** What the exit of a running issue changes: it stops running and being claimed, it is completed
      exactly when the exit was a success, its attempt number goes up by one in the one retry entry
      it has, whose live timer will post, and no other issue or total is touched. */
  ghost predicate Exits(c: Core, d: Core, id: string, ok: bool, seconds: real, err: Option<string>, now: int, cap: int) {
    && id in c.st.running
    && var next, kind := c.st.running[id].retryAttempt + 1, if ok then Continuation else Failure;
    && d.st == c.st.(order := d.st.order, running := c.st.running - {id}, claimed := c.st.claimed - {id},
                     completed := if ok then c.st.completed + {id} else c.st.completed,
                     runtimeSecondsTotal := c.st.runtimeSecondsTotal + seconds)
    && d.nextTask == c.nextTask
    && WaitsFor(d.q, id, next, kind, now, WaitMs(kind, next, cap), PostRetry(id))
    && d.q.entries[id].lastError == (if ok then None else err)
    && OthersKeepRetries(c.q, d.q, id)
  }

  lemma ExitEffect(c: Core, id: string, ok: bool, seconds: real, err: Option<string>, now: int, cap: int)
    requires Filed(c) && id in c.st.running
    ensures Exits(c, WorkerExited(c, id, ok, seconds, err, now, cap).core, id, ok, seconds, err, now, cap)
  {
    hide Scheduled, OthersKeepRetries, Armed, RetryOk, Drop;
    var kind := if ok then Continuation else Failure;
    assert RunningOk(c.st, id);
    ScheduledEffect(c.q, now, id, NextAttemptFrom(c.st.running[id]), kind, cap, PostRetry(id), if ok then None else err);
  }

  /** In every run, the step that delivers an exit: that of a running issue changes the core just so,
      and that of an issue that is not running changes nothing in it. */
  lemma ExitStep(p: Primitives, config: Config, events: seq<Event>, env: HandlerEnv)
    ensures var w := Run(p, Initial(config), events);
      w.status == Live && w.box != [] && w.box[0].WorkerExit? ==>
        var WorkerExit(id, _, ok, seconds, err) := w.box[0];
        var r := Step(p, w, Deliver(env));
        && r == w.(core := r.core, box := w.box[1..])
        && if id in w.core.st.running then
             Exits(w.core, r.core, id, ok, seconds, err, env.now, w.config.maxRetryBackoffMs)
           else r.core == w.core
  {
    hide Run, Exits, WorkerExited, Filed;
    RunSteady(p, config, events);
    var w := Run(p, Initial(config), events);
    if w.status == Live && w.box != [] && w.box[0].WorkerExit? {
      var WorkerExit(id, _, ok, seconds, err) := w.box[0];
      WorkerExitKeeps(w.core, id, ok, seconds, err, env.now, w.config.maxRetryBackoffMs);
      if id in w.core.st.running {
        ExitEffect(w.core, id, ok, seconds, err, env.now, w.config.maxRetryBackoffMs);
      } else {
        UnknownExit(w.core, id, ok, seconds, err, env.now, w.config.maxRetryBackoffMs);
      }
    }
  }

  lemma UnknownExit(c: Core, id: string, ok: bool, seconds: real, err: Option<string>, now: int, cap: int)
    requires id !in c.st.running
    ensures WorkerExited(c, id, ok, seconds, err, now, cap) == Outcome(c, false)
  {
  }

  /** A spawn that fails queues the next attempt behind a timer that posts nothing. */
  lemma FailedSpawnEffect(c: Core, issue: Issue, attempt: int, error: string, now: int, cap: int)
    requires Filed(c) && attempt >= 1
    ensures var d := Dispatched(c, issue, attempt, SpawnFailed(error), now, cap).core;
      && d.st == c.st.(claimed := c.st.claimed - {issue.id}) && d.nextTask == c.nextTask
      && WaitsFor(d.q, issue.id, attempt + 1, Failure, now, WaitMs(Failure, attempt + 1, cap), DoNothing(issue.id))
      && d.q.entries[issue.id].lastError == Some(error)
      && OthersKeepRetries(c.q, d.q, issue.id)
  {
    hide Scheduled, WaitsFor, RetryOk, RunningOk, Ordered;
    var q1 := Cancelled(c.q, issue.id);
    CancelOk(c.q, issue.id);
    CancelledEffect(c.q, issue.id);
    ScheduledEffect(q1, now, issue.id, attempt + 1, Failure, cap, DoNothing(issue.id), Some(error));
  }

  lemma CancelledEffect(q: Queue, id: string)
    requires Armed(q)
    ensures OthersKeepRetries(q, Cancelled(q, id), id)
  {
  }

  /** What the retry of a queued, never completed issue comes to, one of four things: the entry goes
      back with its attempt number and kind behind a timer that will post; the issue is let go; the
      fetched candidate starts with the attempt number the entry had; or its spawn fails, and the
      next attempt waits behind a timer that will not post. */
  ghost predicate Retries(c: Core, d: Core, id: string, env: RetryEnv, perState: seq<(string, int)>, cap: int) {
    && id in c.q.entries
    && var e := c.q.entries[id];
    var found := if env.fetch.Returned? then FindIssue(env.fetch.value, id) else None;
    if env.fetch.Raised? || (found.Some? && !HasSlot(c.st, found.value.state, perState)) then
      && d.st == c.st
      && WaitsFor(d.q, id, e.attempt, e.kind, env.now, WaitMs(e.kind, e.attempt, cap), PostRetry(id))
      && d.q.entries[id].lastError
         == Some(if env.fetch.Raised? then "fetch failed: " + env.fetch.error else "no available orchestrator slots")
    else if found == None then
      d.st == c.st && id !in d.q.entries
    else if env.spawn.Spawned? then
      && d.st.running == c.st.running[id := FreshEntry(c.nextTask, found.value, env.now, e.attempt)]
      && d.st.claimed == c.st.claimed + {id} && id !in d.q.entries
    else
      && d.st == c.st
      && WaitsFor(d.q, id, e.attempt + 1, Failure, env.now, WaitMs(Failure, e.attempt + 1, cap), DoNothing(id))
      && d.q.entries[id].lastError == Some(env.spawn.error)
  }

  lemma RetryEffect(c: Core, box: seq<Message>, id: string, env: RetryEnv, perState: seq<(string, int)>, cap: int)
    requires Filed(c) && id in c.q.entries && id !in c.st.completed
    ensures Retries(c, RetryTimerHandled(c, box, id, env, perState, cap).core, id, env, perState, cap)
  {
    hide Scheduled, HasSlot, WaitsFor, OthersKeepRetries, ProduceAll, RunningOk, Ordered, Armed;
    assert RetryOk(c, id);
    var e := c.q.entries[id];
    var c1 := c.(q := Popped(c.q, id));
    PopKeeps(c, id);
    assert c.st.(claimed := c.st.claimed - {id}) == c.st;
    ProduceAllShrinks(c1.q.timers, box, env.duringFetch);
    var c2 := c1.(q := c1.q.(timers := ProduceAll(c1.q.timers, box, env.duringFetch).0));
    FewerTimersKeeps(c1, c2.q.timers);
    if env.fetch.Returned? {
      FindIssueHasId(env.fetch.value, id);
      var found := FindIssue(env.fetch.value, id);
      if found.Some? {
        if env.spawn.SpawnFailed? {
          FailedSpawnEffect(c2, found.value, e.attempt, env.spawn.error, env.now, cap);
        }
        ScheduledEffect(c2.q, env.now, id, e.attempt, e.kind, cap, PostRetry(id), Some("no available orchestrator slots"));
      }
    } else {
      ScheduledEffect(c2.q, env.now, id, e.attempt, e.kind, cap, PostRetry(id), Some("fetch failed: " + env.fetch.error));
    }
  }

  /** In every run, the step that delivers the retry message of such an issue does one of these. */
  lemma RetryStep(p: Primitives, config: Config, events: seq<Event>, env: HandlerEnv)
    ensures var w := Run(p, Initial(config), events);
      w.status == Live && w.box != [] && w.box[0].RetryTimerFired? && w.box[0].issueId in w.core.q.entries
      && w.box[0].issueId !in w.core.st.completed ==>
        Retries(w.core, Step(p, w, Deliver(env)).core, w.box[0].issueId, env.retry, w.config.maxConcurrentByState,
                w.config.maxRetryBackoffMs)
  {
    hide Run, Filed, Retries, RetryTimerHandled;
    RunSteady(p, config, events);
    var w := Run(p, Initial(config), events);
    if w.status == Live && w.box != [] && w.box[0].RetryTimerFired? && w.box[0].issueId in w.core.q.entries
       && w.box[0].issueId !in w.core.st.completed {
      RetryEffect(w.core, w.box[1..], w.box[0].issueId, env.retry, w.config.maxConcurrentByState, w.config.maxRetryBackoffMs);
    }
  }

  /** In every run an issue that waits for a retry is unclaimed, so nothing but its own state and
      blockers, and a worker it may still have, keeps the next tick from dispatching it; that cancels
      the retry and starts over with attempt one, below the number the entry had. */
  lemma QueuedRetryIsOpenToTicks(p: Primitives, config: Config, events: seq<Event>, issue: Issue,
                                 active: set<string>, terminal: set<string>, now: int, cap: int)
    ensures var c := Run(p, Initial(config), events).core;
      issue.id in c.q.entries ==>
        && issue.id !in c.st.claimed
        && (Eligible(issue, c.st, active, terminal) <==>
              issue.id !in c.st.running
              && Lower(issue.state) in active && Lower(issue.state) !in terminal && !HasNonTerminalBlocker(issue, terminal))
        && var d := Dispatched(c, issue, 1, Spawned, now, cap).core;
        && issue.id !in d.q.entries && issue.id in d.st.running
        && d.st.running[issue.id].retryAttempt == 1 < c.q.entries[issue.id].attempt
  {
    hide Run;
    RunSteady(p, config, events);
    var c := Run(p, Initial(config), events).core;
    if issue.id in c.q.entries {
      assert RetryOk(c, issue.id);
    }
  }
}
