/** The handlers for a worker's exit, a retry timer and a worker's event. */
module Lifecycle {
  import opened Prelude
  import opened Json
  import opened Tracker
  import opened Usage
  import opened EventLoop
  import opened Mailboxes
  import opened Retry
  import opened State
  import opened Dispatch

  // ---------------------------------------------------------------------
  // Worker exit
  // ---------------------------------------------------------------------

  function NextAttemptFrom(e: Entry): int {
    e.retryAttempt + 1
  }

  /** The exit as far as the state is concerned, claim aside. */
  function ExitRecorded(st: OState, id: string, ok: bool, runtimeSeconds: real): OState {
    var st1 := RemovedRunning(st, id).(runtimeSecondsTotal := st.runtimeSecondsTotal + runtimeSeconds);
    if ok then st1.(completed := st1.completed + {id}) else st1
  }

  function WorkerExited(c: Core, id: string, ok: bool, runtimeSeconds: real, lastError: Option<string>,
                        now: int, maxBackoffMs: int): Outcome {
    if id !in c.st.running then Outcome(c, false)
    else
      var entry := c.st.running[id];
      var st := ExitRecorded(c.st, id, ok, runtimeSeconds);
      var kind := if ok then Continuation else Failure;
      match Scheduled(c.q, now, id, NextAttemptFrom(entry), kind, maxBackoffMs, PostRetry(id), if ok then None else lastError)
      case Raised(_) => Outcome(c.(st := st), true)
      case Returned(q) => Outcome(c.(st := st.(claimed := st.claimed - {id}), q := q), false)
  }

  method RecordExit(state: OrchestratorState, id: string, ok: bool, runtimeSeconds: real) returns (nextAttempt: int)
    requires state.Valid() && id in state.running
    modifies state`running, state`order, state`entries, state`completed, state`runtimeSecondsTotal
    ensures state.Valid()
    ensures state.View() == ExitRecorded(old(state.View()), id, ok, runtimeSeconds)
    ensures nextAttempt == NextAttemptFrom(old(state.entries[id]))
  {
    hide Drop;
    var entry := state.RemoveRunning(id);
    nextAttempt := entry.value.retryAttempt + 1;
    state.AddRuntimeSeconds(runtimeSeconds);
    if ok {
      state.RecordCompleted(id);
    }
  }

  /** An exit for an issue that is not running is ignored. */
  method OnWorkerExit(state: OrchestratorState, queue: RetryQueue, ghost workers: WorkerFactory, id: string, ok: bool,
                      runtimeSeconds: real, lastError: Option<string>, now: int, maxBackoffMs: int)
    returns (raised: bool)
    requires state.Valid()
    modifies state`running, state`order, state`entries, state`claimed, state`completed, state`runtimeSecondsTotal
    modifies queue, queue.loop
    ensures state.Valid()
    ensures Outcome(CoreView(state, queue, workers), raised)
         == WorkerExited(old(CoreView(state, queue, workers)), id, ok, runtimeSeconds, lastError, now, maxBackoffMs)
  {
    hide Scheduled, ExitRecorded, OrchestratorState.Valid;
    state.SameKeys();
    if id !in state.running {
      return false;
    }
    var next := RecordExit(state, id, ok, runtimeSeconds);
    var r;
    if ok {
      r := queue.Schedule(now, id, next, Continuation, maxBackoffMs, PostRetry(id), None);
    } else {
      r := queue.Schedule(now, id, next, Failure, maxBackoffMs, PostRetry(id), lastError);
    }
    if r.Raised? {
      return true;
    }
    state.Unclaim(id);
    return false;
  }

  // ---------------------------------------------------------------------
  // Retry timer
  // ---------------------------------------------------------------------

  function FindIssue(candidates: seq<Issue>, id: string): Option<Issue> {
    if candidates == [] then None
    else if candidates[0].id == id then Some(candidates[0])
    else FindIssue(candidates[1..], id)
  }

  lemma {:induction false} FindIssueHasId(candidates: seq<Issue>, id: string)
    ensures FindIssue(candidates, id).Some? ==> FindIssue(candidates, id).value.id == id
    ensures FindIssue(candidates, id).Some? ==> FindIssue(candidates, id).value in candidates
    ensures FindIssue(candidates, id) == None <==> forall c :: c in candidates ==> c.id != id
    ensures FindIssue(candidates, id).Some? ==>
      exists i :: 0 <= i < |candidates| && candidates[i] == FindIssue(candidates, id).value
                  && forall j :: 0 <= j < i ==> candidates[j].id != id
  {
    if candidates != [] {
      var rest := candidates[1..];
      FindIssueHasId(rest, id);
      assert candidates == [candidates[0]] + rest;
      if candidates[0].id == id {
        assert candidates[0] == FindIssue(candidates, id).value;
      } else if FindIssue(rest, id).Some? {
        var i :| 0 <= i < |rest| && rest[i] == FindIssue(rest, id).value && forall j :: 0 <= j < i ==> rest[j].id != id;
        assert candidates[i + 1] == rest[i];
        assert forall j :: 0 <= j < i + 1 ==> candidates[j].id != id by {
          forall j | 0 <= j < i + 1 ensures candidates[j].id != id {
            assert j > 0 ==> candidates[j] == rest[j - 1];
          }
        }
      }
    }
  }

  /** What the environment does during one retry-timer message: the candidate fetch, what is
      produced while it is awaited, and the spawn. */
  datatype RetryEnv = RetryEnv(now: int, fetch: Reply<seq<Issue>>, duringFetch: seq<Producer>, spawn: Spawn)

  datatype BoxedOutcome = BoxedOutcome(core: Core, box: seq<Message>, raised: bool)

  /** The entry goes back into the queue with the attempt and kind it had. */
  function Rescheduled(c: Core, box: seq<Message>, entry: RetryEntry, id: string, now: int, maxBackoffMs: int,
                       why: string): BoxedOutcome
  {
    match Scheduled(c.q, now, id, entry.attempt, entry.kind, maxBackoffMs, PostRetry(id), Some(why))
    case Raised(_) => BoxedOutcome(c, box, true)
    case Returned(q) => BoxedOutcome(c.(q := q), box, false)
  }

  function Released(c: Core, id: string): Core {
    c.(st := c.st.(claimed := c.st.claimed - {id}))
  }

  function RetryFetched(c: Core, box: seq<Message>, entry: RetryEntry, id: string, env: RetryEnv,
                        perState: seq<(string, int)>, maxBackoffMs: int): BoxedOutcome {
    match env.fetch
    case Raised(error) => Rescheduled(c, box, entry, id, env.now, maxBackoffMs, "fetch failed: " + error)
    case Returned(candidates) =>
      match FindIssue(candidates, id)
      case None => BoxedOutcome(Released(c, id), box, false)
      case Some(issue) =>
        if !HasSlot(c.st, issue.state, perState) then
          Rescheduled(c, box, entry, id, env.now, maxBackoffMs, "no available orchestrator slots")
        else
          var o := Dispatched(c, issue, entry.attempt, env.spawn, env.now, maxBackoffMs);
          BoxedOutcome(o.core, box, o.raised)
  }

  function RetryTimerHandled(c: Core, box: seq<Message>, id: string, env: RetryEnv,
                             perState: seq<(string, int)>, maxBackoffMs: int): BoxedOutcome {
    if id !in c.q.entries then BoxedOutcome(c, box, false)
    else
      var entry := c.q.entries[id];
      var c1 := c.(q := Popped(c.q, id));
      if id in c.st.completed then BoxedOutcome(Released(c1, id), box, false)
      else
        var (timers, box2) := ProduceAll(c1.q.timers, box, env.duringFetch);
        RetryFetched(c1.(q := c1.q.(timers := timers)), box2, entry, id, env, perState, maxBackoffMs)
  }

  method OnRetryTimer(state: OrchestratorState, queue: RetryQueue, workers: WorkerFactory, mailbox: Mailbox, id: string,
                      env: RetryEnv, perState: seq<(string, int)>, maxBackoffMs: int) returns (raised: bool)
    requires state.Valid()
    modifies state, queue, queue.loop, workers, mailbox
    ensures state.Valid() && fresh(state.pool - old(state.pool))
    ensures BoxedOutcome(CoreView(state, queue, workers), mailbox.queue, raised)
         == RetryTimerHandled(old(CoreView(state, queue, workers)), old(mailbox.queue), id, env, perState, maxBackoffMs)
  {
    var entry := queue.Pop(id);
    if entry == None {
      return false;
    }
    if id in state.completed {
      state.Unclaim(id);
      return false;
    }
    Await(queue.loop, mailbox, env.duringFetch);
    assert state.Valid();
    raised := AfterRetryFetch(state, queue, workers, mailbox, entry.value, id, env, perState, maxBackoffMs);
  }

  /** The handler from the point where the fetch has answered. */
  method AfterRetryFetch(state: OrchestratorState, queue: RetryQueue, workers: WorkerFactory, ghost mailbox: Mailbox,
                         entry: RetryEntry, id: string, env: RetryEnv, perState: seq<(string, int)>, maxBackoffMs: int)
    returns (raised: bool)
    requires state.Valid()
    modifies state, queue, queue.loop, workers
    ensures state.Valid() && fresh(state.pool - old(state.pool))
    ensures BoxedOutcome(CoreView(state, queue, workers), mailbox.queue, raised)
         == RetryFetched(old(CoreView(state, queue, workers)), old(mailbox.queue), entry, id, env, perState, maxBackoffMs)
  {
    hide Scheduled, Dispatched, HasSlot;
    if env.fetch.Raised? {
      var r := queue.Schedule(env.now, id, entry.attempt, entry.kind, maxBackoffMs, PostRetry(id),
                              Some("fetch failed: " + env.fetch.error));
      return r.Raised?;
    }
    var match_ := FindIssue(env.fetch.value, id);
    if match_ == None {
      state.Unclaim(id);
      return false;
    }
    var ok := ConcurrencyCheck(match_.value, state, perState);
    if !ok {
      var r := queue.Schedule(env.now, id, entry.attempt, entry.kind, maxBackoffMs, PostRetry(id),
                              Some("no available orchestrator slots"));
      return r.Raised?;
    }
    var _, failed := DispatchIssue(state, queue, workers, match_.value, entry.attempt, env.spawn, env.now, maxBackoffMs);
    return failed;
  }

  // ---------------------------------------------------------------------
  // Worker event
  // ---------------------------------------------------------------------

  function NonEmptyStr(j: Json): Option<string> {
    if j.Str? && j.s != "" then Some(j.s) else None
  }

  /** The thread and turn ids, snake_case before camelCase; both must be non-empty strings. */
  function ExtractSessionIds(payload: Object): Option<(string, string)> {
    var thread := if NonEmptyStr(Get(payload, "thread_id")).Some? then Get(payload, "thread_id") else Get(payload, "threadId");
    var turn := if NonEmptyStr(Get(payload, "turn_id")).Some? then Get(payload, "turn_id") else Get(payload, "turnId");
    match (NonEmptyStr(thread), NonEmptyStr(turn))
    case (Some(t), Some(u)) => Some((t, u))
    case _ => None
  }

  function ExtractMessageText(payload: Object): Option<string> {
    if Get(payload, "message").Str? then Some(Get(payload, "message").s)
    else if Get(payload, "text").Str? then Some(Get(payload, "text").s)
    else None
  }

  /** The last events, at most `RECENT_EVENTS_LIMIT` of them. */
  function Remember(events: seq<RuntimeEvent>, e: RuntimeEvent): seq<RuntimeEvent> {
    var all := events + [e];
    if |all| > RECENT_EVENTS_LIMIT then all[|all| - RECENT_EVENTS_LIMIT..] else all
  }

  function EntryUpdated(e: Entry, event: RuntimeEvent): Entry {
    var text := ExtractMessageText(event.payload);
    var ids := ExtractSessionIds(event.payload);
    var usage := ReadUsage(event.usage);
    e.(lastEvent := Some(event.event),
       lastTimestamp := Some(event.timestamp),
       lastMessage := if text.Some? then text else e.lastMessage,
       sessionId := if ids.Some? then Some(ids.value.0 + "-" + ids.value.1) else e.sessionId,
       recentEvents := Remember(e.recentEvents, event),
       lastReported := if usage.Some? then usage.value else e.lastReported)
  }

  /** The amounts the event adds to the global totals. */
  function ReportedIncrease(e: Entry, event: RuntimeEvent): TokenSnapshot {
    match ReadUsage(event.usage)
    case None => ZERO_TOKENS
    case Some(t) =>
      TokenSnapshot(Max(0, t.input - e.lastReported.input), Max(0, t.output - e.lastReported.output),
                    Max(0, t.total - e.lastReported.total))
  }

  function CodexUpdated(st: OState, id: string, event: RuntimeEvent): OState {
    if id !in st.running then st
    else
      var e := st.running[id];
      var limits := ExtractRateLimits(event.payload);
      st.(running := st.running[id := EntryUpdated(e, event)],
          codexTotals := Plus(st.codexTotals, ReportedIncrease(e, event)),
          codexRateLimits := if limits.Some? then limits else st.codexRateLimits)
  }

  /** The increase worked out in the handler is the one the accounting helper defines. */
  lemma IncreaseIsTokenDelta(e: Entry, event: RuntimeEvent)
    requires ReadUsage(event.usage).Some?
    ensures ReportedIncrease(e, event) == ComputeTokenDelta(Some(e.lastReported), ReadUsage(event.usage).value)
  {
  }

  /** The entry's share of an event; what it adds to the totals is handed back. */
  method UpdateEntry(entry: RunningEntry, event: RuntimeEvent) returns (increase: TokenSnapshot)
    modifies entry
    ensures entry.View() == EntryUpdated(old(entry.View()), event)
    ensures increase == ReportedIncrease(old(entry.View()), event)
  {
    entry.lastEvent := Some(event.event);
    entry.lastTimestamp := Some(event.timestamp);
    var text := ExtractMessageText(event.payload);
    if text.Some? {
      entry.lastMessage := text;
    }
    var ids := ExtractSessionIds(event.payload);
    if ids.Some? {
      entry.sessionId := Some(ids.value.0 + "-" + ids.value.1);
    }
    entry.recentEvents := Remember(entry.recentEvents, event);
    increase := ZERO_TOKENS;
    var usage := ReadUsage(event.usage);
    if usage.Some? {
      var t := usage.value;
      increase := TokenSnapshot(
        Max(0, t.input - entry.lastReported.input),
        Max(0, t.output - entry.lastReported.output),
        Max(0, t.total - entry.lastReported.total));
      entry.lastReported := t;
    }
  }

  method UpdateRunning(state: OrchestratorState, id: string, event: RuntimeEvent) returns (increase: TokenSnapshot)
    requires state.Valid() && id in state.running
    modifies state`entries, state.pool
    ensures state.Valid()
    ensures state.entries == old(state.entries)[id := EntryUpdated(old(state.entries[id]), event)]
    ensures increase == ReportedIncrease(old(state.entries[id]), event)
  {
    increase := UpdateEntry(state.running[id], event);
    state.entries := state.entries[id := EntryUpdated(state.entries[id], event)];
  }

  method OnCodexUpdate(state: OrchestratorState, id: string, event: RuntimeEvent)
    requires state.Valid()
    modifies state`codexTotals, state`codexRateLimits, state`entries, state.pool
    ensures state.Valid()
    ensures state.View() == CodexUpdated(old(state.View()), id, event)
  {
    hide ExtractRateLimits, EntryUpdated, ReportedIncrease, OrchestratorState.Valid;
    state.SameKeys();
    if id !in state.running {
      return;
    }
    var increase := UpdateRunning(state, id, event);
    assert state.Valid();
    state.codexTotals := Plus(state.codexTotals, increase);
    var limits := ExtractRateLimits(event.payload);
    if limits.Some? {
      state.codexRateLimits := limits;
    }
  }
}
