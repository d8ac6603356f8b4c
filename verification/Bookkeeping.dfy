/** What the smaller messages do to the books, field by field, and when the next tick is due. */
module Bookkeeping {
  import opened Prelude
  import opened Json
  import opened Tracker
  import opened Usage
  import opened EventLoop
  import opened Mailboxes
  import opened Retry
  import opened State
  import opened Clarification
  import opened Dispatch
  import opened Lifecycle
  import opened World
  import opened Settling
  import Framing
  import Wire

  // ---------------------------------------------------------------------
  // A worker's event
  // ---------------------------------------------------------------------

  /** The non-empty string under the first name, or else under the second. */
  function Named(payload: Object, first: string, second: string): Option<string> {
    match Member(Obj(payload), first)
    case Some(Str(s)) => if s != "" then Some(s) else NonEmptyAt(payload, second)
    case _ => NonEmptyAt(payload, second)
  }

  function NonEmptyAt(payload: Object, key: string): Option<string> {
    match Member(Obj(payload), key) case Some(Str(s)) => (if s != "" then Some(s) else None) case _ => None
  }

  /** An event leaves its worker, issue, start and attempt alone; it is the last one now, with its own
      time; the last fifty are kept, in order; the message is that under "message", else that under
      "text", else the one before; the session is named after the thread and the turn, if both are given;
      and the counts last reported are those of the event, if it carries some. */
  lemma EventRecorded(e: Entry, event: RuntimeEvent)
    ensures var r := EntryUpdated(e, event);
      && r.workerHandle == e.workerHandle && r.identifier == e.identifier && r.issue == e.issue
      && r.startedAt == e.startedAt && r.retryAttempt == e.retryAttempt
      && r.lastEvent == Some(event.event) && r.lastTimestamp == Some(event.timestamp)
      && (|e.recentEvents| < 50 ==> r.recentEvents == e.recentEvents + [event])
      && (|e.recentEvents| >= 50 ==> r.recentEvents == e.recentEvents[|e.recentEvents| - 49..] + [event])
      && r.lastMessage == (match Member(Obj(event.payload), "message")
                           case Some(Str(s)) => Some(s)
                           case _ => match Member(Obj(event.payload), "text") case Some(Str(s)) => Some(s) case _ => e.lastMessage)
      && r.sessionId == (match (Named(event.payload, "thread_id", "threadId"), Named(event.payload, "turn_id", "turnId"))
                         case (Some(thread), Some(turn)) => Some(thread + "-" + turn)
                         case _ => e.sessionId)
      && (ReadUsage(event.usage) == None ==> r.lastReported == e.lastReported)
      && (ReadUsage(event.usage).Some? ==> r.lastReported == ReadUsage(event.usage).value)
  {
    hide ReadUsage;
    var n := |e.recentEvents|;
    if n >= 50 {
      assert (e.recentEvents + [event])[n - 49..] == e.recentEvents[n - 49..] + [event];
    }
  }

  /** An event touches nothing of the state but its own entry, the totals and the rate limits: these last
      only if it carries some; and the totals by what it reports beyond what was reported before, none of
      the three ever falling. */
  lemma EventTouches(st: OState, id: string, event: RuntimeEvent)
    ensures var r := CodexUpdated(st, id, event);
      if id !in st.running then r == st
      else
        && r == st.(running := st.running[id := EntryUpdated(st.running[id], event)],
                    codexTotals := r.codexTotals, codexRateLimits := r.codexRateLimits)
        && (ExtractRateLimits(event.payload) == None ==> r.codexRateLimits == st.codexRateLimits)
        && (ExtractRateLimits(event.payload).Some? ==> r.codexRateLimits == ExtractRateLimits(event.payload))
        && match ReadUsage(event.usage)
           case None => r.codexTotals == st.codexTotals
           case Some(t) =>
             var last := st.running[id].lastReported;
             && r.codexTotals.input == st.codexTotals.input + (if t.input > last.input then t.input - last.input else 0)
             && r.codexTotals.output == st.codexTotals.output + (if t.output > last.output then t.output - last.output else 0)
             && r.codexTotals.total == st.codexTotals.total + (if t.total > last.total then t.total - last.total else 0)
  {
    hide EntryUpdated, ExtractRateLimits, ReadUsage;
  }

  function IntAt(d: Object, key: string): Option<int> {
    match Member(Obj(d), key) case Some(Int(n)) => Some(n) case _ => None
  }

  function LimitsIn(d: Object): Option<RateLimitSnapshot> {
    var resetAt :=
      match Member(Obj(d), if "reset_at" in d then "reset_at" else "resetAt") case Some(Str(s)) => Some(s) case _ => None;
    if IntAt(d, "limit") == None && IntAt(d, "remaining") == None && resetAt == None then None
    else Some(RateLimitSnapshot(IntAt(d, "limit"), IntAt(d, "remaining"), resetAt))
  }

  /** Rate limits are an object under "rate_limit" or "rateLimit" that has an integer limit or remaining
      count, or a string for the time of the reset. */
  lemma RateLimitsRead(payload: Object)
    ensures ExtractRateLimits(payload) ==
      match Member(Obj(payload), if "rate_limit" in payload then "rate_limit" else "rateLimit")
      case Some(Obj(d)) => LimitsIn(d)
      case _ => None
  {
    hide FirstPresent;
    Wire.FirstOfTwo(payload, "rate_limit", "rateLimit");
    match Member(Obj(payload), if "rate_limit" in payload then "rate_limit" else "rateLimit") {
      case Some(Obj(d)) =>
        Wire.FirstOfTwo(d, "reset_at", "resetAt");
        Wire.FirstOfOne(d, "limit");
        Wire.FirstOfOne(d, "remaining");
      case _ =>
    }
  }

  /** A worker just started: on the issue as given, with nothing reported and nothing heard. */
  lemma StartedFresh(c: Core, issue: Issue, attempt: int, now: int, cap: int)
    ensures var st := Dispatched(c, issue, attempt, Spawned, now, cap).core.st;
      && issue.id in st.running
      && st.running[issue.id]
         == Entry(c.nextTask, issue.identifier, issue, None, TokenSnapshot(0, 0, 0), now, None, None, None, [], attempt)
      && st.claimed == c.st.claimed + {issue.id}
      && issue.id in st.identifierIndex && st.identifierIndex[issue.id] == issue.identifier
      && Dispatched(c, issue, attempt, Spawned, now, cap).core.nextTask == c.nextTask + 1
  {
    hide Cancelled;
  }

  // ---------------------------------------------------------------------
  // Reload, shutdown, teardown
  // ---------------------------------------------------------------------

  /** The step delivers this message. */
  predicate Delivers(w: World, msg: Message) {
    w.status == Live && w.box != [] && w.box[0] == msg
  }

  /** A reload puts the new configuration in force, its poll interval and global cap on the state as
      well, and changes nothing else. */
  lemma ReloadStep(p: Primitives, w: World, config: Config, env: HandlerEnv)
    requires Delivers(w, ConfigReloaded(config))
    ensures Step(p, w, Deliver(env)) ==
      w.(box := w.box[1..], config := config,
         core := w.core.(st := w.core.st.(pollIntervalMs := config.pollIntervalMs,
                                          maxConcurrentAgents := config.maxConcurrentAgents)))
  {
  }

  /** A worker's event goes to the state, and nowhere else. */
  lemma UpdateStep(p: Primitives, w: World, id: string, event: RuntimeEvent, env: HandlerEnv)
    requires Delivers(w, CodexUpdate(id, event))
    ensures Step(p, w, Deliver(env)) == w.(box := w.box[1..], core := w.core.(st := CodexUpdated(w.core.st, id, event)))
  {
  }

  /** The retry message of an issue that does not wait for one is passed over; that of an issue that has
      completed strikes its entry and its claim, and starts nothing. */
  lemma IdleRetryStep(p: Primitives, w: World, id: string, env: HandlerEnv)
    requires Delivers(w, RetryTimerFired(id)) && (id !in w.core.q.entries || id in w.core.st.completed)
    ensures Step(p, w, Deliver(env)) ==
      if id !in w.core.q.entries then w.(box := w.box[1..])
      else w.(box := w.box[1..],
              core := w.core.(st := w.core.st.(claimed := w.core.st.claimed - {id}),
                              q := w.core.q.(entries := w.core.q.entries - {id})))
  {
  }

  /** A shutdown stops the dispatcher and the tick timer, and touches no worker and no retry. */
  lemma ShutdownStep(p: Primitives, w: World, env: HandlerEnv)
    requires Delivers(w, Shutdown)
    ensures var r := Step(p, w, Deliver(env));
      && r.status == Stopped && r.nextTick == None && r.core.st == w.core.st && r.core.q.entries == w.core.q.entries
      && r.box == w.box[1..] && r.config == w.config
      && r.core.q.timers.live == (if w.nextTick.Some? then w.core.q.timers.live - {w.nextTick.value} else w.core.q.timers.live)
  {
  }

  /** The teardown of a dispatcher that is down leaves no retry entry, and cancels the tick timer and the
      timers of all entries; a live dispatcher is not torn down. */
  lemma TearDownStep(p: Primitives, w: World)
    ensures var r := Step(p, w, TearDown);
      && (w.status == Live ==> r == w)
      && (w.status != Live ==>
            && r.nextTick == None && r.core.q.entries == map[] && r.core.st == w.core.st && r.box == w.box && r.status == w.status
            && (forall id :: id in w.core.q.entries ==> w.core.q.entries[id].handle !in r.core.q.timers.live)
            && (w.nextTick.Some? ==> w.nextTick.value !in r.core.q.timers.live))
  {
  }

  /** A message for a dispatcher that is down is not taken. */
  lemma DownTakesNothing(p: Primitives, w: World, env: HandlerEnv)
    requires w.status != Live
    ensures Step(p, w, Deliver(env)) == w
  {
  }

  // ---------------------------------------------------------------------
  // The next tick
  // ---------------------------------------------------------------------

  /** After a tick the dispatcher survives, the next one is due after the poll interval of the
      configuration in force, which is the one the tick has loaded, if it has; the caps on the state
      stay those of the last reload. */
  lemma NextTickDue(p: Primitives, w: World, env: TickEnv)
    requires w.status == Live
    ensures var r := Ticked(p, w, env);
      && (r.status == Live ==>
            && r.nextTick.Some? && r.nextTick.value in r.core.q.timers.live
            && r.core.q.timers.live[r.nextTick.value] == Timer(r.config.pollIntervalMs, PostPollTick))
      && r.config == (if env.loader.Returned? && env.loader.value.Some? then env.loader.value.value else w.config)
      && r.core.st.maxConcurrentAgents == w.core.st.maxConcurrentAgents
  {
    hide Reconciled, DispatchedFirst, EligibleNow, EligibleInOrder, Sortable, ProduceAll;
    Framing.ReconciledFrame(w, env);
    if env.loader.Returned? && env.loader.value.Some? && env.fetch.Returned? {
      var w1 := Awaited(Reconciled(w, env).(config := env.loader.value.value), env.duringFetch);
      var eligible := EligibleInOrder(w1, env.fetch.value);
      Framing.LoopFrame(p, w1, eligible, |eligible|, env.candidate);
    }
  }

  /** A timer that fires posts what it was started for, once: a poll tick, a retry of its issue, or, for
      the retry of a failed spawn, nothing; a message that is posted arrives at the back. */
  lemma ProducedExactly(w: World, h: nat, msg: Message)
    ensures var r := Awaited(w, [Fire(h)]);
      var timers := w.core.q.timers;
      if h !in timers.live then r == w
      else
        && r.core.q.timers.live == timers.live - {h}
        && r.box == match timers.live[h].callback
                    case PostPollTick => w.box + [PollTick]
                    case PostRetry(id) => w.box + [RetryTimerFired(id)]
                    case DoNothing(_) => w.box
    ensures Awaited(w, [Post(msg)]) == w.(box := w.box + [msg])
  {
    hide ProduceAll;
    Framing.OneProducer(w.core.q.timers, w.box, Fire(h));
    Framing.OneProducer(w.core.q.timers, w.box, Post(msg));
    assert w.box + [] == w.box;
  }

  // ---------------------------------------------------------------------
  // Counting
  // ---------------------------------------------------------------------

  /** The running issues of a state. */
  function RunningIn(st: OState, name: string): set<string> {
    set id | id in st.running && Lower(st.running[id].issue.state) == Lower(name)
  }

  function ListedIn(order: seq<string>, running: map<string, Entry>, name: string): set<string> {
    set id | id in order && id in running && Lower(running[id].issue.state) == Lower(name)
  }

  /** The count the slots go by is the number of running issues in the state, up to case. */
  lemma CountsTheRunning(st: OState, name: string)
    requires Ordered(st)
    ensures CountInState(st, name) == |RunningIn(st, name)|
  {
    hide Lower;
    CountsListed(st.order, st.running, name);
    assert ListedIn(st.order, st.running, name) == RunningIn(st, name);
  }

  lemma {:induction false} CountsListed(order: seq<string>, running: map<string, Entry>, name: string)
    requires Distinct(order)
    ensures Total(order, running, InState(name)) == |ListedIn(order, running, name)|
  {
    hide Lower;
    if order != [] {
      var init, last := order[..|order| - 1], order[|order| - 1];
      CountsListed(init, running, name);
      assert order == init + [last];
      ListedMore(init, last, running, name);
    }
  }

  lemma ListedMore(init: seq<string>, last: string, running: map<string, Entry>, name: string)
    requires last !in init
    ensures |ListedIn(init + [last], running, name)| == |ListedIn(init, running, name)|
      + if last in running && Lower(running[last].issue.state) == Lower(name) then 1 else 0
  {
    hide Lower;
    var listed := ListedIn(init, running, name);
    if last in running && Lower(running[last].issue.state) == Lower(name) {
      assert ListedIn(init + [last], running, name) == listed + {last} && last !in listed;
    } else {
      assert ListedIn(init + [last], running, name) == listed;
    }
  }
}
