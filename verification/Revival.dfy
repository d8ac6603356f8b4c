/** A concrete run in which the retry of a failed spawn is delivered after all: the message of the
    retry it replaced was still in the mailbox. */
module Revival {
  import opened Prelude
  import opened EventLoop
  import opened Mailboxes
  import opened Retry
  import opened State
  import opened Clarification
  import opened Dispatch
  import opened Lifecycle
  import opened World
  import opened Framing
  import opened Redelivery
  import opened Scenario

  const TICK := Timer(1, PostPollTick)
  const FAILED := WorkerExit("1", "turn_failed", false, 0.0, None)
  const RETRY := RetryEnv(0, Returned([ISSUE]), [], Spawned)

  function OneTick(spawn: Spawn): TickEnv {
    TickOver(CONFIG, [ISSUE], (n: nat) => Candidate(spawn))
  }

  function Handle(spawn: Spawn): Event {
    Deliver(HandlerEnv(0, OneTick(spawn), RETRY))
  }

  /** The issue runs and its worker fails; both the poll timer and the retry timer fire; and the
      tick that comes first cannot spawn. */
  function UpToFailedSpawn(): seq<Event> {
    [Handle(Spawned), Outside(Post(FAILED)), Handle(Spawned), Outside(Fire(0)), Outside(Fire(1)), Handle(SpawnFailed("no worker"))]
  }

  /** All of the world the run is about. */
  ghost predicate At(w: World, running: map<string, Entry>, entries: map<string, RetryEntry>, live: map<nat, Timer>, next: nat,
                     box: seq<Message>, nextTask: nat)
  {
    && w.status == Live && w.config == CONFIG && w.box == box && w.core.nextTask == nextTask
    && w.core.st.maxConcurrentAgents == 2 && w.core.st.clarificationWaiting == map[] && w.core.st.completed == {}
    && w.core.st.order == (if running == map[] then [] else ["1"])
    && w.core.st.running == running && w.core.st.claimed == running.Keys
    && w.core.q == Queue(entries, Timers(live, next))
  }

  const FIRST_TRY := FreshEntry(0, ISSUE, 0, 1)
  const SECOND_TRY := FreshEntry(1, ISSUE, 0, 2)
  const QUEUED := RetryEntry("1", 2, Failure, 0, 0, 1, None)
  const REQUEUED := RetryEntry("1", 2, Failure, 0, 0, 2, Some("no worker"))

  lemma OneEligible(w: World)
    requires w.config == CONFIG && w.core.st.running == map[] && w.core.st.claimed == {}
    ensures EligibleNow(w, [ISSUE]) == [ISSUE] == EligibleInOrder(w, [ISSUE])
  {
    assert w.config.activeStates == ["todo"] && w.config.terminalStates == [] && Normalized([]) == {};
    assert "todo" in ["todo"] && Lower(ISSUE.state) in Normalized(["todo"]);
    AllInOrder(w, [ISSUE]);
  }

  lemma OneTurn(p: Primitives, w: World, spawn: Spawn, entries: map<string, RetryEntry>, live: map<nat, Timer>, next: nat,
                box: seq<Message>, nextTask: nat)
    requires At(w, map[], entries, live, next, box, nextTask)
    ensures Considered(p, w, ISSUE, Candidate(spawn))
         == Absorb(w.(gateLog := w.gateLog + [Cleared("1")]), Dispatched(w.core, ISSUE, 1, spawn, 0, 0))
  {
    hide Considered, Dispatched;
    PlainTurn(p, w, ISSUE, spawn);
    assert CountInState(w.core.st, "todo") == 0;
  }

  /** A tick with nothing running considers the one candidate and schedules the next tick. */
  lemma OneTickDispatches(p: Primitives, w: World, spawn: Spawn, entries: map<string, RetryEntry>, live: map<nat, Timer>, next: nat,
                          box: seq<Message>, nextTask: nat)
    requires At(w, map[], entries, live, next, box, nextTask)
    ensures !Dispatched(w.core, ISSUE, 1, spawn, 0, 0).raised ==>
      var r := Ticked(p, w, OneTick(spawn));
      exists log :: r == TickScheduled(w.(gateLog := log, core := Dispatched(w.core, ISSUE, 1, spawn, 0, 0).core))
  {
    hide Considered, EligibleInOrder, EligibleNow, Sortable, Dispatched, TickScheduled;
    assert Reconciled(w, OneTick(spawn)) == w;
    OneEligible(w);
    UndatedSortable([ISSUE]);
    OneTurn(p, w, spawn, entries, live, next, box, nextTask);
    assert DispatchedFirst(p, w, [ISSUE], 1, OneTick(spawn).candidate) == Considered(p, w, ISSUE, Candidate(spawn));
  }

  lemma AfterFirstTick(p: Primitives)
    ensures At(Step(p, Initial(CONFIG), Handle(Spawned)), map["1" := FIRST_TRY], map[], map[0 := TICK], 1, [], 1)
    ensures Step(p, Initial(CONFIG), Handle(Spawned)).nextTick == Some(0)
  {
    hide Ticked;
    var w := Initial(CONFIG).(box := []);
    assert [PollTick][1..] == [];
    assert At(w, map[], map[], map[], 0, [], 0);
    OneTickDispatches(p, w, Spawned, map[], map[], 0, [], 0);
    assert Step(p, Initial(CONFIG), Handle(Spawned)) == Ticked(p, w, OneTick(Spawned));
  }

  lemma AfterFailure(p: Primitives, w: World)
    requires At(w, map["1" := FIRST_TRY], map[], map[0 := TICK], 1, [FAILED], 1)
    ensures At(Step(p, w, Handle(Spawned)), map[], map["1" := QUEUED], map[0 := TICK, 1 := Timer(0, PostRetry("1"))], 2, [], 1)
    ensures Step(p, w, Handle(Spawned)).nextTick == w.nextTick
  {
    hide Ticked;
    assert Drop(["1"], "1") == [];
  }

  lemma AfterTimers(p: Primitives, w: World)
    requires At(w, map[], map["1" := QUEUED], map[0 := TICK, 1 := Timer(0, PostRetry("1"))], 2, [], 1)
    ensures At(Step(p, Step(p, w, Outside(Fire(0))), Outside(Fire(1))), map[], map["1" := QUEUED], map[], 2,
               [PollTick, RetryTimerFired("1")], 1)
    ensures Step(p, Step(p, w, Outside(Fire(0))), Outside(Fire(1))).nextTick == w.nextTick
  {
    hide Delivered;
    var t0 := w.core.q.timers;
    var t1 := Timers(map[1 := Timer(0, PostRetry("1"))], 2);
    assert Without(t0, 0) == t1 && Without(t1, 1) == Timers(map[], 2);
    assert t0.live[0] == TICK && [] + [PollTick] == [PollTick];
    assert [PollTick] + [RetryTimerFired("1")] == [PollTick, RetryTimerFired("1")];
    assert Produce(t0, [], Fire(0)) == (t1, [PollTick]);
    assert Produce(t1, [PollTick], Fire(1)) == (Timers(map[], 2), [PollTick, RetryTimerFired("1")]);
    OneProducer(t0, [], Fire(0));
    OneProducer(t1, [PollTick], Fire(1));
  }

  lemma AfterFailedSpawn(p: Primitives, w: World)
    requires At(w, map[], map["1" := QUEUED], map[], 2, [PollTick, RetryTimerFired("1")], 1) && w.nextTick == Some(0)
    ensures At(Step(p, w, Handle(SpawnFailed("no worker"))), map[], map["1" := REQUEUED],
               map[2 := Timer(0, DoNothing("1")), 3 := TICK], 4, [RetryTimerFired("1")], 1)
  {
    hide Ticked;
    var w1 := w.(box := [RetryTimerFired("1")]);
    assert [PollTick, RetryTimerFired("1")][1..] == [RetryTimerFired("1")];
    OneTickDispatches(p, w1, SpawnFailed("no worker"), map["1" := QUEUED], map[], 2, [RetryTimerFired("1")], 1);
  }

  lemma AfterRetry(p: Primitives, w: World)
    requires At(w, map[], map["1" := REQUEUED], map[2 := Timer(0, DoNothing("1")), 3 := TICK], 4, [RetryTimerFired("1")], 1)
    ensures Step(p, w, Handle(Spawned)).core.st.running == map["1" := SECOND_TRY]
  {
    hide Ticked;
    assert CountInState(w.core.st, "todo") == 0;
  }

  lemma AfterExitPosted(p: Primitives, w: World)
    requires At(w, map["1" := FIRST_TRY], map[], map[0 := TICK], 1, [], 1)
    ensures At(Step(p, w, Outside(Post(FAILED))), map["1" := FIRST_TRY], map[], map[0 := TICK], 1, [FAILED], 1)
    ensures Step(p, w, Outside(Post(FAILED))).nextTick == w.nextTick
  {
    hide Delivered;
    OneProducer(w.core.q.timers, w.box, Post(FAILED));
  }

  lemma RunOne(p: Primitives, w: World, events: seq<Event>, n: nat)
    requires n < |events|
    ensures Run(p, w, events[..n + 1]) == Step(p, Run(p, w, events[..n]), events[n])
  {
    hide Step;
    assert events[..n + 1][..n] == events[..n];
  }

  /** After six steps the issue waits behind a timer that posts nothing, with attempt number two;
      the seventh delivers the retry message that was still in the mailbox, and starts it. */
  lemma LateMessageRevivesFailedSpawn(p: Primitives)
    ensures var w := Run(p, Initial(CONFIG), UpToFailedSpawn());
      && w.box == [RetryTimerFired("1")] && NobodyPosts(w.core.q.timers, "1") && w.core.st.running == map[]
      && w.core.q.entries == map["1" := REQUEUED] && REQUEUED.attempt == 2
      && Step(p, w, Handle(Spawned)).core.st.running == map["1" := SECOND_TRY] && SECOND_TRY.retryAttempt == 2
  {
    var w, events := Initial(CONFIG), UpToFailedSpawn();
    assert Run(p, w, events[..0]) == w;
    assert events[..6] == events;
    Chain(p, w, events);
  }

  lemma Chain(p: Primitives, w: World, events: seq<Event>)
    requires w == Initial(CONFIG) && events == UpToFailedSpawn() && Run(p, w, events[..0]) == w
    ensures At(Run(p, w, events[..6]), map[], map["1" := REQUEUED],
               map[2 := Timer(0, DoNothing("1")), 3 := TICK], 4, [RetryTimerFired("1")], 1)
    ensures Step(p, Run(p, w, events[..6]), Handle(Spawned)).core.st.running == map["1" := SECOND_TRY]
  {
    hide Run, Step, At, Initial, OneTick;
    RunOne(p, w, events, 0);
    AfterFirstTick(p);
    RunOne(p, w, events, 1);
    AfterExitPosted(p, Run(p, w, events[..1]));
    RunOne(p, w, events, 2);
    AfterFailure(p, Run(p, w, events[..2]));
    RunOne(p, w, events, 3);
    RunOne(p, w, events, 4);
    AfterTimers(p, Run(p, w, events[..3]));
    RunOne(p, w, events, 5);
    AfterFailedSpawn(p, Run(p, w, events[..5]));
    AfterRetry(p, Run(p, w, events[..6]));
  }
}
