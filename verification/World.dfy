/** What each message does to the orchestrator, as functions on values. Every choice of the
    outside world is an argument. */
module World {
  import opened Prelude
  import opened Tracker
  import opened EventLoop
  import opened Mailboxes
  import opened Retry
  import opened State
  import opened Clarification
  import opened Dispatch
  import opened Lifecycle
  import opened Reconcile

  /** What the clarification gate has shown the outside: a comment that was posted, with the
      fingerprint of its questions, or a decision that the issue is clear. */
  datatype GateEvent = Commented(id: string, fingerprint: string) | Cleared(id: string)

  datatype Status = Live | Stopped | Crashed

  datatype World = World(
    core: Core,
    box: seq<Message>,
    config: Config,
    nextTick: Option<nat>,
    cancelledWorkers: set<nat>,
    cleanups: seq<string>,
    gateLog: seq<GateEvent>,
    status: Status)

  function Awaited(w: World, ps: seq<Producer>): World {
    var (timers, box) := ProduceAll(w.core.q.timers, w.box, ps);
    w.(core := w.core.(q := w.core.q.(timers := timers)), box := box)
  }

  function WithState(w: World, st: OState): World {
    w.(core := w.core.(st := st))
  }

  function WithTimers(w: World, timers: Timers): World {
    w.(core := w.core.(q := w.core.q.(timers := timers)))
  }

  // ---------------------------------------------------------------------
  // Tick timer
  // ---------------------------------------------------------------------

  function TickCancelled(w: World): World {
    match w.nextTick
    case None => w
    case Some(h) => WithTimers(w, Without(w.core.q.timers, h)).(nextTick := None)
  }

  /** A prior tick timer is cancelled before the new one starts. */
  function TickScheduled(w: World): World {
    var timers := match w.nextTick
                  case None => w.core.q.timers
                  case Some(h) => Without(w.core.q.timers, h);
    WithTimers(w, Started(timers, Timer(w.config.pollIntervalMs, PostPollTick))).(nextTick := Some(timers.next))
  }

  // ---------------------------------------------------------------------
  // Reconciliation
  // ---------------------------------------------------------------------

  /** Cancelling a worker that has already finished does nothing. */
  function WorkerCancelled(w: World, handle: nat, finished: set<nat>): World {
    if handle in finished then w else w.(cancelledWorkers := w.cancelledWorkers + {handle})
  }

  function StallExit(id: string, e: Entry, now: int, stallTimeoutMs: int): Message {
    WorkerExit(id, "stall_terminated", false, (now - e.startedAt) as real / 1000000.0,
               Some("stall timeout " + (if stallTimeoutMs >= 0 then Decimal(stallTimeoutMs) else "") + "ms exceeded"))
  }

  function StallsReported(w: World, ids: seq<string>, now: int, finished: set<nat>): World {
    if ids == [] then w
    else
      var w1 := StallsReported(w, ids[..|ids| - 1], now, finished);
      var id := ids[|ids| - 1];
      if id !in w.core.st.running then w1
      else
        var e := w.core.st.running[id];
        var w2 := WorkerCancelled(w1, e.workerHandle, finished);
        w2.(box := w2.box + [StallExit(id, e, now, w.config.stallTimeoutMs)])
  }

  function WorkersStopped(w: World, ids: seq<string>, clean: bool, finished: set<nat>): World {
    if ids == [] then w
    else
      var w1 := WorkersStopped(w, ids[..|ids| - 1], clean, finished);
      var id := ids[|ids| - 1];
      if id !in w.core.st.running then w1
      else
        var e := w.core.st.running[id];
        var w2 := WorkerCancelled(w1, e.workerHandle, finished);
        if clean then w2.(cleanups := w2.cleanups + [e.identifier]) else w2
  }

  function Refreshed(running: map<string, Entry>, updates: map<string, Issue>): map<string, Entry> {
    map id | id in running :: if id in updates then running[id].(issue := updates[id]) else running[id]
  }

  function Acted(w: World, a: ReconcileActions, finished: set<nat>): World {
    var w1 := WorkersStopped(w, a.terminateWithCleanup, true, finished);
    var w2 := WorkersStopped(w1, a.terminateWithoutCleanup, false, finished);
    WithState(w2, w2.core.st.(running := Refreshed(w2.core.st.running, a.updateSnapshot)))
  }

  /** The outside world during one candidate's turn in the dispatch loop. */
  datatype CandidateEnv = CandidateEnv(
    now: int,
    comments: Reply<seq<Comment>>,
    duringComments: seq<Producer>,
    analysis: Reply<Decision>,
    duringAnalysis: seq<Producer>,
    addComment: Reply<()>,
    duringAddComment: seq<Producer>,
    spawn: Spawn)

  /** The outside world during one tick. `candidate` is asked by position in the sorted list. */
  datatype TickEnv = TickEnv(
    now: int,
    finished: set<nat>,
    refresh: Reply<seq<Issue>>,
    duringRefresh: seq<Producer>,
    loader: Reply<Option<Config>>,
    fetch: Reply<seq<Issue>>,
    duringFetch: seq<Producer>,
    candidate: nat -> CandidateEnv)

  function Reconciled(w: World, env: TickEnv): World {
    var st := w.core.st;
    var w1 := StallsReported(w, StalledIds(st.order, st.running, env.now, w.config.stallTimeoutMs), env.now, env.finished);
    if st.running == map[] then w1
    else
      var w2 := Awaited(w1, env.duringRefresh);
      match env.refresh
      case Raised(_) => w2
      case Returned(issues) =>
        Acted(w2, ActionsFor(st.order, ById(issues), Normalized(w.config.terminalStates), Normalized(w.config.activeStates)),
              env.finished)
  }

  // ---------------------------------------------------------------------
  // Clarification gate
  // ---------------------------------------------------------------------

  function NoNewInput(waiting: WaitEntry, seen: set<string>, fingerprint: string): bool {
    match waiting.lastInputFingerprint
    case Some(last) => fingerprint == last
    case None => seen <= waiting.lastSeenCommentIds
  }

  function Waits(w: World, id: string, entry: WaitEntry): World {
    WithState(w, w.core.st.(clarificationWaiting := w.core.st.clarificationWaiting[id := entry]))
  }

  /** An exception that nobody catches takes the dispatcher down. */
  function Fallen(w: World): World {
    w.(status := Crashed)
  }

  /** The gate once the comments are in. Hashing them is not guarded. */
  function GateDecides(p: Primitives, w: World, issue: Issue, comments: seq<Comment>, e: CandidateEnv): (World, bool) {
    match InputFingerprint(p, issue, comments)
    case Raised(_) => (Fallen(w), false)
    case Returned(fingerprint) => GateCompares(p, w, issue, NonClarificationCommentIds(comments), fingerprint, e)
  }

  /** The gate once the inputs have been fingerprinted. Hashing the questions is not guarded. */
  function GateCompares(p: Primitives, w: World, issue: Issue, seen: set<string>, fingerprint: string, e: CandidateEnv): (World, bool) {
    var waits := w.core.st.clarificationWaiting;
    if issue.id in waits && NoNewInput(waits[issue.id], seen, fingerprint) then
      (Waits(w, issue.id, waits[issue.id].(nextPollAt := NextPollAt(e.now))), false)
    else
      var w1 := Awaited(w, e.duringAnalysis);
      match e.analysis
      case Raised(_) => (w1, false)
      case Returned(d) =>
        if d.sufficient then
          (WithState(w1, w1.core.st.(clarificationWaiting := waits - {issue.id})).(gateLog := w1.gateLog + [Cleared(issue.id)]), true)
        else
          match QuestionFingerprint(p, d.questions)
          case Raised(_) => (Fallen(w1), false)
          case Returned(asked) => (GateAsks(w1, issue, seen, fingerprint, asked, e), false)
  }

  /** Questions that are not pending already are posted, and the issue waits for the answers. */
  function GateAsks(w: World, issue: Issue, seen: set<string>, fingerprint: string, asked: string, e: CandidateEnv): World {
    var waits := w.core.st.clarificationWaiting;
    var entry := WaitEntry(issue.id, issue.identifier, seen, Some(asked), NextPollAt(e.now), Some(fingerprint));
    if issue.id in waits && waits[issue.id].lastQuestionFingerprint == Some(asked) then Waits(w, issue.id, entry)
    else
      var w1 := Awaited(w, e.duringAddComment);
      if e.addComment.Raised? then w1
      else Waits(w1, issue.id, entry).(gateLog := w1.gateLog + [Commented(issue.id, asked)])
  }

  function Gate(p: Primitives, w: World, issue: Issue, e: CandidateEnv): (World, bool) {
    var waits := w.core.st.clarificationWaiting;
    if issue.id in waits && e.now < waits[issue.id].nextPollAt then (w, false)
    else
      var w1 := Awaited(w, e.duringComments);
      match e.comments
      case Raised(_) => (w1, false)
      case Returned(comments) => GateDecides(p, w1, issue, comments, e)
  }

  // ---------------------------------------------------------------------
  // Tick
  // ---------------------------------------------------------------------

  function Absorb(w: World, o: Outcome): World {
    w.(core := o.core, status := if o.raised then Crashed else w.status)
  }

  function Considered(p: Primitives, w: World, issue: Issue, e: CandidateEnv): World {
    if !HasSlot(w.core.st, issue.state, w.config.maxConcurrentByState) then w
    else
      var (w1, allowed) := Gate(p, w, issue, e);
      if !allowed then w1
      else Absorb(w1, Dispatched(w1.core, issue, 1, e.spawn, e.now, w1.config.maxRetryBackoffMs))
  }

  /** The dispatch loop after its first `n` candidates. */
  function DispatchedFirst(p: Primitives, w: World, eligible: seq<Issue>, n: nat, candidate: nat -> CandidateEnv): World
    requires n <= |eligible|
  {
    if n == 0 then w
    else
      var w1 := DispatchedFirst(p, w, eligible, n - 1, candidate);
      if w1.status == Crashed then w1 else Considered(p, w1, eligible[n - 1], candidate(n - 1))
  }

  function EligibleNow(w: World, candidates: seq<Issue>): seq<Issue> {
    Filtered(candidates, w.core.st, Normalized(w.config.activeStates), Normalized(w.config.terminalStates))
  }

  function EligibleInOrder(w: World, candidates: seq<Issue>): seq<Issue> {
    SortForDispatch(EligibleNow(w, candidates))
  }

  /** The tick from the point where a valid configuration has been loaded. Sorting is not guarded. */
  function Polled(p: Primitives, w: World, env: TickEnv): World {
    var w1 := Awaited(w, env.duringFetch);
    match env.fetch
    case Raised(_) => TickScheduled(w1)
    case Returned(candidates) =>
      if !Sortable(EligibleNow(w1, candidates)) then Fallen(w1)
      else
        var eligible := EligibleInOrder(w1, candidates);
        var w2 := DispatchedFirst(p, w1, eligible, |eligible|, env.candidate);
        if w2.status == Crashed then w2 else TickScheduled(w2)
  }

  function Ticked(p: Primitives, w: World, env: TickEnv): World {
    var w1 := Reconciled(w, env);
    match env.loader
    case Raised(_) => TickScheduled(w1)
    case Returned(None) => TickScheduled(w1)
    case Returned(Some(config)) => Polled(p, w1.(config := config), env)
  }

  // ---------------------------------------------------------------------
  // One message
  // ---------------------------------------------------------------------

  /** The outside world during one message; each handler looks at its own part. */
  datatype HandlerEnv = HandlerEnv(now: int, tick: TickEnv, retry: RetryEnv)

  function Handled(p: Primitives, w: World, msg: Message, env: HandlerEnv): World {
    match msg
    case PollTick => Ticked(p, w, env.tick)
    case WorkerExit(id, _, ok, seconds, error) =>
      Absorb(w, WorkerExited(w.core, id, ok, seconds, error, env.now, w.config.maxRetryBackoffMs))
    case CodexUpdate(id, event) => WithState(w, CodexUpdated(w.core.st, id, event))
    case RetryTimerFired(id) =>
      var o := RetryTimerHandled(w.core, w.box, id, env.retry, w.config.maxConcurrentByState, w.config.maxRetryBackoffMs);
      w.(core := o.core, box := o.box, status := if o.raised then Crashed else w.status)
    case ConfigReloaded(config) =>
      WithState(w.(config := config),
                w.core.st.(pollIntervalMs := config.pollIntervalMs, maxConcurrentAgents := config.maxConcurrentAgents))
    case Shutdown => TickCancelled(w).(status := Stopped)
  }

  /** The dispatcher takes one message from the front of a non-empty mailbox. */
  function Delivered(p: Primitives, w: World, env: HandlerEnv): World {
    if w.status != Live || w.box == [] then w else Handled(p, w.(box := w.box[1..]), w.box[0], env)
  }

  /** One step of the system: the dispatcher handles a message, something outside happens, or,
      once the dispatcher has left its loop, the teardown cancels the tick and the retries. */
  datatype Event = Deliver(env: HandlerEnv) | Outside(producer: Producer) | TearDown

  /** The message a step delivers, if it delivers one. */
  function Taken(w: World, e: Event): Option<Message> {
    if e.Deliver? && w.status == Live && w.box != [] then Some(w.box[0]) else None
  }

  function Step(p: Primitives, w: World, e: Event): World {
    match e
    case Deliver(env) => Delivered(p, w, env)
    case Outside(producer) => Awaited(w, [producer])
    case TearDown =>
      if w.status == Live then w
      else var w1 := TickCancelled(w); w1.(core := w1.core.(q := AllCancelled(w1.core.q)))
  }

  function Run(p: Primitives, w: World, events: seq<Event>): World {
    if events == [] then w else Step(p, Run(p, w, events[..|events| - 1]), events[|events| - 1])
  }

  /** Startup: nothing runs, and the first poll tick is in the mailbox. */
  function Initial(config: Config): World {
    World(Core(EmptyState(config.pollIntervalMs, config.maxConcurrentAgents), Queue(map[], Timers(map[], 0)), 0),
          [PollTick], config, None, {}, [], [], Live)
  }
}
