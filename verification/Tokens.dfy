/** Token conservation: where the global totals come from, over every run. */
module Tokens {
  import opened Prelude
  import opened Tracker
  import opened Usage
  import opened Mailboxes
  import opened Retry
  import opened State
  import opened Clarification
  import opened Dispatch
  import opened Lifecycle
  import opened World
  import opened Framing
  import opened Consistency

  /** The three counts of a snapshot, so that one proof serves all. */
  datatype Count = Input | Output | Both

  function Pick(k: Count, t: TokenSnapshot): int {
    match k case Input => t.input case Output => t.output case Both => t.total
  }

  function LastReported(k: Count): Entry -> int {
    (e: Entry) => Pick(k, e.lastReported)
  }

  function RunningSum(k: Count, st: OState): int {
    Total(st.order, st.running, LastReported(k))
  }

  // ---------------------------------------------------------------------
  // The ledger
  // ---------------------------------------------------------------------

  /** What sessions had last reported when they ended, and by how much reports have fallen
      below the report before them. Neither is kept by the program. */
  datatype Ledger = Ledger(ended: TokenSnapshot, regressed: TokenSnapshot)

  function Shortfall(last: TokenSnapshot, next: TokenSnapshot): TokenSnapshot {
    TokenSnapshot(Max(0, last.input - next.input), Max(0, last.output - next.output), Max(0, last.total - next.total))
  }

  /** The session of a running issue that a retry starts over ends there. */
  function LedgerAfter(w: World, e: Event, l: Ledger): Ledger {
    match Taken(w, e)
    case Some(RetryTimerFired(id)) =>
      if id in w.core.st.running && Restarts(w.core, id, e.env.retry, w.config.maxConcurrentByState) then
        l.(ended := Plus(l.ended, w.core.st.running[id].lastReported))
      else l
    case Some(WorkerExit(id, _, _, _, _)) =>
      if id in w.core.st.running then l.(ended := Plus(l.ended, w.core.st.running[id].lastReported)) else l
    case Some(CodexUpdate(id, event)) =>
      if id in w.core.st.running && ReadUsage(event.usage).Some? then
        l.(regressed := Plus(l.regressed, Shortfall(w.core.st.running[id].lastReported, ReadUsage(event.usage).value)))
      else l
    case _ => l
  }

  function LedgerOf(p: Primitives, config: Config, events: seq<Event>): Ledger {
    if events == [] then Ledger(ZERO_TOKENS, ZERO_TOKENS)
    else
      var init := events[..|events| - 1];
      LedgerAfter(Run(p, Initial(config), init), events[|events| - 1], LedgerOf(p, config, init))
  }

  /** Each total is what ended sessions had reported, plus what running ones have, plus what
      was reported and later taken back. */
  predicate Balanced(k: Count, st: OState, l: Ledger) {
    Pick(k, st.codexTotals) == Pick(k, l.ended) + RunningSum(k, st) + Pick(k, l.regressed)
  }

  // ---------------------------------------------------------------------
  // What leaves the sums alone
  // ---------------------------------------------------------------------

  ghost predicate SameSums(k: Count, a: OState, b: OState) {
    b.codexTotals == a.codexTotals && RunningSum(k, b) == RunningSum(k, a)
  }

  /** Dispatching an issue that is not running, or whose session has reported nothing yet. */
  lemma DispatchSameSums(k: Count, c: Core, issue: Issue, attempt: int, spawn: Spawn, now: int, cap: int)
    requires Ordered(c.st) && (issue.id in c.st.running ==> c.st.running[issue.id].lastReported == ZERO_TOKENS)
    ensures SameSums(k, c.st, Dispatched(c, issue, attempt, spawn, now, cap).core.st)
  {
    hide Dispatched, Total;
    DispatchedFrame(c, issue, attempt, spawn, now, cap);
    var entry := FreshEntry(c.nextTask, issue, now, attempt);
    if spawn.Spawned? {
      if issue.id in c.st.running {
        TotalUpdate(c.st.order, c.st.running, issue.id, entry, LastReported(k));
      } else {
        TotalAppend(c.st.order, c.st.running, issue.id, entry, LastReported(k));
      }
    }
  }

  lemma ConsideredSameSums(k: Count, p: Primitives, w: World, issue: Issue, e: CandidateEnv)
    requires Ordered(w.core.st) && (issue.id in w.core.st.running ==> w.core.st.running[issue.id].lastReported == ZERO_TOKENS)
    ensures SameSums(k, w.core.st, Considered(p, w, issue, e).core.st)
  {
    hide Gate, HasSlot, Dispatched, Total;
    var (w1, allowed) := Gate(p, w, issue, e);
    GateFrame(p, w, issue, e);
    DispatchSameSums(k, w1.core, issue, 1, e.spawn, e.now, w1.config.maxRetryBackoffMs);
  }

  /** None of the candidates has reported anything. */
  ghost predicate Silent(eligible: seq<Issue>, st: OState) {
    forall i :: 0 <= i < |eligible| && eligible[i].id in st.running ==> st.running[eligible[i].id].lastReported == ZERO_TOKENS
  }

  lemma {:induction false} LoopSameSums(k: Count, p: Primitives, w: World, eligible: seq<Issue>, n: nat, candidate: nat -> CandidateEnv)
    requires n <= |eligible| && Filed(w.core) && Silent(eligible, w.core.st)
    ensures var r := DispatchedFirst(p, w, eligible, n, candidate);
            SameSums(k, w.core.st, r.core.st) && Silent(eligible, r.core.st)
  {
    hide Considered, RunningSum;
    if n > 0 {
      LoopSameSums(k, p, w, eligible, n - 1, candidate);
      LoopProceeds(p, w, eligible, n - 1, candidate);
      var w1 := DispatchedFirst(p, w, eligible, n - 1, candidate);
      ConsideredSameSums(k, p, w1, eligible[n - 1], candidate(n - 1));
      ConsideredEntries(p, w1, eligible[n - 1], candidate(n - 1));
    }
  }

  lemma ReconciledSameSums(k: Count, w: World, env: TickEnv)
    ensures SameSums(k, w.core.st, Reconciled(w, env).core.st)
  {
    hide Reconciled;
    var r := Reconciled(w, env);
    ReconciledFrame(w, env);
    TotalSame(w.core.st.order, w.core.st.running, r.core.st.running, LastReported(k));
  }

  lemma TickSameSums(k: Count, p: Primitives, w: World, env: TickEnv)
    requires Filed(w.core)
    ensures SameSums(k, w.core.st, Ticked(p, w, env).core.st)
  {
    hide Reconciled, Filed, RunningSum, DispatchedFirst, EligibleInOrder, EligibleNow, Sortable, ProduceAll;
    var w1 := Reconciled(w, env);
    ReconciledSameSums(k, w, env);
    ReconciledProceeds(w, env);
    if env.loader.Returned? && env.loader.value.Some? {
      var w2 := w1.(config := env.loader.value.value);
      var w3 := Awaited(w2, env.duringFetch);
      AwaitedProceeds(w2, env.duringFetch);
      if env.fetch.Returned? {
        var eligible := EligibleInOrder(w3, env.fetch.value);
        EligibleInOrderOk(w3, env.fetch.value);
        LoopSameSums(k, p, w3, eligible, |eligible|, env.candidate);
      }
    }
  }

  // ---------------------------------------------------------------------
  // What moves them
  // ---------------------------------------------------------------------

  lemma ExitBalanced(k: Count, c: Core, l: Ledger, id: string, ok: bool, seconds: real, err: Option<string>, now: int, cap: int)
    requires Ordered(c.st) && Balanced(k, c.st, l)
    ensures Balanced(k, WorkerExited(c, id, ok, seconds, err, now, cap).core.st,
              if id in c.st.running then l.(ended := Plus(l.ended, c.st.running[id].lastReported)) else l)
  {
    if id in c.st.running {
      TotalDrop(c.st.order, c.st.running, id, LastReported(k));
    }
  }

  lemma UpdateBalanced(k: Count, st: OState, l: Ledger, id: string, event: RuntimeEvent)
    requires Ordered(st) && Balanced(k, st, l)
    ensures Balanced(k, CodexUpdated(st, id, event),
              if id in st.running && ReadUsage(event.usage).Some? then
                l.(regressed := Plus(l.regressed, Shortfall(st.running[id].lastReported, ReadUsage(event.usage).value)))
              else l)
  {
    if id in st.running {
      TotalUpdate(st.order, st.running, id, EntryUpdated(st.running[id], event), LastReported(k));
    }
  }

  lemma RetryBalanced(k: Count, c: Core, l: Ledger, box: seq<Message>, id: string, env: RetryEnv,
                      perState: seq<(string, int)>, cap: int)
    requires Ordered(c.st) && Balanced(k, c.st, l)
    ensures Balanced(k, RetryTimerHandled(c, box, id, env, perState, cap).core.st,
              if id in c.st.running && Restarts(c, id, env, perState) then
                l.(ended := Plus(l.ended, c.st.running[id].lastReported))
              else l)
  {
    hide RetryTimerHandled, Total, HasSlot;
    RetryFrame(c, box, id, env, perState, cap);
    if Restarts(c, id, env, perState) {
      if id in c.st.running {
        TotalUpdate(c.st.order, c.st.running, id, Restarted(c, id, env), LastReported(k));
      } else {
        TotalAppend(c.st.order, c.st.running, id, Restarted(c, id, env), LastReported(k));
      }
    }
  }

  lemma StepBalanced(k: Count, p: Primitives, w: World, e: Event, l: Ledger)
    requires Steady(w) && Balanced(k, w.core.st, l)
    ensures Balanced(k, Step(p, w, e).core.st, LedgerAfter(w, e, l))
  {
    hide Ticked, RetryTimerHandled, WorkerExited, CodexUpdated;
    if e.Deliver? && w.status == Live && w.box != [] {
      var w1 := w.(box := w.box[1..]);
      match w.box[0] {
        case PollTick => TickSameSums(k, p, w1, e.env.tick);
        case WorkerExit(id, _, ok, seconds, error) =>
          ExitBalanced(k, w.core, l, id, ok, seconds, error, e.env.now, w.config.maxRetryBackoffMs);
        case CodexUpdate(id, event) =>
          UpdateBalanced(k, w.core.st, l, id, event);
        case RetryTimerFired(id) =>
          RetryBalanced(k, w1.core, l, w1.box, id, e.env.retry, w.config.maxConcurrentByState, w.config.maxRetryBackoffMs);
        case ConfigReloaded(_) =>
        case Shutdown =>
      }
    }
  }

  // ---------------------------------------------------------------------
  // Every run
  // ---------------------------------------------------------------------

  /** Conservation, with no assumption on what the sessions report. */
  lemma {:induction false} RunBalanced(k: Count, p: Primitives, config: Config, events: seq<Event>)
    ensures Balanced(k, Run(p, Initial(config), events).core.st, LedgerOf(p, config, events))
  {
    hide Balanced;
    if events == [] {
      StartBalanced(k, p, config);
    } else {
      var init, last := events[..|events| - 1], events[|events| - 1];
      RunSteady(p, config, init);
      RunBalanced(k, p, config, init);
      StepBalanced(k, p, Run(p, Initial(config), init), last, LedgerOf(p, config, init));
    }
  }

  lemma StartBalanced(k: Count, p: Primitives, config: Config)
    ensures Balanced(k, Initial(config).core.st, Ledger(ZERO_TOKENS, ZERO_TOKENS))
  {
  }

  /** The report a step hands to a running entry, with the one before it. */
  function Report(w: World, e: Event): Option<(TokenSnapshot, TokenSnapshot)> {
    match Taken(w, e)
    case Some(CodexUpdate(id, event)) =>
      if id in w.core.st.running && ReadUsage(event.usage).Some? then
        Some((w.core.st.running[id].lastReported, ReadUsage(event.usage).value))
      else None
    case _ => None
  }

  /** Every report in the run is at least the one before it in its session. */
  predicate NeverFalls(p: Primitives, config: Config, events: seq<Event>) {
    events == [] ||
    (NeverFalls(p, config, events[..|events| - 1]) &&
     var r := Report(Run(p, Initial(config), events[..|events| - 1]), events[|events| - 1]);
     r.Some? ==> AtMost(r.value.0, r.value.1))
  }

  /** With reports that never fall within a session, each total is exactly the sum of the
      last reports of ended and running sessions. */
  lemma TotalsAreLastReports(k: Count, p: Primitives, config: Config, events: seq<Event>)
    requires NeverFalls(p, config, events)
    ensures var st := Run(p, Initial(config), events).core.st;
            Pick(k, st.codexTotals) == Pick(k, LedgerOf(p, config, events).ended) + RunningSum(k, st)
  {
    RunBalanced(k, p, config, events);
    NothingTakenBack(p, config, events);
  }

  lemma {:induction false} NothingTakenBack(p: Primitives, config: Config, events: seq<Event>)
    requires NeverFalls(p, config, events)
    ensures LedgerOf(p, config, events).regressed == ZERO_TOKENS
  {
    hide Run;
    if events != [] {
      NothingTakenBack(p, config, events[..|events| - 1]);
    }
  }

  /** Every report in the run is non-negative. */
  predicate NeverNegative(p: Primitives, config: Config, events: seq<Event>) {
    events == [] ||
    (NeverNegative(p, config, events[..|events| - 1]) &&
     var r := Report(Run(p, Initial(config), events[..|events| - 1]), events[|events| - 1]);
     r.Some? ==> AtMost(ZERO_TOKENS, r.value.1))
  }

  ghost predicate NonNegativeEntries(st: OState) {
    forall id :: id in st.running ==> AtMost(ZERO_TOKENS, st.running[id].lastReported)
  }

  ghost predicate EntriesFrom(a: OState, b: OState) {
    forall id :: id in b.running ==>
      b.running[id].lastReported == ZERO_TOKENS
      || (id in a.running && b.running[id].lastReported == a.running[id].lastReported)
  }

  lemma ConsideredEntries(p: Primitives, w: World, issue: Issue, e: CandidateEnv)
    ensures EntriesFrom(w.core.st, Considered(p, w, issue, e).core.st)
  {
    hide Gate, HasSlot, Dispatched;
    GateFrame(p, w, issue, e);
    DispatchedFrame(Gate(p, w, issue, e).0.core, issue, 1, e.spawn, e.now, Gate(p, w, issue, e).0.config.maxRetryBackoffMs);
  }

  lemma {:induction false} LoopEntries(p: Primitives, w: World, eligible: seq<Issue>, n: nat, candidate: nat -> CandidateEnv)
    requires n <= |eligible|
    ensures EntriesFrom(w.core.st, DispatchedFirst(p, w, eligible, n, candidate).core.st)
  {
    hide Considered;
    if n > 0 {
      LoopEntries(p, w, eligible, n - 1, candidate);
      ConsideredEntries(p, DispatchedFirst(p, w, eligible, n - 1, candidate), eligible[n - 1], candidate(n - 1));
    }
  }

  lemma TickEntries(p: Primitives, w: World, env: TickEnv)
    ensures EntriesFrom(w.core.st, Ticked(p, w, env).core.st)
  {
    hide Reconciled, DispatchedFirst, EligibleInOrder, EligibleNow, Sortable, ProduceAll;
    var w1 := Reconciled(w, env);
    ReconciledFrame(w, env);
    if env.loader.Returned? && env.loader.value.Some? && env.fetch.Returned? {
      var w3 := Awaited(w1.(config := env.loader.value.value), env.duringFetch);
      var eligible := EligibleInOrder(w3, env.fetch.value);
      LoopEntries(p, w3, eligible, |eligible|, env.candidate);
    }
  }

  lemma StepNonNegative(p: Primitives, w: World, e: Event)
    requires NonNegativeEntries(w.core.st)
    requires Report(w, e).Some? ==> AtMost(ZERO_TOKENS, Report(w, e).value.1)
    ensures NonNegativeEntries(Step(p, w, e).core.st)
  {
    hide Ticked, RetryTimerHandled, Scheduled, ExtractRateLimits, ReadUsage, ProduceAll;
    if e.Deliver? && w.status == Live && w.box != [] {
      var w1 := w.(box := w.box[1..]);
      match w.box[0] {
        case PollTick => TickEntries(p, w1, e.env.tick);
        case RetryTimerFired(id) =>
          RetryFrame(w1.core, w1.box, id, e.env.retry, w.config.maxConcurrentByState, w.config.maxRetryBackoffMs);
        case _ =>
      }
    }
  }

  /** With reports that may fall but are never negative, each total stays at least the sum
      over the running entries. */
  lemma {:induction false} TotalsCoverRunning(k: Count, p: Primitives, config: Config, events: seq<Event>)
    requires NeverNegative(p, config, events)
    ensures NonNegativeEntries(Run(p, Initial(config), events).core.st)
    ensures Pick(k, LedgerOf(p, config, events).ended) >= 0 && Pick(k, LedgerOf(p, config, events).regressed) >= 0
    ensures var st := Run(p, Initial(config), events).core.st;
            Pick(k, st.codexTotals) >= RunningSum(k, st)
  {
    hide Step, ReadUsage, RunningSum;
    RunBalanced(k, p, config, events);
    if events != [] {
      var init, last := events[..|events| - 1], events[|events| - 1];
      var w := Run(p, Initial(config), init);
      TotalsCoverRunning(k, p, config, init);
      StepNonNegative(p, w, last);
    }
  }

  /** Whatever is reported, in any world, no step lowers a total. */
  lemma TotalsNeverFall(k: Count, p: Primitives, w: World, e: Event)
    ensures Pick(k, w.core.st.codexTotals) <= Pick(k, Step(p, w, e).core.st.codexTotals)
  {
    hide Ticked, RetryTimerHandled, Scheduled, ProduceAll, ReadUsage, ExtractRateLimits, EntryUpdated;
    if e.Deliver? && w.status == Live && w.box != [] {
      var w1 := w.(box := w.box[1..]);
      match w.box[0] {
        case PollTick => TickFrame(p, w1, e.env.tick);
        case RetryTimerFired(id) =>
          RetryFrame(w1.core, w1.box, id, e.env.retry, w.config.maxConcurrentByState, w.config.maxRetryBackoffMs);
        case _ =>
      }
    }
  }
}
