/** What takes the dispatcher down. Two kinds of call in a tick are not guarded: the sort of the
    candidates, which compares creation dates, and the hashing of texts, which encodes them. */
module Crashes {
  import opened Prelude
  import opened Tracker
  import opened Mailboxes
  import opened Retry
  import opened Clarification
  import opened Dispatch
  import opened Lifecycle
  import opened World
  import opened Framing
  import opened Consistency
  import opened Scenario

  /** The gate comes to hash a text that cannot be encoded: one of the inputs, or a question. */
  predicate HashRaises(p: Primitives, w: World, issue: Issue, e: CandidateEnv) {
    var waits := w.core.st.clarificationWaiting;
    && (issue.id in waits ==> waits[issue.id].nextPollAt <= e.now) && e.comments.Returned?
    && match InputFingerprint(p, issue, e.comments.value)
       case Raised(_) => true
       case Returned(fingerprint) =>
         && !(issue.id in waits && NoNewInput(waits[issue.id], NonClarificationCommentIds(e.comments.value), fingerprint))
         && e.analysis.Returned? && !e.analysis.value.sufficient
         && QuestionFingerprint(p, e.analysis.value.questions).Raised?
  }

  /** A turn of the dispatch loop gets to such a text. */
  predicate TurnRaises(p: Primitives, w: World, issue: Issue, e: CandidateEnv) {
    w.status != Crashed && HasSlot(w.core.st, issue.state, w.config.maxConcurrentByState) && HashRaises(p, w, issue, e)
  }

  lemma GateRaisesExactly(p: Primitives, w: World, issue: Issue, e: CandidateEnv)
    requires w.status != Crashed
    ensures Gate(p, w, issue, e).0.status == Crashed <==> HashRaises(p, w, issue, e)
  {
    hide InputFingerprint, QuestionFingerprint, NonClarificationCommentIds, ProduceAll, NextPollAt, NoNewInput;
  }

  lemma TurnRaisesExactly(p: Primitives, w: World, issue: Issue, e: CandidateEnv)
    requires w.status != Crashed
    ensures Considered(p, w, issue, e).status == Crashed <==> TurnRaises(p, w, issue, e)
  {
    hide Gate, HasSlot, HashRaises, Dispatched;
    GateRaisesExactly(p, w, issue, e);
    GateFrame(p, w, issue, e);
    var w1 := Gate(p, w, issue, e).0;
    FirstAttemptNeverRaises(w1.core, issue, e.spawn, e.now, w1.config.maxRetryBackoffMs);
  }

  predicate RaisesAt(p: Primitives, w: World, eligible: seq<Issue>, i: nat, candidate: nat -> CandidateEnv)
    requires i < |eligible|
  {
    TurnRaises(p, DispatchedFirst(p, w, eligible, i, candidate), eligible[i], candidate(i))
  }

  lemma {:induction false} LoopRaisesExactly(p: Primitives, w: World, eligible: seq<Issue>, n: nat, candidate: nat -> CandidateEnv)
    requires w.status != Crashed && n <= |eligible|
    ensures DispatchedFirst(p, w, eligible, n, candidate).status == Crashed
       <==> exists i :: 0 <= i < n && RaisesAt(p, w, eligible, i, candidate)
  {
    hide Considered, TurnRaises;
    if n > 0 {
      LoopRaisesExactly(p, w, eligible, n - 1, candidate);
      var w1 := DispatchedFirst(p, w, eligible, n - 1, candidate);
      if w1.status != Crashed {
        TurnRaisesExactly(p, w1, eligible[n - 1], candidate(n - 1));
        assert RaisesAt(p, w, eligible, n - 1, candidate) <==> Considered(p, w1, eligible[n - 1], candidate(n - 1)).status == Crashed;
      }
    }
  }

  /** The candidates cannot be sorted, or a turn of the loop over them raises. */
  predicate PollRaises(p: Primitives, w: World, env: TickEnv) {
    env.fetch.Returned? &&
    var w1 := Awaited(w, env.duringFetch);
    var eligible := EligibleInOrder(w1, env.fetch.value);
    !Sortable(EligibleNow(w1, env.fetch.value))
    || exists i :: 0 <= i < |eligible| && RaisesAt(p, w1, eligible, i, env.candidate)
  }

  lemma PollRaisesExactly(p: Primitives, w: World, env: TickEnv)
    requires w.status != Crashed
    ensures Polled(p, w, env).status == Crashed <==> PollRaises(p, w, env)
  {
    hide ProduceAll, EligibleNow, EligibleInOrder, Sortable, DispatchedFirst, RaisesAt;
    if env.fetch.Returned? {
      var w1 := Awaited(w, env.duringFetch);
      var eligible := EligibleInOrder(w1, env.fetch.value);
      LoopRaisesExactly(p, w1, eligible, |eligible|, env.candidate);
    }
  }

  predicate TickRaises(p: Primitives, w: World, env: TickEnv) {
    && env.loader.Returned? && env.loader.value.Some?
    && PollRaises(p, Reconciled(w, env).(config := env.loader.value.value), env)
  }

  lemma TickRaisesExactly(p: Primitives, w: World, env: TickEnv)
    requires w.status != Crashed
    ensures Ticked(p, w, env).status == Crashed <==> TickRaises(p, w, env)
  {
    hide Reconciled, Polled, PollRaises;
    ReconciledFrame(w, env);
    if env.loader.Returned? && env.loader.value.Some? {
      PollRaisesExactly(p, Reconciled(w, env).(config := env.loader.value.value), env);
    }
  }

  /** The step is a tick that raises. */
  predicate Dies(p: Primitives, w: World, e: Event) {
    e.Deliver? && TickOf(w, e.env).Some? && TickRaises(p, TickOf(w, e.env).value.0, TickOf(w, e.env).value.1)
  }

  lemma StepDiesExactly(p: Primitives, w: World, e: Event)
    requires Steady(w)
    ensures Step(p, w, e).status == Crashed <==> w.status == Crashed || Dies(p, w, e)
  {
    hide Ticked, WorkerExited, CodexUpdated, RetryTimerHandled, TickRaises, ProduceAll, AllCancelled, Filed, Beating;
    if e.Deliver? && w.status == Live && w.box != [] {
      var env, w1 := e.env, w.(box := w.box[1..]);
      match w.box[0] {
        case PollTick => TickRaisesExactly(p, w1, env.tick);
        case WorkerExit(id, _, ok, seconds, error) =>
          WorkerExitKeeps(w.core, id, ok, seconds, error, env.now, w.config.maxRetryBackoffMs);
        case RetryTimerFired(id) =>
          RetryTimerKeeps(w1.core, w1.box, id, env.retry, w.config.maxConcurrentByState, w.config.maxRetryBackoffMs);
        case _ =>
      }
    }
  }

  predicate DiesAt(p: Primitives, config: Config, events: seq<Event>, n: nat)
    requires n < |events|
  {
    Dies(p, Run(p, Initial(config), events[..n]), events[n])
  }

  /** The exact condition for a crash: the dispatcher is down after a run if and only if one of its
      ticks came to candidates that cannot be sorted or to a text that cannot be hashed. No rejected
      attempt number, stale message or failing call brings it down. */
  lemma {:induction false} RunDiesExactly(p: Primitives, config: Config, events: seq<Event>)
    ensures Run(p, Initial(config), events).status == Crashed
       <==> exists n :: 0 <= n < |events| && DiesAt(p, config, events, n)
  {
    hide Step, Dies, Steady;
    if events != [] {
      var init, last := events[..|events| - 1], events[|events| - 1];
      RunDiesExactly(p, config, init);
      RunSteady(p, config, init);
      StepDiesExactly(p, Run(p, Initial(config), init), last);
      forall n | 0 <= n < |init| ensures DiesAt(p, config, init, n) == DiesAt(p, config, events, n) {
        assert init[..n] == events[..n];
      }
      assert DiesAt(p, config, events, |init|) == Dies(p, Run(p, Initial(config), init), last);
    }
  }

  // ---------------------------------------------------------------------
  // What can be told from the replies alone
  // ---------------------------------------------------------------------

  /** All comments and questions of the candidate's turn can be encoded. */
  ghost predicate CandidateSound(p: Primitives, e: CandidateEnv) {
    && (e.comments.Returned? ==> AllEncodable(p, CommentsParts(p, e.comments.value)))
    && (e.analysis.Returned? ==> AllEncodable(p, Asked(e.analysis.value.questions)))
  }

  /** The fetched issues can be compared and encoded, and so can everything else that comes in. */
  ghost predicate EventSound(p: Primitives, e: Event) {
    e.Deliver? ==>
      && (e.env.tick.fetch.Returned? ==>
            && Sortable(e.env.tick.fetch.value)
            && forall x :: x in e.env.tick.fetch.value ==> AllEncodable(p, IssueParts(p, x)))
      && forall n: nat :: CandidateSound(p, e.env.tick.candidate(n))
  }

  lemma SoundNeverRaises(p: Primitives, w: World, issue: Issue, e: CandidateEnv)
    requires AllEncodable(p, IssueParts(p, issue)) && CandidateSound(p, e)
    ensures !HashRaises(p, w, issue, e)
  {
    hide NoNewInput, NonClarificationCommentIds, InputFingerprint, QuestionFingerprint, Asked, IssueParts, CommentsParts;
    if e.comments.Returned? {
      FingerprintsRaiseExactly(p, issue, e.comments.value, if e.analysis.Returned? then e.analysis.value.questions else []);
    }
  }

  lemma SoundTickNeverRaises(p: Primitives, w: World, env: HandlerEnv)
    requires EventSound(p, Deliver(env))
    ensures !TickRaises(p, w, env.tick)
  {
    hide Reconciled, ProduceAll, DispatchedFirst, HashRaises, HasSlot, CandidateSound, AllEncodable, IssueParts, Normalized;
    if env.tick.loader.Returned? && env.tick.loader.value.Some? && env.tick.fetch.Returned? {
      var w1 := Awaited(Reconciled(w, env.tick).(config := env.tick.loader.value.value), env.tick.duringFetch);
      var fetched := env.tick.fetch.value;
      FilteredMembers(fetched, w1.core.st, Normalized(w1.config.activeStates), Normalized(w1.config.terminalStates));
      SortKeepsMembers(EligibleNow(w1, fetched));
      var eligible := EligibleInOrder(w1, fetched);
      forall i | 0 <= i < |eligible| ensures !RaisesAt(p, w1, eligible, i, env.tick.candidate) {
        assert eligible[i] in eligible;
        SoundNeverRaises(p, DispatchedFirst(p, w1, eligible, i, env.tick.candidate), eligible[i], env.tick.candidate(i));
      }
    }
  }

  /** So a run in which all dates compare and all texts encode never takes the dispatcher down. */
  lemma SoundRunSurvives(p: Primitives, config: Config, events: seq<Event>)
    requires forall i :: 0 <= i < |events| ==> EventSound(p, events[i])
    ensures Run(p, Initial(config), events).status != Crashed
  {
    hide Run, EventSound, TickRaises;
    RunDiesExactly(p, config, events);
    forall n | 0 <= n < |events| ensures !DiesAt(p, config, events, n) {
      var w := Run(p, Initial(config), events[..n]);
      if events[n].Deliver? && TickOf(w, events[n].env).Some? {
        SoundTickNeverRaises(p, TickOf(w, events[n].env).value.0, events[n].env);
      }
    }
  }

  // ---------------------------------------------------------------------
  // Two first ticks that are the last
  // ---------------------------------------------------------------------

  const DATED := ISSUE.(createdAt := Some(Stamp(0, Some(0))))
  const UNZONED := ISSUE.(id := "2", createdAt := Some(Stamp(0, None)))

  /** Two candidates of equal priority, only one of whose creation dates carries an offset. */
  lemma MixedDatesKill(p: Primitives, candidate: nat -> CandidateEnv, retry: RetryEnv)
    ensures var events := [Deliver(HandlerEnv(0, TickOver(CONFIG, [DATED, UNZONED], candidate), retry))];
            Run(p, Initial(CONFIG), events).status == Crashed
  {
    var w, fetched := Start(CONFIG), [DATED, UNZONED];
    FirstTick(p, CONFIG, fetched, candidate, retry);
    assert "todo" in ["todo"] && Lower("todo") in Normalized(["todo"]);
    FilterKeepsAll(fetched, w.core.st, Normalized(["todo"]), Normalized([]));
    assert DATED in fetched && UNZONED in fetched && !Comparable(DATED, UNZONED);
    hide DispatchedFirst, EligibleInOrder, Run, Filtered;
    assert Awaited(w, []) == w;
  }

  /** An issue whose title holds a character that cannot be encoded. */
  lemma SurrogateKills(p: Primitives, c: char, retry: RetryEnv)
    requires c as int >= 128 && p.surrogate(c)
    ensures var x := ISSUE.(title := [c]);
            var events := [Deliver(HandlerEnv(0, TickOver(CONFIG, [x], (n: nat) => Candidate(Spawned)), retry))];
            Run(p, Initial(CONFIG), events).status == Crashed
  {
    hide EligibleNow, EligibleInOrder, Sortable, Polled, Run, InputFingerprint, HasSlot, NonClarificationCommentIds, IssueParts;
    var x := ISSUE.(title := [c]);
    var w, candidate := Start(CONFIG), (n: nat) => Candidate(Spawned);
    FirstTick(p, CONFIG, [x], candidate, retry);
    OneInOrder(w, x);
    UndatedSortable([x]);
    PolledInOrder(p, w, CONFIG, [x], candidate);
    TitleRaises(p, x, c);
    assert RaisesAt(p, w, [x], 0, candidate);
    LoopRaisesExactly(p, w, [x], 1, candidate);
  }

  lemma OneInOrder(w: World, x: Issue)
    requires w == Start(CONFIG) && x == ISSUE.(title := x.title)
    ensures EligibleNow(w, [x]) == [x] == EligibleInOrder(w, [x]) && HasSlot(w.core.st, x.state, [])
  {
    assert "todo" in ["todo"] && Lower("todo") in Normalized(["todo"]);
    AllInOrder(w, [x]);
  }

  lemma TitleRaises(p: Primitives, x: Issue, c: char)
    requires c as int >= 128 && p.surrogate(c) && x.title == [c]
    ensures InputFingerprint(p, x, []).Raised?
  {
    FingerprintsRaiseExactly(p, x, [], []);
    assert IssueParts(p, x)[2] == [c] && InputParts(p, x, [])[2] == [c] && c in [c];
    assert [c] in InputParts(p, x, []);
  }
}
