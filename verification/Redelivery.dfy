/** What becomes of the retry a failed spawn leaves behind. Its own timer posts nothing, so all
    depends on the retry messages that are already on their way. */
module Redelivery {
  import opened Prelude
  import opened Tracker
  import opened EventLoop
  import opened Mailboxes
  import opened Retry
  import opened State
  import opened Clarification
  import opened Dispatch
  import opened Lifecycle
  import opened Reconcile
  import opened World
  import opened Framing

  // ---------------------------------------------------------------------
  // First in, first out
  // ---------------------------------------------------------------------

  /** The messages a run delivers, in order. */
  function Handed(p: Primitives, w: World, events: seq<Event>): seq<Message> {
    if events == [] then []
    else
      var init := events[..|events| - 1];
      Handed(p, w, init) + match Taken(Run(p, w, init), events[|events| - 1]) case None => [] case Some(m) => [m]
  }

  /** From `a` to `b` messages have only been added, none of them a retry of `k`; no live timer
      posts one; and an entry of `k` is still there unless `k` runs. */
  ghost predicate Quietly(a: World, b: World, k: string) {
    && NobodyPosts(b.core.q.timers, k)
    && a.box <= b.box && RetryTimerFired(k) !in b.box[|a.box|..]
    && (k in a.core.q.entries && k !in b.core.st.running ==> k in b.core.q.entries)
    && (k in a.core.st.running ==> k in b.core.st.running)
    && (b.status == a.status || b.status == Crashed)
  }

  /** No live timer will post a retry of `k`. */
  ghost predicate NobodyPosts(t: Timers, k: string) {
    forall h :: h in t.live ==> t.live[h].callback != PostRetry(k)
  }

  /** Nothing outside posts a retry of `k` by itself. */
  predicate Calm(ps: seq<Producer>, k: string) {
    Post(RetryTimerFired(k)) !in ps
  }

  ghost predicate CalmCandidate(e: CandidateEnv, k: string) {
    Calm(e.duringComments, k) && Calm(e.duringAnalysis, k) && Calm(e.duringAddComment, k)
  }

  ghost predicate CalmTick(env: TickEnv, k: string) {
    Calm(env.duringRefresh, k) && Calm(env.duringFetch, k) && forall n: nat :: CalmCandidate(env.candidate(n), k)
  }

  ghost predicate CalmEvent(e: Event, k: string) {
    match e
    case Deliver(env) => CalmTick(env.tick, k) && Calm(env.retry.duringFetch, k)
    case Outside(producer) => producer != Post(RetryTimerFired(k))
    case TearDown => true
  }

  lemma QuietlyTransitive(a: World, b: World, c: World, k: string)
    requires Quietly(a, b, k) && Quietly(b, c, k)
    ensures Quietly(a, c, k)
  {
    assert c.box[|a.box|..] == b.box[|a.box|..] + c.box[|b.box|..];
  }

  lemma {:induction false} ProduceAllQuietly(t: Timers, q: seq<Message>, ps: seq<Producer>, k: string)
    requires NobodyPosts(t, k) && Calm(ps, k)
    ensures var (t2, q2) := ProduceAll(t, q, ps);
      NobodyPosts(t2, k) && q <= q2 && RetryTimerFired(k) !in q2[|q|..]
    decreases ps
  {
    if ps != [] {
      var (t1, q1) := Produce(t, q, ps[0]);
      assert ps[0] in ps;
      ProduceAllQuietly(t1, q1, ps[1..], k);
      var q2 := ProduceAll(t1, q1, ps[1..]).1;
      assert q2[|q|..] == q1[|q|..] + q2[|q1|..];
    }
  }

  lemma AwaitedQuietly(w: World, ps: seq<Producer>, k: string)
    requires NobodyPosts(w.core.q.timers, k) && Calm(ps, k)
    ensures Quietly(w, Awaited(w, ps), k)
  {
    ProduceAllQuietly(w.core.q.timers, w.box, ps, k);
  }

  lemma {:induction false} StallsReportedQuietly(w: World, ids: seq<string>, now: int, finished: set<nat>, k: string)
    requires NobodyPosts(w.core.q.timers, k)
    ensures Quietly(w, StallsReported(w, ids, now, finished), k)
  {
    StallsReportedFrame(w, ids, now, finished);
    if ids != [] {
      StallsReportedQuietly(w, ids[..|ids| - 1], now, finished, k);
    }
  }

  lemma ReconciledQuietly(w: World, env: TickEnv, k: string)
    requires NobodyPosts(w.core.q.timers, k) && CalmTick(env, k)
    ensures Quietly(w, Reconciled(w, env), k)
  {
    hide StalledIds, ActionsFor, ById, ProduceAll, Acted, StallsReported, CalmCandidate;
    var ids := StalledIds(w.core.st.order, w.core.st.running, env.now, w.config.stallTimeoutMs);
    var w1 := StallsReported(w, ids, env.now, env.finished);
    StallsReportedQuietly(w, ids, env.now, env.finished, k);
    var w2 := Awaited(w1, env.duringRefresh);
    AwaitedQuietly(w1, env.duringRefresh, k);
    QuietlyTransitive(w, w1, w2, k);
    if env.refresh.Returned? {
      ActedFrame(w2, ActionsFor(w.core.st.order, ById(env.refresh.value), Normalized(w.config.terminalStates),
                                Normalized(w.config.activeStates)), env.finished);
    }
  }

  lemma GateQuietly(p: Primitives, w: World, issue: Issue, e: CandidateEnv, k: string)
    requires NobodyPosts(w.core.q.timers, k) && CalmCandidate(e, k)
    ensures Quietly(w, Gate(p, w, issue, e).0, k)
  {
    hide InputFingerprint, NonClarificationCommentIds, QuestionFingerprint, ProduceAll, NextPollAt, Calm, NobodyPosts;
    var w1 := Awaited(w, e.duringComments);
    AwaitedQuietly(w, e.duringComments, k);
    var w2 := Awaited(w1, e.duringAnalysis);
    AwaitedQuietly(w1, e.duringAnalysis, k);
    QuietlyTransitive(w, w1, w2, k);
    var w3 := Awaited(w2, e.duringAddComment);
    AwaitedQuietly(w2, e.duringAddComment, k);
    QuietlyTransitive(w, w2, w3, k);
  }

  /** A dispatch arms no timer that posts: none at all if the spawn works, a silent one if not. */
  lemma DispatchedQuietly(c: Core, issue: Issue, attempt: int, spawn: Spawn, now: int, cap: int, k: string)
    requires NobodyPosts(c.q.timers, k)
    ensures var d := Dispatched(c, issue, attempt, spawn, now, cap).core;
      && NobodyPosts(d.q.timers, k)
      && (k in c.q.entries && k !in d.st.running ==> k in d.q.entries || Dispatched(c, issue, attempt, spawn, now, cap).raised)
  {
  }

  lemma ConsideredQuietly(p: Primitives, w: World, issue: Issue, e: CandidateEnv, k: string)
    requires NobodyPosts(w.core.q.timers, k) && CalmCandidate(e, k)
    ensures Quietly(w, Considered(p, w, issue, e), k)
  {
    hide Gate, HasSlot, Dispatched, NobodyPosts, CalmCandidate;
    var (w1, allowed) := Gate(p, w, issue, e);
    GateQuietly(p, w, issue, e, k);
    GateFrame(p, w, issue, e);
    DispatchedQuietly(w1.core, issue, 1, e.spawn, e.now, w1.config.maxRetryBackoffMs, k);
    DispatchedFrame(w1.core, issue, 1, e.spawn, e.now, w1.config.maxRetryBackoffMs);
    FirstAttemptNeverRaises(w1.core, issue, e.spawn, e.now, w1.config.maxRetryBackoffMs);
  }

  lemma {:induction false} LoopQuietly(p: Primitives, w: World, eligible: seq<Issue>, n: nat, candidate: nat -> CandidateEnv, k: string)
    requires n <= |eligible| && NobodyPosts(w.core.q.timers, k) && forall i: nat :: CalmCandidate(candidate(i), k)
    ensures Quietly(w, DispatchedFirst(p, w, eligible, n, candidate), k)
  {
    hide Considered, CalmCandidate, NobodyPosts;
    if n > 0 {
      var w1 := DispatchedFirst(p, w, eligible, n - 1, candidate);
      LoopQuietly(p, w, eligible, n - 1, candidate, k);
      ConsideredQuietly(p, w1, eligible[n - 1], candidate(n - 1), k);
      QuietlyTransitive(w, w1, Considered(p, w1, eligible[n - 1], candidate(n - 1)), k);
    }
  }

  lemma TickScheduledQuietly(w: World, k: string)
    requires NobodyPosts(w.core.q.timers, k)
    ensures Quietly(w, TickScheduled(w), k)
  {
  }

  lemma PolledQuietly(p: Primitives, w: World, env: TickEnv, k: string)
    requires w.status == Live && NobodyPosts(w.core.q.timers, k) && CalmTick(env, k)
    ensures Quietly(w, Polled(p, w, env), k)
  {
    hide TickScheduled, DispatchedFirst, EligibleInOrder, EligibleNow, Sortable, ProduceAll, Calm, CalmCandidate, NobodyPosts;
    var w1 := Awaited(w, env.duringFetch);
    AwaitedQuietly(w, env.duringFetch, k);
    if env.fetch.Raised? {
      TickScheduledQuietly(w1, k);
      QuietlyTransitive(w, w1, TickScheduled(w1), k);
    } else {
      var eligible := EligibleInOrder(w1, env.fetch.value);
      var w2 := DispatchedFirst(p, w1, eligible, |eligible|, env.candidate);
      LoopQuietly(p, w1, eligible, |eligible|, env.candidate, k);
      QuietlyTransitive(w, w1, w2, k);
      TickScheduledQuietly(w2, k);
      QuietlyTransitive(w, w2, TickScheduled(w2), k);
    }
  }

  lemma TickedQuietly(p: Primitives, w: World, env: TickEnv, k: string)
    requires w.status == Live && NobodyPosts(w.core.q.timers, k) && CalmTick(env, k)
    ensures Quietly(w, Ticked(p, w, env), k)
  {
    hide Reconciled, TickScheduled, Polled, CalmTick, NobodyPosts;
    var w1 := Reconciled(w, env);
    ReconciledFrame(w, env);
    ReconciledQuietly(w, env, k);
    if env.loader.Raised? || env.loader.value == None {
      TickScheduledQuietly(w1, k);
      QuietlyTransitive(w, w1, TickScheduled(w1), k);
    } else {
      var w2 := w1.(config := env.loader.value.value);
      assert Quietly(w, w2, k);
      PolledQuietly(p, w2, env, k);
      QuietlyTransitive(w, w2, Polled(p, w2, env), k);
    }
  }

  /** The exit of another issue arms a timer for that issue only. */
  lemma ExitQuietly(c: Core, id: string, ok: bool, seconds: real, err: Option<string>, now: int, cap: int, k: string)
    requires NobodyPosts(c.q.timers, k) && k !in c.st.running
    ensures var d := WorkerExited(c, id, ok, seconds, err, now, cap).core;
      NobodyPosts(d.q.timers, k) && (k in c.q.entries ==> k in d.q.entries)
  {
    hide Drop;
  }

  /** So does a retry of another issue. */
  lemma RetryQuietly(c: Core, box: seq<Message>, id: string, env: RetryEnv, perState: seq<(string, int)>, cap: int, k: string)
    requires NobodyPosts(c.q.timers, k) && Calm(env.duringFetch, k) && id != k
    ensures var o := RetryTimerHandled(c, box, id, env, perState, cap);
      && NobodyPosts(o.core.q.timers, k) && box <= o.box && RetryTimerFired(k) !in o.box[|box|..]
      && (k in c.q.entries ==> k in o.core.q.entries)
  {
    hide ProduceAll, HasSlot, Calm;
    if id in c.q.entries {
      var c1 := c.(q := Popped(c.q, id));
      ProduceAllQuietly(c1.q.timers, box, env.duringFetch, k);
      if env.fetch.Returned? {
        FindIssueHasId(env.fetch.value, id);
      }
    }
  }

  /** One step that does not deliver the message in question, while `k` is not running: what it
      adds to the mailbox contains no such message, and the entry of `k` stays. */
  ghost predicate StaysQuiet(w: World, e: Event, r: World, k: string) {
    var rest := if Taken(w, e).Some? then w.box[1..] else w.box;
    && NobodyPosts(r.core.q.timers, k)
    && rest <= r.box && RetryTimerFired(k) !in r.box[|rest|..]
    && (r.status == Live ==> w.status == Live)
    && (r.status == Live && k in w.core.q.entries && k !in r.core.st.running ==> k in r.core.q.entries)
  }

  lemma StepQuietly(p: Primitives, w: World, e: Event, k: string)
    requires NobodyPosts(w.core.q.timers, k) && CalmEvent(e, k) && k !in w.core.st.running
    requires Taken(w, e) != Some(RetryTimerFired(k))
    ensures StaysQuiet(w, e, Step(p, w, e), k)
  {
    hide Ticked, WorkerExited, RetryTimerHandled, ProduceAll, EntryUpdated, ReportedIncrease, NobodyPosts, CalmTick, AllCancelled;
    match e {
      case Deliver(env) =>
        if w.status == Live && w.box != [] {
          var w1 := w.(box := w.box[1..]);
          match w.box[0] {
            case PollTick => TickedQuietly(p, w1, env.tick, k);
            case WorkerExit(id, _, ok, seconds, error) =>
              ExitQuietly(w.core, id, ok, seconds, error, env.now, w.config.maxRetryBackoffMs, k);
            case RetryTimerFired(id) =>
              RetryQuietly(w1.core, w1.box, id, env.retry, w.config.maxConcurrentByState, w.config.maxRetryBackoffMs, k);
            case Shutdown => FewerQuiet(w.core.q.timers, TickCancelled(w).core.q.timers, k);
            case _ =>
          }
        }
      case Outside(producer) => AwaitedQuietly(w, [producer], k);
      case TearDown => TearDownQuietly(p, w, k);
    }
  }

  lemma TearDownQuietly(p: Primitives, w: World, k: string)
    requires NobodyPosts(w.core.q.timers, k)
    ensures StaysQuiet(w, TearDown, Step(p, w, TearDown), k)
  {
  }

  lemma FewerQuiet(a: Timers, b: Timers, k: string)
    requires NobodyPosts(a, k)
    ensures (forall h :: h in b.live ==> h in a.live && b.live[h] == a.live[h]) ==> NobodyPosts(b, k)
  {
  }

  // ---------------------------------------------------------------------
  // Over a run
  // ---------------------------------------------------------------------

  /** First in, first out: over any run the messages delivered, followed by those still waiting,
      begin with the ones that waited at its start. */
  lemma {:induction false} FirstInFirstOut(p: Primitives, w: World, events: seq<Event>)
    ensures w.box <= Handed(p, w, events) + Run(p, w, events).box
  {
    hide Step;
    if events != [] {
      var init, last := events[..|events| - 1], events[|events| - 1];
      FirstInFirstOut(p, w, init);
      var r := Run(p, w, init);
      StepAppends(p, r, last);
      var rest := if Taken(r, last).Some? then r.box[1..] else r.box;
      assert Handed(p, w, init) + r.box == Handed(p, w, events) + rest;
      PrefixKept(w.box, Handed(p, w, init) + r.box, Handed(p, w, events), rest, Step(p, r, last).box);
    }
  }

  lemma PrefixKept(start: seq<Message>, line: seq<Message>, handed: seq<Message>, rest: seq<Message>, box: seq<Message>)
    requires start <= line && rest <= box
    ensures line == handed + rest ==> start <= handed + box
  {
    if line == handed + rest {
      assert handed + box == line + box[|rest|..];
    }
  }

  lemma StepAppends(p: Primitives, w: World, e: Event)
    ensures (if Taken(w, e).Some? then w.box[1..] else w.box) <= Step(p, w, e).box
  {
    hide Ticked, WorkerExited, CodexUpdated, RetryTimerHandled, ProduceAll, AllCancelled;
    match e {
      case Deliver(env) =>
        if w.status == Live && w.box != [] {
          var w1 := w.(box := w.box[1..]);
          match w.box[0] {
            case PollTick => TickFrame(p, w1, env.tick);
            case RetryTimerFired(id) =>
              RetryFrame(w1.core, w1.box, id, env.retry, w.config.maxConcurrentByState, w.config.maxRetryBackoffMs);
            case _ =>
          }
        }
      case Outside(producer) => AwaitedFrame(w, [producer]);
      case TearDown =>
    }
  }

  /** Nothing in the run posts a retry of `k` from outside, and `k` does not run before any of its
      steps. */
  ghost predicate Undisturbed(p: Primitives, w: World, events: seq<Event>, k: string) {
    forall i :: 0 <= i < |events| ==> CalmEvent(events[i], k) && k !in Run(p, w, events[..i]).core.st.running
  }

  lemma UndisturbedInit(p: Primitives, w: World, events: seq<Event>, k: string)
    requires events != [] && Undisturbed(p, w, events, k)
    ensures var init := events[..|events| - 1];
      && Undisturbed(p, w, init, k) && CalmEvent(events[|events| - 1], k)
      && k !in Run(p, w, init).core.st.running
  {
    hide Run, CalmEvent;
    var init := events[..|events| - 1];
    forall i | 0 <= i < |init| ensures CalmEvent(init[i], k) && k !in Run(p, w, init[..i]).core.st.running {
      assert init[..i] == events[..i];
    }
  }

  /** As long as no retry of `k` has been delivered: none has been added, no timer posts one, and
      a live dispatcher still has the entry of `k`, unless `k` has just been started. */
  ghost predicate Undelivered(w: World, handed: seq<Message>, r: World, k: string) {
    && NobodyPosts(r.core.q.timers, k)
    && w.box <= handed + r.box && RetryTimerFired(k) !in (handed + r.box)[|w.box|..]
    && (r.status == Live && k !in r.core.st.running ==> k in r.core.q.entries)
  }

  /** What follows the start in a line of messages stays free of `m` while it only grows by others. */
  lemma Grown(start: seq<Message>, line: seq<Message>, handed: seq<Message>, rest: seq<Message>, box: seq<Message>, m: Message)
    requires start <= line && m !in line[|start|..]
    requires rest <= box && m !in box[|rest|..]
    ensures line == handed + rest ==> start <= handed + box && m !in (handed + box)[|start|..]
  {
    if line == handed + rest {
      assert handed + box == line + box[|rest|..];
      assert (handed + box)[|start|..] == line[|start|..] + box[|rest|..];
    }
  }

  /** One more step that does not deliver it. */
  lemma UndeliveredStep(w: World, handed: seq<Message>, r: World, e: Event, r2: World, k: string)
    requires Undelivered(w, handed, r, k) && k !in r.core.st.running
    requires Taken(r, e) != Some(RetryTimerFired(k)) && StaysQuiet(r, e, r2, k)
    ensures Undelivered(w, handed + if Taken(r, e).Some? then [Taken(r, e).value] else [], r2, k)
  {
    hide NobodyPosts;
    var delivered := if Taken(r, e).Some? then [Taken(r, e).value] else [];
    var rest := if Taken(r, e).Some? then r.box[1..] else r.box;
    assert handed + r.box == handed + delivered + rest;
    Grown(w.box, handed + r.box, handed + delivered, rest, r2.box, RetryTimerFired(k));
  }

  lemma {:induction false} RunUndelivered(p: Primitives, w: World, events: seq<Event>, k: string)
    requires NobodyPosts(w.core.q.timers, k) && k in w.core.q.entries && Undisturbed(p, w, events, k)
    requires RetryTimerFired(k) !in Handed(p, w, events)
    ensures Undelivered(w, Handed(p, w, events), Run(p, w, events), k)
  {
    hide Step, CalmEvent, NobodyPosts, Undisturbed, Taken, StaysQuiet;
    if events == [] {
      assert Handed(p, w, events) + w.box == w.box;
    } else {
      hide Undelivered;
      var init, last := events[..|events| - 1], events[|events| - 1];
      var r := Run(p, w, init);
      UndisturbedInit(p, w, events, k);
      RunUndelivered(p, w, init, k);
      StepQuietly(p, r, last, k);
      UndeliveredStep(w, Handed(p, w, init), r, last, Step(p, r, last), k);
    }
  }

  /** A retry message of `k` pops its entry at some step of the run. */
  ghost predicate PoppedByMessage(p: Primitives, w: World, events: seq<Event>, k: string) {
    exists i :: 0 <= i < |events| && PopsAt(p, w, events, i, k)
  }

  ghost predicate PopsAt(p: Primitives, w: World, events: seq<Event>, i: nat, k: string)
    requires i < |events|
  {
    var r := Run(p, w, events[..i]);
    Taken(r, events[i]) == Some(RetryTimerFired(k)) && k in r.core.q.entries
  }

  /** The step that delivers a message for the first time. */
  lemma {:induction false} FirstDelivery(p: Primitives, w: World, events: seq<Event>, m: Message) returns (i: nat)
    requires m in Handed(p, w, events)
    ensures i < |events| && Taken(Run(p, w, events[..i]), events[i]) == Some(m)
    ensures m !in Handed(p, w, events[..i]) && |Handed(p, w, events[..i])| < |Handed(p, w, events)|
  {
    hide Run, Taken;
    var init := events[..|events| - 1];
    if m in Handed(p, w, init) {
      i := FirstDelivery(p, w, init, m);
      assert init[..i] == events[..i];
    } else {
      i := |init|;
    }
  }

  lemma {:induction false} TakenIsHanded(p: Primitives, w: World, events: seq<Event>, i: nat, m: Message)
    requires i < |events| && Taken(Run(p, w, events[..i]), events[i]) == Some(m)
    ensures m in Handed(p, w, events)
  {
    hide Run, Taken;
    var init := events[..|events| - 1];
    if i < |init| {
      assert init[..i] == events[..i];
      TakenIsHanded(p, w, init, i, m);
    }
  }

  /** The first retry message of `k` a run delivers was there from the start, and finds the entry. */
  lemma FirstDeliveryPops(p: Primitives, w: World, events: seq<Event>, k: string)
    requires NobodyPosts(w.core.q.timers, k) && k in w.core.q.entries && Undisturbed(p, w, events, k)
    requires RetryTimerFired(k) in Handed(p, w, events)
    ensures PoppedByMessage(p, w, events, k)
    ensures RetryTimerFired(k) in w.box[..Min(|w.box|, |Handed(p, w, events)|)]
  {
    hide Run, Handed, CalmEvent, NobodyPosts;
    var m := RetryTimerFired(k);
    var i := FirstDelivery(p, w, events, m);
    var before := events[..i];
    var r, handed := Run(p, w, before), Handed(p, w, before);
    forall j | 0 <= j < |before| ensures CalmEvent(before[j], k) && k !in Run(p, w, before[..j]).core.st.running {
      assert before[..j] == events[..j];
    }
    RunUndelivered(p, w, before, k);
    assert PopsAt(p, w, events, i, k);
    assert (handed + r.box)[|handed|] == m;
    var line := handed + r.box;
    assert forall j :: |w.box| <= j < |line| ==> line[j] == line[|w.box|..][j - |w.box|] && line[j] != m;
    assert w.box[|handed|] == m;
    assert w.box[..Min(|w.box|, |Handed(p, w, events)|)][|handed|] == m;
  }

  /** The exact condition for the retry of a failed spawn. Let `k` wait behind a timer that posts
      nothing, with no other live timer that posts for it. In a run that brings no such message
      from outside and does not start `k` otherwise, the entry is popped by a retry message if and
      only if one was already in the mailbox, among the messages the run gets to deliver. */
  lemma RedeliveredExactly(p: Primitives, w: World, events: seq<Event>, k: string)
    requires NobodyPosts(w.core.q.timers, k) && k in w.core.q.entries && Undisturbed(p, w, events, k)
    ensures PoppedByMessage(p, w, events, k)
       <==> RetryTimerFired(k) in w.box[..Min(|w.box|, |Handed(p, w, events)|)]
  {
    hide Run, Handed, CalmEvent, NobodyPosts, Undisturbed;
    var m, all := RetryTimerFired(k), Handed(p, w, events);
    if m in all {
      FirstDeliveryPops(p, w, events, k);
    }
    if PoppedByMessage(p, w, events, k) {
      var i :| 0 <= i < |events| && PopsAt(p, w, events, i, k);
      TakenIsHanded(p, w, events, i, m);
    }
    FirstInFirstOut(p, w, events);
    var n := Min(|w.box|, |all|);
    assert w.box[..n] == (all + Run(p, w, events).box)[..n] == all[..n];
    assert m in w.box[..n] ==> m in all;
  }

  /** When a spawn fails, no live timer is left to post for the issue exactly if the only one that
      would have was that of the entry the dispatch cancelled. */
  lemma FailedSpawnSilences(c: Core, issue: Issue, attempt: int, error: string, now: int, cap: int)
    requires Armed(c.q) && attempt >= 1
    ensures var k, d := issue.id, Dispatched(c, issue, attempt, SpawnFailed(error), now, cap).core;
      && k in d.q.entries && d.q.entries[k].attempt == attempt + 1
      && (NobodyPosts(d.q.timers, k) <==>
            forall h :: h in c.q.timers.live && c.q.timers.live[h].callback == PostRetry(k) ==>
              k in c.q.entries && c.q.entries[k].handle == h)
  {
    var k, d := issue.id, Dispatched(c, issue, attempt, SpawnFailed(error), now, cap).core;
    forall h | h in c.q.timers.live && !(k in c.q.entries && c.q.entries[k].handle == h)
      ensures h in d.q.timers.live && d.q.timers.live[h] == c.q.timers.live[h]
    {
    }
  }
}
