/** Who gets a worker on the tick path, and a tick whose fetch repeats an id. */
module Admission {
  import opened Prelude
  import opened Tracker
  import opened Mailboxes
  import opened State
  import opened Clarification
  import opened Dispatch
  import opened Lifecycle
  import opened World
  import opened Framing
  import opened Consistency
  import opened Scenario

  // ---------------------------------------------------------------------
  // The tick path
  // ---------------------------------------------------------------------

  /** `k` runs in `r` as a first attempt at `issue`, and the gate has declared it clear since `w`. */
  ghost predicate AdmittedAs(w: World, r: World, k: string, issue: Issue) {
    && k in r.core.st.running && issue.id == k
    && r.core.st.running[k].issue == issue && r.core.st.running[k].retryAttempt == 1
    && w.gateLog <= r.gateLog && Cleared(k) in r.gateLog[|w.gateLog|..]
  }

  /** From `w` to `r` the running map has lost nothing, and has gained only admitted issues out
      of the first `n`. */
  ghost predicate AdmitsOnly(w: World, r: World, eligible: seq<Issue>, n: nat)
    requires n <= |eligible|
  {
    && w.gateLog <= r.gateLog
    && (forall k :: k in w.core.st.running ==> k in r.core.st.running && r.core.st.running[k] == w.core.st.running[k])
    && (forall k :: k in r.core.st.running && k !in w.core.st.running ==>
          exists i :: 0 <= i < n && AdmittedAs(w, r, k, eligible[i]))
  }

  /** One turn gains at most its own issue, and then as an admission. */
  ghost predicate AdmitsOne(w: World, r: World, issue: Issue) {
    && w.gateLog <= r.gateLog
    && (forall k :: k in w.core.st.running ==>
          k in r.core.st.running && (k != issue.id ==> r.core.st.running[k] == w.core.st.running[k]))
    && (forall k :: k in r.core.st.running && !AdmittedAs(w, r, k, issue) ==>
          k in w.core.st.running && r.core.st.running[k] == w.core.st.running[k])
  }

  lemma ConsideredAdmits(p: Primitives, w: World, issue: Issue, e: CandidateEnv)
    ensures AdmitsOne(w, Considered(p, w, issue, e), issue)
  {
    hide Gate, HasSlot, Dispatched;
    var (w1, allowed) := Gate(p, w, issue, e);
    GateFrame(p, w, issue, e);
    DispatchedFrame(w1.core, issue, 1, e.spawn, e.now, w1.config.maxRetryBackoffMs);
  }

  lemma AdmitsOnlyMore(w: World, w1: World, r: World, eligible: seq<Issue>, n: nat)
    requires n < |eligible| && Ahead(eligible, 0, w)
    requires AdmitsOnly(w, w1, eligible, n) && (r == w1 || AdmitsOne(w1, r, eligible[n]))
    ensures AdmitsOnly(w, r, eligible, n + 1)
  {
    forall k | k in r.core.st.running && k !in w.core.st.running
      ensures exists i :: 0 <= i < n + 1 && AdmittedAs(w, r, k, eligible[i])
    {
      if r == w1 || !AdmittedAs(w1, r, k, eligible[n]) {
        var i :| 0 <= i < n && AdmittedAs(w, w1, k, eligible[i]);
        assert AdmittedAs(w, r, k, eligible[i]);
      } else {
        assert AdmittedAs(w, r, k, eligible[n]);
      }
    }
  }

  lemma {:induction false} LoopAdmits(p: Primitives, w: World, eligible: seq<Issue>, n: nat, candidate: nat -> CandidateEnv)
    requires n <= |eligible| && Ahead(eligible, 0, w)
    ensures AdmitsOnly(w, DispatchedFirst(p, w, eligible, n, candidate), eligible, n)
  {
    hide Considered, Ahead, AdmitsOne;
    if n > 0 {
      hide AdmitsOnly;
      var w1 := DispatchedFirst(p, w, eligible, n - 1, candidate);
      LoopAdmits(p, w, eligible, n - 1, candidate);
      ConsideredAdmits(p, w1, eligible[n - 1], candidate(n - 1));
      AdmitsOnlyMore(w, w1, DispatchedFirst(p, w, eligible, n, candidate), eligible, n - 1);
    }
  }

  /** A tick starts a worker only for a fetched candidate that passed the filter of the
      configuration just loaded and that the gate declared clear in this very tick, always as
      a first attempt on the fetched snapshot. */
  lemma TickAdmitsOnlyCleared(p: Primitives, w: World, env: TickEnv, k: string) returns (issue: Issue)
    requires k !in w.core.st.running && k in Ticked(p, w, env).core.st.running
    ensures env.loader.Returned? && env.loader.value.Some? && env.fetch.Returned?
    ensures issue in env.fetch.value
    ensures var config := env.loader.value.value;
            Eligible(issue, w.core.st, Normalized(config.activeStates), Normalized(config.terminalStates))
    ensures AdmittedAs(w, Ticked(p, w, env), k, issue)
  {
    hide Reconciled, DispatchedFirst, Sortable, ProduceAll;
    var w1 := Reconciled(w, env);
    ReconciledFrame(w, env);
    var w3 := Awaited(w1.(config := env.loader.value.value), env.duringFetch);
    var eligible := EligibleInOrder(w3, env.fetch.value);
    EligibleInOrderOk(w3, env.fetch.value);
    LoopAdmits(p, w3, eligible, |eligible|, env.candidate);
    var w4 := DispatchedFirst(p, w3, eligible, |eligible|, env.candidate);
    var i :| 0 <= i < |eligible| && AdmittedAs(w3, w4, k, eligible[i]);
    issue := eligible[i];
    var active, terminal := Normalized(w3.config.activeStates), Normalized(w3.config.terminalStates);
    FilteredMembers(env.fetch.value, w3.core.st, active, terminal);
    SortKeepsMembers(Filtered(env.fetch.value, w3.core.st, active, terminal));
  }

  // ---------------------------------------------------------------------
  // What a repeated id does
  // ---------------------------------------------------------------------

  /** A first tick fetches one issue twice; both spawns are attempted and the second fails. */
  function TwinCandidate(n: nat): CandidateEnv {
    Candidate(if n == 0 then Spawned else SpawnFailed("no worker"))
  }

  /** The books do not stay in agreement. */
  lemma DuplicateFetchBreaksBooks(p: Primitives, retry: RetryEnv)
    ensures var events := [Deliver(HandlerEnv(0, TickOver(CONFIG, [ISSUE, ISSUE], TwinCandidate), retry))];
            var c := Run(p, Initial(CONFIG), events).core;
            "1" in c.st.running && "1" !in c.st.claimed && "1" in c.q.entries
  {
    var w, twins := Start(CONFIG), [ISSUE, ISSUE];
    TwinsInOrder(w);
    TwinsLoop(p, w);
    UndatedSortable(twins);
    hide DispatchedFirst, EligibleNow, EligibleInOrder, Sortable, Polled, Run, Initial;
    FirstTick(p, CONFIG, twins, TwinCandidate, retry);
    PolledInOrder(p, w, CONFIG, twins, TwinCandidate);
  }

  lemma TwinsInOrder(w: World)
    requires w == Start(CONFIG)
    ensures var twins := [ISSUE, ISSUE]; EligibleNow(w, twins) == twins == EligibleInOrder(w, twins)
  {
    assert "todo" in ["todo"] && Lower("todo") in Normalized(["todo"]);
    StringLeTotal(ISSUE.identifier, ISSUE.identifier);
    AllInOrder(w, [ISSUE, ISSUE]);
  }

  lemma TwinsLoop(p: Primitives, w: World)
    requires w == Start(CONFIG)
    ensures var r := DispatchedFirst(p, w, [ISSUE, ISSUE], 2, TwinCandidate);
            && "1" in r.core.st.running && "1" !in r.core.st.claimed && "1" in r.core.q.entries
            && r.status == Live
  {
    FirstTwin(p, w);
    SecondTwin(p, Considered(p, w, ISSUE, TwinCandidate(0)));
    hide Considered;
    var twins := [ISSUE, ISSUE];
    assert DispatchedFirst(p, w, twins, 0, TwinCandidate) == w;
    assert DispatchedFirst(p, w, twins, 1, TwinCandidate) == Considered(p, w, ISSUE, TwinCandidate(0));
  }

  /** The first of the twins takes one of the two slots. */
  ghost predicate OneTwin(w: World) {
    && w.status == Live && w.config == CONFIG && w.core.st.maxConcurrentAgents == 2
    && w.core.st.order == ["1"] && w.core.st.running == map["1" := FreshEntry(0, ISSUE, 0, 1)]
    && w.core.st.clarificationWaiting == map[] && w.core.q.entries == map[]
  }

  lemma FirstTwin(p: Primitives, w: World)
    requires w == Start(CONFIG)
    ensures OneTwin(Considered(p, w, ISSUE, TwinCandidate(0)))
  {
    PlainTurn(p, w, ISSUE, Spawned);
    assert HasSlot(w.core.st, "todo", []);
  }

  lemma SecondTwin(p: Primitives, w: World)
    requires OneTwin(w)
    ensures var r := Considered(p, w, ISSUE, TwinCandidate(1));
            "1" in r.core.st.running && "1" !in r.core.st.claimed && "1" in r.core.q.entries && r.status == Live
  {
    hide Total, Considered, Lower;
    PlainTurn(p, w, ISSUE, SpawnFailed("no worker"));
    OneRunning(w.core.st, "1", FreshEntry(0, ISSUE, 0, 1), "todo");
    SlotFree(w.core.st, "todo", []);
  }
}
