/** The clarification gate over whole runs. */
module GateRuns {
  import opened Prelude
  import opened Tracker
  import opened Mailboxes
  import opened Retry
  import opened Clarification
  import opened Dispatch
  import opened Lifecycle
  import opened World
  import opened Framing

  // ---------------------------------------------------------------------
  // The log and the waiting list agree
  // ---------------------------------------------------------------------

  /** The question fingerprint an issue's last comment carries; None if it has none that has
      not been cleared since. */
  function Pending(log: seq<GateEvent>, id: string): Option<string> {
    if log == [] then None
    else
      var last := log[|log| - 1];
      if last.id != id then Pending(log[..|log| - 1], id)
      else if last.Commented? then Some(last.fingerprint)
      else None
  }

  /** An issue waits exactly while a comment is pending, and waits on that comment's
      questions. */
  ghost predicate LogAgrees(w: World) {
    forall id :: Pending(w.gateLog, id) ==
      if id in w.core.st.clarificationWaiting then w.core.st.clarificationWaiting[id].lastQuestionFingerprint else None
  }

  /** Both fingerprints of a waiting issue are stored, so the comparison of comment ids the
      gate would fall back on is never used. */
  ghost predicate FingerprintsStored(w: World) {
    forall id :: id in w.core.st.clarificationWaiting ==>
      && w.core.st.clarificationWaiting[id].lastQuestionFingerprint.Some?
      && w.core.st.clarificationWaiting[id].lastInputFingerprint.Some?
  }

  /** No comment repeats the questions that are still pending for its issue. */
  ghost predicate NoRepeats(log: seq<GateEvent>) {
    forall i :: 0 <= i < |log| && log[i].Commented? ==> Pending(log[..i], log[i].id) != Some(log[i].fingerprint)
  }

  ghost predicate GateSound(w: World) {
    LogAgrees(w) && FingerprintsStored(w) && NoRepeats(w.gateLog)
  }

  lemma AppendPending(log: seq<GateEvent>, e: GateEvent, id: string)
    ensures Pending(log + [e], id) ==
            if e.id != id then Pending(log, id) else if e.Commented? then Some(e.fingerprint) else None
  {
    assert (log + [e])[..|log + [e]| - 1] == log;
  }

  lemma AppendNoRepeats(log: seq<GateEvent>, e: GateEvent)
    requires NoRepeats(log) && (e.Commented? ==> Pending(log, e.id) != Some(e.fingerprint))
    ensures NoRepeats(log + [e])
  {
    var all := log + [e];
    forall i | 0 <= i < |all| && all[i].Commented?
      ensures Pending(all[..i], all[i].id) != Some(all[i].fingerprint)
    {
      if i < |log| {
        assert all[..i] == log[..i];
      } else {
        assert all[..i] == log;
      }
    }
  }

  /** The waiting list and the log are the only parts of the world the claims are about. */
  ghost predicate SameGate(a: World, b: World) {
    b.gateLog == a.gateLog && b.core.st.clarificationWaiting == a.core.st.clarificationWaiting
  }

  lemma CommentSound(w: World, id: string, entry: WaitEntry, fingerprint: string)
    requires GateSound(w) && entry.lastQuestionFingerprint == Some(fingerprint) && entry.lastInputFingerprint.Some?
    requires id in w.core.st.clarificationWaiting ==> w.core.st.clarificationWaiting[id].lastQuestionFingerprint != Some(fingerprint)
    ensures GateSound(Waits(w, id, entry).(gateLog := w.gateLog + [Commented(id, fingerprint)]))
  {
    var e := Commented(id, fingerprint);
    forall k ensures Pending(w.gateLog + [e], k) == if k == id then Some(fingerprint) else Pending(w.gateLog, k) {
      AppendPending(w.gateLog, e, k);
    }
    AppendNoRepeats(w.gateLog, e);
  }

  lemma ClearSound(w: World, id: string)
    requires GateSound(w)
    ensures GateSound(WithState(w, w.core.st.(clarificationWaiting := w.core.st.clarificationWaiting - {id}))
                      .(gateLog := w.gateLog + [Cleared(id)]))
  {
    var e := Cleared(id);
    forall k ensures Pending(w.gateLog + [e], k) == if k == id then None else Pending(w.gateLog, k) {
      AppendPending(w.gateLog, e, k);
    }
    AppendNoRepeats(w.gateLog, e);
  }

  lemma RewaitSound(w: World, id: string, entry: WaitEntry)
    requires GateSound(w) && id in w.core.st.clarificationWaiting
    requires entry.lastQuestionFingerprint == w.core.st.clarificationWaiting[id].lastQuestionFingerprint
    requires entry.lastInputFingerprint.Some?
    ensures GateSound(Waits(w, id, entry))
  {
  }

  lemma GateDecidesSound(p: Primitives, w: World, issue: Issue, comments: seq<Comment>, e: CandidateEnv)
    requires GateSound(w)
    ensures GateSound(GateDecides(p, w, issue, comments, e).0)
  {
    hide ProduceAll, NonClarificationCommentIds, InputFingerprint, QuestionFingerprint, NextPollAt, GateAsks;
    var waits := w.core.st.clarificationWaiting;
    var hashed, seen := InputFingerprint(p, issue, comments), NonClarificationCommentIds(comments);
    if hashed.Raised? {
    } else if issue.id in waits && NoNewInput(waits[issue.id], seen, hashed.value) {
      RewaitSound(w, issue.id, waits[issue.id].(nextPollAt := NextPollAt(e.now)));
    } else {
      var w1 := Awaited(w, e.duringAnalysis);
      assert GateSound(w1);
      if e.analysis.Raised? {
      } else if e.analysis.value.sufficient {
        ClearSound(w1, issue.id);
      } else {
        var asked := QuestionFingerprint(p, e.analysis.value.questions);
        if asked.Returned? {
          GateAsksSound(w1, issue, seen, hashed.value, asked.value, e);
        }
      }
    }
  }

  lemma GateAsksSound(w: World, issue: Issue, seen: set<string>, fingerprint: string, asked: string, e: CandidateEnv)
    requires GateSound(w)
    ensures GateSound(GateAsks(w, issue, seen, fingerprint, asked, e))
  {
    hide ProduceAll, NextPollAt;
    var waits := w.core.st.clarificationWaiting;
    var entry := WaitEntry(issue.id, issue.identifier, seen, Some(asked), NextPollAt(e.now), Some(fingerprint));
    if issue.id in waits && waits[issue.id].lastQuestionFingerprint == Some(asked) {
      RewaitSound(w, issue.id, entry);
    } else {
      var w1 := Awaited(w, e.duringAddComment);
      assert GateSound(w1);
      CommentSound(w1, issue.id, entry, asked);
    }
  }

  lemma GateKeepsSound(p: Primitives, w: World, issue: Issue, e: CandidateEnv)
    requires GateSound(w)
    ensures GateSound(Gate(p, w, issue, e).0)
  {
    hide GateDecides;
    assert GateSound(Awaited(w, e.duringComments));
    if e.comments.Returned? {
      GateDecidesSound(p, Awaited(w, e.duringComments), issue, e.comments.value, e);
    }
  }

  lemma ConsideredGateSound(p: Primitives, w: World, issue: Issue, e: CandidateEnv)
    requires GateSound(w)
    ensures GateSound(Considered(p, w, issue, e))
  {
    hide Gate, HasSlot, Scheduled, Cancelled;
    GateKeepsSound(p, w, issue, e);
  }

  lemma {:induction false} LoopGateSound(p: Primitives, w: World, eligible: seq<Issue>, n: nat, candidate: nat -> CandidateEnv)
    requires n <= |eligible| && GateSound(w)
    ensures GateSound(DispatchedFirst(p, w, eligible, n, candidate))
  {
    hide Considered, GateSound;
    if n > 0 {
      LoopGateSound(p, w, eligible, n - 1, candidate);
      ConsideredGateSound(p, DispatchedFirst(p, w, eligible, n - 1, candidate), eligible[n - 1], candidate(n - 1));
    }
  }

  lemma ReconciledSameGate(w: World, env: TickEnv)
    ensures SameGate(w, Reconciled(w, env))
  {
    hide Reconciled;
    ReconciledFrame(w, env);
  }

  lemma TickGateSound(p: Primitives, w: World, env: TickEnv)
    requires GateSound(w)
    ensures GateSound(Ticked(p, w, env))
  {
    hide Reconciled, DispatchedFirst, EligibleInOrder, EligibleNow, Sortable, ProduceAll;
    ReconciledSameGate(w, env);
    var w1 := Reconciled(w, env);
    if env.loader.Returned? && env.loader.value.Some? {
      var w3 := Awaited(w1.(config := env.loader.value.value), env.duringFetch);
      assert GateSound(w3);
      if env.fetch.Returned? {
        var eligible := EligibleInOrder(w3, env.fetch.value);
        LoopGateSound(p, w3, eligible, |eligible|, env.candidate);
      }
    }
  }

  lemma StepGateSound(p: Primitives, w: World, e: Event)
    requires GateSound(w)
    ensures GateSound(Step(p, w, e))
  {
    hide Ticked, RetryTimerHandled, Scheduled, ProduceAll, EntryUpdated, ReportedIncrease;
    if e.Deliver? && w.status == Live && w.box != [] {
      var w1 := w.(box := w.box[1..]);
      match w.box[0] {
        case PollTick => TickGateSound(p, w1, e.env.tick);
        case RetryTimerFired(id) =>
          RetryFrame(w1.core, w1.box, id, e.env.retry, w.config.maxConcurrentByState, w.config.maxRetryBackoffMs);
        case _ =>
      }
    }
  }

  lemma {:induction false} RunGateSound(p: Primitives, config: Config, events: seq<Event>)
    ensures GateSound(Run(p, Initial(config), events))
  {
    if events != [] {
      RunGateSound(p, config, events[..|events| - 1]);
      hide Step;
      StepGateSound(p, Run(p, Initial(config), events[..|events| - 1]), events[|events| - 1]);
    }
  }

  /** No repeated question: in every run, two successive comments on one issue with equal
      question fingerprints have a decision between them that the issue is clear. */
  lemma NoRepeatedQuestion(p: Primitives, config: Config, events: seq<Event>, i: nat, j: nat)
    requires var log := Run(p, Initial(config), events).gateLog;
             && i < j < |log| && log[i].Commented? && log[j] == log[i]
             && forall m :: i < m < j && log[m].id == log[i].id ==> !log[m].Commented?
    ensures var log := Run(p, Initial(config), events).gateLog;
            exists m :: i < m < j && log[m] == Cleared(log[i].id)
  {
    var log := Run(p, Initial(config), events).gateLog;
    RunGateSound(p, config, events);
    assert Pending(log[..j], log[j].id) != Some(log[j].fingerprint);
    var m := LastOn(log, i, j);
    assert log[m] == Cleared(log[i].id);
  }

  /** The last event on the issue of `log[i]` before position `j`. */
  lemma {:induction false} LastOn(log: seq<GateEvent>, i: nat, j: nat) returns (m: nat)
    requires i < j <= |log| && log[i].Commented?
    requires Pending(log[..j], log[i].id) != Some(log[i].fingerprint)
    ensures i < m < j && log[m].id == log[i].id && log[m] != log[i]
    decreases j
  {
    assert log[..j][..j - 1] == log[..j - 1];
    if log[j - 1].id == log[i].id {
      m := j - 1;
    } else {
      m := LastOn(log, i, j - 1);
    }
  }

  // ---------------------------------------------------------------------
  // The gate cannot wake itself
  // ---------------------------------------------------------------------

  /** Nothing is analysed, posted or let through: the world changes at most in the mailbox,
      the timers and the issue's own next poll time, and what is fetched or decided after the
      comments does not matter. */
  ghost predicate StaysAsleep(p: Primitives, w: World, issue: Issue, e: CandidateEnv) {
    var (r, allowed) := Gate(p, w, issue, e);
    && !allowed
    && r.gateLog == w.gateLog && r.status == w.status
    && issue.id in r.core.st.clarificationWaiting
    && r.core.st == w.core.st.(clarificationWaiting :=
         w.core.st.clarificationWaiting[issue.id :=
           w.core.st.clarificationWaiting[issue.id].(nextPollAt := r.core.st.clarificationWaiting[issue.id].nextPollAt)])
    && forall e2: CandidateEnv :: e2.now == e.now && e2.comments == e.comments && e2.duringComments == e.duringComments
         ==> Gate(p, w, issue, e2) == Gate(p, w, issue, e)
  }

  /** A waiting issue with a stored input fingerprint sleeps before its next poll time, while
      its inputs have that fingerprint, and while its comments cannot be fetched. */
  lemma SleepsWhileUnchanged(p: Primitives, w: World, issue: Issue, e: CandidateEnv)
    requires issue.id in w.core.st.clarificationWaiting
    requires var waiting := w.core.st.clarificationWaiting[issue.id];
             waiting.lastInputFingerprint.Some? &&
             (e.now < waiting.nextPollAt
              || e.comments.Raised?
              || InputFingerprint(p, issue, e.comments.value) == Returned(waiting.lastInputFingerprint.value))
    ensures StaysAsleep(p, w, issue, e)
  {
    hide InputFingerprint, NonClarificationCommentIds, QuestionFingerprint, ProduceAll;
    var waits := w.core.st.clarificationWaiting;
    assert waits[issue.id := waits[issue.id]] == waits;
  }

  /** The gate opens exactly when the issue is not asleep, its comments were fetched and hashed, and the
      analysis came back sufficient; it then forgets that the issue ever waited. */
  lemma OpensExactlyWhenClear(p: Primitives, config: Config, events: seq<Event>, issue: Issue, e: CandidateEnv)
    ensures var w := Run(p, Initial(config), events);
            var waits := w.core.st.clarificationWaiting;
            var (r, allowed) := Gate(p, w, issue, e);
            && (allowed <==>
                  && (issue.id in waits ==> waits[issue.id].nextPollAt <= e.now)
                  && e.comments.Returned?
                  && var fingerprint := InputFingerprint(p, issue, e.comments.value);
                  && fingerprint.Returned?
                  && (issue.id in waits ==> waits[issue.id].lastInputFingerprint != Some(fingerprint.value))
                  && e.analysis.Returned? && e.analysis.value.sufficient)
            && (allowed ==> r.core.st.clarificationWaiting == waits - {issue.id})
  {
    RunGateSound(p, config, events);
    hide Run, InputFingerprint, NonClarificationCommentIds, QuestionFingerprint, ProduceAll;
  }

  /** When a waiting issue is polled and the gate's own comment is all that has happened since
      its inputs were fingerprinted, the gate stays asleep, provided the issue's own texts,
      its update time among them, are as they were. */
  lemma OwnCommentDoesNotWake(p: Primitives, w: World, was: Issue, now: Issue, e: CandidateEnv,
                              before: seq<Comment>, d: Decision, own: Comment, after: seq<Comment>)
    requires now.id in w.core.st.clarificationWaiting
    requires InputFingerprint(p, was, before + after).Returned?
    requires w.core.st.clarificationWaiting[now.id].lastInputFingerprint == Some(InputFingerprint(p, was, before + after).value)
    requires own.body == FormatClarificationComment(d)
    requires e.comments == Returned(before + [own] + after)
    requires IssueParts(p, now) == IssueParts(p, was)
    ensures StaysAsleep(p, w, now, e)
  {
    OwnCommentInvisible(p, was, now, before, d, own, after);
    SleepsWhileUnchanged(p, w, now, e);
  }
}
