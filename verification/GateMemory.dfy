/** What the gate remembers of an issue it has asked about, and that nothing but new input makes
    it ask again. */
module GateMemory {
  import opened Prelude
  import opened Tracker
  import opened Mailboxes
  import opened Retry
  import opened Clarification
  import opened Dispatch
  import opened Lifecycle
  import opened World
  import opened Framing
  import opened GateRuns

  // ---------------------------------------------------------------------
  // One turn
  // ---------------------------------------------------------------------

  /** One turn of the gate: the world it finds, the candidate, and what the outside answers. */
  datatype GateTurn = GateTurn(before: World, issue: Issue, e: CandidateEnv)

  type Waits = map<string, WaitEntry>

  function WaitsOf(w: World): Waits {
    w.core.st.clarificationWaiting
  }

  /** The digest of the issue's texts followed by those of the comments, if they can be hashed. */
  predicate IsDigestOf(p: Primitives, fingerprint: string, issue: Issue, comments: seq<Comment>) {
    && AllEncodable(p, IssueParts(p, issue) + CommentsParts(p, comments))
    && fingerprint == p.sha256(Join("\0", IssueParts(p, issue) + CommentsParts(p, comments)))
  }

  /** The turn gets as far as an analysis that is not content: the issue is due, and its inputs are
      not those the gate has on record. */
  predicate Doubts(p: Primitives, waits: Waits, issue: Issue, e: CandidateEnv) {
    && e.comments.Returned? && AllEncodable(p, IssueParts(p, issue) + CommentsParts(p, e.comments.value))
    && (issue.id in waits ==>
          && waits[issue.id].nextPollAt <= e.now && waits[issue.id].lastInputFingerprint.Some?
          && !IsDigestOf(p, waits[issue.id].lastInputFingerprint.value, issue, e.comments.value))
    && e.analysis.Returned? && !e.analysis.value.sufficient && AllEncodable(p, Asked(e.analysis.value.questions))
  }

  /** And its questions reach the issue: they are pending there already, or the comment is posted. */
  predicate Asks(p: Primitives, waits: Waits, issue: Issue, e: CandidateEnv) {
    && Doubts(p, waits, issue, e)
    && (e.addComment.Returned?
        || (issue.id in waits
            && waits[issue.id].lastQuestionFingerprint == Some(p.sha256(Join("\n", Asked(e.analysis.value.questions))))))
  }

  /** The record of a turn that asked: its issue, who had commented, the questions, and the texts
      asked about. */
  ghost predicate Recalls(p: Primitives, entry: WaitEntry, issue: Issue, e: CandidateEnv) {
    && e.comments.Returned? && e.analysis.Returned?
    && entry.issueId == issue.id && entry.identifier == issue.identifier
    && entry.lastSeenCommentIds == (set c | c in FromPeople(e.comments.value) :: c.id)
    && entry.lastQuestionFingerprint == Some(p.sha256(Join("\n", Asked(e.analysis.value.questions))))
    && entry.lastInputFingerprint.Some? && IsDigestOf(p, entry.lastInputFingerprint.value, issue, e.comments.value)
  }

  lemma DigestIsFingerprint(p: Primitives, issue: Issue, comments: seq<Comment>, fingerprint: string)
    ensures IsDigestOf(p, fingerprint, issue, comments) <==> InputFingerprint(p, issue, comments) == Returned(fingerprint)
    ensures InputFingerprint(p, issue, comments).Raised? <==> !AllEncodable(p, IssueParts(p, issue) + CommentsParts(p, comments))
  {
    hide Join, IssueParts, CommentsParts;
    FingerprintsRaiseExactly(p, issue, comments, []);
  }

  lemma QuestionsDigest(p: Primitives, questions: seq<string>)
    ensures QuestionFingerprint(p, questions)
         == if AllEncodable(p, Asked(questions)) then Returned(p.sha256(Join("\n", Asked(questions))))
            else Raised("surrogates not allowed")
  {
    hide Join, Asked;
    JoinEncodable(p, "\n", Asked(questions));
  }

  /** An issue of this record is on the waiting list with the fingerprint of its inputs. */
  ghost predicate InputsStored(waits: Waits) {
    forall id :: id in waits ==> waits[id].lastInputFingerprint.Some?
  }

  /** The turn asks: questions that are pending are recorded at once, others once they are posted. */
  lemma AskRecords(p: Primitives, w: World, issue: Issue, fingerprint: string, asked: string, e: CandidateEnv)
    requires e.comments.Returned? && e.analysis.Returned? && IsDigestOf(p, fingerprint, issue, e.comments.value)
    requires asked == p.sha256(Join("\n", Asked(e.analysis.value.questions)))
    ensures var was := WaitsOf(w);
      var now := WaitsOf(GateAsks(w, issue, NonClarificationCommentIds(e.comments.value), fingerprint, asked, e));
      if e.addComment.Returned? || (issue.id in was && was[issue.id].lastQuestionFingerprint == Some(asked)) then
        && issue.id in now && now == was[issue.id := now[issue.id]]
        && Recalls(p, now[issue.id], issue, e) && now[issue.id].nextPollAt == e.now + 300_000_000
      else now == was
  {
    hide ProduceAll, IsDigestOf, NonClarificationCommentIds, Asked, Join, FromPeople;
    IdsFromPeopleOnly(e.comments.value);
  }

  /** Nothing but the poll time of the issue's record is new. */
  predicate SameRecord(was: Waits, now: Waits, id: string) {
    && (id in now <==> id in was)
    && (id in now ==> now[id] == was[id].(nextPollAt := now[id].nextPollAt))
  }

  /** The turn finds the issue due, and its inputs those on record. */
  predicate FindsNothingNew(p: Primitives, waits: Waits, issue: Issue, e: CandidateEnv) {
    && issue.id in waits && waits[issue.id].nextPollAt <= e.now && waits[issue.id].lastInputFingerprint.Some?
    && e.comments.Returned? && IsDigestOf(p, waits[issue.id].lastInputFingerprint.value, issue, e.comments.value)
  }

  /** A turn writes a new record exactly if it asks, and then of this issue and these comments; it
      strikes the record exactly if it opens; and otherwise at most the poll time is new, five minutes
      on, exactly if the turn finds nothing new. */
  lemma TurnRecords(p: Primitives, w: World, issue: Issue, e: CandidateEnv)
    requires InputsStored(WaitsOf(w))
    ensures var (r, allowed) := Gate(p, w, issue, e);
      var was, now := WaitsOf(w), WaitsOf(r);
      && (forall id :: id != issue.id ==> (id in now <==> id in was) && (id in now ==> now[id] == was[id]))
      && if Asks(p, was, issue, e) then
           issue.id in now && Recalls(p, now[issue.id], issue, e) && now[issue.id].nextPollAt == e.now + 300_000_000
         else if allowed then issue.id !in now
         else
           && SameRecord(was, now, issue.id)
           && (issue.id in was ==>
                 now[issue.id].nextPollAt == if FindsNothingNew(p, was, issue, e) then e.now + 300_000_000 else was[issue.id].nextPollAt)
  {
    hide ProduceAll, InputFingerprint, QuestionFingerprint, NonClarificationCommentIds, Asked, AllEncodable, Join, IssueParts,
         CommentsParts, GateAsks, Recalls, FromPeople;
    if e.comments.Returned? {
      DigestIsFingerprint(p, issue, e.comments.value, "");
      var hashed := InputFingerprint(p, issue, e.comments.value);
      if hashed.Returned? {
        DigestIsFingerprint(p, issue, e.comments.value, hashed.value);
        if e.analysis.Returned? {
          QuestionsDigest(p, e.analysis.value.questions);
          var w1 := Awaited(Awaited(w, e.duringComments), e.duringAnalysis);
          AskRecords(p, w1, issue, hashed.value, p.sha256(Join("\n", Asked(e.analysis.value.questions))), e);
        }
      }
    }
  }

  /** No new input, no new question: once a turn has asked on some comments, every later turn that
      finds its record, on the same texts of the issue and the same comments from people, stays
      asleep, whatever it would be told by then. */
  lemma AskedOnceSleeps(p: Primitives, w: World, issue: Issue, e: CandidateEnv, later: World, now: Issue, e2: CandidateEnv)
    requires InputsStored(WaitsOf(w)) && Asks(p, WaitsOf(w), issue, e)
    requires issue.id in WaitsOf(later) && SameRecord(WaitsOf(Gate(p, w, issue, e).0), WaitsOf(later), issue.id)
    requires IssueParts(p, now) == IssueParts(p, issue)
    requires e2.comments.Returned? ==> FromPeople(e2.comments.value) == FromPeople(e.comments.value)
    ensures StaysAsleep(p, later, now, e2)
  {
    hide Gate, FromPeople, Join, AllEncodable, StaysAsleep, CommentsParts, InputFingerprint;
    assert now.id == IssueParts(p, now)[0] == issue.id;
    TurnRecords(p, w, issue, e);
    var entry := WaitsOf(later)[now.id];
    if e2.comments.Returned? {
      PartsFromPeopleOnly(p, e.comments.value);
      PartsFromPeopleOnly(p, e2.comments.value);
      DigestIsFingerprint(p, now, e2.comments.value, entry.lastInputFingerprint.value);
    }
    SleepsWhileUnchanged(p, later, now, e2);
  }

  /** In particular when all that has been said since is the gate's own comment. */
  lemma OwnQuestionDoesNotWake(p: Primitives, w: World, issue: Issue, e: CandidateEnv, later: World, now: Issue, e2: CandidateEnv,
                               before: seq<Comment>, d: Decision, own: Comment, after: seq<Comment>)
    requires InputsStored(WaitsOf(w)) && Asks(p, WaitsOf(w), issue, e)
    requires issue.id in WaitsOf(later) && SameRecord(WaitsOf(Gate(p, w, issue, e).0), WaitsOf(later), issue.id)
    requires IssueParts(p, now) == IssueParts(p, issue)
    requires own.body == FormatClarificationComment(d)
    requires e.comments == Returned(before + after) && e2.comments == Returned(before + [own] + after)
    ensures StaysAsleep(p, later, now, e2)
  {
    hide Gate, StaysAsleep, Join, AllEncodable, InputFingerprint, CommentsParts;
    assert now.id == IssueParts(p, now)[0] == issue.id;
    TurnRecords(p, w, issue, e);
    DigestIsFingerprint(p, issue, before + after, WaitsOf(later)[issue.id].lastInputFingerprint.value);
    OwnCommentDoesNotWake(p, later, issue, now, e2, before, d, own, after);
  }

  /** A record without a digest, which no run has, goes by who has commented: a due issue stays asleep if
      all comments from people were seen, and is analysed if one is new. */
  lemma BareRecordGoesByComments(p: Primitives, w: World, issue: Issue, e: CandidateEnv)
    requires issue.id in WaitsOf(w) && WaitsOf(w)[issue.id].lastInputFingerprint == None
    requires WaitsOf(w)[issue.id].nextPollAt <= e.now && e.comments.Returned?
    requires AllEncodable(p, IssueParts(p, issue) + CommentsParts(p, e.comments.value))
    ensures var seen := forall c :: c in FromPeople(e.comments.value) ==> c.id in WaitsOf(w)[issue.id].lastSeenCommentIds;
      && (seen ==> StaysAsleep(p, w, issue, e))
      && (!seen && e.analysis.Returned? && e.analysis.value.sufficient ==> Gate(p, w, issue, e).1)
  {
    hide ProduceAll, InputFingerprint, NonClarificationCommentIds, FromPeople, IssueParts, CommentsParts, QuestionFingerprint;
    DigestIsFingerprint(p, issue, e.comments.value, "");
    IdsFromPeopleOnly(e.comments.value);
  }

  // ---------------------------------------------------------------------
  // Every run
  // ---------------------------------------------------------------------

  /** The turns of the gate in a dispatch loop, a tick, a step, a run. */
  function LoopTurns(p: Primitives, w: World, eligible: seq<Issue>, n: nat, candidate: nat -> CandidateEnv): seq<GateTurn>
    requires n <= |eligible|
  {
    if n == 0 then []
    else
      var w1 := DispatchedFirst(p, w, eligible, n - 1, candidate);
      LoopTurns(p, w, eligible, n - 1, candidate)
      + if w1.status != Crashed && HasSlot(w1.core.st, eligible[n - 1].state, w1.config.maxConcurrentByState)
        then [GateTurn(w1, eligible[n - 1], candidate(n - 1))] else []
  }

  function TickTurns(p: Primitives, w: World, env: TickEnv): seq<GateTurn> {
    if env.loader.Raised? || env.loader.value == None || env.fetch.Raised? then []
    else
      var w1 := Awaited(Reconciled(w, env).(config := env.loader.value.value), env.duringFetch);
      var eligible := EligibleInOrder(w1, env.fetch.value);
      if Sortable(EligibleNow(w1, env.fetch.value)) then LoopTurns(p, w1, eligible, |eligible|, env.candidate) else []
  }

  function StepTurns(p: Primitives, w: World, e: Event): seq<GateTurn> {
    if Taken(w, e) == Some(PollTick) then TickTurns(p, w.(box := w.box[1..]), e.env.tick) else []
  }

  function RunTurns(p: Primitives, w: World, events: seq<Event>): seq<GateTurn> {
    if events == [] then []
    else
      var init := events[..|events| - 1];
      RunTurns(p, w, init) + StepTurns(p, Run(p, w, init), events[|events| - 1])
  }

  predicate AsksIn(p: Primitives, t: GateTurn) {
    Asks(p, WaitsOf(t.before), t.issue, t.e)
  }

  /** The turn at `k` is the last one that asked about `id` or opened for it, and it asked. */
  ghost predicate LastAsked(p: Primitives, turns: seq<GateTurn>, k: nat, id: string) {
    && k < |turns| && turns[k].issue.id == id && AsksIn(p, turns[k])
    && forall m :: k < m < |turns| && turns[m].issue.id == id ==> !AsksIn(p, turns[m]) && !Opens(p, turns[m])
  }

  predicate Opens(p: Primitives, t: GateTurn) {
    Gate(p, t.before, t.issue, t.e).1
  }

  /** An issue waits exactly while the gate has asked about it and not opened since, and what is on
      record is the last turn that asked. */
  ghost predicate Remembers(p: Primitives, turns: seq<GateTurn>, waits: Waits) {
    && (forall id :: id in waits ==> exists k: nat :: LastAsked(p, turns, k, id))
    && (forall id, k: nat :: LastAsked(p, turns, k, id) ==> id in waits && RecallsAt(p, waits[id], turns, k))
  }

  ghost predicate RecallsAt(p: Primitives, entry: WaitEntry, turns: seq<GateTurn>, k: nat) {
    k < |turns| && Recalls(p, entry, turns[k].issue, turns[k].e)
  }

  lemma RememberedStored(p: Primitives, turns: seq<GateTurn>, waits: Waits)
    requires Remembers(p, turns, waits)
    ensures InputsStored(waits)
  {
    hide LastAsked;
    forall id | id in waits ensures waits[id].lastInputFingerprint.Some? {
      var k: nat :| LastAsked(p, turns, k, id);
    }
  }

  /** One more turn of another issue, or of this one without asking or opening, leaves it as it was. */
  lemma LastAskedMore(p: Primitives, turns: seq<GateTurn>, t: GateTurn, k: nat, id: string)
    ensures LastAsked(p, turns + [t], k, id) <==>
      (if t.issue.id == id && AsksIn(p, t) then k == |turns|
       else LastAsked(p, turns, k, id) && !(t.issue.id == id && Opens(p, t)))
  {
    hide AsksIn, Opens;
    var all := turns + [t];
    assert all[|turns|] == t;
    assert forall m :: 0 <= m < |turns| ==> all[m] == turns[m];
  }

  lemma TurnRemembers(p: Primitives, turns: seq<GateTurn>, t: GateTurn)
    requires Remembers(p, turns, WaitsOf(t.before))
    ensures Remembers(p, turns + [t], WaitsOf(Gate(p, t.before, t.issue, t.e).0))
  {
    hide Gate, Asks, LastAsked, Recalls;
    RememberedStored(p, turns, WaitsOf(t.before));
    TurnRecords(p, t.before, t.issue, t.e);
    AskingKeepsShut(p, t.before, t.issue, t.e);
    var was, now, all := WaitsOf(t.before), WaitsOf(Gate(p, t.before, t.issue, t.e).0), turns + [t];
    forall id | id in now ensures exists k: nat :: LastAsked(p, all, k, id) {
      if id == t.issue.id && AsksIn(p, t) {
        LastAskedMore(p, turns, t, |turns|, id);
      } else {
        var k: nat :| LastAsked(p, turns, k, id);
        LastAskedMore(p, turns, t, k, id);
      }
    }
    forall id, k: nat | LastAsked(p, all, k, id) ensures id in now && RecallsAt(p, now[id], all, k) {
      LastAskedMore(p, turns, t, k, id);
      if !(id == t.issue.id && AsksIn(p, t)) {
        assert RecallsAt(p, was[id], turns, k);
        assert all[k] == turns[k];
        RecallsUpToPoll(p, was[id], now[id], turns[k].issue, turns[k].e);
      }
    }
  }

  lemma RecallsUpToPoll(p: Primitives, a: WaitEntry, b: WaitEntry, issue: Issue, e: CandidateEnv)
    requires Recalls(p, a, issue, e) && b == a.(nextPollAt := b.nextPollAt)
    ensures Recalls(p, b, issue, e)
  {
  }

  lemma AskingKeepsShut(p: Primitives, w: World, issue: Issue, e: CandidateEnv)
    ensures Asks(p, WaitsOf(w), issue, e) ==> !Gate(p, w, issue, e).1
  {
    hide ProduceAll, InputFingerprint, QuestionFingerprint, NonClarificationCommentIds, Asked, AllEncodable, Join, GateAsks;
  }

  lemma {:induction false} LoopRemembers(p: Primitives, turns: seq<GateTurn>, w: World, eligible: seq<Issue>, n: nat,
                                         candidate: nat -> CandidateEnv)
    requires n <= |eligible| && Remembers(p, turns, WaitsOf(w))
    ensures Remembers(p, turns + LoopTurns(p, w, eligible, n, candidate),
                      WaitsOf(DispatchedFirst(p, w, eligible, n, candidate)))
  {
    hide Remembers, Considered, Gate, HasSlot;
    if n == 0 {
      assert turns + [] == turns;
    } else {
      LoopRemembers(p, turns, w, eligible, n - 1, candidate);
      var w1, earlier := DispatchedFirst(p, w, eligible, n - 1, candidate), LoopTurns(p, w, eligible, n - 1, candidate);
      var t := GateTurn(w1, eligible[n - 1], candidate(n - 1));
      ConsideredWaits(p, w1, eligible[n - 1], candidate(n - 1));
      assert turns + (earlier + [t]) == turns + earlier + [t] && earlier + [] == earlier;
      TurnRemembers(p, turns + earlier, t);
    }
  }

  lemma ConsideredWaits(p: Primitives, w: World, issue: Issue, e: CandidateEnv)
    ensures WaitsOf(Considered(p, w, issue, e))
         == if HasSlot(w.core.st, issue.state, w.config.maxConcurrentByState) then WaitsOf(Gate(p, w, issue, e).0) else WaitsOf(w)
  {
    hide Gate, HasSlot, Dispatched;
    var w1 := Gate(p, w, issue, e).0;
    DispatchedFrame(w1.core, issue, 1, e.spawn, e.now, w1.config.maxRetryBackoffMs);
  }

  lemma TickRemembers(p: Primitives, turns: seq<GateTurn>, w: World, env: TickEnv)
    requires Remembers(p, turns, WaitsOf(w))
    ensures Remembers(p, turns + TickTurns(p, w, env), WaitsOf(Ticked(p, w, env)))
  {
    hide Remembers, Reconciled, DispatchedFirst, LoopTurns, EligibleInOrder, EligibleNow, Sortable, ProduceAll;
    ReconciledFrame(w, env);
    assert turns + [] == turns;
    if env.loader.Returned? && env.loader.value.Some? && env.fetch.Returned? {
      var w1 := Awaited(Reconciled(w, env).(config := env.loader.value.value), env.duringFetch);
      var eligible := EligibleInOrder(w1, env.fetch.value);
      LoopRemembers(p, turns, w1, eligible, |eligible|, env.candidate);
    }
  }

  lemma StepRemembers(p: Primitives, turns: seq<GateTurn>, w: World, e: Event)
    requires Remembers(p, turns, WaitsOf(w))
    ensures Remembers(p, turns + StepTurns(p, w, e), WaitsOf(Step(p, w, e)))
  {
    hide Remembers, Ticked, TickTurns, RetryTimerHandled, Scheduled, ProduceAll, EntryUpdated, ReportedIncrease, AllCancelled;
    assert turns + [] == turns;
    if e.Deliver? && w.status == Live && w.box != [] {
      var w1 := w.(box := w.box[1..]);
      match w.box[0] {
        case PollTick => TickRemembers(p, turns, w1, e.env.tick);
        case RetryTimerFired(id) =>
          RetryFrame(w1.core, w1.box, id, e.env.retry, w.config.maxConcurrentByState, w.config.maxRetryBackoffMs);
        case _ =>
      }
    }
  }

  lemma StartRemembers(p: Primitives, config: Config)
    ensures Remembers(p, [], WaitsOf(Initial(config)))
  {
  }

  /** In every run the gate remembers exactly what it has asked about and not opened for since, and of
      each such issue the very texts it last asked about. */
  lemma {:induction false} RunRemembers(p: Primitives, config: Config, events: seq<Event>)
    ensures Remembers(p, RunTurns(p, Initial(config), events), WaitsOf(Run(p, Initial(config), events)))
  {
    hide Remembers, Step, StepTurns;
    if events == [] {
      StartRemembers(p, config);
    } else {
      var init := events[..|events| - 1];
      RunRemembers(p, config, init);
      StepRemembers(p, RunTurns(p, Initial(config), init), Run(p, Initial(config), init), events[|events| - 1]);
    }
  }

  /** So in every run an issue that was asked about, and not opened since, is not asked about, analysed
      or let through again while its texts and what people have said stay the same. */
  lemma UnansweredStaysAsleep(p: Primitives, config: Config, events: seq<Event>, k: nat, now: Issue, e2: CandidateEnv)
    ensures var w, turns := Run(p, Initial(config), events), RunTurns(p, Initial(config), events);
      LastAsked(p, turns, k, now.id) && IssueParts(p, now) == IssueParts(p, turns[k].issue)
      && (e2.comments.Returned? ==> FromPeople(e2.comments.value) == FromPeople(turns[k].e.comments.value))
      ==> StaysAsleep(p, w, now, e2)
  {
    hide Run, RunTurns, StaysAsleep, FromPeople, Join, AllEncodable, InputFingerprint, IssueParts, CommentsParts;
    RunRemembers(p, config, events);
    var w, turns := Run(p, Initial(config), events), RunTurns(p, Initial(config), events);
    if LastAsked(p, turns, k, now.id) && IssueParts(p, now) == IssueParts(p, turns[k].issue)
       && (e2.comments.Returned? ==> FromPeople(e2.comments.value) == FromPeople(turns[k].e.comments.value)) {
      assert RecallsAt(p, WaitsOf(w)[now.id], turns, k);
      if e2.comments.Returned? {
        PartsFromPeopleOnly(p, turns[k].e.comments.value);
        PartsFromPeopleOnly(p, e2.comments.value);
        DigestIsFingerprint(p, now, e2.comments.value, WaitsOf(w)[now.id].lastInputFingerprint.value);
      }
      SleepsWhileUnchanged(p, w, now, e2);
    }
  }
}
