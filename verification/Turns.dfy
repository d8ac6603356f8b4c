/** What a turn and a startup handshake amount to on an arbitrary stream of frames, and what
    follows for callers. */
module Turns {
  import opened Prelude
  import opened Json
  import opened Mailboxes
  import opened Protocol
  import opened Frames

  // ---------------------------------------------------------------------
  // Waiting for a response
  // ---------------------------------------------------------------------

  /** Requests and notifications do not end a wait for a response; anything else does. */
  predicate Passing(f: Incoming) {
    f.Frame? && HasMethod(f.raw)
  }

  predicate EndsWait(f: Incoming) {
    !Passing(f)
  }

  function Broken(f: Incoming): Failure
    requires !f.Frame?
  {
    match f
    case Garbage => ResponseError
    case Undecodable => OtherError
    case Exited(notFound) => if notFound then CodexNotFound else PortExit
    case Silent => TimedOut
  }

  /** How many frames a wait consumes, and what it ends with. A stream that ends is silent. */
  datatype Wait = Wait(consumed: nat, answer: Answer<Response>)

  function Waited(fs: seq<Incoming>, expectedId: int, parseInt: IntParser): (w: Wait)
    ensures w.consumed <= |fs|
  {
    var i := FirstWhere(fs, EndsWait);
    if i == |fs| then Wait(i, Failed(TimedOut))
    else Wait(i + 1, if fs[i].Frame? then ParseResponse(fs[i].raw, expectedId, parseInt) else Failed(Broken(fs[i])))
  }

  lemma WaitEnds(fs: seq<Incoming>, n: nat, expectedId: int, parseInt: IntParser)
    requires n <= |fs| && forall k :: 0 <= k < n ==> Passing(fs[k])
    ensures n == |fs| ==> Waited(fs, expectedId, parseInt) == Wait(n, Failed(TimedOut))
    ensures n < |fs| && !fs[n].Frame? ==> Waited(fs, expectedId, parseInt) == Wait(n + 1, Failed(Broken(fs[n])))
    ensures n < |fs| && fs[n].Frame? && !HasMethod(fs[n].raw) ==>
      Waited(fs, expectedId, parseInt) == Wait(n + 1, ParseResponse(fs[n].raw, expectedId, parseInt))
  {
    hide ParseResponse, HasMethod;
    if n == |fs| || !Passing(fs[n]) {
      FirstWhereIs(fs, EndsWait, n);
    }
  }

  // ---------------------------------------------------------------------
  // One turn
  // ---------------------------------------------------------------------

  datatype TurnResult = TurnResult(turnId: string, payload: Object)

  /** Whether a message settles the turn. */
  datatype Verdict = Undecided | Decided(outcome: Answer<TurnResult>)

  const METHOD_TURN_COMPLETED := "turn/completed"
  const EVENT_ERROR := "error"

  function TurnStatus(turn: Object): Json {
    Get(turn, "status")
  }

  /** The acknowledgement settles the turn unless its turn object is still open, whatever other
      status it shows. */
  function AckVerdict(ack: Answer<Response>): (string, Verdict) {
    match ack
    case Failed(failure) => ("", Decided(Failed(failure)))
    case Ok(ErrorBody(_)) => ("", Decided(Failed(TurnFailed)))
    case Ok(Result(result)) =>
      match ExtractTurnId(result)
      case Failed(failure) => ("", Decided(Failed(failure)))
      case Ok(turnId) =>
        var status := TurnStatus(result["turn"].fields);
        if status == Str("completed") then (turnId, Decided(Ok(TurnResult(turnId, result))))
        else if status == Str("failed") then (turnId, Decided(Failed(TurnFailed)))
        else if status == Str("interrupted") then (turnId, Decided(Failed(TurnCancelled)))
        else (turnId, Undecided)
  }

  /** An event that settles a streaming turn: it completed with any status but "inProgress", or
      an error was reported that will not be retried. */
  predicate Settles(name: string, payload: Object) {
    || (name == METHOD_TURN_COMPLETED
        && !(Get(payload, "turn").Obj? && TurnStatus(Get(payload, "turn").fields) == Str("inProgress")))
    || (name == EVENT_ERROR && Get(payload, "willRetry") != Bool(true))
  }

  function SettledOutcome(turnId: string, name: string, payload: Object): Answer<TurnResult> {
    if name == METHOD_TURN_COMPLETED && Get(payload, "turn").Obj? then
      var status := TurnStatus(Get(payload, "turn").fields);
      if status == Str("completed") then Ok(TurnResult(turnId, payload))
      else Failed(if status == Str("interrupted") then TurnCancelled else TurnFailed)
    else Failed(TurnFailed)
  }

  /** A frame that settles a streaming turn; a broken stream does as well. */
  predicate Decisive(f: Incoming) {
    f.Frame? ==> IsNotification(f) && Settles(MethodOf(f.raw), Payload(f.raw))
  }

  function OutcomeOf(turnId: string, f: Incoming): Answer<TurnResult>
    requires Decisive(f)
  {
    if f.Frame? then SettledOutcome(turnId, MethodOf(f.raw), Payload(f.raw)) else Failed(Broken(f))
  }

  /** The outcome of a turn still open when only these frames are left. */
  function StreamOutcome(turnId: string, rest: seq<Incoming>): Answer<TurnResult> {
    var j := FirstWhere(rest, Decisive);
    if j == |rest| then Failed(TimedOut) else OutcomeOf(turnId, rest[j])
  }

  lemma StreamEnds(turnId: string, fs: seq<Incoming>, n: nat)
    requires n <= |fs| && forall k :: 0 <= k < n ==> !Decisive(fs[k])
    ensures n == |fs| || Decisive(fs[n]) ==>
      && FirstWhere(fs, Decisive) == n
      && StreamOutcome(turnId, fs) == if n == |fs| then Failed(TimedOut) else OutcomeOf(turnId, fs[n])
  {
    hide Decisive, OutcomeOf;
    if n == |fs| || Decisive(fs[n]) {
      FirstWhereIs(fs, Decisive, n);
    }
  }

  /** How many frames the acknowledgement and the whole turn consume, and how the turn ends. */
  datatype TurnRun = TurnRun(ack: nat, consumed: nat, outcome: Answer<TurnResult>)

  /** The outcome is that of the acknowledgement if it settles the turn, else of the first
      decisive frame after it. */
  function Turn(fs: seq<Incoming>, requestId: int, parseInt: IntParser): (r: TurnRun)
    ensures r.ack <= r.consumed <= |fs|
  {
    var wait := Waited(fs, requestId, parseInt);
    match AckVerdict(wait.answer)
    case (_, Decided(outcome)) => TurnRun(wait.consumed, wait.consumed, outcome)
    case (turnId, Undecided) =>
      var rest := fs[wait.consumed..];
      TurnRun(wait.consumed, Min(wait.consumed + FirstWhere(rest, Decisive) + 1, |fs|), StreamOutcome(turnId, rest))
  }

  /** The events a turn delivers: no usage before the acknowledgement, usage after it. */
  function TurnEvents(fs: seq<Incoming>, run: TurnRun): seq<RuntimeEvent>
    requires run.ack <= run.consumed <= |fs|
  {
    Events(fs[..run.ack], false) + Events(fs[run.ack..run.consumed], true)
  }

  /** `i` is the acknowledgement with the turn's id. */
  predicate Acknowledged(fs: seq<Incoming>, requestId: int, parseInt: IntParser, i: nat, result: Object, turnId: string)
  {
    && i < |fs| && fs[i].Frame? && !HasMethod(fs[i].raw)
    && (forall k :: 0 <= k < i ==> Passing(fs[k]))
    && ParseResponse(fs[i].raw, requestId, parseInt) == Ok(Result(result))
    && ExtractTurnId(result) == Ok(turnId)
  }

  predicate CompletesWith(f: Incoming, status: string) {
    && IsNotification(f) && MethodOf(f.raw) == METHOD_TURN_COMPLETED
    && Get(Payload(f.raw), "turn").Obj? && TurnStatus(Get(Payload(f.raw), "turn").fields) == Str(status)
  }

  /** `j` is the first decisive frame after the acknowledgement at `i`. */
  predicate FirstDecisiveAfter(fs: seq<Incoming>, i: nat, j: nat) {
    i < j < |fs| && Decisive(fs[j]) && forall k :: i < k < j ==> !Decisive(fs[k])
  }

  const SETTLED := {Str("completed"), Str("failed"), Str("interrupted")}

  /** Acknowledged at `i` with this status, or acknowledged open and given this status by the
      first decisive frame after that. */
  ghost predicate SettlesAs(status: string, fs: seq<Incoming>, requestId: int, parseInt: IntParser,
                            i: nat, result: Object, turnId: string)
  {
    && Acknowledged(fs, requestId, parseInt, i, result, turnId)
    && var acked := TurnStatus(result["turn"].fields);
    && (acked == Str(status)
        || (acked !in SETTLED && exists j: nat :: FirstDecisiveAfter(fs, i, j) && CompletesWith(fs[j], status)))
  }

  /** The turn is settled with this status, at its acknowledgement or later. */
  ghost predicate Settled(status: string, fs: seq<Incoming>, requestId: int, parseInt: IntParser) {
    exists i, result, turnId :: SettlesAs(status, fs, requestId, parseInt, i, result, turnId)
  }

  /** The suffix search of `Turn`, in positions of the whole stream. */
  lemma DecisiveInRest(fs: seq<Incoming>, i: nat)
    requires i < |fs|
    ensures var j := FirstWhere(fs[i + 1..], Decisive);
      && (j < |fs| - i - 1 ==> FirstDecisiveAfter(fs, i, i + 1 + j))
      && (forall m: nat :: FirstDecisiveAfter(fs, i, m) ==> m == i + 1 + j)
  {
    var rest := fs[i + 1..];
    var j := FirstWhere(rest, Decisive);
    if j < |rest| {
      forall k | i < k < i + 1 + j ensures !Decisive(fs[k]) {
        assert fs[k] == rest[k - i - 1];
      }
    }
    forall m: nat | FirstDecisiveAfter(fs, i, m) ensures m == i + 1 + j {
      assert fs[m] == rest[m - i - 1];
      forall k | 0 <= k < m - i - 1 ensures !Decisive(rest[k]) {
        assert rest[k] == fs[k + i + 1];
      }
      FirstWhereIs(rest, Decisive, m - i - 1);
    }
  }

  /** A turn succeeds exactly when its acknowledgement, or the first decisive frame after an open
      acknowledgement, says "completed", and is cancelled exactly when that says "interrupted". */
  lemma TurnSettlesExactly(fs: seq<Incoming>, requestId: int, parseInt: IntParser)
    ensures Turn(fs, requestId, parseInt).outcome.Ok? <==> Settled("completed", fs, requestId, parseInt)
    ensures Turn(fs, requestId, parseInt).outcome == Failed(TurnCancelled) <==> Settled("interrupted", fs, requestId, parseInt)
  {
    var outcome := Turn(fs, requestId, parseInt).outcome;
    if outcome.Ok? || outcome == Failed(TurnCancelled) {
      var i, result, turnId := SettledBy(fs, requestId, parseInt);
    }
    forall k, result, turnId, status |
      SettlesAs(status, fs, requestId, parseInt, k, result, turnId) && status in {"completed", "interrupted"}
      ensures if status == "completed" then outcome.Ok? else outcome == Failed(TurnCancelled)
    {
      SettlingDecides(status, fs, requestId, parseInt, k, result, turnId);
    }
    hide Turn, SettlesAs;
  }

  /** What a decisive frame says. */
  lemma DecisiveSays(turnId: string, f: Incoming)
    requires Decisive(f)
    ensures OutcomeOf(turnId, f).Ok? <==> CompletesWith(f, "completed")
    ensures OutcomeOf(turnId, f) == Failed(TurnCancelled) <==> CompletesWith(f, "interrupted")
  {
    hide Payload;
  }

  /** What an acknowledgement says. */
  lemma AckSays(ack: Answer<Response>)
    requires ack.Failed? ==> ack.failure != TurnCancelled
    ensures var (turnId, verdict) := AckVerdict(ack);
      verdict == Undecided || verdict.outcome.Ok? || verdict.outcome == Failed(TurnCancelled) ==>
        && ack.Ok? && ack.value.Result? && ExtractTurnId(ack.value.result) == Ok(turnId)
        && var status := TurnStatus(ack.value.result["turn"].fields);
           if verdict == Undecided then status !in SETTLED
           else status == Str(if verdict.outcome.Ok? then "completed" else "interrupted")
  {
  }

  lemma SettledBy(fs: seq<Incoming>, requestId: int, parseInt: IntParser)
    returns (i: nat, result: Object, turnId: string)
    requires Turn(fs, requestId, parseInt).outcome.Ok? || Turn(fs, requestId, parseInt).outcome == Failed(TurnCancelled)
    ensures SettlesAs(if Turn(fs, requestId, parseInt).outcome.Ok? then "completed" else "interrupted",
                      fs, requestId, parseInt, i, result, turnId)
  {
    i := FirstWhere(fs, EndsWait);
    ParseFailures(fs[i], requestId, parseInt);
    DecisiveInRest(fs, i);
    var ack := Waited(fs, requestId, parseInt).answer;
    AckSays(ack);
    var j := i + 1 + FirstWhere(fs[i + 1..], Decisive);
    turnId := AckVerdict(ack).0;
    if j < |fs| {
      DecisiveSays(turnId, fs[j]);
    }
    result := ack.value.result;
    hide ParseResponse, Payload, AckVerdict, Decisive, CompletesWith, OutcomeOf, ExtractTurnId, TurnStatus, SETTLED;
  }

  lemma SettlingDecides(status: string, fs: seq<Incoming>, requestId: int, parseInt: IntParser,
                        i: nat, result: Object, turnId: string)
    requires SettlesAs(status, fs, requestId, parseInt, i, result, turnId)
    requires status == "completed" || status == "interrupted"
    ensures var outcome := Turn(fs, requestId, parseInt).outcome;
            if status == "completed" then outcome.Ok? else outcome == Failed(TurnCancelled)
  {
    hide ParseResponse, Payload, Decisive, CompletesWith, OutcomeOf;
    FirstWhereIs(fs, EndsWait, i);
    DecisiveInRest(fs, i);
    var j := i + 1 + FirstWhere(fs[i + 1..], Decisive);
    if j < |fs| {
      DecisiveSays(turnId, fs[j]);
    }
  }

  lemma ParseFailures(f: Incoming, requestId: int, parseInt: IntParser)
    ensures f.Frame? && ParseResponse(f.raw, requestId, parseInt).Failed? ==>
      ParseResponse(f.raw, requestId, parseInt).failure in {ResponseError, OtherError}
  {
  }

  // ---------------------------------------------------------------------
  // Interleaving
  // ---------------------------------------------------------------------

  /** A request, or a notification that would not settle a turn. */
  predicate Quiet(f: Incoming) {
    Passing(f) && !Decisive(f)
  }

  lemma {:induction false} FirstWhereSkips(a: seq<Incoming>, f: Incoming, b: seq<Incoming>, stop: Incoming -> bool)
    requires !stop(f)
    ensures var i, j := FirstWhere(a + b, stop), FirstWhere(a + [f] + b, stop);
      && j == (if i < |a| then i else i + 1)
      && (i < |a + b| <==> j < |a + [f] + b|)
      && (i < |a + b| ==> (a + [f] + b)[j] == (a + b)[i])
  {
    var i := FirstWhere(a + b, stop);
    var j := if i < |a| then i else i + 1;
    forall k | 0 <= k < j ensures !stop((a + [f] + b)[k]) {
      if k < |a| {
        assert (a + [f] + b)[k] == (a + b)[k];
      } else if k > |a| {
        assert (a + [f] + b)[k] == (a + b)[k - 1];
      }
    }
    FirstWhereIs(a + [f] + b, stop, j);
  }

  lemma StreamSkips(turnId: string, a: seq<Incoming>, f: Incoming, b: seq<Incoming>)
    requires !Decisive(f)
    ensures StreamOutcome(turnId, a + [f] + b) == StreamOutcome(turnId, a + b)
  {
    hide Decisive, OutcomeOf;
    FirstWhereSkips(a, f, b, Decisive);
  }

  /** The wait gets the same answer, and what is left either is the same or differs by `f`. */
  lemma WaitSkips(a: seq<Incoming>, f: Incoming, b: seq<Incoming>, requestId: int, parseInt: IntParser)
    requires Passing(f)
    ensures var v, w := Waited(a + b, requestId, parseInt), Waited(a + [f] + b, requestId, parseInt);
      && v.answer == w.answer
      && if w.consumed == v.consumed then
           v.consumed <= |a|
           && (a + b)[v.consumed..] == a[v.consumed..] + b && (a + [f] + b)[w.consumed..] == a[v.consumed..] + [f] + b
         else (a + [f] + b)[w.consumed..] == (a + b)[v.consumed..]
  {
    hide Passing, ParseResponse, Broken;
    FirstWhereSkips(a, f, b, EndsWait);
    var i := FirstWhere(a + b, EndsWait);
    if i < |a| {
      assert (a + b)[i + 1..] == a[i + 1..] + b;
      assert (a + [f] + b)[i + 1..] == a[i + 1..] + [f] + b;
    } else if i < |a + b| {
      assert (a + [f] + b)[i + 2..] == (a + b)[i + 1..];
    }
  }

  /** A quiet frame slipped in anywhere changes no outcome: requests and progress reports may
      interleave with a turn at will. */
  lemma QuietFramesDoNotMatter(a: seq<Incoming>, f: Incoming, b: seq<Incoming>, requestId: int, parseInt: IntParser)
    requires Quiet(f)
    ensures Turn(a + [f] + b, requestId, parseInt).outcome == Turn(a + b, requestId, parseInt).outcome
  {
    WaitSkips(a, f, b, requestId, parseInt);
    var v := Waited(a + b, requestId, parseInt);
    hide Waited, AckVerdict, Decisive, StreamOutcome;
    if Waited(a + [f] + b, requestId, parseInt).consumed == v.consumed {
      StreamSkips(AckVerdict(v.answer).0, a[v.consumed..], f, b);
    }
  }

  // ---------------------------------------------------------------------
  // Delivery
  // ---------------------------------------------------------------------

  function Bare(e: RuntimeEvent): RuntimeEvent {
    e.(usage := None)
  }

  function BareAll(events: seq<RuntimeEvent>): seq<RuntimeEvent> {
    seq(|events|, i requires 0 <= i < |events| => Bare(events[i]))
  }

  lemma {:induction false} BareEvents(fs: seq<Incoming>, withUsage: bool)
    ensures BareAll(Events(fs, withUsage)) == Events(fs, false)
  {
    if fs != [] {
      BareEvents(fs[..|fs| - 1], withUsage);
    }
  }

  /** Usage aside, a turn delivers exactly the notifications among the frames it consumed, in
      order; those before the acknowledgement carry no usage, those after it their own. */
  lemma TurnDeliversWhatItConsumed(fs: seq<Incoming>, requestId: int, parseInt: IntParser)
    ensures var run := Turn(fs, requestId, parseInt);
      && BareAll(TurnEvents(fs, run)) == Events(fs[..run.consumed], false)
      && (forall e :: e in TurnEvents(fs, run)[..|Events(fs[..run.ack], false)|] ==> e.usage == None)
      && TurnEvents(fs, run)[|Events(fs[..run.ack], false)|..] == Events(fs[run.ack..run.consumed], true)
  {
    hide Turn, Events;
    var run := Turn(fs, requestId, parseInt);
    var early, late := fs[..run.ack], fs[run.ack..run.consumed];
    BareEvents(early, false);
    BareEvents(late, true);
    EventsConcat(early, late, false);
    assert early + late == fs[..run.consumed];
    assert BareAll(Events(early, false) + Events(late, true)) == BareAll(Events(early, false)) + BareAll(Events(late, true));
    NoUsageBefore(early);
  }

  /** The last frame a turn consumes is the one that settles it, and if that is a notification it
      is the last event delivered: nothing after it is read. */
  lemma TurnStopsAtDecision(fs: seq<Incoming>, requestId: int, parseInt: IntParser)
    ensures var run := Turn(fs, requestId, parseInt);
      run.outcome != Failed(TimedOut) ==>
        && run.consumed > 0
        && var last := fs[run.consumed - 1];
           if run.consumed == run.ack then !Passing(last)
           else Decisive(last) && (last.Frame? ==>
             IsNotification(last) && [EventOf(last, true)] <= TurnEvents(fs, run)[|TurnEvents(fs, run)| - 1..])
  {
    hide ParseResponse, ExtractTurnId, OutcomeOf, Settles, EventOf;
    var run := Turn(fs, requestId, parseInt);
    if run.consumed > run.ack {
      var late := fs[run.ack..run.consumed];
      assert late[|late| - 1] == fs[run.consumed - 1];
    }
  }

  lemma {:induction false} NoUsageBefore(fs: seq<Incoming>)
    ensures forall e :: e in Events(fs, false) ==> e.usage == None
  {
    if fs != [] {
      NoUsageBefore(fs[..|fs| - 1]);
    }
  }
}
