/** How a turn ends, read off the raw frames. */
module Settling {
  import opened Prelude
  import opened Json
  import opened Protocol
  import opened Frames
  import opened Turns
  import opened Handshakes

  // ---------------------------------------------------------------------
  // Raw frames
  // ---------------------------------------------------------------------

  /** The member `key` of a JSON object. */
  function Member(j: Json, key: string): Option<Json> {
    if j.Obj? && key in j.fields then Some(j.fields[key]) else None
  }

  /** The frame is a notification of this name. */
  predicate Notifies(f: Incoming, name: string) {
    f.Frame? && "id" !in f.raw && Member(Obj(f.raw), "method") == Some(Str(name))
  }

  function ParamsIn(f: Incoming): Json
    requires f.Frame?
  {
    match Member(Obj(f.raw), "params") case Some(params) => params case None => Null
  }

  /** The turn object in the params of a notification. */
  function TurnIn(f: Incoming): Option<Json>
    requires f.Frame?
  {
    match Member(ParamsIn(f), "turn") case Some(Obj(turn)) => Some(Obj(turn)) case _ => None
  }

  /** The frame ends a turn that is open: a read failed; the turn completed without a turn object or
      with one that is not in progress; or an error came that will not be retried. */
  predicate EndsOpenTurn(f: Incoming) {
    || !f.Frame?
    || (Notifies(f, "turn/completed") && (TurnIn(f) == None || Member(TurnIn(f).value, "status") != Some(Str("inProgress"))))
    || (Notifies(f, "error") && Member(ParamsIn(f), "willRetry") != Some(Bool(true)))
  }

  /** What it ends with. */
  function EndOf(turnId: string, f: Incoming): Answer<TurnResult>
    requires EndsOpenTurn(f)
  {
    match f
    case Garbage => Failed(ResponseError)
    case Undecodable => Failed(OtherError)
    case Exited(true) => Failed(CodexNotFound)
    case Exited(false) => Failed(PortExit)
    case Silent => Failed(TimedOut)
    case Frame(_, _, _) =>
      if Notifies(f, "turn/completed") && TurnIn(f).Some? then
        var status := Member(TurnIn(f).value, "status");
        if status == Some(Str("completed")) then Ok(TurnResult(turnId, ParamsIn(f).fields))
        else if status == Some(Str("interrupted")) then Failed(TurnCancelled)
        else Failed(TurnFailed)
      else Failed(TurnFailed)
  }

  lemma EndsAreDecisive(f: Incoming)
    ensures EndsOpenTurn(f) <==> Decisive(f)
  {
    if f.Frame? {
      assert Member(Obj(f.raw), "params") == None ==> Get(f.raw, "params") == Null;
    }
  }

  lemma EndsAlike(turnId: string, f: Incoming)
    requires EndsOpenTurn(f)
    ensures Decisive(f) && OutcomeOf(turnId, f) == EndOf(turnId, f)
  {
    EndsAreDecisive(f);
  }

  // ---------------------------------------------------------------------
  // The turn
  // ---------------------------------------------------------------------

  /** `j` is the first frame after `i` that ends an open turn. */
  predicate FirstEndAfter(fs: seq<Incoming>, i: nat, j: nat) {
    i < j < |fs| && EndsOpenTurn(fs[j]) && forall k :: i < k < j ==> !EndsOpenTurn(fs[k])
  }

  /** A turn acknowledged at `i` ends there if the acknowledgement says so, else at the first frame
      after it that ends an open turn, and reads nothing further; without one it waits in vain. */
  lemma AcknowledgedTurnEnds(fs: seq<Incoming>, requestId: int, parseInt: IntParser, i: nat, result: Object, turnId: string)
    requires Acknowledged(fs, requestId, parseInt, i, result, turnId)
    ensures var r := Turn(fs, requestId, parseInt);
      var status := Member(result["turn"], "status");
      && r.ack == i + 1
      && if status == Some(Str("completed")) then r.outcome == Ok(TurnResult(turnId, result)) && r.consumed == i + 1
         else if status == Some(Str("failed")) then r.outcome == Failed(TurnFailed) && r.consumed == i + 1
         else if status == Some(Str("interrupted")) then r.outcome == Failed(TurnCancelled) && r.consumed == i + 1
         else
           && (forall j: nat :: FirstEndAfter(fs, i, j) ==> r.outcome == EndOf(turnId, fs[j]) && r.consumed == j + 1)
           && ((forall j :: i < j < |fs| ==> !EndsOpenTurn(fs[j])) ==> r.outcome == Failed(TimedOut) && r.consumed == |fs|)
  {
    hide ParseResponse, EndsOpenTurn, Decisive, OutcomeOf, EndOf, HasMethod;
    FirstWhereIs(fs, EndsWait, i);
    DecisiveInRest(fs, i);
    forall k | 0 <= k < |fs| ensures EndsOpenTurn(fs[k]) <==> Decisive(fs[k]) {
      EndsAreDecisive(fs[k]);
    }
    var rest := fs[i + 1..];
    var at := FirstWhere(rest, Decisive);
    forall j: nat | FirstEndAfter(fs, i, j) ensures FirstDecisiveAfter(fs, i, j) && OutcomeOf(turnId, fs[j]) == EndOf(turnId, fs[j]) {
      EndsAlike(turnId, fs[j]);
    }
    if at < |rest| {
      assert rest[at] == fs[i + 1 + at];
    }
  }

  /** The frame is a request or a notification: it has a non-empty string for a method. */
  predicate Speaks(f: Incoming) {
    f.Frame? && match Member(Obj(f.raw), "method") case Some(Str(name)) => name != "" case _ => false
  }

  /** A turn waits for its acknowledgement past everything that speaks. If the first thing that does not
      is a failed read, a malformed or unnamed acknowledgement, or an error, the turn ends there. */
  lemma UnacknowledgedTurnEnds(fs: seq<Incoming>, requestId: int, parseInt: IntParser, i: nat)
    requires i <= |fs| && forall k :: 0 <= k < i ==> Speaks(fs[k])
    ensures var r := Turn(fs, requestId, parseInt);
      && (i == |fs| ==> r.outcome == Failed(TimedOut) && r.consumed == i)
      && (i < |fs| && !fs[i].Frame? ==> r.outcome == EndOf("", fs[i]) && r.consumed == i + 1)
      && (i < |fs| && fs[i].Frame? && !Speaks(fs[i]) ==>
            match ParseResponse(fs[i].raw, requestId, parseInt)
            case Failed(failure) => r.outcome == Failed(failure) && r.consumed == i + 1
            case Ok(ErrorBody(_)) => r.outcome == Failed(TurnFailed) && r.consumed == i + 1
            case Ok(Result(result)) =>
              match ExtractTurnId(result)
              case Failed(failure) => r.outcome == Failed(failure) && r.consumed == i + 1
              case Ok(turnId) => Acknowledged(fs, requestId, parseInt, i, result, turnId))
  {
    hide ParseResponse, ExtractTurnId, Decisive, StreamOutcome;
    forall k | 0 <= k < |fs| ensures Speaks(fs[k]) <==> Passing(fs[k]) {
    }
    WaitEnds(fs, i, requestId, parseInt);
    if i < |fs| && fs[i].Frame? {
      ParseFailures(fs[i], requestId, parseInt);
    }
  }

  // ---------------------------------------------------------------------
  // The handshake
  // ---------------------------------------------------------------------

  /** What a round trip comes to whose first frame that does not speak is at `i`. */
  function RoundEnd(fs: seq<Incoming>, id: int, parseInt: IntParser, i: nat): Answer<Object>
    requires i <= |fs|
  {
    if i == |fs| then Failed(ResponseTimeout)
    else
      match fs[i]
      case Garbage => Failed(ResponseError)
      case Undecodable => Failed(OtherError)
      case Exited(true) => Failed(CodexNotFound)
      case Exited(false) => Failed(PortExit)
      case Silent => Failed(ResponseTimeout)
      case Frame(raw, _, _) =>
        match ParseResponse(raw, id, parseInt)
        case Failed(failure) => Failed(failure)
        case Ok(ErrorBody(_)) => Failed(ResponseError)
        case Ok(Result(result)) => Ok(result)
  }

  lemma RoundEnds(fs: seq<Incoming>, id: int, parseInt: IntParser, i: nat)
    requires i <= |fs| && (forall k :: 0 <= k < i ==> Speaks(fs[k])) && (i < |fs| ==> !Speaks(fs[i]))
    ensures RoundTripped(Waited(fs, id, parseInt).answer) == RoundEnd(fs, id, parseInt, i)
    ensures Waited(fs, id, parseInt).consumed == Min(i + 1, |fs|)
  {
    hide ParseResponse;
    forall k | 0 <= k < |fs| ensures Speaks(fs[k]) <==> Passing(fs[k]) {
    }
    WaitEnds(fs, i, id, parseInt);
    if i < |fs| {
      ParseFailures(fs[i], id, parseInt);
    }
  }

  /** Each of the three round trips of a handshake that fails, or names no thread or turn, is its end,
      and nothing after it is read; one that goes well hands over to the next. */
  lemma HandshakeEnds(t: Table, fs: seq<Incoming>, id: int, a: Startup, parseInt: IntParser, threadId: string, i: nat)
    requires i <= |fs| && (forall k :: 0 <= k < i ==> Speaks(fs[k])) && (i < |fs| ==> !Speaks(fs[i]))
    ensures var n, round := Min(i + 1, |fs|), RoundEnd(fs, id, parseInt, i);
      var first, second, third := Shake(t, fs, id, a, parseInt), ThreadStep(t, fs, id, a, parseInt),
        TurnStep(t, fs, id, a, parseInt, threadId);
      && third.consumed == n
      && (round.Failed? ==>
            && first.outcome == second.outcome == third.outcome == Failed(round.failure)
            && first.consumed == second.consumed == n)
      && (round.Ok? ==>
            && first.outcome == ThreadStep(t, fs[n..], id + 1, a, parseInt).outcome
            && (ExtractThreadId(round.value).Failed? ==> second.outcome == Failed(ResponseError) && second.consumed == n)
            && (ExtractThreadId(round.value).Ok? ==>
                  second.outcome == TurnStep(t, fs[n..], id + 1, a, parseInt, ExtractThreadId(round.value).value).outcome)
            && (ExtractTurnId(round.value).Failed? ==> third.outcome == Failed(ResponseError))
            && (ExtractTurnId(round.value).Ok? ==> third.outcome == Answer.Ok(Session(threadId, ExtractTurnId(round.value).value))))
  {
    hide RoundEnd, RoundTripped, Waited, Stage, ThreadFrames;
    RoundEnds(fs, id, parseInt, i);
  }
}
