/** The startup handshake on an arbitrary stream of frames. */
module Handshakes {
  import opened Prelude
  import opened Json
  import opened Protocol
  import opened Frames
  import opened Turns

  datatype Session = Session(threadId: string, firstTurnId: string)

  /** What the caller of the handshake supplies. */
  datatype Startup = Startup(version: string, cwd: string, approvalPolicy: string, sandboxPolicy: string, prompt: string)

  /** How many frames a handshake consumed, how many request ids it used, what it wrote, and how
      it ended. */
  datatype Handshake = Handshake(consumed: nat, ids: nat, written: seq<Object>, outcome: Answer<Session>)

  /** A round trip turns silence into a response timeout and an error body into a response error. */
  function RoundTripped(answer: Answer<Response>): Answer<Object> {
    match answer
    case Failed(TimedOut) => Failed(ResponseTimeout)
    case Failed(failure) => Failed(failure)
    case Ok(ErrorBody(_)) => Failed(ResponseError)
    case Ok(Result(result)) => Ok(result)
  }

  /** What one stage writes: its own frames, the replies of its wait, then what follows it. */
  function Stage(t: Table, own: seq<Object>, fs: seq<Incoming>, n: nat, rest: seq<Object>): seq<Object>
    requires n <= |fs|
  {
    own + Replies(t, fs[..n]) + rest
  }

  lemma StageAppended(t: Table, before: seq<Object>, own: seq<Object>, fs: seq<Incoming>, n: nat, rest: seq<Object>)
    requires n <= |fs|
    ensures before + own + Replies(t, fs[..n]) + rest == before + Stage(t, own, fs, n, rest)
  {
  }

  function ThreadFrames(id: int, a: Startup): seq<Object> {
    [InitializedNotification(), ThreadStartRequest(id, a.cwd, a.approvalPolicy, a.sandboxPolicy)]
  }

  function TurnStep(t: Table, fs: seq<Incoming>, id: int, a: Startup, parseInt: IntParser, threadId: string): (h: Handshake)
    ensures h.consumed <= |fs| && h.ids == 1
  {
    var wait := Waited(fs, id, parseInt);
    Handshake(wait.consumed, 1, Stage(t, [TurnStartRequest(id, threadId, a.prompt)], fs, wait.consumed, []),
              match RoundTripped(wait.answer)
              case Failed(failure) => Failed(failure)
              case Ok(result) =>
                match ExtractTurnId(result)
                case Failed(failure) => Failed(failure)
                case Ok(turnId) => Ok(Session(threadId, turnId)))
  }

  /** The answer to thread/start, as far as the thread it names. */
  function ThreadIdOf(answer: Answer<Response>): Answer<string> {
    match RoundTripped(answer)
    case Failed(failure) => Failed(failure)
    case Ok(result) => ExtractThreadId(result)
  }

  function ThreadStep(t: Table, fs: seq<Incoming>, id: int, a: Startup, parseInt: IntParser): (h: Handshake)
    ensures h.consumed <= |fs|
  {
    var wait := Waited(fs, id, parseInt);
    match ThreadIdOf(wait.answer)
    case Failed(failure) => Handshake(wait.consumed, 1, Stage(t, ThreadFrames(id, a), fs, wait.consumed, []), Failed(failure))
    case Ok(threadId) =>
      var rest := TurnStep(t, fs[wait.consumed..], id + 1, a, parseInt, threadId);
      Handshake(wait.consumed + rest.consumed, 2, Stage(t, ThreadFrames(id, a), fs, wait.consumed, rest.written), rest.outcome)
  }

  function Shake(t: Table, fs: seq<Incoming>, id: int, a: Startup, parseInt: IntParser): (h: Handshake)
    ensures h.consumed <= |fs|
  {
    var wait := Waited(fs, id, parseInt);
    var own := [InitializeRequest(id, a.version)];
    match RoundTripped(wait.answer)
    case Failed(failure) => Handshake(wait.consumed, 1, Stage(t, own, fs, wait.consumed, []), Failed(failure))
    case Ok(_) =>
      var rest := ThreadStep(t, fs[wait.consumed..], id + 1, a, parseInt);
      Handshake(wait.consumed + rest.consumed, 1 + rest.ids, Stage(t, own, fs, wait.consumed, rest.written), rest.outcome)
  }

  // ---------------------------------------------------------------------
  // Order
  // ---------------------------------------------------------------------

  predicate WithMethod(frame: Object) {
    "method" in frame
  }

  predicate WithoutMethod(frame: Object) {
    "method" !in frame
  }

  /** The frames the client originates: those with a method. */
  function Originated(written: seq<Object>): seq<Object> {
    Kept(written, WithMethod)
  }

  /** What is left are its replies. */
  function Answering(written: seq<Object>): seq<Object> {
    Kept(written, WithoutMethod)
  }

  lemma StageOrder(t: Table, own: seq<Object>, fs: seq<Incoming>, n: nat, rest: seq<Object>)
    requires n <= |fs| && forall x :: x in own ==> WithMethod(x)
    ensures Originated(Stage(t, own, fs, n, rest)) == own + Originated(rest)
    ensures Answering(Stage(t, own, fs, n, rest)) == Replies(t, fs[..n]) + Answering(rest)
  {
    hide Replies;
    RepliesHaveNoMethod(t, fs[..n]);
    KeptBetween(own, Replies(t, fs[..n]), rest, WithMethod, WithoutMethod);
  }

  lemma StageReplies(t: Table, own: seq<Object>, fs: seq<Incoming>, n: nat, rest: seq<Object>, m: nat)
    requires n + m <= |fs| && forall x :: x in own ==> WithMethod(x)
    requires Answering(rest) == Replies(t, fs[n..][..m])
    ensures Answering(Stage(t, own, fs, n, rest)) == Replies(t, fs[..n + m])
  {
    StageOrder(t, own, fs, n, rest);
    hide Replies, Stage, Answering;
    RepliesConcat(t, fs[..n], fs[n..][..m]);
    assert fs[..n] + fs[n..][..m] == fs[..n + m];
  }

  /** A last stage is followed by nothing. */
  lemma LastStageReplies(t: Table, own: seq<Object>, fs: seq<Incoming>, n: nat)
    requires n <= |fs| && forall x :: x in own ==> WithMethod(x)
    ensures Answering(Stage(t, own, fs, n, [])) == Replies(t, fs[..n])
  {
    assert fs[n..][..0] == [];
    StageReplies(t, own, fs, n, [], 0);
  }

  lemma OwnFrames(id: int, a: Startup, threadId: string)
    ensures WithMethod(InitializeRequest(id, a.version)) && WithMethod(TurnStartRequest(id, threadId, a.prompt))
    ensures forall x :: x in ThreadFrames(id, a) ==> WithMethod(x)
  {
  }

  /** All that is written besides the client's own frames is the reply of each request consumed. */
  lemma TurnStepReplies(t: Table, fs: seq<Incoming>, id: int, a: Startup, parseInt: IntParser, threadId: string)
    ensures var h := TurnStep(t, fs, id, a, parseInt, threadId);
      Answering(h.written) == Replies(t, fs[..h.consumed])
  {
    OwnFrames(id, a, threadId);
    hide TurnStartRequest, WithMethod, Stage, Originated, Answering, Replies, Waited, RoundTripped, ExtractTurnId;
    LastStageReplies(t, [TurnStartRequest(id, threadId, a.prompt)], fs, Waited(fs, id, parseInt).consumed);
  }

  lemma ThreadStepReplies(t: Table, fs: seq<Incoming>, id: int, a: Startup, parseInt: IntParser)
    ensures var h := ThreadStep(t, fs, id, a, parseInt);
      Answering(h.written) == Replies(t, fs[..h.consumed])
  {
    var own := ThreadFrames(id, a);
    OwnFrames(id, a, "");
    hide ThreadFrames, WithMethod, Stage, Originated, Answering, Replies, Waited, ThreadIdOf, TurnStep;
    var wait := Waited(fs, id, parseInt);
    match ThreadIdOf(wait.answer) {
      case Failed(_) =>
        LastStageReplies(t, own, fs, wait.consumed);
      case Ok(threadId) =>
        var rest := TurnStep(t, fs[wait.consumed..], id + 1, a, parseInt, threadId);
        TurnStepReplies(t, fs[wait.consumed..], id + 1, a, parseInt, threadId);
        StageReplies(t, own, fs, wait.consumed, rest.written, rest.consumed);
    }
  }

  lemma HandshakeReplies(t: Table, fs: seq<Incoming>, id: int, a: Startup, parseInt: IntParser)
    ensures var h := Shake(t, fs, id, a, parseInt);
      Answering(h.written) == Replies(t, fs[..h.consumed])
  {
    var own := [InitializeRequest(id, a.version)];
    OwnFrames(id, a, "");
    hide InitializeRequest, WithMethod, Stage, Originated, Answering, Replies, Waited, RoundTripped, ThreadStep;
    var wait := Waited(fs, id, parseInt);
    match RoundTripped(wait.answer) {
      case Failed(_) =>
        LastStageReplies(t, own, fs, wait.consumed);
      case Ok(_) =>
        var rest := ThreadStep(t, fs[wait.consumed..], id + 1, a, parseInt);
        ThreadStepReplies(t, fs[wait.consumed..], id + 1, a, parseInt);
        StageReplies(t, own, fs, wait.consumed, rest.written, rest.consumed);
    }
  }

  /** The frames a complete handshake originates, the first request under this id. */
  function FullHandshake(id: int, a: Startup, threadId: string): seq<Object> {
    [InitializeRequest(id, a.version), InitializedNotification(),
     ThreadStartRequest(id + 1, a.cwd, a.approvalPolicy, a.sandboxPolicy), TurnStartRequest(id + 2, threadId, a.prompt)]
  }

  lemma FullHandshakeStages(id: int, a: Startup, threadId: string)
    ensures var own, full := [InitializeRequest(id, a.version)], FullHandshake(id, a, threadId);
      && full[..1] == own + []
      && full[..3] == own + (ThreadFrames(id + 1, a) + [])
      && full[..4] == own + (ThreadFrames(id + 1, a) + ([TurnStartRequest(id + 2, threadId, a.prompt)] + []))
  {
    hide InitializedNotification, ThreadStartRequest, InitializeRequest, TurnStartRequest;
  }

  lemma TurnStepOrder(t: Table, fs: seq<Incoming>, id: int, a: Startup, parseInt: IntParser, threadId: string)
    ensures var h := TurnStep(t, fs, id, a, parseInt, threadId);
      && Originated(h.written) == [TurnStartRequest(id, threadId, a.prompt)] + []
      && (h.outcome.Ok? ==> h.outcome.value.threadId == threadId)
  {
    OwnFrames(id, a, threadId);
    StageOrder(t, [TurnStartRequest(id, threadId, a.prompt)], fs, Waited(fs, id, parseInt).consumed, []);
    hide Stage, Answering, Replies, Waited, RoundTripped, ExtractTurnId, WithMethod, TurnStartRequest;
  }

  lemma ThreadStepOrder(t: Table, fs: seq<Incoming>, id: int, a: Startup, parseInt: IntParser) returns (threadId: string)
    ensures var h := ThreadStep(t, fs, id, a, parseInt);
      && (h.ids == 1 || h.ids == 2)
      && Originated(h.written) == ThreadFrames(id, a) + (if h.ids == 1 then [] else [TurnStartRequest(id + 1, threadId, a.prompt)] + [])
      && (h.outcome.Ok? ==> h.ids == 2 && h.outcome.value.threadId == threadId)
  {
    OwnFrames(id, a, "");
    hide ThreadFrames, WithMethod, TurnStartRequest, Stage, Answering, Replies, Waited, ThreadIdOf;
    var wait := Waited(fs, id, parseInt);
    match ThreadIdOf(wait.answer) {
      case Failed(_) =>
        threadId := "";
        StageOrder(t, ThreadFrames(id, a), fs, wait.consumed, []);
      case Ok(found) =>
        threadId := found;
        var rest := TurnStep(t, fs[wait.consumed..], id + 1, a, parseInt, threadId);
        TurnStepOrder(t, fs[wait.consumed..], id + 1, a, parseInt, threadId);
        StageOrder(t, ThreadFrames(id, a), fs, wait.consumed, rest.written);
    }
    hide Originated, TurnStep;
  }

  /** On every stream the frames the client originates during startup, its replies aside, are a
      prefix of initialize, initialized, thread/start, turn/start, with consecutive ids, and all
      four were written if a session is returned. */
  lemma HandshakeOrder(t: Table, fs: seq<Incoming>, id: int, a: Startup, parseInt: IntParser) returns (threadId: string)
    ensures var h := Shake(t, fs, id, a, parseInt);
      && 1 <= h.ids <= 3
      && Originated(h.written) == FullHandshake(id, a, threadId)[..if h.ids == 1 then 1 else h.ids + 1]
      && (h.outcome.Ok? ==> h.ids == 3 && h.outcome.value.threadId == threadId)
  {
    OwnFrames(id, a, "");
    hide InitializeRequest, ThreadFrames, TurnStartRequest, WithMethod, Stage, Answering, Replies, Waited, RoundTripped;
    var own := [InitializeRequest(id, a.version)];
    var wait := Waited(fs, id, parseInt);
    match RoundTripped(wait.answer) {
      case Failed(_) =>
        threadId := "";
        StageOrder(t, own, fs, wait.consumed, []);
      case Ok(_) =>
        var rest := ThreadStep(t, fs[wait.consumed..], id + 1, a, parseInt);
        threadId := ThreadStepOrder(t, fs[wait.consumed..], id + 1, a, parseInt);
        StageOrder(t, own, fs, wait.consumed, rest.written);
    }
    FullHandshakeStages(id, a, threadId);
    hide FullHandshake, Originated, ThreadStep;
  }

  // ---------------------------------------------------------------------
  // Correlation
  // ---------------------------------------------------------------------

  /** Position `i` holds the first frame from `from` on that is neither request nor notification,
      and it answers request `id` with this result. */
  ghost predicate AnswersAt(fs: seq<Incoming>, from: nat, i: nat, id: int, parseInt: IntParser, result: Object) {
    && from <= i < |fs| && fs[i].Frame? && !HasMethod(fs[i].raw)
    && (forall k :: from <= k < i ==> Passing(fs[k]))
    && ParseResponse(fs[i].raw, id, parseInt) == Ok(Result(result))
  }

  lemma WaitAnswers(fs: seq<Incoming>, from: nat, id: int, parseInt: IntParser)
    requires from <= |fs| && RoundTripped(Waited(fs[from..], id, parseInt).answer).Ok?
    ensures var wait := Waited(fs[from..], id, parseInt);
      wait.consumed > 0 && AnswersAt(fs, from, from + wait.consumed - 1, id, parseInt, RoundTripped(wait.answer).value)
  {
    hide ParseResponse, HasMethod;
    var rest := fs[from..];
    var n := FirstWhere(rest, EndsWait);
    assert forall k :: from <= k < from + n ==> fs[k] == rest[k - from] && !EndsWait(rest[k - from]);
  }

  lemma AnswerEndsWait(fs: seq<Incoming>, from: nat, i: nat, id: int, parseInt: IntParser, result: Object)
    requires AnswersAt(fs, from, i, id, parseInt, result)
    ensures var wait := Waited(fs[from..], id, parseInt);
      from + wait.consumed == i + 1 && RoundTripped(wait.answer) == Ok(result)
  {
    hide ParseResponse, HasMethod;
    var rest := fs[from..];
    assert forall k :: 0 <= k < i - from ==> rest[k] == fs[k + from] && Passing(fs[k + from]);
    FirstWhereIs(rest, EndsWait, i - from);
  }

  /** Three answers in a row, to the three requests in order, naming the session's thread and turn. */
  ghost predicate SessionAt(fs: seq<Incoming>, id: int, parseInt: IntParser, session: Session,
                            i: nat, first: Object, j: nat, second: Object, k: nat, third: Object)
  {
    && AnswersAt(fs, 0, i, id, parseInt, first)
    && AnswersAt(fs, i + 1, j, id + 1, parseInt, second) && ExtractThreadId(second) == Ok(session.threadId)
    && AnswersAt(fs, j + 1, k, id + 2, parseInt, third) && ExtractTurnId(third) == Ok(session.firstTurnId)
  }

  /** A session comes back exactly when the first three frames that are neither requests nor
      notifications answer the three requests in order: no other response is ever accepted, and
      none is skipped. */
  lemma SessionExactly(t: Table, fs: seq<Incoming>, id: int, a: Startup, parseInt: IntParser, session: Session)
    ensures Shake(t, fs, id, a, parseInt).outcome == Ok(session) <==>
      exists i, first, j, second, k, third :: SessionAt(fs, id, parseInt, session, i, first, j, second, k, third)
  {
    hide Shake, SessionAt;
    var _, _, _, _, _, _ := SessionFound(t, fs, id, a, parseInt, session);
    forall i, first, j, second, k, third | SessionAt(fs, id, parseInt, session, i, first, j, second, k, third)
      ensures Shake(t, fs, id, a, parseInt).outcome == Ok(session)
    {
      SessionReached(t, fs, id, a, parseInt, session, i, first, j, second, k, third);
    }
  }

  lemma SessionFound(t: Table, fs: seq<Incoming>, id: int, a: Startup, parseInt: IntParser, session: Session)
    returns (i: nat, first: Object, j: nat, second: Object, k: nat, third: Object)
    ensures Shake(t, fs, id, a, parseInt).outcome == Ok(session) ==>
      SessionAt(fs, id, parseInt, session, i, first, j, second, k, third)
  {
    hide ParseResponse, HasMethod, Replies, Stage, AnswersAt, Waited, RoundTripped, ExtractId;
    i, first, j, second, k, third := 0, map[], 0, map[], 0, map[];
    if Shake(t, fs, id, a, parseInt).outcome != Ok(session) {
      return;
    }
    var w1 := Waited(fs, id, parseInt);
    assert fs[0..] == fs;
    WaitAnswers(fs, 0, id, parseInt);
    i, first := w1.consumed - 1, RoundTripped(w1.answer).value;
    var w2 := Waited(fs[w1.consumed..], id + 1, parseInt);
    WaitAnswers(fs, i + 1, id + 1, parseInt);
    j, second := i + w2.consumed, RoundTripped(w2.answer).value;
    assert fs[w1.consumed..][w2.consumed..] == fs[j + 1..];
    var w3 := Waited(fs[j + 1..], id + 2, parseInt);
    WaitAnswers(fs, j + 1, id + 2, parseInt);
    k, third := j + w3.consumed, RoundTripped(w3.answer).value;
  }

  lemma TurnReached(t: Table, fs: seq<Incoming>, from: nat, id: int, a: Startup, parseInt: IntParser,
                    threadId: string, k: nat, third: Object)
    requires AnswersAt(fs, from, k, id, parseInt, third) && ExtractTurnId(third).Ok?
    ensures TurnStep(t, fs[from..], id, a, parseInt, threadId).outcome == Ok(Session(threadId, ExtractTurnId(third).value))
  {
    hide Replies, Stage, Waited, RoundTripped, ExtractTurnId;
    AnswerEndsWait(fs, from, k, id, parseInt, third);
  }

  lemma ThreadReached(t: Table, fs: seq<Incoming>, from: nat, id: int, a: Startup, parseInt: IntParser,
                      threadId: string, j: nat, second: Object)
    requires AnswersAt(fs, from, j, id, parseInt, second) && ExtractThreadId(second) == Ok(threadId)
    ensures ThreadStep(t, fs[from..], id, a, parseInt).outcome == TurnStep(t, fs[j + 1..], id + 1, a, parseInt, threadId).outcome
  {
    hide Replies, Stage, Waited, TurnStep, ExtractThreadId;
    AnswerEndsWait(fs, from, j, id, parseInt, second);
    var n := Waited(fs[from..], id, parseInt).consumed;
    assert fs[from..][n..] == fs[j + 1..];
  }

  lemma ThreadAwaited(t: Table, fs: seq<Incoming>, id: int, a: Startup, parseInt: IntParser, i: nat, first: Object)
    requires AnswersAt(fs, 0, i, id, parseInt, first)
    ensures Shake(t, fs, id, a, parseInt).outcome == ThreadStep(t, fs[i + 1..], id + 1, a, parseInt).outcome
  {
    hide Replies, Stage, Waited, ThreadStep;
    AnswerEndsWait(fs, 0, i, id, parseInt, first);
    assert fs[0..] == fs;
  }

  lemma SessionReached(t: Table, fs: seq<Incoming>, id: int, a: Startup, parseInt: IntParser, session: Session,
                       i: nat, first: Object, j: nat, second: Object, k: nat, third: Object)
    requires SessionAt(fs, id, parseInt, session, i, first, j, second, k, third)
    ensures Shake(t, fs, id, a, parseInt).outcome == Ok(session)
  {
    hide AnswersAt, Replies, Stage, Waited, Shake, ThreadStep, TurnStep, ExtractThreadId, ExtractTurnId, RoundTripped;
    ThreadAwaited(t, fs, id, a, parseInt, i, first);
    ThreadReached(t, fs, i + 1, id + 1, a, parseInt, session.threadId, j, second);
    TurnReached(t, fs, j + 1, id + 2, a, parseInt, session.threadId, k, third);
  }

  /** What a handshake that goes well writes, and when: each request before anything is read for it, and
      the replies to the requests that arrive while it waits before its next frame. */
  lemma HandshakeWritten(t: Table, fs: seq<Incoming>, id: int, a: Startup, parseInt: IntParser, session: Session,
                         i: nat, first: Object, j: nat, second: Object, k: nat, third: Object)
    requires SessionAt(fs, id, parseInt, session, i, first, j, second, k, third)
    ensures var h := Shake(t, fs, id, a, parseInt);
      && h.consumed == k + 1 && h.ids == 3
      && h.written == [InitializeRequest(id, a.version)] + Replies(t, fs[..i + 1])
                      + [InitializedNotification(), ThreadStartRequest(id + 1, a.cwd, a.approvalPolicy, a.sandboxPolicy)]
                      + Replies(t, fs[i + 1..j + 1])
                      + [TurnStartRequest(id + 2, session.threadId, a.prompt)] + Replies(t, fs[j + 1..k + 1])
  {
    hide AnswersAt, Replies, Waited, ExtractThreadId, ExtractTurnId, RoundTripped;
    hide InitializeRequest, InitializedNotification, ThreadStartRequest, TurnStartRequest;
    AnswerEndsWait(fs, 0, i, id, parseInt, first);
    AnswerEndsWait(fs, i + 1, j, id + 1, parseInt, second);
    AnswerEndsWait(fs, j + 1, k, id + 2, parseInt, third);
    AnswersAscend(fs, id, parseInt, session, i, first, j, second, k, third);
    assert fs[0..] == fs && fs[i + 1..][j - i..] == fs[j + 1..];
    assert fs[i + 1..][..j - i] == fs[i + 1..j + 1] && fs[j + 1..][..k - j] == fs[j + 1..k + 1];
    var turn := [TurnStartRequest(id + 2, session.threadId, a.prompt)] + Replies(t, fs[j + 1..k + 1]);
    assert turn + [] == turn;
  }

  lemma AnswersAscend(fs: seq<Incoming>, id: int, parseInt: IntParser, session: Session,
                      i: nat, first: Object, j: nat, second: Object, k: nat, third: Object)
    requires SessionAt(fs, id, parseInt, session, i, first, j, second, k, third)
    ensures i < j < k < |fs|
  {
  }
}
