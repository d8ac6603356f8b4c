/** The client of the app-server process: it answers server requests, correlates responses and
    drives the handshake and the turns. */
module Client {
  import opened Prelude
  import opened Json
  import opened Mailboxes
  import opened Protocol
  import opened Frames
  import opened Turns
  import opened Handshakes

  /** What is asked of the subprocess at the end of a session. */
  datatype Ending = WaitForExit | Close

  /** The subprocess: what it will send, what has been written to it, what has been asked of it at
      the end; and how waiting for its exit and closing it will come out. */
  class Process {
    var incoming: seq<Incoming>
    var written: seq<Object>
    var endings: seq<Ending>
    const exit: Reply<bool>
    const closing: Reply<()>

    constructor (incoming: seq<Incoming>, exit: Reply<bool>, closing: Reply<()>)
      ensures this.incoming == incoming && written == [] && endings == []
      ensures this.exit == exit && this.closing == closing
    {
      this.incoming := incoming;
      this.exit := exit;
      this.closing := closing;
      written := [];
      endings := [];
    }

    /** A stream that has ended stays silent. */
    method ReadFrame() returns (f: Incoming)
      modifies this`incoming
      ensures if old(incoming) == [] then f == Silent && incoming == [] else [f] + incoming == old(incoming)
    {
      if incoming == [] {
        return Silent;
      }
      f := incoming[0];
      incoming := incoming[1..];
    }

    method WriteFrame(frame: Object)
      modifies this`written
      ensures written == old(written) + [frame]
    {
      written := written + [frame];
    }

    /** Whether the process went by itself; waiting may raise. */
    method WaitForExit() returns (r: Reply<bool>)
      modifies this`endings
      ensures endings == old(endings) + [Ending.WaitForExit] && r == exit
    {
      endings := endings + [Ending.WaitForExit];
      r := exit;
    }

    /** Closing may raise. */
    method Close() returns (r: Reply<()>)
      modifies this`endings
      ensures endings == old(endings) + [Ending.Close] && r == closing
    {
      endings := endings + [Ending.Close];
      r := closing;
    }
  }

  /** The caller's event callback. */
  class EventSink {
    var events: seq<RuntimeEvent>

    constructor ()
      ensures events == []
    {
      events := [];
    }

    method OnEvent(event: RuntimeEvent)
      modifies this
      ensures events == old(events) + [event]
    {
      events := events + [event];
    }
  }

  class CodexClient {
    const process: Process
    const approves: bool
    const parseInt: IntParser
    var nextId: nat
    var stopped: bool
    var handlers: map<string, Handler>

    constructor (process: Process, approves: bool, parseInt: IntParser)
      ensures this.process == process && this.approves == approves && this.parseInt == parseInt
      ensures nextId == 1 && !stopped
      ensures handlers == InitialHandlers()
    {
      this.process := process;
      this.approves := approves;
      this.parseInt := parseInt;
      nextId := 1;
      stopped := false;
      handlers := map[];
      new;
      RegisterServerRequest(METHOD_ITEM_TOOL_CALL, ToolCall);
      RegisterApprovals(APPROVAL_METHODS);
      RegisterServerRequest(METHOD_REQUEST_USER_INPUT, UserInput);
      RegisterServerRequest(METHOD_ELICITATION, Elicitation);
    }

    method RegisterApprovals(names: seq<string>)
      modifies this`handlers
      ensures handlers == old(handlers) + Approvals(names)
    {
      for i := 0 to |names|
        invariant handlers == old(handlers) + Approvals(names[..i])
      {
        assert names[..i + 1] == names[..i] + [names[i]];
        RegisterServerRequest(names[i], Approval(names[i]));
      }
      assert names[..|names|] == names;
    }

    ghost function Dispatch(): Table
      reads this`handlers
    {
      Table(handlers, approves)
    }

    method RegisterServerRequest(name: string, handler: Handler)
      modifies this`handlers
      ensures handlers == old(handlers)[name := handler]
    {
      handlers := handlers[name := handler];
    }

    method AllocateId() returns (id: nat)
      modifies this`nextId
      ensures id == old(nextId) && nextId == old(nextId) + 1
    {
      id := nextId;
      nextId := nextId + 1;
    }

    method DispatchServerRequest(f: Incoming)
      requires IsRequest(f)
      modifies process`written
      ensures process.written == old(process.written) + ReplySeq(Dispatch(), f)
    {
      var id, name, params := f.raw["id"], MethodOf(f.raw), Get(f.raw, "params");
      if !Routable(id) {
        assert process.written + [] == process.written;
        return;
      }
      if params != Null && !params.Obj? {
        process.WriteFrame(ErrorReply(id, CODE_INVALID_PARAMS, "invalid params: expected object, got " + TypeName(params)));
        return;
      }
      if name !in handlers {
        process.WriteFrame(ErrorReply(id, CODE_METHOD_NOT_FOUND, "method not found: " + name));
        return;
      }
      var result := Handle(handlers[name], approves, if params.Obj? then params.fields else map[], f.tool);
      match result {
        case Raised(error) => process.WriteFrame(ErrorReply(id, CODE_INTERNAL_ERROR, "handler error: " + error));
        case Returned(body) => process.WriteFrame(ResultReply(id, body));
      }
    }

    /** Reads frames until one is neither request nor notification. Requests are answered on the
        way, notifications go to the callback if there is one. */
    method AwaitResponse(expectedId: int, onEvent: EventSink?) returns (answer: Answer<Response>)
      modifies process`incoming, process`written, onEvent
      ensures var wait := Waited(old(process.incoming), expectedId, parseInt);
        && answer == wait.answer
        && process.incoming == old(process.incoming)[wait.consumed..]
        && process.written == old(process.written) + Replies(Dispatch(), old(process.incoming)[..wait.consumed])
        && (onEvent != null ==> onEvent.events == old(onEvent.events) + Events(old(process.incoming)[..wait.consumed], false))
    {
      hide Waited, ParseResponse, Replies, ReplySeq, Events, EventSeq, EventOf, HasMethod;
      ghost var fs := process.incoming;
      ghost var n: nat := 0;
      NothingTaken(Dispatch(), fs, 0, false);
      while true
        invariant n <= |fs| && process.incoming == fs[n..]
        invariant forall k :: 0 <= k < n ==> Passing(fs[k])
        invariant process.written == old(process.written) + Replies(Dispatch(), fs[0..n])
        invariant onEvent != null ==> onEvent.events == old(onEvent.events) + Events(fs[0..n], false)
        decreases |process.incoming|
      {
        var f := process.ReadFrame();
        WaitEnds(fs, n, expectedId, parseInt);
        ShapesSplit(Dispatch(), f, false);
        if n < |fs| {
          TakeOneMore(Dispatch(), fs, 0, n, false);
        }
        if !f.Frame? {
          return Failed(Broken(f));
        }
        if HasMethod(f.raw) && "id" in f.raw {
          DispatchServerRequest(f);
        } else if HasMethod(f.raw) {
          if onEvent != null {
            onEvent.OnEvent(EventOf(f, false));
          }
        } else {
          return ParseResponse(f.raw, expectedId, parseInt);
        }
        n := n + 1;
      }
    }

    method RoundTrip(request: Object, id: int) returns (answer: Answer<Object>)
      modifies process`incoming, process`written
      ensures var wait := Waited(old(process.incoming), id, parseInt);
        && answer == RoundTripped(wait.answer)
        && process.incoming == old(process.incoming)[wait.consumed..]
        && process.written == old(process.written) + [request] + Replies(Dispatch(), old(process.incoming)[..wait.consumed])
    {
      hide Waited, Replies;
      process.WriteFrame(request);
      var response := AwaitResponse(id, null);
      match response {
        case Failed(TimedOut) => return Failed(ResponseTimeout);
        case Failed(failure) => return Failed(failure);
        case Ok(ErrorBody(_)) => return Failed(ResponseError);
        case Ok(Result(result)) => return Ok(result);
      }
    }

    /** The last step of startup: the first turn on a thread. */
    method StartTurn(a: Startup, threadId: string) returns (answer: Answer<Session>)
      modifies process`incoming, process`written, this`nextId
      ensures var h := TurnStep(Dispatch(), old(process.incoming), old(nextId), a, parseInt, threadId);
        && answer == h.outcome
        && process.incoming == old(process.incoming)[h.consumed..]
        && process.written == old(process.written) + h.written
        && nextId == old(nextId) + h.ids
    {
      hide Waited, Replies, RoundTripped, ExtractTurnId, Stage, TurnStartRequest;
      ghost var fs := process.incoming;
      var id := AllocateId();
      var request := TurnStartRequest(id, threadId, a.prompt);
      var turn := RoundTrip(request, id);
      StageAppended(Dispatch(), old(process.written), [request], fs, Waited(fs, id, parseInt).consumed, []);
      if turn.Failed? {
        return Failed(turn.failure);
      }
      var turnId := ExtractTurnId(turn.value);
      match turnId {
        case Failed(failure) => return Failed(failure);
        case Ok(first) => return Ok(Session(threadId, first));
      }
    }

    /** From the initialized notification on. */
    method StartThread(a: Startup) returns (answer: Answer<Session>)
      modifies process`incoming, process`written, this`nextId
      ensures var h := ThreadStep(Dispatch(), old(process.incoming), old(nextId), a, parseInt);
        && answer == h.outcome
        && process.incoming == old(process.incoming)[h.consumed..]
        && process.written == old(process.written) + h.written
        && nextId == old(nextId) + h.ids
    {
      hide Waited, Replies, RoundTripped, ExtractThreadId, Stage, TurnStep, InitializedNotification, ThreadStartRequest;
      ghost var fs, n := process.incoming, Waited(process.incoming, nextId, parseInt).consumed;
      process.WriteFrame(InitializedNotification());
      var id := AllocateId();
      var thread := RoundTrip(ThreadStartRequest(id, a.cwd, a.approvalPolicy, a.sandboxPolicy), id);
      StageAppended(Dispatch(), old(process.written), ThreadFrames(id, a), fs, n, []);
      if thread.Failed? {
        return Failed(thread.failure);
      }
      var threadId := ExtractThreadId(thread.value);
      if threadId.Failed? {
        return Failed(threadId.failure);
      }
      answer := StartTurn(a, threadId.value);
      StageAppended(Dispatch(), old(process.written), ThreadFrames(id, a), fs, n,
                    TurnStep(Dispatch(), fs[n..], id + 1, a, parseInt, threadId.value).written);
    }

    /** initialize, initialized, thread/start, turn/start. */
    method StartSession(a: Startup) returns (answer: Answer<Session>)
      modifies process`incoming, process`written, this`nextId
      ensures var h := Shake(Dispatch(), old(process.incoming), old(nextId), a, parseInt);
        && answer == h.outcome
        && process.incoming == old(process.incoming)[h.consumed..]
        && process.written == old(process.written) + h.written
        && nextId == old(nextId) + h.ids
    {
      hide Waited, Replies, RoundTripped, Stage, ThreadStep, InitializeRequest;
      ghost var fs, n := process.incoming, Waited(process.incoming, nextId, parseInt).consumed;
      var id := AllocateId();
      var request := InitializeRequest(id, a.version);
      var ready := RoundTrip(request, id);
      StageAppended(Dispatch(), old(process.written), [request], fs, n, []);
      if ready.Failed? {
        return Failed(ready.failure);
      }
      answer := StartThread(a);
      StageAppended(Dispatch(), old(process.written), [request], fs, n,
                    ThreadStep(Dispatch(), fs[n..], id + 1, a, parseInt).written);
    }

    /** Streams frames after the acknowledgement until one settles the turn. */
    method StreamFrames(turnId: string, onEvent: EventSink) returns (answer: Answer<TurnResult>)
      modifies process`incoming, process`written, onEvent
      ensures var n := Min(FirstWhere(old(process.incoming), Decisive) + 1, |old(process.incoming)|);
        && answer == StreamOutcome(turnId, old(process.incoming))
        && process.incoming == old(process.incoming)[n..]
        && process.written == old(process.written) + Replies(Dispatch(), old(process.incoming)[..n])
        && onEvent.events == old(onEvent.events) + Events(old(process.incoming)[..n], true)
    {
      hide Replies, ReplySeq, Events, EventSeq, HasMethod, UsageOf, Settles, SettledOutcome, StreamOutcome;
      ghost var fs := process.incoming;
      ghost var n: nat := 0;
      NothingTaken(Dispatch(), fs, 0, true);
      while true
        invariant n <= |fs| && process.incoming == fs[n..]
        invariant forall k :: 0 <= k < n ==> !Decisive(fs[k])
        invariant process.written == old(process.written) + Replies(Dispatch(), fs[0..n])
        invariant onEvent.events == old(onEvent.events) + Events(fs[0..n], true)
        decreases |process.incoming|
      {
        var f := process.ReadFrame();
        ShapesSplit(Dispatch(), f, true);
        if n < |fs| {
          TakeOneMore(Dispatch(), fs, 0, n, true);
        }
        StreamEnds(turnId, fs, n);
        if !f.Frame? {
          return Failed(Broken(f));
        }
        if HasMethod(f.raw) && "id" in f.raw {
          DispatchServerRequest(f);
        } else if HasMethod(f.raw) {
          var event := EventOf(f, true);
          onEvent.OnEvent(event);
          var verdict := JudgeEvent(turnId, event.event, event.payload);
          if verdict.Decided? {
            return verdict.outcome;
          }
        }
        n := n + 1;
      }
    }

    method JudgeEvent(turnId: string, name: string, payload: Object) returns (v: Verdict)
      ensures v == if Settles(name, payload) then Decided(SettledOutcome(turnId, name, payload)) else Undecided
    {
      if name == METHOD_TURN_COMPLETED {
        var turn := Get(payload, "turn");
        if !turn.Obj? {
          return Decided(Failed(TurnFailed));
        }
        var status := Get(turn.fields, "status");
        if status == Str("completed") {
          return Decided(Ok(TurnResult(turnId, payload)));
        }
        if status == Str("failed") {
          return Decided(Failed(TurnFailed));
        }
        if status == Str("interrupted") {
          return Decided(Failed(TurnCancelled));
        }
        if status == Str("inProgress") {
          return Undecided;
        }
        return Decided(Failed(TurnFailed));
      }
      if name == EVENT_ERROR {
        if Get(payload, "willRetry") == Bool(true) {
          return Undecided;
        }
        return Decided(Failed(TurnFailed));
      }
      return Undecided;
    }

    method JudgeAck(ack: Answer<Response>) returns (turnId: string, v: Verdict)
      ensures (turnId, v) == AckVerdict(ack)
    {
      match ack {
        case Failed(failure) => return "", Decided(Failed(failure));
        case Ok(ErrorBody(_)) => return "", Decided(Failed(TurnFailed));
        case Ok(Result(result)) =>
          var id := ExtractTurnId(result);
          if id.Failed? {
            return "", Decided(Failed(id.failure));
          }
          var status := Get(result["turn"].fields, "status");
          if status == Str("completed") {
            return id.value, Decided(Ok(TurnResult(id.value, result)));
          }
          if status == Str("failed") {
            return id.value, Decided(Failed(TurnFailed));
          }
          if status == Str("interrupted") {
            return id.value, Decided(Failed(TurnCancelled));
          }
          return id.value, Undecided;
      }
    }

    /** One turn: the request, its acknowledgement, and the stream until something settles it. */
    method RunTurn(session: Session, text: string, onEvent: EventSink) returns (answer: Answer<TurnResult>)
      modifies process`incoming, process`written, this`nextId, onEvent
      ensures var fs, run := old(process.incoming), Turn(old(process.incoming), old(nextId), parseInt);
        && answer == run.outcome
        && process.incoming == fs[run.consumed..]
        && process.written == old(process.written) + [TurnStartRequest(old(nextId), session.threadId, text)]
                              + Replies(Dispatch(), fs[..run.consumed])
        && onEvent.events == old(onEvent.events) + TurnEvents(fs, run)
        && nextId == old(nextId) + 1
    {
      hide Waited, AckVerdict, Replies, Events, TurnStartRequest, StreamOutcome, Decisive, FirstWhere;
      ghost var fs := process.incoming;
      var id := AllocateId();
      process.WriteFrame(TurnStartRequest(id, session.threadId, text));
      var ack := AwaitResponse(id, onEvent);
      ghost var n := Waited(fs, id, parseInt).consumed;
      NothingTaken(Dispatch(), fs, n, true);
      var turnId, verdict := JudgeAck(ack);
      if verdict.Decided? {
        return verdict.outcome;
      }
      answer := StreamFrames(turnId, onEvent);
      TakenInTwo(Dispatch(), fs, n, Min(FirstWhere(fs[n..], Decisive) + 1, |fs| - n));
    }

    /** Silence for as long as the turn may take is a turn timeout. */
    method StreamTurn(session: Session, prompt: string, onEvent: EventSink) returns (answer: Answer<TurnResult>)
      modifies process`incoming, process`written, this`nextId, onEvent
      ensures var fs, run := old(process.incoming), Turn(old(process.incoming), old(nextId), parseInt);
        && answer == (if run.outcome == Failed(TimedOut) then Failed(TurnTimeout) else run.outcome)
        && process.incoming == fs[run.consumed..]
        && process.written == old(process.written) + [TurnStartRequest(old(nextId), session.threadId, prompt)]
                              + Replies(Dispatch(), fs[..run.consumed])
        && onEvent.events == old(onEvent.events) + TurnEvents(fs, run)
        && nextId == old(nextId) + 1
    {
      hide Turn, Replies, TurnEvents, TurnStartRequest;
      answer := RunTurn(session, prompt, onEvent);
      if answer == Failed(TimedOut) {
        answer := Failed(TurnTimeout);
      }
    }

    /** Idempotent, and never raises: the first call waits and then closes, whatever the wait came
        to; later calls do nothing. `quiet` says whether both came back. */
    method StopSession() returns (quiet: bool)
      modifies process`endings, this`stopped
      ensures stopped
      ensures process.endings == old(process.endings) + if old(stopped) then [] else [Ending.WaitForExit, Ending.Close]
      ensures quiet == (old(stopped) || (process.exit.Returned? && process.closing.Returned?))
    {
      if stopped {
        assert process.endings + [] == process.endings;
        return true;
      }
      stopped := true;
      var waited := process.WaitForExit();
      var closed := process.Close();
      quiet := waited.Returned? && closed.Returned?;
    }
  }
}
