/** What arrives from the app-server process, and what each arriving frame is owed. */
module Frames {
  import opened Prelude
  import opened Json
  import opened Usage
  import opened Mailboxes

  /** One read from the process: a frame (with the clock reading and the tool outcome should the
      client need them), a line that is not a JSON object or too long, a line that cannot even be
      decoded to text, the end of the process, or silence until the caller's timeout. */
  datatype Incoming =
    | Frame(raw: Object, at: int, tool: Reply<Object>)
    | Garbage
    | Undecodable
    | Exited(notFound: bool)
    | Silent

  // ---------------------------------------------------------------------
  // The three shapes
  // ---------------------------------------------------------------------

  predicate HasMethod(raw: Object) {
    match Get(raw, "method") case Str(s) => s != "" case _ => false
  }

  predicate IsRequest(f: Incoming) {
    f.Frame? && HasMethod(f.raw) && "id" in f.raw
  }

  predicate IsNotification(f: Incoming) {
    f.Frame? && HasMethod(f.raw) && "id" !in f.raw
  }

  function MethodOf(raw: Object): string
    requires HasMethod(raw)
  {
    raw["method"].s
  }

  // ---------------------------------------------------------------------
  // Server requests
  // ---------------------------------------------------------------------

  const CODE_INVALID_PARAMS := -32602
  const CODE_METHOD_NOT_FOUND := -32601
  const CODE_INTERNAL_ERROR := -32603

  const METHOD_ITEM_TOOL_CALL := "item/tool/call"
  const METHOD_REQUEST_USER_INPUT := "item/tool/requestUserInput"
  const METHOD_ELICITATION := "mcpServer/elicitation/request"
  const REVIEW_METHODS := ["applyPatchApproval", "execCommandApproval"]
  const ITEM_METHODS := ["item/commandExecution/requestApproval", "item/fileChange/requestApproval"]
  const METHOD_PERMISSIONS := "item/permissions/requestApproval"
  const APPROVAL_METHODS := REVIEW_METHODS + ITEM_METHODS + [METHOD_PERMISSIONS]

  datatype Handler = ToolCall | Approval(name: string) | UserInput | Elicitation

  /** The dispatch table, and whether the approval policy grants. */
  datatype Table = Table(handlers: map<string, Handler>, approves: bool)

  function Approvals(names: seq<string>): map<string, Handler> {
    map name | name in names :: Approval(name)
  }

  /** The table a client starts with. */
  function InitialHandlers(): map<string, Handler> {
    map[METHOD_ITEM_TOOL_CALL := ToolCall] + Approvals(APPROVAL_METHODS)
    + map[METHOD_REQUEST_USER_INPUT := UserInput] + map[METHOD_ELICITATION := Elicitation]
  }

  function BuildApproval(name: string, approves: bool): Reply<Object> {
    if name in REVIEW_METHODS then Returned(map["decision" := Str(if approves then "approved" else "denied")])
    else if name in ITEM_METHODS then Returned(map["decision" := Str(if approves then "accept" else "decline")])
    else if name == METHOD_PERMISSIONS then Returned(map["permissions" := Obj(map[])])
    else Raised("unknown approval method: '" + name + "'")
  }

  /** Counting the questions raises on a non-empty value that has no length. */
  predicate Countable(j: Json) {
    !Truthy(j) || j.Str? || j.List? || j.Obj?
  }

  function Handle(h: Handler, approves: bool, params: Object, tool: Reply<Object>): Reply<Object> {
    match h
    case ToolCall => tool
    case Approval(name) => BuildApproval(name, approves)
    case UserInput => if Countable(Get(params, "questions")) then Returned(map["answers" := Obj(map[])]) else Raised("no len()")
    case Elicitation => Returned(map["action" := Str("decline")])
  }

  function TypeName(j: Json): string {
    match j
    case Null => "NoneType"
    case Bool(_) => "bool"
    case Int(_) => "int"
    case Real(_) => "float"
    case Str(_) => "str"
    case List(_) => "list"
    case Obj(_) => "dict"
  }

  function ErrorReply(id: Json, code: int, message: string): Object {
    map["id" := id, "error" := Obj(map["code" := Int(code), "message" := Str(message)])]
  }

  function ResultReply(id: Json, result: Object): Object {
    map["id" := id, "result" := Obj(result)]
  }

  /** A bool is an int, so it can be routed; null, floats, lists and objects cannot. */
  predicate Routable(id: Json) {
    IsInt(id) || id.Str?
  }

  /** The reply a frame is owed, if any. */
  function ReplyTo(t: Table, f: Incoming): Option<Object> {
    if !IsRequest(f) || !Routable(f.raw["id"]) then None
    else
      var id, name, params := f.raw["id"], MethodOf(f.raw), Get(f.raw, "params");
      if params != Null && !params.Obj? then
        Some(ErrorReply(id, CODE_INVALID_PARAMS, "invalid params: expected object, got " + TypeName(params)))
      else if name !in t.handlers then
        Some(ErrorReply(id, CODE_METHOD_NOT_FOUND, "method not found: " + name))
      else
        match Handle(t.handlers[name], t.approves, if params.Obj? then params.fields else map[], f.tool)
        case Raised(error) => Some(ErrorReply(id, CODE_INTERNAL_ERROR, "handler error: " + error))
        case Returned(result) => Some(ResultReply(id, result))
  }

  function Replies(t: Table, fs: seq<Incoming>): seq<Object> {
    if fs == [] then []
    else
      var earlier := Replies(t, fs[..|fs| - 1]);
      match ReplyTo(t, fs[|fs| - 1])
      case None => earlier
      case Some(reply) => earlier + [reply]
  }

  // ---------------------------------------------------------------------
  // Events
  // ---------------------------------------------------------------------

  /** Missing, null and empty params all become an empty payload; a non-object is wrapped. */
  function Payload(raw: Object): Object {
    var params := Get(raw, "params");
    if !Truthy(params) then map[]
    else match params case Obj(fields) => fields case _ => map["_raw_params" := params]
  }

  function UsageOf(raw: Object): Option<Object>
    requires HasMethod(raw)
  {
    match ExtractCumulativeTokens(MethodOf(raw), Payload(raw))
    case None => None
    case Some(tokens) => Some(UsageMap(tokens))
  }

  function EventOf(f: Incoming, withUsage: bool): RuntimeEvent
    requires IsNotification(f)
  {
    RuntimeEvent(MethodOf(f.raw), f.at, Payload(f.raw), if withUsage then UsageOf(f.raw) else None)
  }

  /** The notifications among the frames, as delivered to the caller's callback. */
  function Events(fs: seq<Incoming>, withUsage: bool): seq<RuntimeEvent> {
    if fs == [] then []
    else
      var last := fs[|fs| - 1];
      Events(fs[..|fs| - 1], withUsage) + if IsNotification(last) then [EventOf(last, withUsage)] else []
  }

  function ReplySeq(t: Table, f: Incoming): seq<Object> {
    match ReplyTo(t, f) case None => [] case Some(reply) => [reply]
  }

  function EventSeq(f: Incoming, withUsage: bool): seq<RuntimeEvent> {
    if IsNotification(f) then [EventOf(f, withUsage)] else []
  }

  /** Requests produce replies, notifications produce events, other frames neither. */
  lemma ShapesSplit(t: Table, f: Incoming, withUsage: bool)
    ensures !IsRequest(f) ==> ReplySeq(t, f) == []
    ensures EventSeq(f, withUsage) == if IsNotification(f) then [EventOf(f, withUsage)] else []
    ensures IsRequest(f) ==> !IsNotification(f)
  {
  }

  lemma NothingTaken(t: Table, fs: seq<Incoming>, from: nat, withUsage: bool)
    requires from <= |fs|
    ensures Replies(t, fs[from..from]) == [] && Events(fs[from..from], withUsage) == []
  {
  }

  /** One more frame consumed. */
  lemma TakeOneMore(t: Table, fs: seq<Incoming>, from: nat, n: nat, withUsage: bool)
    requires from <= n < |fs|
    ensures Replies(t, fs[from..n + 1]) == Replies(t, fs[from..n]) + ReplySeq(t, fs[n])
    ensures Events(fs[from..n + 1], withUsage) == Events(fs[from..n], withUsage) + EventSeq(fs[n], withUsage)
  {
    hide ReplyTo, IsNotification, EventOf;
    var taken := fs[from..n + 1];
    assert taken[..|taken| - 1] == fs[from..n] && taken[|taken| - 1] == fs[n];
  }

  // ---------------------------------------------------------------------
  // Searching a stream
  // ---------------------------------------------------------------------

  /** The first position where `stop` holds, or the length. */
  function FirstWhere(fs: seq<Incoming>, stop: Incoming -> bool): (i: nat)
    ensures i <= |fs|
    ensures forall k :: 0 <= k < i ==> !stop(fs[k])
    ensures i < |fs| ==> stop(fs[i])
  {
    if fs == [] || stop(fs[0]) then 0 else 1 + FirstWhere(fs[1..], stop)
  }

  lemma FirstWhereIs(fs: seq<Incoming>, stop: Incoming -> bool, i: nat)
    requires i <= |fs| && (i < |fs| ==> stop(fs[i]))
    requires forall k :: 0 <= k < i ==> !stop(fs[k])
    ensures FirstWhere(fs, stop) == i
  {
  }

  // ---------------------------------------------------------------------
  // Reply conservation
  // ---------------------------------------------------------------------

  /** A request the client can route a reply to. */
  predicate Answerable(f: Incoming) {
    IsRequest(f) && Routable(f.raw["id"])
  }

  /** `reply` carries exactly this error code. */
  predicate CarriesError(reply: Object, code: int) {
    && reply.Keys == {"id", "error"}
    && reply["error"].Obj? && reply["error"].fields.Keys == {"code", "message"}
    && reply["error"].fields["code"] == Int(code) && reply["error"].fields["message"].Str?
  }

  /** The reply owed to a routable request: its own id, and exactly one of a result and an error
      whose code says which check failed first. */
  predicate Answers(t: Table, f: Incoming, reply: Object)
    requires Answerable(f)
  {
    var params, name := Get(f.raw, "params"), MethodOf(f.raw);
    && "id" in reply && reply["id"] == f.raw["id"]
    && if !params.Null? && !params.Obj? then CarriesError(reply, -32602)
       else if name !in t.handlers then CarriesError(reply, -32601)
       else match Handle(t.handlers[name], t.approves, if params.Obj? then params.fields else map[], f.tool)
            case Raised(_) => CarriesError(reply, -32603)
            case Returned(result) => reply.Keys == {"id", "result"} && reply["result"] == Obj(result)
  }

  /** For every stream the replies are one per routable request, in arrival order, each the one
      owed to its request; nothing else is answered. */
  lemma {:induction false} OneReplyPerRequest(t: Table, fs: seq<Incoming>)
    ensures |Replies(t, fs)| == |Kept(fs, Answerable)|
    ensures forall k :: 0 <= k < |Kept(fs, Answerable)| ==>
      Answerable(Kept(fs, Answerable)[k]) && Answers(t, Kept(fs, Answerable)[k], Replies(t, fs)[k])
  {
    if fs != [] {
      OneReplyPerRequest(t, fs[..|fs| - 1]);
      var last := fs[|fs| - 1];
      if Answerable(last) {
        assert Answers(t, last, ReplyTo(t, last).value);
      }
    }
  }

  lemma {:induction false} RepliesConcat(t: Table, a: seq<Incoming>, b: seq<Incoming>)
    ensures Replies(t, a + b) == Replies(t, a) + Replies(t, b)
  {
    hide ReplyTo;
    if b == [] {
      assert a + b == a;
    } else {
      RepliesConcat(t, a, b[..|b| - 1]);
      assert (a + b)[..|a + b| - 1] == a + b[..|b| - 1];
    }
  }

  /** Consuming `n` frames and then `m` more. */
  lemma TakenInTwo(t: Table, fs: seq<Incoming>, n: nat, m: nat)
    requires n + m <= |fs|
    ensures fs[n..][..m] == fs[n..n + m] && fs[n..][m..] == fs[n + m..]
    ensures Replies(t, fs[..n]) + Replies(t, fs[n..][..m]) == Replies(t, fs[..n + m])
  {
    hide Replies;
    RepliesConcat(t, fs[..n], fs[n..][..m]);
    assert fs[..n] + fs[n..][..m] == fs[..n + m];
  }

  lemma {:induction false} EventsConcat(a: seq<Incoming>, b: seq<Incoming>, withUsage: bool)
    ensures Events(a + b, withUsage) == Events(a, withUsage) + Events(b, withUsage)
  {
    hide IsNotification, EventOf;
    if b == [] {
      assert a + b == a;
    } else {
      EventsConcat(a, b[..|b| - 1], withUsage);
      assert (a + b)[..|a + b| - 1] == a + b[..|b| - 1];
    }
  }

  /** No reply can be taken for a request or a notification. */
  lemma {:induction false} RepliesHaveNoMethod(t: Table, fs: seq<Incoming>)
    ensures forall reply :: reply in Replies(t, fs) ==> "method" !in reply
  {
    if fs != [] {
      RepliesHaveNoMethod(t, fs[..|fs| - 1]);
    }
  }
}
