/** The protocol read off the wire: what the client sends, what it makes of a response and of a token
    report, and what its own handlers answer, in terms of raw members. */
module Wire {
  import opened Prelude
  import opened Json
  import opened Usage
  import opened Mailboxes
  import opened Protocol
  import opened Frames
  import opened Settling

  // ---------------------------------------------------------------------
  // Requests
  // ---------------------------------------------------------------------

  /** The four frames of a session, member by member. */
  lemma RequestsOnTheWire(id: int, version: string, cwd: string, approvalPolicy: string, sandboxPolicy: string,
                          threadId: string, text: string)
    ensures InitializeRequest(id, version) ==
      map["id" := Int(id), "method" := Str("initialize"),
          "params" := Obj(map["clientInfo" := Obj(map["name" := Str("river-gang"), "version" := Str(version)])])]
    ensures InitializedNotification() == map["method" := Str("initialized")]
    ensures ThreadStartRequest(id, cwd, approvalPolicy, sandboxPolicy) ==
      map["id" := Int(id), "method" := Str("thread/start"),
          "params" := Obj(map["cwd" := Str(cwd), "approvalPolicy" := Str(approvalPolicy), "sandbox" := Str(sandboxPolicy)])]
    ensures TurnStartRequest(id, threadId, text) ==
      map["id" := Int(id), "method" := Str("turn/start"),
          "params" := Obj(map["threadId" := Str(threadId),
                              "input" := List([Obj(map["type" := Str("text"), "text" := Str(text)])])])]
  {
  }

  // ---------------------------------------------------------------------
  // Responses
  // ---------------------------------------------------------------------

  /** `t` is `r` cut off toward zero. */
  predicate CutOff(r: real, t: int) {
    if r >= 0.0 then t as real <= r < t as real + 1.0 else t as real - 1.0 < r <= t as real
  }

  /** The error code in an error object: zero if there is none, a number cut off, a bool counted, a
      string parsed; None for what cannot be a number. */
  predicate CodeIn(err: Json, parseInt: IntParser, code: Option<int>) {
    match Member(err, "code")
    case None => code == Some(0)
    case Some(Int(n)) => code == Some(n)
    case Some(Bool(b)) => code == Some(if b then 1 else 0)
    case Some(Real(r)) => code.Some? && CutOff(r, code.value)
    case Some(Str(s)) => code == parseInt(s)
    case Some(_) => code == None
  }

  /** The response carries this id by value, and an error that is not null. */
  predicate Answers(raw: Object, id: int) {
    "id" in raw && SameNumber(raw["id"], id)
  }

  predicate HasError(raw: Object) {
    "error" in raw && raw["error"] != Null
  }

  /** A response is its result object if it has one and no error; its error code if it has an error
      object and no result; and malformed otherwise. */
  lemma ResponseRead(raw: Object, id: int, parseInt: IntParser, result: Object, code: int)
    ensures ParseResponse(raw, id, parseInt) == Answer.Ok(Result(result))
      <==> Answers(raw, id) && !HasError(raw) && Member(Obj(raw), "result") == Some(Obj(result))
    ensures ParseResponse(raw, id, parseInt) == Answer.Ok(ErrorBody(code))
      <==> Answers(raw, id) && HasError(raw) && "result" !in raw && raw["error"].Obj? && CodeIn(raw["error"], parseInt, Some(code))
    ensures ParseResponse(raw, id, parseInt) == Failed(OtherError)
      <==> Answers(raw, id) && HasError(raw) && "result" !in raw && raw["error"].Obj? && CodeIn(raw["error"], parseInt, None)
    ensures ParseResponse(raw, id, parseInt).Failed? && ParseResponse(raw, id, parseInt) != Failed(OtherError)
      ==> ParseResponse(raw, id, parseInt) == Failed(ResponseError)
  {
    if HasError(raw) && raw["error"].Obj? {
      CodeRead(raw["error"].fields, parseInt);
    }
  }

  lemma CodeRead(err: Object, parseInt: IntParser)
    ensures forall code :: CodeIn(Obj(err), parseInt, code) <==> code == ToInt(if "code" in err then err["code"] else Int(0), parseInt)
  {
    if "code" in err && err["code"].Real? {
      var r := err["code"].r;
      assert CutOff(r, Truncate(r)) by {
        assert (-r).Floor as real <= -r < (-r).Floor as real + 1.0;
      }
      forall t | CutOff(r, t) ensures t == Truncate(r) {
        CutOffOnce(r, t, Truncate(r));
      }
    }
  }

  lemma CutOffOnce(r: real, t: int, u: int)
    requires CutOff(r, t) && CutOff(r, u)
    ensures t == u
  {
  }

  /** The thread and the turn are named by the non-empty string at `thread.id` and at `turn.id`. */
  lemma NamesRead(result: Object, name: string)
    ensures ExtractThreadId(result) == Answer.Ok(name) <==> name != "" && NamedAt(result, "thread") == Some(Str(name))
    ensures ExtractTurnId(result) == Answer.Ok(name) <==> name != "" && NamedAt(result, "turn") == Some(Str(name))
    ensures ExtractThreadId(result).Failed? ==> ExtractThreadId(result) == Failed(ResponseError)
    ensures ExtractTurnId(result).Failed? ==> ExtractTurnId(result) == Failed(ResponseError)
  {
  }

  function NamedAt(result: Object, key: string): Option<Json> {
    match Member(Obj(result), key) case Some(thing) => Member(thing, "id") case None => None
  }

  // ---------------------------------------------------------------------
  // Replies
  // ---------------------------------------------------------------------

  function TypeOnTheWire(j: Json): string {
    match j
    case Null => "NoneType"
    case Bool(_) => "bool"
    case Int(_) => "int"
    case Real(_) => "float"
    case Str(_) => "str"
    case List(_) => "list"
    case Obj(_) => "dict"
  }

  function Refusal(id: Json, code: int, message: string): Object {
    map["id" := id, "error" := Obj(map["code" := Int(code), "message" := Str(message)])]
  }

  /** The count of the questions cannot be taken. */
  predicate Uncountable(params: Json) {
    match Member(params, "questions")
    case Some(Bool(b)) => b
    case Some(Int(n)) => n != 0
    case Some(Real(r)) => r != 0.0
    case _ => false
  }

  /** What the handler of a request of this name comes to. */
  function AnswerOf(name: string, params: Object, approves: bool, tool: Reply<Object>): Reply<Object> {
    if name == "item/tool/call" then tool
    else if name == "applyPatchApproval" || name == "execCommandApproval" then
      Returned(map["decision" := Str(if approves then "approved" else "denied")])
    else if name == "item/commandExecution/requestApproval" || name == "item/fileChange/requestApproval" then
      Returned(map["decision" := Str(if approves then "accept" else "decline")])
    else if name == "item/permissions/requestApproval" then Returned(map["permissions" := Obj(map[])])
    else if name == "item/tool/requestUserInput" then
      if Uncountable(Obj(params)) then Raised("no len()") else Returned(map["answers" := Obj(map[])])
    else Returned(map["action" := Str("decline")])
  }

  /** What a client with its own handlers answers to a request of this name. */
  function AnswerTo(name: string, id: Json, params: Json, approves: bool, tool: Reply<Object>): Object {
    if params != Null && !params.Obj? then Refusal(id, -32602, "invalid params: expected object, got " + TypeOnTheWire(params))
    else if name !in APPROVAL_NAMES && name !in ["item/tool/call", "item/tool/requestUserInput", "mcpServer/elicitation/request"] then
      Refusal(id, -32601, "method not found: " + name)
    else
      match AnswerOf(name, if params.Obj? then params.fields else map[], approves, tool)
      case Returned(result) => map["id" := id, "result" := Obj(result)]
      case Raised(error) => Refusal(id, -32603, "handler error: " + error)
  }

  /** A frame with an id and a non-empty string method gets this answer if its id is an integer, a bool
      or a string; every other frame gets none. */
  lemma RepliesOnTheWire(f: Incoming, approves: bool)
    ensures ReplyTo(Table(InitialHandlers(), approves), f) ==
      if !f.Frame? || "id" !in f.raw || "method" !in f.raw || !f.raw["method"].Str? || f.raw["method"].s == "" then None
      else if !(f.raw["id"].Int? || f.raw["id"].Bool? || f.raw["id"].Str?) then None
      else Some(AnswerTo(f.raw["method"].s, f.raw["id"], ParamsIn(f), approves, f.tool))
  {
    hide InitialHandlers, Handle, AnswerOf, ResultReply;
    if IsRequest(f) && Routable(f.raw["id"]) {
      var name, params := MethodOf(f.raw), Get(f.raw, "params");
      HandlersByName(name);
      if name in InitialHandlers() {
        HandledByName(name, approves, if params.Obj? then params.fields else map[], f.tool);
        ResultMembers(f.raw["id"]);
      }
    }
  }

  lemma ResultMembers(id: Json)
    ensures forall result :: ResultReply(id, result) == map["id" := id, "result" := Obj(result)]
  {
  }

  lemma HandledByName(name: string, approves: bool, params: Object, tool: Reply<Object>)
    requires name in InitialHandlers()
    ensures Handle(InitialHandlers()[name], approves, params, tool) == AnswerOf(name, params, approves, tool)
  {
    hide InitialHandlers, BuildApproval;
    HandlersByName(name);
    if name in APPROVAL_NAMES {
      ApprovalWords(name, approves);
    }
  }

  lemma ApprovalWords(name: string, approves: bool)
    requires name in APPROVAL_NAMES
    ensures BuildApproval(name, approves) == Returned(
      if name in ["applyPatchApproval", "execCommandApproval"] then map["decision" := Str(if approves then "approved" else "denied")]
      else if name == "item/permissions/requestApproval" then map["permissions" := Obj(map[])]
      else map["decision" := Str(if approves then "accept" else "decline")])
  {
  }

  const APPROVAL_NAMES := ["applyPatchApproval", "execCommandApproval", "item/commandExecution/requestApproval",
    "item/fileChange/requestApproval", "item/permissions/requestApproval"]

  lemma HandlersByName(name: string)
    ensures name in InitialHandlers() <==>
      name in APPROVAL_NAMES || name in ["item/tool/call", "item/tool/requestUserInput", "mcpServer/elicitation/request"]
    ensures name in APPROVAL_NAMES ==> name in InitialHandlers() && InitialHandlers()[name] == Approval(name)
    ensures InitialHandlers()["item/tool/call"] == ToolCall
    ensures InitialHandlers()["item/tool/requestUserInput"] == UserInput
    ensures InitialHandlers()["mcpServer/elicitation/request"] == Elicitation
  {
    assert APPROVAL_METHODS == APPROVAL_NAMES;
  }

  // ---------------------------------------------------------------------
  // Events and token reports
  // ---------------------------------------------------------------------

  const EMPTY := [Null, Bool(false), Int(0), Real(0.0), Str(""), List([])]

  /** The payload of an event: the params if they are an object, nothing if they are missing or empty in
      any way, and anything else under "_raw_params". */
  lemma PayloadOnTheWire(raw: Object)
    ensures Payload(raw) ==
      match Member(Obj(raw), "params")
      case None => map[]
      case Some(Obj(fields)) => fields
      case Some(params) => if params in EMPTY then map[] else map["_raw_params" := params]
  {
  }

  /** A notification gives one event, of its name, time and payload, and with the counts it reports if
      these are asked for; any other frame gives none. */
  lemma EventOnTheWire(f: Incoming, withUsage: bool)
    ensures Events([f], withUsage) ==
      if !f.Frame? || "id" in f.raw || "method" !in f.raw || !f.raw["method"].Str? || f.raw["method"].s == "" then []
      else
        var name, payload := f.raw["method"].s, Payload(f.raw);
        var counts := ExtractCumulativeTokens(name, payload);
        [RuntimeEvent(name, f.at, payload, if withUsage && counts.Some? then Some(UsageMap(counts.value)) else None)]
  {
    hide Payload, ExtractCumulativeTokens, UsageMap;
    assert [f][..0] == [];
  }

  /** The member under the first of two names that is there. */
  function Either(d: Object, first: string, second: string): Option<Json> {
    if first in d then Some(d[first]) else if second in d then Some(d[second]) else None
  }

  /** The cumulative counts in a notification: only in one named "thread/tokenUsage/updated", in the
      object `total` of its token usage, each count under one of two names, missing ones zero or, for
      the total, the sum; and nothing if one of them is not an integer or all are missing. */
  lemma TokensOnTheWire(name: string, payload: Object)
    ensures ExtractCumulativeTokens(name, payload) ==
      if name != "thread/tokenUsage/updated" then None
      else match Either(payload, "tokenUsage", "token_usage")
        case Some(Obj(usage)) =>
          if "total" in usage && usage["total"].Obj? then Counts(usage["total"].fields) else None
        case _ => None
  {
    FirstOfTwo(payload, "tokenUsage", "token_usage");
    match Either(payload, "tokenUsage", "token_usage") {
      case Some(Obj(usage)) =>
        FirstOfOne(usage, "total");
        if "total" in usage && usage["total"].Obj? {
          CountsRead(usage["total"].fields);
        }
      case _ =>
    }
  }

  lemma FirstOfOne(d: Object, a: string)
    ensures FirstPresent(d, [a]) == if a in d then Some(d[a]) else None
  {
    assert [a][1..] == [];
  }

  lemma FirstOfTwo(d: Object, a: string, b: string)
    ensures FirstPresent(d, [a, b]) == Either(d, a, b)
  {
    assert [a, b][1..] == [b];
    FirstOfOne(d, b);
  }

  function Counts(d: Object): Option<TokenSnapshot> {
    var input, output, total := Either(d, "inputTokens", "input_tokens"), Either(d, "outputTokens", "output_tokens"),
      Either(d, "totalTokens", "total_tokens");
    if input == None && output == None && total == None then None
    else if (input.Some? && !input.value.Int?) || (output.Some? && !output.value.Int?) || (total.Some? && !total.value.Int?) then None
    else
      var i, o := (if input.Some? then input.value.n else 0), if output.Some? then output.value.n else 0;
      Some(TokenSnapshot(i, o, if total.Some? then total.value.n else i + o))
  }

  lemma CountsRead(d: Object)
    ensures ReadTokenObject(d) == Counts(d)
  {
    FirstOfTwo(d, "inputTokens", "input_tokens");
    FirstOfTwo(d, "outputTokens", "output_tokens");
    FirstOfTwo(d, "totalTokens", "total_tokens");
  }

  /** The counts an event carries for its consumers, and what a consumer takes from such a map: three
      integers, or bools, under their names. */
  lemma UsageOnTheWire(t: TokenSnapshot, usage: Object)
    ensures UsageMap(t) == map["input_tokens" := Int(t.input), "output_tokens" := Int(t.output), "total_tokens" := Int(t.total)]
    ensures ReadUsage(Some(usage)).Some? <==>
      forall name :: name in ["input_tokens", "output_tokens", "total_tokens"] ==>
        name in usage && (usage[name].Int? || usage[name].Bool?)
    ensures ReadUsage(Some(usage)).Some? ==>
      && SameNumber(usage["input_tokens"], ReadUsage(Some(usage)).value.input)
      && SameNumber(usage["output_tokens"], ReadUsage(Some(usage)).value.output)
      && SameNumber(usage["total_tokens"], ReadUsage(Some(usage)).value.total)
    ensures ReadUsage(None) == None
  {
    var names := ["input_tokens", "output_tokens", "total_tokens"];
    assert names[0] in names && names[1] in names && names[2] in names;
  }
}
