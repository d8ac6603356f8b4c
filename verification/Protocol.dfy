/** Frames of the app-server protocol: requests the client builds, and how it reads a response. */
module Protocol {
  import opened Prelude
  import opened Json

  /** How a string parses as a decimal integer; None when that raises. */
  type IntParser = string -> Option<int>

  /** How a call into the client can end other than by returning. `TimedOut` is the raw timeout
      inside the client; callers see `ResponseTimeout` or `TurnTimeout`. `OtherError` stands for
      an exception outside the client's own family. */
  datatype Failure =
    | ResponseError | ResponseTimeout | TurnFailed | TurnCancelled | TurnTimeout
    | PortExit | CodexNotFound | TimedOut | OtherError

  datatype Answer<+T> = Ok(value: T) | Failed(failure: Failure)

  /** A well-formed response: its result object, or the code of its error object. */
  datatype Response = Result(result: Object) | ErrorBody(code: int)

  // ---------------------------------------------------------------------
  // Requests
  // ---------------------------------------------------------------------

  const CLIENT_NAME := "river-gang"
  const METHOD_INITIALIZE := "initialize"
  const METHOD_INITIALIZED := "initialized"
  const METHOD_THREAD_START := "thread/start"
  const METHOD_TURN_START := "turn/start"

  function Request(id: int, name: string, params: Object): Object {
    map["id" := Int(id), "method" := Str(name), "params" := Obj(params)]
  }

  function InitializeRequest(id: int, version: string): Object {
    Request(id, METHOD_INITIALIZE, map["clientInfo" := Obj(map["name" := Str(CLIENT_NAME), "version" := Str(version)])])
  }

  function InitializedNotification(): Object {
    map["method" := Str(METHOD_INITIALIZED)]
  }

  function ThreadStartRequest(id: int, cwd: string, approvalPolicy: string, sandboxPolicy: string): Object {
    Request(id, METHOD_THREAD_START,
            map["cwd" := Str(cwd), "approvalPolicy" := Str(approvalPolicy), "sandbox" := Str(sandboxPolicy)])
  }

  /** First turns and continuation turns have the same shape. */
  function TurnStartRequest(id: int, threadId: string, text: string): Object {
    Request(id, METHOD_TURN_START,
            map["threadId" := Str(threadId), "input" := List([Obj(map["type" := Str("text"), "text" := Str(text)])])])
  }

  // ---------------------------------------------------------------------
  // Responses
  // ---------------------------------------------------------------------

  function Truncate(r: real): int {
    if r >= 0.0 then r.Floor else -((-r).Floor)
  }

  /** `int(j)`; None when that raises. */
  function ToInt(j: Json, parseInt: IntParser): Option<int> {
    match j
    case Int(n) => Some(n)
    case Bool(b) => Some(if b then 1 else 0)
    case Real(r) => Some(Truncate(r))
    case Str(s) => parseInt(s)
    case _ => None
  }

  /** An explicit null error counts as no error; an explicit null result counts as a result. */
  function ParseResponse(raw: Object, expectedId: int, parseInt: IntParser): Answer<Response> {
    if "id" !in raw || !EqualsInt(raw["id"], expectedId) then Failed(ResponseError)
    else
      var hasError := Get(raw, "error") != Null;
      if hasError == ("result" in raw) then Failed(ResponseError)
      else if hasError then
        match raw["error"]
        case Obj(err) =>
          (match ToInt(if "code" in err then err["code"] else Int(0), parseInt)
           case None => Failed(OtherError)
           case Some(code) => Ok(ErrorBody(code)))
        case _ => Failed(ResponseError)
      else
        match raw["result"]
        case Obj(result) => Ok(Result(result))
        case _ => Failed(ResponseError)
  }

  /** The non-empty string at `key.id`. */
  function ExtractId(result: Object, key: string): Answer<string> {
    match Get(result, key)
    case Obj(thing) =>
      (match Get(thing, "id")
       case Str(id) => if id == "" then Failed(ResponseError) else Ok(id)
       case _ => Failed(ResponseError))
    case _ => Failed(ResponseError)
  }

  function ExtractThreadId(result: Object): Answer<string> {
    ExtractId(result, "thread")
  }

  function ExtractTurnId(result: Object): Answer<string> {
    ExtractId(result, "turn")
  }

  /** The id equals the integer by value: the number types do not matter, and a bool is one. */
  predicate SameNumber(id: Json, n: int) {
    id == Int(n) || id == Real(n as real) || (id == Bool(true) && n == 1) || (id == Bool(false) && n == 0)
  }

  /** Correlation is by value across number types, and by nothing else: a response is accepted exactly
      if its id is the expected one by value and it would be accepted with that very id. So the
      request with id 1 is also answered by a response whose id is `true`. */
  lemma AcceptedExactly(raw: Object, expectedId: int, parseInt: IntParser)
    ensures ParseResponse(raw, expectedId, parseInt).Ok?
       <==> "id" in raw && SameNumber(raw["id"], expectedId)
            && ParseResponse(raw["id" := Int(expectedId)], expectedId, parseInt).Ok?
    ensures "id" in raw && SameNumber(raw["id"], expectedId) ==>
      ParseResponse(raw, expectedId, parseInt) == ParseResponse(raw["id" := Int(expectedId)], expectedId, parseInt)
    ensures ParseResponse(map["id" := Bool(true), "result" := Obj(map[])], 1, parseInt) == Ok(Result(map[]))
  {
    var raw1: Object := map["id" := Bool(true), "result" := Obj(map[])];
    assert "error" !in raw1;
    var plain := raw["id" := Int(expectedId)];
    assert forall k :: k != "id" ==> (k in plain <==> k in raw);
    assert forall k :: k != "id" && k in raw ==> plain[k] == raw[k];
    assert Get(plain, "error") == Get(raw, "error");
  }
}
