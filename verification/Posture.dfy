/** What a client with its own handlers answers to requests for approval and for input. */
module Posture {
  import opened Prelude
  import opened Json
  import opened Protocol
  import opened Frames
  import opened Turns

  predicate ObjectOrNull(j: Json) {
    j.Null? || j.Obj?
  }

  function ParamsOf(raw: Object): Object {
    match Get(raw, "params") case Obj(fields) => fields case _ => map[]
  }

  /** A request for user input is answered with no answers if and only if its params are an object
      or null and its questions can be counted; and whatever the reply, a request slipped into a
      turn anywhere changes no outcome: it does not fail the run. */
  lemma UserInputNeverFailsTurn(approves: bool, a: seq<Incoming>, f: Incoming, b: seq<Incoming>, requestId: int, parseInt: IntParser)
    requires Answerable(f) && MethodOf(f.raw) == METHOD_REQUEST_USER_INPUT
    ensures ReplyTo(Table(InitialHandlers(), approves), f) == Some(ResultReply(f.raw["id"], map["answers" := Obj(map[])]))
       <==> ObjectOrNull(Get(f.raw, "params")) && Countable(Get(ParamsOf(f.raw), "questions"))
    ensures Turn(a + [f] + b, requestId, parseInt).outcome == Turn(a + b, requestId, parseInt).outcome
  {
    hide Turn, Countable;
    QuietFramesDoNotMatter(a, f, b, requestId, parseInt);
    UserInputReply(approves, f);
  }

  lemma UserInputReply(approves: bool, f: Incoming)
    requires Answerable(f) && MethodOf(f.raw) == METHOD_REQUEST_USER_INPUT
    ensures ReplyTo(Table(InitialHandlers(), approves), f) == Some(ResultReply(f.raw["id"], map["answers" := Obj(map[])]))
       <==> ObjectOrNull(Get(f.raw, "params")) && Countable(Get(ParamsOf(f.raw), "questions"))
  {
    hide Countable;
    var id: Json := f.raw["id"];
    assert InitialHandlers()[METHOD_REQUEST_USER_INPUT] == UserInput;
    forall code, message ensures "error" in ErrorReply(id, code, message) {
    }
    assert "error" !in ResultReply(id, map["answers" := Obj(map[])]);
  }

  predicate Grants(result: Object) {
    result == map["decision" := Str("approved")] || result == map["decision" := Str("accept")]
  }

  lemma Decisions(approves: bool, name: string)
    requires name in APPROVAL_METHODS
    ensures var r := BuildApproval(name, approves);
      && r.Returned?
      && if name == METHOD_PERMISSIONS then r.value == map["permissions" := Obj(map[])] else Grants(r.value) <==> approves
  {
    assert map["decision" := Str("denied")]["decision"] == Str("denied");
    assert map["decision" := Str("decline")]["decision"] == Str("decline");
    assert map["decision" := Str("approved")]["decision"] == Str("approved");
    assert map["decision" := Str("accept")]["decision"] == Str("accept");
  }

  lemma HandledReply(t: Table, f: Incoming, result: Object)
    requires Answerable(f) && ObjectOrNull(Get(f.raw, "params")) && MethodOf(f.raw) in t.handlers
    requires Handle(t.handlers[MethodOf(f.raw)], t.approves, ParamsOf(f.raw), f.tool) == Returned(result)
    ensures ReplyTo(t, f) == Some(ResultReply(f.raw["id"], result))
  {
    hide Handle;
  }

  /** A well-formed approval request is never answered with an error; it is granted exactly when the
      policy approves, except that a request for permissions is always answered with none. */
  lemma ApprovalsFollowPolicy(approves: bool, f: Incoming) returns (result: Object)
    requires Answerable(f) && MethodOf(f.raw) in APPROVAL_METHODS && ObjectOrNull(Get(f.raw, "params"))
    ensures ReplyTo(Table(InitialHandlers(), approves), f) == Some(ResultReply(f.raw["id"], result))
    ensures if MethodOf(f.raw) == METHOD_PERMISSIONS then result == map["permissions" := Obj(map[])]
            else Grants(result) <==> approves
  {
    hide BuildApproval, ReplyTo, Grants;
    var name := MethodOf(f.raw);
    assert InitialHandlers()[name] == Approval(name);
    Decisions(approves, name);
    result := BuildApproval(name, approves).value;
    HandledReply(Table(InitialHandlers(), approves), f, result);
  }
}
