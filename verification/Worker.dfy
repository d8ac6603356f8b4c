/** One worker attempt: a sequence of external calls, each of which may return or raise, that
    always ends by posting one exit. */
module Worker {
  import opened Prelude
  import opened Mailboxes

  // ---------------------------------------------------------------------
  // The outside world
  // ---------------------------------------------------------------------

  datatype Render = Rendered | PromptError(error: string) | RenderRaised(error: string)

  /** A hook ends well or badly (with a summary of how), or cannot be run at all. */
  datatype HookEnd = HookOk | HookFailed(summary: string) | HookRaised(error: string)

  /** Starting a session works, raises an error of the client's family, or raises another one. */
  datatype Start = Started | StartFailed(error: string) | StartRaised(error: string)

  datatype TurnEnd =
    | TurnDone
    | Failed(error: string)
    | Cancelled(error: string)
    | TimedOut(error: string)
    | PortClosed(error: string)
    | TurnRaised(error: string)

  /** Configuration and the outcome of every call that may be made. `factory` is the answer of the
      client factory if there is one: whether it produced a client. Every call may raise. */
  datatype Script = Script(
    render: Render,
    workspace: Reply<()>,
    client: bool,
    factory: Option<Reply<bool>>,
    beforeRun: Option<HookEnd>,
    start: Start,
    startState: Option<string>,
    startTransition: Reply<()>,
    events: seq<RuntimeEvent>,
    turn: TurnEnd,
    stop: Reply<()>,
    afterRun: Option<HookEnd>,
    comment: Reply<()>,
    successState: Option<string>,
    successTransition: Reply<()>,
    seconds: real)

  /** What an attempt does to the outside, in order. */
  datatype Effect =
    | EnsureWorkspace
    | BuildClient
    | BeforeRun
    | StartSession
    | Transition(state: string)
    | StreamTurn
    | Posted(msg: Message)
    | StopSession
    | AfterRun
    | AddComment(body: string)

  /** A best-effort call that went wrong, and was logged. */
  datatype Warning =
    | TransitionFailed(state: string, error: string)
    | CommentFailed(error: string)
    | StopFailed(error: string)
    | AfterRunFailed(error: string)

  class Outside {
    const script: Script
    var trace: seq<Effect>
    var warnings: seq<Warning>

    constructor (script: Script)
      ensures this.script == script && trace == [] && warnings == []
    {
      this.script := script;
      trace := [];
      warnings := [];
    }

    /** Something that cannot fail. */
    method Do(e: Effect)
      modifies this`trace
      ensures trace == old(trace) + [e]
    {
      trace := trace + [e];
    }

    /** A call, which comes back or raises as the script says. */
    method Call<T>(e: Effect, reply: T) returns (r: T)
      modifies this`trace
      ensures trace == old(trace) + [e] && r == reply
    {
      trace := trace + [e];
      r := reply;
    }

    method Warn(w: Warning)
      modifies this`warnings
      ensures warnings == old(warnings) + [w]
    {
      warnings := warnings + [w];
    }
  }

  // ---------------------------------------------------------------------
  // What an attempt should do
  // ---------------------------------------------------------------------

  predicate ReachesClient(s: Script) {
    s.render.Rendered? && s.workspace.Returned?
  }

  /** A factory, if there is one, decides; the supplied client counts only without it. */
  predicate HasClient(s: Script) {
    if s.factory.Some? then s.factory.value == Returned(true) else s.client
  }

  predicate ReachesBeforeRun(s: Script) {
    ReachesClient(s) && HasClient(s)
  }

  predicate ReachesSession(s: Script) {
    ReachesBeforeRun(s) && (s.beforeRun == None || s.beforeRun == Some(HookOk))
  }

  predicate ReachesTurn(s: Script) {
    ReachesSession(s) && s.start.Started?
  }

  /** Why the attempt ends, and the error it reports: the first call that goes wrong decides. */
  function Ending(s: Script): (r: (string, Option<string>))
    ensures r.0 == "normal" <==> ReachesTurn(s) && s.turn.TurnDone?
    ensures r.1 == None <==> r.0 == "normal"
  {
    if s.render.PromptError? then ("prompt_failed", Some(s.render.error))
    else if s.render.RenderRaised? then ("unexpected", Some(s.render.error))
    else if s.workspace.Raised? then ("workspace_failed", Some(s.workspace.error))
    else if !HasClient(s) then
      ("session_failed", Some(if s.factory.Some? && s.factory.value.Raised? then "codex_client_factory raised: " + s.factory.value.error
                              else "no codex client available (no client and no factory)"))
    else if s.beforeRun.Some? && s.beforeRun.value.HookFailed? then ("before_run_failed", Some(s.beforeRun.value.summary))
    else if s.beforeRun.Some? && s.beforeRun.value.HookRaised? then ("unexpected", Some(s.beforeRun.value.error))
    else if s.start.StartFailed? then ("session_failed", Some(s.start.error))
    else if s.start.StartRaised? then ("unexpected", Some(s.start.error))
    else
      match s.turn
      case TurnDone => ("normal", None)
      case Failed(error) => ("turn_failed", Some(error))
      case Cancelled(error) => ("turn_cancelled", Some(error))
      case TimedOut(error) => ("turn_timeout", Some(error))
      case PortClosed(error) => ("port_exit", Some(error))
      case TurnRaised(error) => ("unexpected", Some(error))
  }

  /** The turn is reached exactly if none of the calls before it goes wrong. */
  lemma TurnReachedExactly(s: Script)
    ensures !ReachesTurn(s) <==>
      s.render.PromptError? || s.render.RenderRaised? || s.workspace.Raised?
      || (if s.factory.Some? then s.factory.value != Returned(true) else !s.client)
      || (s.beforeRun.Some? && s.beforeRun.value != HookOk) || s.start.StartFailed? || s.start.StartRaised?
  {
  }

  /** Which call that goes wrong gives which reason and which error, the earlier call deciding. */
  lemma EndsExactly(s: Script)
    ensures s.render.PromptError? ==> Ending(s) == ("prompt_failed", Some(s.render.error))
    ensures s.render.RenderRaised? ==> Ending(s) == ("unexpected", Some(s.render.error))
    ensures s.render.Rendered? && s.workspace.Raised? ==> Ending(s) == ("workspace_failed", Some(s.workspace.error))
    ensures s.render.Rendered? && s.workspace.Returned? ==>
      && (s.factory.Some? && s.factory.value.Raised? ==>
            Ending(s) == ("session_failed", Some("codex_client_factory raised: " + s.factory.value.error)))
      && (s.factory == Some(Returned(false)) || (s.factory == None && !s.client) ==>
            Ending(s) == ("session_failed", Some("no codex client available (no client and no factory)")))
      && (s.factory == Some(Returned(true)) || (s.factory == None && s.client) ==> EndsWithClient(s))
  {
    hide EndsWithClient;
    if s.render.Rendered? && s.workspace.Returned? {
      WithClient(s);
    }
  }

  lemma WithClient(s: Script)
    requires s.render.Rendered? && s.workspace.Returned?
    ensures s.factory == Some(Returned(true)) || (s.factory == None && s.client) ==> EndsWithClient(s)
  {
  }

  /** With a client: the hook before the run, the start of the session, the turn. */
  predicate EndsWithClient(s: Script) {
    match s.beforeRun
    case Some(HookFailed(summary)) => Ending(s) == ("before_run_failed", Some(summary))
    case Some(HookRaised(error)) => Ending(s) == ("unexpected", Some(error))
    case _ =>
      match s.start
      case StartFailed(error) => Ending(s) == ("session_failed", Some(error))
      case StartRaised(error) => Ending(s) == ("unexpected", Some(error))
      case Started =>
        match s.turn
        case TurnDone => Ending(s) == ("normal", None)
        case Failed(error) => Ending(s) == ("turn_failed", Some(error))
        case Cancelled(error) => Ending(s) == ("turn_cancelled", Some(error))
        case TimedOut(error) => Ending(s) == ("turn_timeout", Some(error))
        case PortClosed(error) => Ending(s) == ("port_exit", Some(error))
        case TurnRaised(error) => Ending(s) == ("unexpected", Some(error))
  }

  /** The comment on a failed attempt names the reason, and the error if there is one to show. */
  lemma FailureBodyExactly(reason: string, error: string)
    ensures FormatFailureBody(reason, None) == "river-gang attempt failed: reason=" + reason
    ensures FormatFailureBody(reason, Some("")) == "river-gang attempt failed: reason=" + reason
    ensures error != "" ==> FormatFailureBody(reason, Some(error)) == "river-gang attempt failed: reason=" + reason + "\n\n" + error
  {
  }

  function FormatFailureBody(reason: string, lastError: Option<string>): string {
    "river-gang attempt failed: reason=" + reason
    + if lastError == None || lastError.value == "" then "" else "\n\n" + lastError.value
  }

  function Transitions(state: Option<string>): seq<Effect> {
    if state == None then [] else [Transition(state.value)]
  }

  function Updates(id: string, events: seq<RuntimeEvent>): seq<Effect> {
    seq(|events|, i requires 0 <= i < |events| => Posted(CodexUpdate(id, events[i])))
  }

  /** The failure comment, the success-state transition, the exit. */
  function Closing(s: Script, id: string, reason: string, ok: bool, error: Option<string>): seq<Effect> {
    (if ok then [] else [AddComment(FormatFailureBody(reason, error))])
    + Transitions(s.successState)
    + [Posted(WorkerExit(id, reason, ok, s.seconds, error))]
  }

  function Final(s: Script, id: string): seq<Effect> {
    Closing(s, id, Ending(s).0, Ending(s).0 == "normal", Ending(s).1)
  }

  function Preparing(s: Script): seq<Effect> {
    (if s.render.Rendered? then [EnsureWorkspace] else []) + (if ReachesClient(s) && s.factory.Some? then [BuildClient] else [])
  }

  /** The hook before the session and the start of it. */
  function Entry(s: Script): seq<Effect> {
    (if ReachesBeforeRun(s) && s.beforeRun.Some? then [BeforeRun] else []) + (if ReachesSession(s) then [StartSession] else [])
  }

  function Opening(s: Script): seq<Effect> {
    Preparing(s) + Entry(s)
  }

  function StartMove(s: Script): seq<Effect> {
    if ReachesTurn(s) then Transitions(s.startState) else []
  }

  /** The turn and what follows it. */
  function TurnAndAfter(s: Script, id: string): seq<Effect> {
    (if ReachesTurn(s) then [StreamTurn] + Updates(id, s.events) + [StopSession] else [])
    + (if ReachesSession(s) && !s.start.StartRaised? && s.afterRun.Some? then [AfterRun] else [])
  }

  function Running(s: Script, id: string): seq<Effect> {
    StartMove(s) + TurnAndAfter(s, id)
  }

  /** The effects of an attempt. How the transitions, the comment, the stop and the hook after the
      run end has no part in them. */
  function Attempt(s: Script, id: string): seq<Effect> {
    Opening(s) + Running(s, id) + Final(s, id)
  }

  // What is logged instead.

  function TransitionWarnings(state: Option<string>, outcome: Reply<()>): seq<Warning> {
    if state.Some? && outcome.Raised? then [TransitionFailed(state.value, outcome.error)] else []
  }

  function AfterRunWarnings(afterRun: Option<HookEnd>): seq<Warning> {
    match afterRun
    case Some(HookFailed(summary)) => [AfterRunFailed(summary)]
    case Some(HookRaised(error)) => [AfterRunFailed(error)]
    case _ => []
  }

  function TurnWarnings(s: Script): seq<Warning> {
    TransitionWarnings(s.startState, s.startTransition) + if s.stop.Raised? then [StopFailed(s.stop.error)] else []
  }

  function RunningWarnings(s: Script): seq<Warning> {
    (if ReachesTurn(s) then TurnWarnings(s) else [])
    + (if ReachesSession(s) && !s.start.StartRaised? then AfterRunWarnings(s.afterRun) else [])
  }

  function ClosingWarnings(s: Script, ok: bool): seq<Warning> {
    (if !ok && s.comment.Raised? then [CommentFailed(s.comment.error)] else [])
    + TransitionWarnings(s.successState, s.successTransition)
  }

  /** Every best-effort call that goes wrong is logged, in the order of the calls. */
  function Warnings(s: Script): seq<Warning> {
    RunningWarnings(s) + ClosingWarnings(s, Ending(s).0 == "normal")
  }

  // ---------------------------------------------------------------------
  // The attempt
  // ---------------------------------------------------------------------

  /** An exception is logged and goes no further. */
  method SafeTransition(o: Outside, state: Option<string>, outcome: Reply<()>)
    modifies o
    ensures o.trace == old(o.trace) + Transitions(state)
    ensures o.warnings == old(o.warnings) + TransitionWarnings(state, outcome)
  {
    if state == None {
      assert o.trace + [] == o.trace && o.warnings + [] == o.warnings;
      return;
    }
    var r := o.Call(Transition(state.value), outcome);
    match r {
      case Returned(_) => assert o.warnings + [] == o.warnings;
      case Raised(error) => o.Warn(TransitionFailed(state.value, error));
    }
  }

  method SafeAddComment(o: Outside, body: string, outcome: Reply<()>)
    modifies o
    ensures o.trace == old(o.trace) + [AddComment(body)]
    ensures o.warnings == old(o.warnings) + if outcome.Raised? then [CommentFailed(outcome.error)] else []
  {
    var r := o.Call(AddComment(body), outcome);
    match r {
      case Returned(_) => assert o.warnings + [] == o.warnings;
      case Raised(error) => o.Warn(CommentFailed(error));
    }
  }

  method FinalizeAttempt(o: Outside, id: string, reason: string, ok: bool, lastError: Option<string>)
    modifies o
    ensures o.trace == old(o.trace) + Closing(o.script, id, reason, ok, lastError)
    ensures o.warnings == old(o.warnings) + ClosingWarnings(o.script, ok)
  {
    if !ok {
      SafeAddComment(o, FormatFailureBody(reason, lastError), o.script.comment);
    }
    SafeTransition(o, o.script.successState, o.script.successTransition);
    o.Do(Posted(WorkerExit(id, reason, ok, o.script.seconds, lastError)));
  }

  method RunAfterRunBestEffort(o: Outside)
    modifies o
    ensures o.trace == old(o.trace) + if o.script.afterRun.Some? then [AfterRun] else []
    ensures o.warnings == old(o.warnings) + AfterRunWarnings(o.script.afterRun)
  {
    if o.script.afterRun == None {
      assert o.trace + [] == o.trace && o.warnings + [] == o.warnings;
      return;
    }
    var r := o.Call(AfterRun, o.script.afterRun.value);
    match r {
      case HookOk => assert o.warnings + [] == o.warnings;
      case HookFailed(summary) => o.Warn(AfterRunFailed(summary));
      case HookRaised(error) => o.Warn(AfterRunFailed(error));
    }
  }

  /** The typed endings become a reason; anything else escapes. */
  method RunSingleTurn(o: Outside, id: string)
    returns (reason: string, ok: bool, lastError: Option<string>, escaped: Option<string>)
    modifies o`trace
    ensures o.trace == old(o.trace) + [StreamTurn] + Updates(id, o.script.events)
    ensures ok == (reason == "normal")
    ensures if o.script.turn.TurnRaised? then escaped == Some(o.script.turn.error)
            else escaped == None && match o.script.turn
              case TurnDone => (reason, lastError) == ("normal", None)
              case Failed(error) => (reason, lastError) == ("turn_failed", Some(error))
              case Cancelled(error) => (reason, lastError) == ("turn_cancelled", Some(error))
              case TimedOut(error) => (reason, lastError) == ("turn_timeout", Some(error))
              case PortClosed(error) => (reason, lastError) == ("port_exit", Some(error))
              case TurnRaised(_) => true
  {
    var ending := o.Call(StreamTurn, o.script.turn);
    for i := 0 to |o.script.events|
      invariant o.trace == old(o.trace) + [StreamTurn] + Updates(id, o.script.events[..i])
    {
      var posted := Posted(CodexUpdate(id, o.script.events[i]));
      o.Do(posted);
      assert Updates(id, o.script.events[..i + 1]) == Updates(id, o.script.events[..i]) + [posted];
    }
    assert o.script.events[..|o.script.events|] == o.script.events;
    match ending {
      case TurnDone => return "normal", true, None, None;
      case Failed(error) => return "turn_failed", false, Some(error), None;
      case Cancelled(error) => return "turn_cancelled", false, Some(error), None;
      case TimedOut(error) => return "turn_timeout", false, Some(error), None;
      case PortClosed(error) => return "port_exit", false, Some(error), None;
      case TurnRaised(error) => return "unexpected", false, Some(error), Some(error);
    }
  }

  function Built(s: Script): seq<Effect> {
    if s.factory.Some? then [BuildClient] else []
  }

  /** Everything before the session, each stage only if the ones before it went well. */
  lemma OpeningStages(s: Script)
    ensures !s.render.Rendered? ==> Opening(s) == []
    ensures s.render.Rendered? && s.workspace.Raised? ==> Opening(s) == [EnsureWorkspace]
    ensures var built := Built(s);
      && (ReachesClient(s) && !HasClient(s) ==> Opening(s) == [EnsureWorkspace] + built)
      && (ReachesBeforeRun(s) && !ReachesSession(s) ==> Opening(s) == [EnsureWorkspace] + built + [BeforeRun])
      && (ReachesSession(s) ==>
            Opening(s) == [EnsureWorkspace] + built + (if s.beforeRun.Some? then [BeforeRun] else []) + [StartSession])
  {
  }

  function ClosingOf(s: Script, id: string, escaped: Option<string>): seq<Effect> {
    if escaped == None then Final(s, id) else []
  }

  /** What the end of the attempt finds logged. */
  ghost predicate EndsLogged(before: seq<Warning>, after: seq<Warning>, s: Script, escaped: Option<string>) {
    after == before + RunningWarnings(s) + if escaped == None then ClosingWarnings(s, Ending(s).0 == "normal") else []
  }

  /** Before there is a session nothing but the closing can have been logged. */
  lemma LoggedEarly(before: seq<Warning>, s: Script)
    requires !ReachesSession(s)
    ensures EndsLogged(before, before + ClosingWarnings(s, Ending(s).0 == "normal"), s, None)
    ensures forall error :: EndsLogged(before, before, s, Some(error))
  {
    hide ClosingWarnings, Ending, ReachesSession;
    assert RunningWarnings(s) == [] && before + [] == before;
  }

  /** What the end of the attempt finds written: everything so far, and the exit unless an
      exception is on its way out. */
  ghost predicate Ends(before: seq<Effect>, after: seq<Effect>, s: Script, id: string, escaped: Option<string>) {
    && after == before + Opening(s) + Running(s, id) + ClosingOf(s, id, escaped)
    && (escaped.Some? ==> Ending(s) == ("unexpected", escaped))
    && (escaped == None ==> Ending(s).0 != "unexpected")
  }

  /** The attempt closes before it has a session. */
  lemma ClosesEarly(before: seq<Effect>, opening: seq<Effect>, s: Script, id: string)
    requires !ReachesSession(s) && opening == Opening(s) && Ending(s).0 != "unexpected"
    ensures Ends(before, before + opening + Final(s, id), s, id, None)
  {
    hide Opening, Closing, Ending;
    assert before + opening + Running(s, id) == before + opening;
  }

  /** An exception leaves the attempt before it has a session. */
  lemma EscapesEarly(before: seq<Effect>, opening: seq<Effect>, s: Script, id: string, error: string)
    requires !ReachesSession(s) && opening == Opening(s) && Ending(s) == ("unexpected", Some(error))
    ensures Ends(before, before + opening, s, id, Some(error))
  {
    hide Opening, Closing, Ending;
    assert before + opening + Running(s, id) + [] == before + opening;
  }

  /** From the prompt to a client; `done` when the attempt is over. */
  method PrepareClient(o: Outside, id: string) returns (done: bool, escaped: Option<string>)
    modifies o
    ensures done <==> !ReachesBeforeRun(o.script)
    ensures if done then Ends(old(o.trace), o.trace, o.script, id, escaped)
            else escaped == None && o.trace == old(o.trace) + ([EnsureWorkspace] + Built(o.script))
    ensures if done then EndsLogged(old(o.warnings), o.warnings, o.script, escaped) else o.warnings == old(o.warnings)
  {
    hide Opening, Running, Closing, Ends, FormatFailureBody, EndsLogged, ClosingWarnings;
    ghost var before := o.trace;
    var s := o.script;
    OpeningStages(s);
    if !ReachesSession(s) {
      LoggedEarly(o.warnings, s);
    }
    match s.render {
      case RenderRaised(error) =>
        EscapesEarly(before, [], s, id, error);
        assert before + [] == before;
        return true, Some(error);
      case PromptError(error) =>
        FinalizeAttempt(o, id, "prompt_failed", false, Some(error));
        ClosesEarly(before, [], s, id);
        assert before + [] == before;
        return true, None;
      case Rendered =>
    }
    var workspace := o.Call(EnsureWorkspace, s.workspace);
    if workspace.Raised? {
      FinalizeAttempt(o, id, "workspace_failed", false, Some(workspace.error));
      ClosesEarly(before, [EnsureWorkspace], s, id);
      return true, None;
    }
    var client := s.client;
    if s.factory.Some? {
      var reply := o.Call(BuildClient, s.factory.value);
      assert o.trace == before + ([EnsureWorkspace] + Built(s));
      match reply {
        case Raised(error) =>
          FinalizeAttempt(o, id, "session_failed", false, Some("codex_client_factory raised: " + error));
          ClosesEarly(before, [EnsureWorkspace] + Built(s), s, id);
          return true, None;
        case Returned(built) => client := built;
      }
    }
    assert o.trace == before + ([EnsureWorkspace] + Built(s));
    if !client {
      FinalizeAttempt(o, id, "session_failed", false, Some("no codex client available (no client and no factory)"));
      ClosesEarly(before, [EnsureWorkspace] + Built(s), s, id);
      return true, None;
    }
    return false, None;
  }

  /** From the prompt to just before the session is started. */
  method PrepareAttempt(o: Outside, id: string) returns (done: bool, escaped: Option<string>)
    modifies o
    ensures done <==> !ReachesSession(o.script)
    ensures if done then Ends(old(o.trace), o.trace, o.script, id, escaped)
            else escaped == None && o.trace + [StartSession] == old(o.trace) + Opening(o.script)
    ensures if done then EndsLogged(old(o.warnings), o.warnings, o.script, escaped) else o.warnings == old(o.warnings)
  {
    hide Opening, Running, Closing, Ends, FormatFailureBody, EndsLogged, ClosingWarnings, ReachesBeforeRun;
    ghost var before := o.trace;
    var s := o.script;
    done, escaped := PrepareClient(o, id);
    if done {
      return;
    }
    OpeningStages(s);
    if !ReachesSession(s) {
      LoggedEarly(o.warnings, s);
    }
    ghost var pre := [EnsureWorkspace] + Built(s);
    if s.beforeRun.Some? {
      var end := o.Call(BeforeRun, s.beforeRun.value);
      pre := pre + [BeforeRun];
      assert o.trace == before + pre;
      match end {
        case HookRaised(error) =>
          EscapesEarly(before, pre, s, id, error);
          return true, Some(error);
        case HookFailed(summary) =>
          FinalizeAttempt(o, id, "before_run_failed", false, Some(summary));
          ClosesEarly(before, pre, s, id);
          return true, None;
        case HookOk =>
      }
    }
    return false, None;
  }

  lemma RunningStages(s: Script, id: string)
    requires ReachesSession(s)
    ensures var after := if s.afterRun.Some? then [AfterRun] else [];
      Running(s, id) == match s.start
        case StartRaised(_) => []
        case StartFailed(_) => after
        case Started => Transitions(s.startState) + [StreamTurn] + Updates(id, s.events) + [StopSession] + after
  {
  }

  lemma TurnRegrouped(before: seq<Effect>, start: seq<Effect>, updates: seq<Effect>, after: seq<Effect>)
    ensures before + start + [StreamTurn] + updates + [StopSession] + after
         == before + (start + [StreamTurn] + updates + [StopSession] + after)
  {
  }

  /** From the started session to its stop. However the turn ends, an escaping exception included,
      the session is stopped and the hook after the run is tried before anything else. */
  method RunStarted(o: Outside, id: string)
    returns (reason: string, ok: bool, lastError: Option<string>, escaped: Option<string>)
    requires ReachesTurn(o.script)
    modifies o
    ensures o.trace == old(o.trace) + Running(o.script, id)
    ensures o.warnings == old(o.warnings) + RunningWarnings(o.script)
    ensures if escaped.Some? then Ending(o.script) == ("unexpected", escaped)
            else Ending(o.script) == (reason, lastError) && reason != "unexpected" && ok == (reason == "normal")
  {
    hide Updates, Transitions, TransitionWarnings, AfterRunWarnings;
    var s := o.script;
    RunningStages(s, id);
    SafeTransition(o, s.startState, s.startTransition);
    reason, ok, lastError, escaped := RunSingleTurn(o, id);
    var stopped := o.Call(StopSession, s.stop);
    if stopped.Raised? {
      o.Warn(StopFailed(stopped.error));
    }
    RunAfterRunBestEffort(o);
    TurnRegrouped(old(o.trace), Transitions(s.startState), Updates(id, s.events),
                  if s.afterRun.Some? then [AfterRun] else []);
  }

  /** The attempt up to the point where an unclassified exception may escape. */
  method AttemptBody(o: Outside, id: string) returns (escaped: Option<string>)
    modifies o
    ensures Ends(old(o.trace), o.trace, o.script, id, escaped)
    ensures EndsLogged(old(o.warnings), o.warnings, o.script, escaped)
  {
    hide Closing, Updates, Transitions, Opening, Running, FormatFailureBody;
    hide TransitionWarnings, AfterRunWarnings, ClosingWarnings;
    var s := o.script;
    var done, error := PrepareAttempt(o, id);
    if done {
      return error;
    }
    var start := o.Call(StartSession, s.start);
    RunningStages(s, id);
    match start {
      case StartRaised(error) => return Some(error);
      case StartFailed(error) =>
        RunAfterRunBestEffort(o);
        FinalizeAttempt(o, id, "session_failed", false, Some(error));
        return None;
      case Started =>
    }
    var reason, ok, lastError, raised := RunStarted(o, id);
    assert o.trace == old(o.trace) + Opening(s) + Running(s, id);
    if raised.Some? {
      return raised;
    }
    FinalizeAttempt(o, id, reason, ok, lastError);
    return None;
  }

  /** Whatever any of the calls does, the attempt leaves its trace and logs what went wrong. */
  method RunAgentAttemptImpl(o: Outside, id: string)
    modifies o
    ensures o.trace == old(o.trace) + Attempt(o.script, id)
    ensures o.warnings == old(o.warnings) + Warnings(o.script)
  {
    hide Opening, Running, Closing, Ending, RunningWarnings, ClosingWarnings;
    var escaped := AttemptBody(o, id);
    if escaped.Some? {
      FinalizeAttempt(o, id, "unexpected", false, escaped);
    }
  }

  /** Raises, and does nothing at all, exactly when given neither a client nor a factory. */
  method RunAgentAttempt(o: Outside, id: string) returns (raised: bool)
    modifies o
    ensures raised <==> !o.script.client && o.script.factory == None
    ensures o.trace == old(o.trace) + if raised then [] else Attempt(o.script, id)
    ensures o.warnings == old(o.warnings) + if raised then [] else Warnings(o.script)
  {
    if !o.script.client && o.script.factory == None {
      assert o.trace + [] == o.trace && o.warnings + [] == o.warnings;
      return true;
    }
    RunAgentAttemptImpl(o, id);
    return false;
  }

  // ---------------------------------------------------------------------
  // The law of an attempt
  // ---------------------------------------------------------------------

  predicate IsExit(e: Effect) {
    e.Posted? && e.msg.WorkerExit?
  }

  predicate IsUpdate(e: Effect) {
    e.Posted? && e.msg.CodexUpdate?
  }

  predicate IsComment(e: Effect) {
    e.AddComment?
  }

  predicate IsTransition(e: Effect) {
    e.Transition?
  }

  /** Starting a session, streaming with its updates, stopping, and the hooks around it. */
  predicate IsSession(e: Effect) {
    e in {BeforeRun, StartSession, StreamTurn, StopSession, AfterRun} || IsUpdate(e)
  }

  lemma KeptParts(a: seq<Effect>, b: seq<Effect>, c: seq<Effect>, keep: Effect -> bool)
    ensures Kept(a + b + c, keep) == Kept(a, keep) + Kept(b, keep) + Kept(c, keep)
  {
    hide Kept;
    KeptConcat(a + b, c, keep);
    KeptConcat(a, b, keep);
  }

  /** A sequence of which the first part is dropped and the rest kept, or the other way round. */
  lemma KeptSplit(a: seq<Effect>, b: seq<Effect>, keep: Effect -> bool)
    ensures (forall e :: e in a ==> !keep(e)) && (forall e :: e in b ==> keep(e)) ==> Kept(a + b, keep) == b
    ensures (forall e :: e in a ==> keep(e)) && (forall e :: e in b ==> !keep(e)) ==> Kept(a + b, keep) == a
  {
    hide Kept;
    KeptConcat(a, b, keep);
    if (forall e :: e in a ==> !keep(e)) && (forall e :: e in b ==> keep(e)) {
      KeptNone(a, keep);
      KeptAll(b, keep);
    }
    if (forall e :: e in a ==> keep(e)) && (forall e :: e in b ==> !keep(e)) {
      KeptAll(a, keep);
      KeptNone(b, keep);
    }
  }

  function Exit(s: Script, id: string): Effect {
    Posted(WorkerExit(id, Ending(s).0, Ending(s).0 == "normal", s.seconds, Ending(s).1))
  }

  lemma OpeningSilent(s: Script)
    ensures forall e :: e in Opening(s) ==> !e.Posted? && !IsComment(e)
  {
  }

  lemma RunningSpeaks(s: Script, id: string)
    ensures forall e :: e in Running(s, id) ==> !IsExit(e) && !IsComment(e)
    ensures Kept(Running(s, id), IsUpdate) == if ReachesTurn(s) then Updates(id, s.events) else []
  {
    hide Kept, ReachesTurn, ReachesSession;
    if ReachesTurn(s) {
      var after := if ReachesSession(s) && !s.start.StartRaised? && s.afterRun.Some? then [AfterRun] else [];
      var before, updates := StartMove(s) + [StreamTurn], Updates(id, s.events);
      assert Running(s, id) == before + updates + ([StopSession] + after);
      KeptParts(before, updates, [StopSession] + after, IsUpdate);
      KeptNone(before, IsUpdate);
      KeptAll(updates, IsUpdate);
      KeptNone([StopSession] + after, IsUpdate);
    } else {
      KeptNone(Running(s, id), IsUpdate);
    }
  }

  lemma FinalSpeaks(s: Script, id: string)
    ensures var closing := Final(s, id);
      && Kept(closing, IsExit) == [Exit(s, id)] && Kept(closing, IsUpdate) == []
      && closing[|closing| - 1] == Exit(s, id)
  {
    hide Kept, Ending, FormatFailureBody;
    var closing := Final(s, id);
    assert closing == closing[..|closing| - 1] + [Exit(s, id)];
    KeptSplit(closing[..|closing| - 1], [Exit(s, id)], IsExit);
    KeptNone(closing, IsUpdate);
  }

  /** Every attempt posts exactly one exit, as its very last effect; it reports success exactly
      when its reason is "normal". */
  lemma OneExitLast(s: Script, id: string)
    ensures var t := Attempt(s, id);
      && |t| > 0 && t[|t| - 1] == Exit(s, id)
      && Kept(t, IsExit) == [Exit(s, id)]
  {
    hide Kept, Opening, Running, Exit, Ending;
    OpeningSilent(s);
    RunningSpeaks(s, id);
    FinalSpeaks(s, id);
    KeptParts(Opening(s), Running(s, id), Final(s, id), IsExit);
    KeptNone(Opening(s), IsExit);
    KeptNone(Running(s, id), IsExit);
  }

  /** One update is posted per event of the turn, in order, and no other. */
  lemma UpdatesInOrder(s: Script, id: string)
    ensures Kept(Attempt(s, id), IsUpdate) == if ReachesTurn(s) then Updates(id, s.events) else []
  {
    hide Kept, Opening, Running, Ending, Closing, ReachesTurn;
    OpeningSilent(s);
    RunningSpeaks(s, id);
    FinalSpeaks(s, id);
    KeptParts(Opening(s), Running(s, id), Final(s, id), IsUpdate);
    KeptNone(Opening(s), IsUpdate);
  }

  /** A failed attempt tries exactly one comment, a successful one none; the ticket is moved to
      the success state once if that is configured, after the comment; and the only other move is
      the start transition of an attempt that has a session. */
  lemma CommentThenTransition(s: Script, id: string)
    ensures var t, closing := Attempt(s, id), Final(s, id);
      && Kept(t, IsComment) == (if Ending(s).0 == "normal" then [] else [AddComment(FormatFailureBody(Ending(s).0, Ending(s).1))])
      && Kept(t, IsTransition) == StartMove(s) + Transitions(s.successState)
      && t[|t| - |closing|..] == closing
      && Kept(t[..|t| - |closing|], IsComment) == []
  {
    hide Kept, ReachesTurn, ReachesSession, ReachesBeforeRun, ReachesClient, Ending, FormatFailureBody;
    var opening, running, closing := Opening(s), Running(s, id), Final(s, id);
    var exit := [Posted(WorkerExit(id, Ending(s).0, Ending(s).0 == "normal", s.seconds, Ending(s).1))];
    KeptParts(opening, running, closing, IsComment);
    KeptNone(opening + running, IsComment);
    KeptNone(opening, IsComment);
    KeptNone(running, IsComment);
    var comment := if Ending(s).0 == "normal" then [] else [AddComment(FormatFailureBody(Ending(s).0, Ending(s).1))];
    KeptBetween(comment, Transitions(s.successState) + exit, [], IsComment, NotComment);
    KeptNone<Effect>([], IsComment);
    assert closing == comment + (Transitions(s.successState) + exit) + [];
    assert Attempt(s, id)[..|opening| + |running|] == opening + running;
    TransitionsOnly(s, id);
  }

  predicate NotComment(e: Effect) {
    !IsComment(e)
  }

  lemma RunningProjected(s: Script, id: string)
    ensures Kept(Running(s, id), IsSession) == TurnAndAfter(s, id)
    ensures Kept(Running(s, id), IsTransition) == StartMove(s)
  {
    hide Kept, ReachesTurn, ReachesSession;
    KeptSplit(StartMove(s), TurnAndAfter(s, id), IsSession);
    KeptSplit(StartMove(s), TurnAndAfter(s, id), IsTransition);
  }

  lemma OpeningProjected(s: Script)
    ensures Kept(Opening(s), IsSession) == Entry(s)
    ensures Kept(Opening(s), IsTransition) == []
  {
    hide Kept, ReachesBeforeRun, ReachesSession, ReachesClient;
    KeptSplit(Preparing(s), Entry(s), IsSession);
    KeptNone(Opening(s), IsTransition);
  }

  lemma FinalProjected(s: Script, id: string)
    ensures Kept(Final(s, id), IsSession) == []
    ensures Kept(Final(s, id), IsTransition) == Transitions(s.successState)
  {
    hide Kept, FormatFailureBody;
    var closing, moves := Final(s, id), Transitions(s.successState);
    KeptNone(closing, IsSession);
    var front, exit := closing[..|closing| - 1], closing[|closing| - 1..];
    var comment := front[..|front| - |moves|];
    KeptSplit(comment, moves, IsTransition);
    assert front == comment + moves;
    KeptConcat(front, exit, IsTransition);
    KeptNone(exit, IsTransition);
    assert closing == front + exit;
  }

  lemma TransitionsOnly(s: Script, id: string)
    ensures Kept(Attempt(s, id), IsTransition) == StartMove(s) + Transitions(s.successState)
  {
    hide Kept, Opening, Running, Closing, StartMove, Transitions, Ending;
    KeptParts(Opening(s), Running(s, id), Final(s, id), IsTransition);
    OpeningProjected(s);
    RunningProjected(s, id);
    FinalProjected(s, id);
  }

  /** Around the session: the hook before it, the start, and, once it has started, one turn, its
      updates and one stop; the hook after it is tried exactly when starting returned or raised
      an error of the client's family. */
  lemma SessionBracketed(s: Script, id: string)
    ensures Kept(Attempt(s, id), IsSession) == Entry(s) + TurnAndAfter(s, id)
  {
    hide Kept, Opening, Running, Closing, Entry, TurnAndAfter, Ending;
    KeptParts(Opening(s), Running(s, id), Final(s, id), IsSession);
    OpeningProjected(s);
    RunningProjected(s, id);
    FinalProjected(s, id);
  }

  // ---------------------------------------------------------------------
  // The order of the effects
  // ---------------------------------------------------------------------

  /** The place of an effect in an attempt; a move of the ticket has two, and is looked at apart. */
  function Place(e: Effect): nat {
    match e
    case EnsureWorkspace => 1
    case BuildClient => 2
    case BeforeRun => 3
    case StartSession => 4
    case StreamTurn => 5
    case Posted(msg) => if msg.CodexUpdate? then 6 else 10
    case StopSession => 7
    case AfterRun => 8
    case AddComment(_) => 9
    case Transition(_) => 0
  }

  predicate Before(a: Effect, b: Effect) {
    a.Transition? || b.Transition? || Place(a) < Place(b) || (IsUpdate(a) && IsUpdate(b))
  }

  predicate InOrder(t: seq<Effect>) {
    forall i, j :: 0 <= i < j < |t| ==> Before(t[i], t[j])
  }

  lemma OrderedParts(a: seq<Effect>, b: seq<Effect>)
    requires InOrder(a) && InOrder(b) && forall x, y :: x in a && y in b ==> Before(x, y)
    ensures InOrder(a + b)
  {
  }

  lemma PartsInOrder(s: Script, id: string)
    ensures InOrder(Opening(s)) && InOrder(StartMove(s)) && InOrder(TurnAndAfter(s, id)) && InOrder(Final(s, id))
  {
    hide Ending, FormatFailureBody, ReachesTurn, ReachesSession, ReachesBeforeRun, ReachesClient;
    OrderedParts([StreamTurn], Updates(id, s.events));
    OrderedParts([StreamTurn] + Updates(id, s.events), [StopSession]);
    OrderedParts(if ReachesTurn(s) then [StreamTurn] + Updates(id, s.events) + [StopSession] else [],
                 if ReachesSession(s) && !s.start.StartRaised? && s.afterRun.Some? then [AfterRun] else []);
  }

  lemma PartsApart(s: Script, id: string)
    ensures forall x :: x in Opening(s) ==> Place(x) in {1, 2, 3, 4}
    ensures forall x :: x in StartMove(s) ==> x.Transition?
    ensures forall x :: x in TurnAndAfter(s, id) ==> Place(x) in {5, 6, 7, 8}
    ensures forall x :: x in Final(s, id) ==> x.Transition? || Place(x) in {9, 10}
  {
    hide Ending, FormatFailureBody, ReachesTurn, ReachesSession, ReachesBeforeRun, ReachesClient;
  }

  lemma PartsOfAttempt(s: Script, id: string)
    ensures Attempt(s, id) == Opening(s) + StartMove(s) + TurnAndAfter(s, id) + Final(s, id)
  {
    hide Opening, StartMove, TurnAndAfter, Final;
  }

  /** Apart from the moves of the ticket, the effects stand in this order, each at most once but the
      updates: the workspace, the client, the hook before, the session, the turn, its updates, the stop,
      the hook after, the comment, the exit. The first move stands between the session and the turn, the
      last right before the exit. */
  lemma AttemptInOrder(s: Script, id: string)
    ensures var t := Attempt(s, id);
      && InOrder(t)
      && (forall i :: 0 <= i < |t| && t[i] == StreamTurn ==>
            i > 0 && t[i - 1] == if s.startState.Some? then Transition(s.startState.value) else StartSession)
      && (s.successState.Some? ==> |t| > 1 && t[|t| - 2] == Transition(s.successState.value))
  {
    hide Opening, StartMove, TurnAndAfter, Final, InOrder, Attempt;
    PartsInOrder(s, id);
    PartsApart(s, id);
    PartsOfAttempt(s, id);
    var opening, move, turn, closing := Opening(s), StartMove(s), TurnAndAfter(s, id), Final(s, id);
    OrderedParts(opening, move);
    OrderedParts(opening + move, turn);
    OrderedParts(opening + move + turn, closing);
    TurnFollows(s, id);
    LastMove(s, id);
  }

  lemma TurnFollows(s: Script, id: string)
    ensures var t := Attempt(s, id);
      forall i :: 0 <= i < |t| && t[i] == StreamTurn ==>
        i > 0 && t[i - 1] == if s.startState.Some? then Transition(s.startState.value) else StartSession
  {
    hide Opening, Final, Attempt, ReachesSession;
    PartsApart(s, id);
    PartsOfAttempt(s, id);
    var front, turn, closing := Opening(s) + StartMove(s), TurnAndAfter(s, id), Final(s, id);
    var t := front + turn + closing;
    assert StreamTurn !in front && StreamTurn !in closing;
    forall i | 0 <= i < |t| && t[i] == StreamTurn ensures i == |front| && ReachesTurn(s) {
      if |front| <= i < |front| + |turn| {
        assert turn[i - |front|] == StreamTurn;
      }
    }
    if ReachesTurn(s) {
      SessionOpensLast(s);
    }
  }

  lemma SessionOpensLast(s: Script)
    requires ReachesSession(s)
    ensures Opening(s) != [] && Opening(s)[|Opening(s)| - 1] == StartSession
  {
    hide ReachesSession, ReachesBeforeRun, ReachesClient;
  }

  lemma LastMove(s: Script, id: string)
    ensures var t := Attempt(s, id);
      s.successState.Some? ==> |t| > 1 && t[|t| - 2] == Transition(s.successState.value)
  {
    hide Ending, FormatFailureBody, Opening, Running;
  }

  /** And each is there exactly if the stages before it went well. */
  lemma AttemptHas(s: Script, id: string)
    ensures var t := Attempt(s, id);
      && (EnsureWorkspace in t <==> s.render.Rendered?)
      && (BuildClient in t <==> s.render.Rendered? && s.workspace.Returned? && s.factory.Some?)
      && (BeforeRun in t <==> ReachesBeforeRun(s) && s.beforeRun.Some?)
      && (StartSession in t <==> ReachesSession(s))
      && (StreamTurn in t <==> ReachesTurn(s)) && (StopSession in t <==> ReachesTurn(s))
      && (AfterRun in t <==> ReachesSession(s) && !s.start.StartRaised? && s.afterRun.Some?)
  {
    hide Opening, StartMove, TurnAndAfter, Final, Attempt, ReachesTurn, ReachesSession, ReachesBeforeRun;
    PartsApart(s, id);
    PartsOfAttempt(s, id);
    OpeningHas(s);
    TurnHas(s, id);
  }

  lemma OpeningHas(s: Script)
    ensures var t := Opening(s);
      && (EnsureWorkspace in t <==> s.render.Rendered?)
      && (BuildClient in t <==> s.render.Rendered? && s.workspace.Returned? && s.factory.Some?)
      && (BeforeRun in t <==> ReachesBeforeRun(s) && s.beforeRun.Some?)
      && (StartSession in t <==> ReachesSession(s))
  {
    hide ReachesBeforeRun, ReachesSession;
  }

  lemma TurnHas(s: Script, id: string)
    ensures var t := TurnAndAfter(s, id);
      && (StreamTurn in t <==> ReachesTurn(s)) && (StopSession in t <==> ReachesTurn(s))
      && (AfterRun in t <==> ReachesSession(s) && !s.start.StartRaised? && s.afterRun.Some?)
  {
    hide ReachesTurn, ReachesSession;
  }

  /** What is in the log: of each best-effort call that was made, its error if it went wrong. */
  lemma LoggedExactly(s: Script, state: string, error: string)
    ensures var log := Warnings(s);
      && (TransitionFailed(state, error) in log <==>
            || (ReachesTurn(s) && s.startState == Some(state) && s.startTransition == Raised(error))
            || (s.successState == Some(state) && s.successTransition == Raised(error)))
      && (StopFailed(error) in log <==> ReachesTurn(s) && s.stop == Raised(error))
      && (AfterRunFailed(error) in log <==>
            && ReachesSession(s) && !s.start.StartRaised?
            && s.afterRun in {Some(HookFailed(error)), Some(HookRaised(error))})
      && (CommentFailed(error) in log <==> !(ReachesTurn(s) && s.turn.TurnDone?) && s.comment == Raised(error))
  {
    hide RunningWarnings, ClosingWarnings, ReachesTurn, ReachesSession;
    RunningLogged(s, state, error);
    ClosingLogged(s, state, error);
  }

  lemma RunningLogged(s: Script, state: string, error: string)
    ensures var log := RunningWarnings(s);
      && (TransitionFailed(state, error) in log <==>
            ReachesTurn(s) && s.startState == Some(state) && s.startTransition == Raised(error))
      && (StopFailed(error) in log <==> ReachesTurn(s) && s.stop == Raised(error))
      && (AfterRunFailed(error) in log <==>
            && ReachesSession(s) && !s.start.StartRaised?
            && s.afterRun in {Some(HookFailed(error)), Some(HookRaised(error))})
      && CommentFailed(error) !in log
  {
    hide ReachesTurn, ReachesSession;
  }

  lemma ClosingLogged(s: Script, state: string, error: string)
    ensures var log := ClosingWarnings(s, Ending(s).0 == "normal");
      && (TransitionFailed(state, error) in log <==> s.successState == Some(state) && s.successTransition == Raised(error))
      && (CommentFailed(error) in log <==> !(ReachesTurn(s) && s.turn.TurnDone?) && s.comment == Raised(error))
      && StopFailed(error) !in log && AfterRunFailed(error) !in log
  {
    hide ReachesTurn, ReachesSession;
  }
}
