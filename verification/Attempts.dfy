/** A worker attempt driven by the real client: from the frames the app-server sends to the
    messages the orchestrator receives. */
module Attempts {
  import opened Prelude
  import opened Protocol
  import opened Frames
  import opened Turns
  import opened Handshakes
  import W = Worker

  /** How the worker sees the end of the handshake; `describe` words the error. */
  function StartOf(outcome: Answer<Session>, describe: Failure -> string): W.Start {
    match outcome
    case Ok(_) => W.Started
    case Failed(OtherError) => W.StartRaised(describe(OtherError))
    case Failed(failure) => W.StartFailed(describe(failure))
  }

  /** How the worker sees the end of a turn: four endings it knows, the rest are unclassified. */
  function TurnEndOf(outcome: Answer<TurnResult>, describe: Failure -> string): W.TurnEnd {
    match outcome
    case Ok(_) => W.TurnDone
    case Failed(TurnFailed) => W.Failed(describe(TurnFailed))
    case Failed(TurnCancelled) => W.Cancelled(describe(TurnCancelled))
    case Failed(TimedOut) => W.TimedOut(describe(TurnTimeout))
    case Failed(TurnTimeout) => W.TimedOut(describe(TurnTimeout))
    case Failed(PortExit) => W.PortClosed(describe(PortExit))
    case Failed(failure) => W.TurnRaised(describe(failure))
  }

  /** The attempt's session and turn are those of a client reading these frames. */
  ghost predicate Driven(s: W.Script, t: Table, fs: seq<Incoming>, id: int, a: Startup, parseInt: IntParser,
                         describe: Failure -> string)
  {
    var h := Shake(t, fs, id, a, parseInt);
    var rest := fs[h.consumed..];
    var run := Turn(rest, id + h.ids, parseInt);
    && s.start == StartOf(h.outcome, describe)
    && s.turn == TurnEndOf(run.outcome, describe)
    && s.events == TurnEvents(rest, run)
  }

  /** When everything before the session went well, the attempt reports success exactly when the
      frames complete the handshake and then settle the turn as completed; and the orchestrator
      is sent an update for exactly the notifications the turn consumed, in order, before the
      one exit. */
  lemma AttemptFollowsFrames(s: W.Script, issueId: string, t: Table, fs: seq<Incoming>, id: int, a: Startup,
                             parseInt: IntParser, describe: Failure -> string)
    requires W.ReachesSession(s) && Driven(s, t, fs, id, a, parseInt, describe)
    ensures var h := Shake(t, fs, id, a, parseInt);
      var rest := fs[h.consumed..];
      var trace := W.Attempt(s, issueId);
      && |trace| > 0 && trace[|trace| - 1].Posted? && trace[|trace| - 1].msg.WorkerExit?
      && (trace[|trace| - 1].msg.ok <==>
            h.outcome.Ok? && Settled("completed", rest, id + h.ids, parseInt))
      && (h.outcome.Ok? ==>
            Kept(trace, W.IsUpdate) == W.Updates(issueId, TurnEvents(rest, Turn(rest, id + h.ids, parseInt))))
      && (h.outcome.Failed? ==> Kept(trace, W.IsUpdate) == [])
  {
    hide Shake, Turn, Settled, TurnEvents, Kept, W.Attempt, W.Updates;
    var h := Shake(t, fs, id, a, parseInt);
    TurnSettlesExactly(fs[h.consumed..], id + h.ids, parseInt);
    W.OneExitLast(s, issueId);
    W.UpdatesInOrder(s, issueId);
  }

  /** The reason an attempt with a session gives, by how its turn ended: a client error other than
      the four typed endings, such as a malformed frame in mid-turn, is "unexpected". */
  lemma ReasonByTurn(s: W.Script, t: Table, fs: seq<Incoming>, id: int, a: Startup,
                     parseInt: IntParser, describe: Failure -> string)
    ensures var h := Shake(t, fs, id, a, parseInt);
      var outcome := Turn(fs[h.consumed..], id + h.ids, parseInt).outcome;
      var reason := W.Ending(s).0;
      W.ReachesTurn(s) && Driven(s, t, fs, id, a, parseInt, describe) ==>
      && (reason == "turn_cancelled" <==> outcome == Failed(TurnCancelled))
      && (reason == "turn_timeout" <==> outcome == Failed(TimedOut))
      && (reason == "port_exit" <==> outcome == Failed(PortExit))
      && (reason == "unexpected" <==> outcome.Failed? && outcome.failure in {ResponseError, CodexNotFound, OtherError})
  {
    hide Shake, Turn;
    var h := Shake(t, fs, id, a, parseInt);
    TurnFailures(fs[h.consumed..], id + h.ids, parseInt);
  }

  /** A turn never fails with the two timeouts its callers see. */
  lemma TurnFailures(fs: seq<Incoming>, id: int, parseInt: IntParser)
    ensures var outcome := Turn(fs, id, parseInt).outcome;
      outcome.Failed? ==> outcome.failure != ResponseTimeout && outcome.failure != TurnTimeout
  {
    hide Settles, Payload;
    if Waited(fs, id, parseInt).consumed > 0 {
      ParseFailures(fs[Waited(fs, id, parseInt).consumed - 1], id, parseInt);
    }
  }
}
