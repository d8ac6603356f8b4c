/** Stall detection, and the comparison of the running map with the tracker. */
module Reconcile {
  import opened Prelude
  import opened Tracker
  import opened State
  import opened Dispatch

  // ---------------------------------------------------------------------
  // Stalls
  // ---------------------------------------------------------------------

  /** Silent for at least the timeout since the last event, or since the start if none came.
      Times are microseconds; a timeout of zero or less disables the check. */
  predicate IsStalled(e: Entry, now: int, stallTimeoutMs: int) {
    var reference := if e.lastTimestamp.Some? then e.lastTimestamp.value else e.startedAt;
    stallTimeoutMs > 0 && Max(now - reference, 0) >= 1000 * stallTimeoutMs
  }

  function StalledIds(order: seq<string>, running: map<string, Entry>, now: int, stallTimeoutMs: int): seq<string> {
    if order == [] then []
    else
      var last := order[|order| - 1];
      StalledIds(order[..|order| - 1], running, now, stallTimeoutMs)
      + if last in running && IsStalled(running[last], now, stallTimeoutMs) then [last] else []
  }

  method DetectStalls(state: OrchestratorState, now: int, stallTimeoutMs: int) returns (out: seq<string>)
    requires state.Valid()
    ensures out == StalledIds(state.order, state.entries, now, stallTimeoutMs)
  {
    out := [];
    if stallTimeoutMs <= 0 {
      NothingStalled(state.order, state.entries, now, stallTimeoutMs);
      return;
    }
    for i := 0 to |state.order|
      invariant out == StalledIds(state.order[..i], state.entries, now, stallTimeoutMs)
    {
      var id := state.order[i];
      assert state.order[..i + 1][..i] == state.order[..i];
      if id in state.running {
        var entry := state.running[id];
        var reference := if entry.lastTimestamp.Some? then entry.lastTimestamp.value else entry.startedAt;
        if Max(now - reference, 0) >= 1000 * stallTimeoutMs {
          out := out + [id];
        }
      }
    }
    assert state.order[..|state.order|] == state.order;
  }

  /** Exactly the stalled running issues are found, each once, in the order of the map. */
  lemma {:induction false} StalledExactly(order: seq<string>, running: map<string, Entry>, now: int, stallTimeoutMs: int)
    ensures var ids := StalledIds(order, running, now, stallTimeoutMs);
      && (forall id :: id in ids <==> id in order && id in running && IsStalled(running[id], now, stallTimeoutMs))
      && (Distinct(order) ==> Distinct(ids))
  {
    hide IsStalled;
    if order != [] {
      StalledExactly(order[..|order| - 1], running, now, stallTimeoutMs);
      assert order == order[..|order| - 1] + [order[|order| - 1]];
      assert Distinct(order) ==> order[|order| - 1] !in order[..|order| - 1];
    }
  }

  lemma {:induction false} NothingStalled(order: seq<string>, running: map<string, Entry>, now: int, stallTimeoutMs: int)
    requires stallTimeoutMs <= 0
    ensures StalledIds(order, running, now, stallTimeoutMs) == []
  {
    if order != [] {
      NothingStalled(order[..|order| - 1], running, now, stallTimeoutMs);
    }
  }

  // ---------------------------------------------------------------------
  // Tracker refresh
  // ---------------------------------------------------------------------

  datatype Verdict = StopAndClean | Stop | Refresh(issue: Issue)

  datatype ReconcileActions = ReconcileActions(
    terminateWithCleanup: seq<string>,
    terminateWithoutCleanup: seq<string>,
    updateSnapshot: map<string, Issue>)

  predicate LastOfItsId(issues: seq<Issue>, i: nat)
    requires i < |issues|
  {
    forall j :: i < j < |issues| ==> issues[j].id != issues[i].id
  }

  /** The refreshed issues by id; a later one with the same id wins. */
  function ById(issues: seq<Issue>): (m: map<string, Issue>)
    ensures forall id :: id in m ==> m[id].id == id && m[id] in issues
    ensures forall i :: 0 <= i < |issues| ==> issues[i].id in m
    ensures forall i :: 0 <= i < |issues| && LastOfItsId(issues, i) ==> m[issues[i].id] == issues[i]
  {
    if issues == [] then map[]
    else
      var last := issues[|issues| - 1];
      assert forall i :: 0 <= i < |issues| - 1 ==> issues[..|issues| - 1][i] == issues[i];
      ById(issues[..|issues| - 1])[last.id := last]
  }

  function Judge(refreshed: map<string, Issue>, id: string, terminal: set<string>, active: set<string>): Verdict {
    if id !in refreshed then Stop
    else if Lower(refreshed[id].state) in terminal then StopAndClean
    else if Lower(refreshed[id].state) in active then Refresh(refreshed[id])
    else Stop
  }

  function Judged(a: ReconcileActions, id: string, v: Verdict): ReconcileActions {
    match v
    case StopAndClean => a.(terminateWithCleanup := a.terminateWithCleanup + [id])
    case Stop => a.(terminateWithoutCleanup := a.terminateWithoutCleanup + [id])
    case Refresh(issue) => a.(updateSnapshot := a.updateSnapshot[id := issue])
  }

  function ActionsFor(order: seq<string>, refreshed: map<string, Issue>, terminal: set<string>,
                      active: set<string>): ReconcileActions
  {
    if order == [] then ReconcileActions([], [], map[])
    else
      var last := order[|order| - 1];
      Judged(ActionsFor(order[..|order| - 1], refreshed, terminal, active), last, Judge(refreshed, last, terminal, active))
  }

  method ReconcileRunningWithTracker(state: OrchestratorState, refreshedIssues: seq<Issue>,
                                     terminalStates: seq<string>, activeStates: seq<string>)
    returns (actions: ReconcileActions)
    ensures actions == ActionsFor(state.order, ById(refreshedIssues), Normalized(terminalStates), Normalized(activeStates))
  {
    var refreshed := ById(refreshedIssues);
    var terminal, active := Normalized(terminalStates), Normalized(activeStates);
    actions := ReconcileActions([], [], map[]);
    for i := 0 to |state.order|
      invariant actions == ActionsFor(state.order[..i], refreshed, terminal, active)
    {
      var id := state.order[i];
      assert state.order[..i + 1][..i] == state.order[..i];
      if id !in refreshed {
        actions := actions.(terminateWithoutCleanup := actions.terminateWithoutCleanup + [id]);
        continue;
      }
      var newState := Lower(refreshed[id].state);
      if newState in terminal {
        actions := actions.(terminateWithCleanup := actions.terminateWithCleanup + [id]);
      } else if newState in active {
        actions := actions.(updateSnapshot := actions.updateSnapshot[id := refreshed[id]]);
      } else {
        actions := actions.(terminateWithoutCleanup := actions.terminateWithoutCleanup + [id]);
      }
    }
    assert state.order[..|state.order|] == state.order;
  }

  /** Every running issue gets exactly the one action its verdict names, and no other issue
      gets any. */
  lemma {:induction false} OneActionEach(order: seq<string>, refreshed: map<string, Issue>, terminal: set<string>, active: set<string>)
    ensures var a := ActionsFor(order, refreshed, terminal, active);
            forall id ::
              && (id in a.terminateWithCleanup <==> id in order && Judge(refreshed, id, terminal, active) == StopAndClean)
              && (id in a.terminateWithoutCleanup <==> id in order && Judge(refreshed, id, terminal, active) == Stop)
              && (id in a.updateSnapshot <==> id in order && Judge(refreshed, id, terminal, active).Refresh?)
              && (id in a.updateSnapshot ==> Judge(refreshed, id, terminal, active) == Refresh(a.updateSnapshot[id]))
  {
    if order != [] {
      assert order == order[..|order| - 1] + [order[|order| - 1]];
      OneActionEach(order[..|order| - 1], refreshed, terminal, active);
    }
  }
}
