/** What reconciliation does: whose worker is stopped, what the mailbox gains, which workspaces are
    cleaned and which snapshots are replaced. */
module Reconciliation {
  import opened Prelude
  import opened Tracker
  import opened Mailboxes
  import opened State
  import opened Dispatch
  import opened Reconcile
  import opened World
  import opened Framing

  // ---------------------------------------------------------------------
  // Who is stalled, and what the tracker says of an issue
  // ---------------------------------------------------------------------

  /** The timeout is positive, and has passed since the last event, or since the start if none came. */
  predicate Overdue(e: Entry, now: int, timeoutMs: int) {
    timeoutMs > 0 && match e.lastTimestamp case Some(at) => now >= at + 1000 * timeoutMs
                                           case None => now >= e.startedAt + 1000 * timeoutMs
  }

  /** The running issues of the world that are overdue. */
  function OverdueIn(w: World, now: int): string -> bool {
    (id: string) => id in w.core.st.running && Overdue(w.core.st.running[id], now, w.config.stallTimeoutMs)
  }

  /** The exit that is posted for a stalled worker, which has not done well. */
  function ExitOfStalled(w: World, now: int, id: string): Message
    requires id in w.core.st.running
  {
    WorkerExit(id, "stall_terminated", false, (now - w.core.st.running[id].startedAt) as real / 1000000.0,
               Some("stall timeout " + (if w.config.stallTimeoutMs >= 0 then Decimal(w.config.stallTimeoutMs) else "") + "ms exceeded"))
  }

  function ExitsOfStalled(w: World, now: int, ids: seq<string>): seq<Message>
    requires forall id :: id in ids ==> id in w.core.st.running
  {
    seq(|ids|, i requires 0 <= i < |ids| => ExitOfStalled(w, now, ids[i]))
  }

  predicate IsOneOf(state: string, names: seq<string>) {
    exists name :: name in names && Lower(name) == Lower(state)
  }

  /** The refresh has the issue, last at position `i`. */
  predicate LatestAt(issues: seq<Issue>, i: nat, id: string) {
    i < |issues| && issues[i].id == id && forall j :: i < j < |issues| ==> issues[j].id != id
  }

  /** The issue is found in a terminal state. */
  ghost predicate Finished(config: Config, refresh: Reply<seq<Issue>>, id: string) {
    refresh.Returned? && exists i: nat :: LatestAt(refresh.value, i, id) && IsOneOf(refresh.value[i].state, config.terminalStates)
  }

  /** The issue is found at `i` in an active state that is not terminal. */
  predicate ActiveAt(config: Config, refresh: Reply<seq<Issue>>, i: nat, id: string) {
    && refresh.Returned? && LatestAt(refresh.value, i, id)
    && !IsOneOf(refresh.value[i].state, config.terminalStates) && IsOneOf(refresh.value[i].state, config.activeStates)
  }

  /** The refresh came in, and the issue is not in it, or terminal, or not active. */
  ghost predicate Discontinued(config: Config, refresh: Reply<seq<Issue>>, id: string) {
    refresh.Returned? && forall i: nat :: !ActiveAt(config, refresh, i, id)
  }

  ghost function FinishedIn(config: Config, refresh: Reply<seq<Issue>>): string -> bool {
    (id: string) => Finished(config, refresh, id)
  }

  lemma OneOfNormalized(state: string, names: seq<string>)
    ensures IsOneOf(state, names) <==> Lower(state) in Normalized(names)
  {
  }

  lemma LatestInById(issues: seq<Issue>, i: nat, id: string)
    requires LatestAt(issues, i, id)
    ensures id in ById(issues) && ById(issues)[id] == issues[i]
  {
    hide ById;
    assert LastOfItsId(issues, i);
  }

  lemma {:induction false} FoundLatest(issues: seq<Issue>, x: Issue) returns (i: nat)
    requires x in issues
    ensures LatestAt(issues, i, x.id)
  {
    var init, last := issues[..|issues| - 1], issues[|issues| - 1];
    assert issues == init + [last];
    if last.id == x.id {
      i := |init|;
    } else {
      i := FoundLatest(init, x);
    }
  }

  lemma LatestOnce(issues: seq<Issue>, i: nat, k: nat, id: string)
    requires LatestAt(issues, i, id) && LatestAt(issues, k, id)
    ensures i == k
  {
  }

  /** The verdict on a running issue, in these terms. */
  lemma JudgedExactly(config: Config, issues: seq<Issue>, id: string)
    ensures var v := Judge(ById(issues), id, Normalized(config.terminalStates), Normalized(config.activeStates));
      && (v == StopAndClean <==> Finished(config, Returned(issues), id))
      && (v.Refresh? <==> !Discontinued(config, Returned(issues), id))
      && (forall i: nat :: ActiveAt(config, Returned(issues), i, id) ==> v == Refresh(issues[i]))
  {
    hide Normalized, ById, IsOneOf, Lower;
    var v := Judge(ById(issues), id, Normalized(config.terminalStates), Normalized(config.activeStates));
    if id in ById(issues) {
      var i := FoundLatest(issues, ById(issues)[id]);
      hide LatestAt;
      LatestIndex(issues, i, id);
      LatestInById(issues, i, id);
      OneOfNormalized(issues[i].state, config.terminalStates);
      OneOfNormalized(issues[i].state, config.activeStates);
      forall k: nat | LatestAt(issues, k, id) ensures k == i {
        LatestOnce(issues, i, k, id);
      }
      assert v.Refresh? ==> ActiveAt(config, Returned(issues), i, id);
    } else {
      forall i: nat ensures !LatestAt(issues, i, id) {
        if LatestAt(issues, i, id) {
          LatestInById(issues, i, id);
        }
      }
    }
  }

  lemma LatestIndex(issues: seq<Issue>, i: nat, id: string)
    requires LatestAt(issues, i, id)
    ensures i < |issues|
  {
  }

  // ---------------------------------------------------------------------
  // The parts
  // ---------------------------------------------------------------------

  /** `h` is the handle of the unfinished worker of one of these issues. */
  predicate HandleOf(st: OState, ids: seq<string>, finished: set<nat>, h: nat) {
    h !in finished && exists id :: id in ids && id in st.running && st.running[id].workerHandle == h
  }

  lemma HandleOfMore(st: OState, ids: seq<string>, last: string, finished: set<nat>, h: nat)
    ensures HandleOf(st, ids + [last], finished, h) <==>
      HandleOf(st, ids, finished, h) || (h !in finished && last in st.running && st.running[last].workerHandle == h)
  {
    assert last in ids + [last];
    assert forall id :: id in ids ==> id in ids + [last];
    if HandleOf(st, ids + [last], finished, h) {
      var id :| id in ids + [last] && id in st.running && st.running[id].workerHandle == h;
      assert id in ids || id == last;
    }
  }

  lemma {:induction false} StallsReportedExactly(w: World, ids: seq<string>, now: int, finished: set<nat>)
    requires forall id :: id in ids ==> id in w.core.st.running
    ensures var r := StallsReported(w, ids, now, finished);
      && r.box == w.box + ExitsOfStalled(w, now, ids)
      && forall h :: h in r.cancelledWorkers <==> h in w.cancelledWorkers || HandleOf(w.core.st, ids, finished, h)
  {
    hide HandleOf, Decimal;
    if ids == [] {
      assert w.box + [] == w.box;
      forall h ensures !HandleOf(w.core.st, [], finished, h) {
        NoHandles(w.core.st, finished, h);
      }
    } else {
      var init, last := ids[..|ids| - 1], ids[|ids| - 1];
      assert ids == init + [last];
      StallsReportedExactly(w, init, now, finished);
      assert last in ids;
      assert ExitsOfStalled(w, now, ids) == ExitsOfStalled(w, now, init) + [ExitOfStalled(w, now, last)];
      forall h {
        HandleOfMore(w.core.st, init, last, finished, h);
      }
    }
  }

  lemma NoHandles(st: OState, finished: set<nat>, h: nat)
    ensures !HandleOf(st, [], finished, h)
  {
  }

  function IdentifiersOf(st: OState, ids: seq<string>): seq<string>
    requires forall id :: id in ids ==> id in st.running
  {
    seq(|ids|, i requires 0 <= i < |ids| => st.running[ids[i]].identifier)
  }

  lemma {:induction false} WorkersStoppedExactly(w: World, ids: seq<string>, clean: bool, finished: set<nat>)
    requires forall id :: id in ids ==> id in w.core.st.running
    ensures var r := WorkersStopped(w, ids, clean, finished);
      && r.cleanups == w.cleanups + (if clean then IdentifiersOf(w.core.st, ids) else [])
      && forall h :: h in r.cancelledWorkers <==> h in w.cancelledWorkers || HandleOf(w.core.st, ids, finished, h)
  {
    hide HandleOf;
    if ids == [] {
      assert w.cleanups + [] == w.cleanups;
      forall h ensures !HandleOf(w.core.st, [], finished, h) {
        NoHandles(w.core.st, finished, h);
      }
    } else {
      var init, last := ids[..|ids| - 1], ids[|ids| - 1];
      assert ids == init + [last];
      WorkersStoppedExactly(w, init, clean, finished);
      assert last in ids;
      assert IdentifiersOf(w.core.st, ids) == IdentifiersOf(w.core.st, init) + [w.core.st.running[last].identifier];
      forall h {
        HandleOfMore(w.core.st, init, last, finished, h);
      }
    }
  }

  lemma {:induction false} StalledAreOverdue(w: World, order: seq<string>, now: int)
    ensures StalledIds(order, w.core.st.running, now, w.config.stallTimeoutMs) == Kept(order, OverdueIn(w, now))
  {
    if order != [] {
      StalledAreOverdue(w, order[..|order| - 1], now);
    }
  }

  lemma {:induction false} KeptMembers(s: seq<string>, keep: string -> bool)
    ensures forall x :: x in Kept(s, keep) <==> x in s && keep(x)
  {
    if s != [] {
      KeptMembers(s[..|s| - 1], keep);
      assert s == s[..|s| - 1] + [s[|s| - 1]];
    }
  }

  lemma {:induction false} CleanedAreFinished(config: Config, order: seq<string>, issues: seq<Issue>)
    ensures ActionsFor(order, ById(issues), Normalized(config.terminalStates), Normalized(config.activeStates)).terminateWithCleanup
         == Kept(order, FinishedIn(config, Returned(issues)))
  {
    hide Judge, Normalized, ById, Finished;
    if order != [] {
      CleanedAreFinished(config, order[..|order| - 1], issues);
      JudgedExactly(config, issues, order[|order| - 1]);
    }
  }

  // ---------------------------------------------------------------------
  // The whole
  // ---------------------------------------------------------------------

  /** The stalled running issues, in the order of the map. */
  function OverdueOf(w: World, now: int): (ids: seq<string>)
    ensures forall id :: id in ids <==> id in w.core.st.order && OverdueIn(w, now)(id)
  {
    KeptMembers(w.core.st.order, OverdueIn(w, now));
    Kept(w.core.st.order, OverdueIn(w, now))
  }

  /** The issues of the running map that the refresh found terminal, in its order. */
  ghost function FinishedOf(w: World, refresh: Reply<seq<Issue>>): (ids: seq<string>)
    ensures forall id :: id in ids <==> id in w.core.st.order && Finished(w.config, refresh, id)
  {
    KeptMembers(w.core.st.order, FinishedIn(w.config, refresh));
    Kept(w.core.st.order, FinishedIn(w.config, refresh))
  }

  /** `h` is the handle of the unfinished worker of a discontinued running issue. */
  ghost predicate DiscontinuedHandle(w: World, refresh: Reply<seq<Issue>>, finished: set<nat>, h: nat) {
    h !in finished && exists id :: id in w.core.st.running && Discontinued(w.config, refresh, id)
                                   && w.core.st.running[id].workerHandle == h
  }

  lemma StoppedHandles(w: World, issues: seq<Issue>, finished: set<nat>, h: nat)
    requires Ordered(w.core.st)
    ensures var a := ActionsFor(w.core.st.order, ById(issues), Normalized(w.config.terminalStates), Normalized(w.config.activeStates));
      HandleOf(w.core.st, a.terminateWithCleanup, finished, h) || HandleOf(w.core.st, a.terminateWithoutCleanup, finished, h)
      <==> DiscontinuedHandle(w, Returned(issues), finished, h)
  {
    hide Judge, Normalized, ById, Discontinued, ActionsFor;
    var st := w.core.st;
    var terminal, active := Normalized(w.config.terminalStates), Normalized(w.config.activeStates);
    OneActionEach(st.order, ById(issues), terminal, active);
    forall id ensures Judge(ById(issues), id, terminal, active).Refresh? <==> !Discontinued(w.config, Returned(issues), id) {
      JudgedExactly(w.config, issues, id);
    }
  }

  /** The workers that are stopped and the workspaces that are cleaned after a refresh. */
  lemma ActsOnWorkers(w: World, issues: seq<Issue>, finished: set<nat>)
    requires Ordered(w.core.st)
    ensures var a := ActionsFor(w.core.st.order, ById(issues), Normalized(w.config.terminalStates), Normalized(w.config.activeStates));
      var r := Acted(w, a, finished);
      && (forall h :: h in r.cancelledWorkers <==>
            h in w.cancelledWorkers || DiscontinuedHandle(w, Returned(issues), finished, h))
      && r.cleanups == w.cleanups + IdentifiersOf(w.core.st, FinishedOf(w, Returned(issues)))
  {
    hide Judge, Normalized, ById, Discontinued, ActionsFor, WorkersStopped, HandleOf, DiscontinuedHandle, FinishedIn, Finished;
    var st := w.core.st;
    var terminal, active := Normalized(w.config.terminalStates), Normalized(w.config.activeStates);
    var a := ActionsFor(st.order, ById(issues), terminal, active);
    OneActionEach(st.order, ById(issues), terminal, active);
    CleanedAreFinished(w.config, st.order, issues);
    WorkersStoppedExactly(w, a.terminateWithCleanup, true, finished);
    WorkersStoppedFrame(w, a.terminateWithCleanup, true, finished);
    var w1 := WorkersStopped(w, a.terminateWithCleanup, true, finished);
    WorkersStoppedExactly(w1, a.terminateWithoutCleanup, false, finished);
    WorkersStoppedFrame(w1, a.terminateWithoutCleanup, false, finished);
    forall h ensures HandleOf(st, a.terminateWithCleanup, finished, h) || HandleOf(st, a.terminateWithoutCleanup, finished, h)
                     <==> DiscontinuedHandle(w, Returned(issues), finished, h) {
      StoppedHandles(w, issues, finished, h);
    }
    assert w1.cleanups + [] == w1.cleanups;
  }

  /** The entry of `id` after the refresh: a new snapshot if the issue was found active, and nothing
      else new. */
  ghost predicate EntryFollows(w: World, refresh: Reply<seq<Issue>>, r: World, id: string) {
    && id in w.core.st.running && id in r.core.st.running
    && (refresh.Raised? || Discontinued(w.config, refresh, id) ==> r.core.st.running[id] == w.core.st.running[id])
    && forall i: nat :: ActiveAt(w.config, refresh, i, id) ==>
         r.core.st.running[id] == w.core.st.running[id].(issue := refresh.value[i])
  }

  lemma ActsOnSnapshots(w: World, issues: seq<Issue>, finished: set<nat>, id: string)
    requires Ordered(w.core.st) && id in w.core.st.running
    ensures var a := ActionsFor(w.core.st.order, ById(issues), Normalized(w.config.terminalStates), Normalized(w.config.activeStates));
      EntryFollows(w, Returned(issues), Acted(w, a, finished), id)
  {
    hide Judge, Normalized, ById, Discontinued, ActionsFor, Acted, LatestAt, IsOneOf;
    var terminal, active := Normalized(w.config.terminalStates), Normalized(w.config.activeStates);
    var a := ActionsFor(w.core.st.order, ById(issues), terminal, active);
    OneActionEach(w.core.st.order, ById(issues), terminal, active);
    ActedFrame(w, a, finished);
    JudgedExactly(w.config, issues, id);
    assert forall i: nat :: ActiveAt(w.config, Returned(issues), i, id) ==> !Discontinued(w.config, Returned(issues), id);
  }

  /** Reconciliation: the mailbox gains one unsuccessful exit for each stalled running issue, in the
      order of the map, before anything that is produced meanwhile; the workers cancelled are the
      unfinished ones of issues that are stalled, or that the tracker no longer shows as active; the
      workspaces cleaned are those of issues found terminal; and the snapshots replaced are those of
      issues found active. */
  lemma ReconcilesExactly(w: World, env: TickEnv)
    requires Ordered(w.core.st)
    ensures var r := Reconciled(w, env);
      var stalled := OverdueOf(w, env.now);
      var box := w.box + ExitsOfStalled(w, env.now, stalled);
      && box <= r.box
      && r.box == (if w.core.st.running == map[] then box else ProduceAll(w.core.q.timers, box, env.duringRefresh).1)
      && (forall h :: h in r.cancelledWorkers <==>
            h in w.cancelledWorkers || HandleOf(w.core.st, stalled, env.finished, h)
            || DiscontinuedHandle(w, env.refresh, env.finished, h))
      && r.cleanups == w.cleanups + IdentifiersOf(w.core.st, FinishedOf(w, env.refresh))
      && r.core.st.running.Keys == w.core.st.running.Keys
      && forall id :: id in w.core.st.running ==> EntryFollows(w, env.refresh, r, id)
  {
    hide ProduceAll, StallsReported, Acted, ActionsFor, ById, Normalized, HandleOf, DiscontinuedHandle, ExitsOfStalled,
         EntryFollows, FinishedOf, OverdueOf;
    var st, stalled := w.core.st, OverdueOf(w, env.now);
    OverdueAre(w, env.now);
    var w1 := StallsReported(w, stalled, env.now, env.finished);
    StallsReportedExactly(w, stalled, env.now, env.finished);
    StallsReportedFrame(w, stalled, env.now, env.finished);
    ProduceAllGrows(w1.core.q.timers, w1.box, env.duringRefresh);
    if st.running == map[] || env.refresh.Raised? {
      NothingFollows(w, env.refresh, env.finished, Reconciled(w, env));
    } else {
      var w2 := Awaited(w1, env.duringRefresh);
      ActsOnWorkers(w2, env.refresh.value, env.finished);
      forall id | id in st.running ensures EntryFollows(w, env.refresh, Reconciled(w, env), id) {
        ActsOnSnapshots(w2, env.refresh.value, env.finished, id);
        SameEntries(w, w2, env.refresh, Reconciled(w, env), id);
      }
      SameFinished(w, w2, env.refresh);
      forall h {
        SameHandles(w, w2, env.refresh, env.finished, h);
      }
      ActedFrame(w2, ActionsFor(st.order, ById(env.refresh.value), Normalized(w.config.terminalStates),
                                Normalized(w.config.activeStates)), env.finished);
    }
  }

  lemma OverdueAre(w: World, now: int)
    requires Ordered(w.core.st)
    ensures StalledIds(w.core.st.order, w.core.st.running, now, w.config.stallTimeoutMs) == OverdueOf(w, now)
    ensures w.core.st.running == map[] ==> OverdueOf(w, now) == []
  {
    StalledAreOverdue(w, w.core.st.order, now);
  }

  /** Without an answer from the tracker, or without running issues, there is nothing to act on. */
  lemma NothingFollows(w: World, refresh: Reply<seq<Issue>>, finished: set<nat>, r: World)
    requires Ordered(w.core.st) && (w.core.st.running == map[] || refresh.Raised?)
    ensures FinishedOf(w, refresh) == []
    ensures forall h :: !DiscontinuedHandle(w, refresh, finished, h)
    ensures r.core.st.running == w.core.st.running ==> forall id :: id in w.core.st.running ==> EntryFollows(w, refresh, r, id)
  {
    KeptNone(w.core.st.order, FinishedIn(w.config, refresh));
  }

  lemma SameEntries(w: World, w2: World, refresh: Reply<seq<Issue>>, r: World, id: string)
    requires w2.core.st == w.core.st && w2.config == w.config
    ensures EntryFollows(w2, refresh, r, id) <==> EntryFollows(w, refresh, r, id)
  {
  }

  lemma SameFinished(w: World, w2: World, refresh: Reply<seq<Issue>>)
    requires w2.core.st == w.core.st && w2.config == w.config
    ensures FinishedOf(w2, refresh) == FinishedOf(w, refresh)
  {
  }

  lemma SameHandles(w: World, w2: World, refresh: Reply<seq<Issue>>, finished: set<nat>, h: nat)
    requires w2.core.st == w.core.st && w2.config == w.config
    ensures DiscontinuedHandle(w2, refresh, finished, h) <==> DiscontinuedHandle(w, refresh, finished, h)
  {
  }
}
