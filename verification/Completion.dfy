/** Work that finished well is not retried. */
module Completion {
  import opened Tracker
  import opened Mailboxes
  import opened Retry
  import opened Clarification
  import opened Dispatch
  import opened Lifecycle
  import opened World
  import opened Framing
  import opened Consistency

  /** A retry timer completes nothing, and starts a worker at most for its own issue, and only
      if that issue has never completed. */
  lemma RetryRespectsCompleted(c: Core, box: seq<Message>, id: string, env: RetryEnv, perState: seq<(string, int)>, cap: int)
    ensures var st := RetryTimerHandled(c, box, id, env, perState, cap).core.st;
            && st.completed == c.st.completed
            && forall k :: k in st.running && k !in c.st.running ==> k == id && k !in c.st.completed
  {
    hide RetryTimerHandled, HasSlot;
    RetryFrame(c, box, id, env, perState, cap);
  }

  /** No step, of any world, forgets a completed issue. */
  lemma StepKeepsCompleted(p: Primitives, w: World, e: Event)
    ensures w.core.st.completed <= Step(p, w, e).core.st.completed
  {
    hide Ticked, RetryTimerHandled, Scheduled, ProduceAll, EntryUpdated, ReportedIncrease;
    if e.Deliver? && w.status == Live && w.box != [] {
      var w1 := w.(box := w.box[1..]);
      match w.box[0] {
        case PollTick => TickFrame(p, w1, e.env.tick);
        case RetryTimerFired(id) =>
          RetryFrame(w1.core, w1.box, id, e.env.retry, w.config.maxConcurrentByState, w.config.maxRetryBackoffMs);
        case _ =>
      }
    }
  }

  lemma {:induction false} CompletedGrows(p: Primitives, w: World, events: seq<Event>, n: nat)
    requires n <= |events|
    ensures Run(p, w, events[..n]).core.st.completed <= Run(p, w, events).core.st.completed
  {
    hide Step;
    if n == |events| {
      assert events[..n] == events;
    } else {
      var init, last := events[..|events| - 1], events[|events| - 1];
      assert init[..n] == events[..n];
      CompletedGrows(p, w, init, n);
      StepKeepsCompleted(p, Run(p, w, init), last);
    }
  }

  /** In every run, from any world, an issue that has ever completed is never started again by a
      retry timer. */
  lemma CompletedNeverRetried(p: Primitives, w: World, events: seq<Event>, n: nat, e: Event, id: string)
    requires n <= |events|
    ensures var r := Run(p, w, events);
            id in Run(p, w, events[..n]).core.st.completed && id !in r.core.st.running
            && e.Deliver? && r.box != [] && r.box[0].RetryTimerFired?
            ==> id !in Step(p, r, e).core.st.running
  {
    hide Run, RetryTimerHandled;
    CompletedGrows(p, w, events, n);
    var r := Run(p, w, events);
    if e.Deliver? && r.box != [] && r.box[0].RetryTimerFired? {
      RetryRespectsCompleted(r.core, r.box[1..], r.box[0].issueId, e.env.retry,
                             r.config.maxConcurrentByState, r.config.maxRetryBackoffMs);
    }
  }

  /** In every run a continuation entry waits only for an issue that has completed, so all its timer
      ever does is remove the entry. */
  lemma ContinuationNeverDispatches(p: Primitives, config: Config, events: seq<Event>, id: string, env: RetryEnv)
    requires var q := Run(p, Initial(config), events).core.q;
             id in q.entries && q.entries[id].kind == Continuation
    ensures var w := Run(p, Initial(config), events);
            var o := RetryTimerHandled(w.core, w.box, id, env, w.config.maxConcurrentByState, w.config.maxRetryBackoffMs);
            o == BoxedOutcome(w.core.(q := Popped(w.core.q, id)), w.box, false)
  {
    RunSteady(p, config, events);
    var w := Run(p, Initial(config), events);
    hide Run;
    assert RetryOk(w.core, id);
    assert w.core.st.claimed - {id} == w.core.st.claimed;
  }
}
