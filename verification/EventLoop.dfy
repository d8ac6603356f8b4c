/** The event loop's one-shot timers. Time is left to the environment: any live timer may be
    the next to fire. */
module EventLoop {

  /** What a timer does when it fires. */
  datatype Callback = PostPollTick | PostRetry(id: string) | DoNothing(ignored: string)

  datatype Timer = Timer(delayMs: int, callback: Callback)

  /** The live timers by handle, and the handle the next timer will get. */
  datatype Timers = Timers(live: map<nat, Timer>, next: nat)

  predicate ValidTimers(t: Timers) {
    forall h :: h in t.live ==> h < t.next
  }

  function Started(t: Timers, timer: Timer): Timers {
    Timers(t.live[t.next := timer], t.next + 1)
  }

  function Without(t: Timers, h: nat): Timers {
    t.(live := t.live - {h})
  }

  class Loop {
    var live: map<nat, Timer>
    var next: nat

    constructor ()
      ensures View() == Timers(map[], 0)
    {
      live := map[];
      next := 0;
    }

    ghost function View(): Timers
      reads this
    {
      Timers(live, next)
    }

    method CallLater(delayMs: int, callback: Callback) returns (h: nat)
      modifies this
      ensures h == old(next)
      ensures View() == Started(old(View()), Timer(delayMs, callback))
    {
      h := next;
      live := live[h := Timer(delayMs, callback)];
      next := next + 1;
    }

    /** Cancelling a timer that has fired, or was cancelled, changes nothing. */
    method Cancel(h: nat)
      modifies this
      ensures View() == Without(old(View()), h)
    {
      live := live - {h};
    }
  }
}
