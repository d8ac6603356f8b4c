/** The retry queue: one scheduled entry per issue, each with its own timer, and the backoff
    delay of failure-driven retries. */
module Retry {
  import opened Prelude
  import opened EventLoop

  datatype Kind = Continuation | Failure

  datatype RetryEntry = RetryEntry(
    issueId: string,
    attempt: int,
    kind: Kind,
    scheduledAt: int,
    fireAt: int,
    handle: nat,
    lastError: Option<string>)

  const CONTINUATION_DELAY_MS := 1000
  const FAILURE_BASE_MS := 10_000

  // ---------------------------------------------------------------------
  // Backoff
  // ---------------------------------------------------------------------

  function Pow2(n: nat): (p: nat)
    ensures p >= 1
  {
    if n == 0 then 1 else 2 * Pow2(n - 1)
  }

  /** Attempts below one are rejected. */
  function ComputeBackoffMs(attempt: int, maxCapMs: int): Reply<int> {
    if attempt < 1 then Raised("attempt must be >= 1") else Returned(Min(FAILURE_BASE_MS * Pow2(attempt - 1), maxCapMs))
  }

  lemma {:induction false} Pow2Grows(m: nat, n: nat)
    requires m <= n
    ensures Pow2(m) <= Pow2(n)
  {
    if m < n {
      Pow2Grows(m, n - 1);
    }
  }

  lemma {:induction false} Pow2Exceeds(n: nat)
    ensures n < Pow2(n)
  {
    if n > 0 {
      Pow2Exceeds(n - 1);
    }
  }

  /** The delay never shrinks as attempts go up and never exceeds the cap. */
  lemma BackoffGrowsToCap(a: int, b: int, cap: int)
    requires 1 <= a <= b
    ensures ComputeBackoffMs(a, cap).Returned? && ComputeBackoffMs(b, cap).Returned?
    ensures ComputeBackoffMs(a, cap).value <= ComputeBackoffMs(b, cap).value <= cap
  {
    Pow2Grows(a - 1, b - 1);
  }

  /** One attempt later the delay is doubled, or the cap if doubling would pass it; so once at
      the cap it stays there. */
  lemma BackoffDoublesUntilCap(a: int, cap: int)
    requires 1 <= a && 0 <= cap
    ensures ComputeBackoffMs(a + 1, cap).value == Min(2 * ComputeBackoffMs(a, cap).value, cap)
  {
  }

  /** Every cap is reached. */
  lemma BackoffReachesCap(cap: nat)
    ensures ComputeBackoffMs(cap + 1, cap) == Returned(cap)
  {
    Pow2Exceeds(cap);
  }

  // ---------------------------------------------------------------------
  // The queue as a value
  // ---------------------------------------------------------------------

  /** The entries by issue, with the timers of the loop the queue lives on. */
  datatype Queue = Queue(entries: map<string, RetryEntry>, timers: Timers)

  function DelayMs(kind: Kind, attempt: int, maxCapMs: int): Reply<int> {
    if kind == Continuation then Returned(CONTINUATION_DELAY_MS) else ComputeBackoffMs(attempt, maxCapMs)
  }

  function Cancelled(q: Queue, id: string): Queue {
    if id in q.entries then Queue(q.entries - {id}, Without(q.timers, q.entries[id].handle)) else q
  }

  /** Times are in microseconds, delays in milliseconds. */
  function Scheduled(q: Queue, now: int, id: string, attempt: int, kind: Kind, maxCapMs: int,
                     callback: Callback, lastError: Option<string>): Reply<Queue> {
    match DelayMs(kind, attempt, maxCapMs)
    case Raised(error) => Raised(error)
    case Returned(delay) =>
      var q1 := Cancelled(q, id);
      var entry := RetryEntry(id, attempt, kind, now, now + 1000 * delay, q1.timers.next, lastError);
      Returned(Queue(q1.entries[id := entry], Started(q1.timers, Timer(delay, callback))))
  }

  function AllCancelled(q: Queue): Queue {
    Queue(map[], q.timers.(live := q.timers.live - set id | id in q.entries :: q.entries[id].handle))
  }

  function Popped(q: Queue, id: string): Queue {
    q.(entries := q.entries - {id})
  }

  class RetryQueue {
    const loop: Loop
    var entries: map<string, RetryEntry>

    constructor (loop: Loop)
      ensures this.loop == loop && entries == map[]
    {
      this.loop := loop;
      entries := map[];
    }

    ghost function View(): Queue
      reads this, loop
    {
      Queue(entries, loop.View())
    }

    /** A rejected attempt number raises before anything is touched. */
    method Schedule(now: int, id: string, attempt: int, kind: Kind, maxCapMs: int,
                    callback: Callback, lastError: Option<string>) returns (r: Reply<RetryEntry>)
      modifies this, loop
      ensures match Scheduled(old(View()), now, id, attempt, kind, maxCapMs, callback, lastError)
              case Raised(error) => r == Raised(error) && View() == old(View())
              case Returned(q) => View() == q && r == Returned(q.entries[id])
    {
      var delay := DelayMs(kind, attempt, maxCapMs);
      if delay.Raised? {
        return Raised(delay.error);
      }
      if id in entries {
        loop.Cancel(entries[id].handle);
        entries := entries - {id};
      }
      var handle := loop.CallLater(delay.value, callback);
      var entry := RetryEntry(id, attempt, kind, now, now + 1000 * delay.value, handle, lastError);
      entries := entries[id := entry];
      r := Returned(entry);
    }

    method Cancel(id: string) returns (r: Option<RetryEntry>)
      modifies this, loop
      ensures View() == Cancelled(old(View()), id)
      ensures r == if id in old(entries) then Some(old(entries)[id]) else None
    {
      if id !in entries {
        return None;
      }
      r := Some(entries[id]);
      loop.Cancel(entries[id].handle);
      entries := entries - {id};
    }

    method CancelAll()
      modifies this, loop
      ensures View() == AllCancelled(old(View()))
    {
      var todo := entries.Keys;
      ghost var done: set<string> := {};
      while todo != {}
        invariant done + todo == entries.Keys && entries == old(entries)
        invariant loop.next == old(loop.next)
        invariant loop.live == old(loop.live) - set id | id in done :: entries[id].handle
        decreases todo
      {
        var id :| id in todo;
        loop.Cancel(entries[id].handle);
        todo := todo - {id};
        done := done + {id};
      }
      entries := map[];
    }

    /** Removes the entry and leaves its timer alone. */
    method Pop(id: string) returns (r: Option<RetryEntry>)
      modifies this
      ensures View() == Popped(old(View()), id)
      ensures r == if id in old(entries) then Some(old(entries)[id]) else None
    {
      r := if id in entries then Some(entries[id]) else None;
      entries := entries - {id};
    }
  }

  // ---------------------------------------------------------------------
  // Timers belong to entries
  // ---------------------------------------------------------------------

  /** The issue a retry timer is for; None for timers that are not the queue's. */
  function RetryFor(callback: Callback): Option<string> {
    match callback
    case PostRetry(id) => Some(id)
    case DoNothing(id) => Some(id)
    case PostPollTick => None
  }

  /** An entry's timer, while it lives, was armed for that entry's issue. */
  ghost predicate Armed(q: Queue) {
    && ValidTimers(q.timers)
    && forall id :: id in q.entries ==>
         && q.entries[id].handle < q.timers.next
         && (q.entries[id].handle in q.timers.live ==>
              RetryFor(q.timers.live[q.entries[id].handle].callback) == Some(id))
  }

  /** Every live retry timer is the timer of the current entry for its issue. */
  ghost predicate Owned(q: Queue) {
    forall h :: h in q.timers.live && RetryFor(q.timers.live[h].callback).Some? ==>
      var id := RetryFor(q.timers.live[h].callback).value;
      id in q.entries && q.entries[id].handle == h
  }

  lemma OneLiveTimerPerIssue(q: Queue, h1: nat, h2: nat)
    requires Owned(q) && h1 in q.timers.live && h2 in q.timers.live
    requires RetryFor(q.timers.live[h1].callback).Some?
    requires RetryFor(q.timers.live[h1].callback) == RetryFor(q.timers.live[h2].callback)
    ensures h1 == h2
  {
  }

  /** What may be done to the queue and its loop. */
  datatype Op =
    | ScheduleOp(now: int, id: string, attempt: int, kind: Kind, cap: int, posts: bool, err: Option<string>)
    | CancelOp(id: string)
    | CancelAllOp
    | PopOp(id: string)
    | FireOp(handle: nat)
    | TickTimerOp(delayMs: int)

  function RetryCallback(posts: bool, id: string): Callback {
    if posts then PostRetry(id) else DoNothing(id)
  }

  function Apply(q: Queue, op: Op): Queue {
    match op
    case ScheduleOp(now, id, attempt, kind, cap, posts, err) =>
      (match Scheduled(q, now, id, attempt, kind, cap, RetryCallback(posts, id), err)
       case Raised(_) => q
       case Returned(q') => q')
    case CancelOp(id) => Cancelled(q, id)
    case CancelAllOp => AllCancelled(q)
    case PopOp(id) => Popped(q, id)
    case FireOp(h) => q.(timers := Without(q.timers, h))
    case TickTimerOp(delayMs) => q.(timers := Started(q.timers, Timer(delayMs, PostPollTick)))
  }

  /** An entry is popped only once its timer has gone. */
  predicate PopsAfterFiring(q: Queue, op: Op) {
    op.PopOp? && op.id in q.entries ==> q.entries[op.id].handle !in q.timers.live
  }

  lemma ArmedAfter(q: Queue, op: Op)
    requires Armed(q)
    ensures Armed(Apply(q, op))
  {
  }

  /** The exact condition: ownership survives an operation if and only if the operation does
      not pop an entry whose timer is still live. */
  lemma OwnedAfter(q: Queue, op: Op)
    requires Armed(q) && Owned(q)
    ensures Owned(Apply(q, op)) <==> PopsAfterFiring(q, op)
  {
    if !PopsAfterFiring(q, op) {
      var h := q.entries[op.id].handle;
      assert h in Apply(q, op).timers.live && op.id !in Apply(q, op).entries;
    }
  }

  lemma CancelAllLeavesNone(q: Queue, h: nat)
    requires Owned(q)
    requires h in Apply(q, CancelAllOp).timers.live
    ensures RetryFor(Apply(q, CancelAllOp).timers.live[h].callback) == None
  {
  }

  function ApplyAll(q: Queue, ops: seq<Op>): Queue
    decreases ops
  {
    if ops == [] then q else ApplyAll(Apply(q, ops[0]), ops[1..])
  }

  ghost predicate Disciplined(q: Queue, ops: seq<Op>)
    decreases ops
  {
    ops == [] || (PopsAfterFiring(q, ops[0]) && Disciplined(Apply(q, ops[0]), ops[1..]))
  }

  lemma {:induction false} OwnedAfterAll(q: Queue, ops: seq<Op>)
    requires Armed(q) && Owned(q) && Disciplined(q, ops)
    ensures Armed(ApplyAll(q, ops)) && Owned(ApplyAll(q, ops))
    decreases ops
  {
    if ops != [] {
      ArmedAfter(q, ops[0]);
      OwnedAfter(q, ops[0]);
      OwnedAfterAll(Apply(q, ops[0]), ops[1..]);
    }
  }
}
