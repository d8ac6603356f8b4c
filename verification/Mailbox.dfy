/** The orchestrator's mailbox: an unbounded first-in first-out queue of messages. */
module Mailboxes {
  import opened Prelude
  import opened Json
  import opened Tracker
  import opened EventLoop

  datatype RuntimeEvent = RuntimeEvent(event: string, timestamp: int, payload: Object, usage: Option<Object>)

  datatype Message =
    | PollTick
    | WorkerExit(issueId: string, reason: string, ok: bool, runtimeSeconds: real, lastError: Option<string>)
    | CodexUpdate(issueId: string, event: RuntimeEvent)
    | RetryTimerFired(issueId: string)
    | ConfigReloaded(config: Config)
    | Shutdown

  class Mailbox {
    var queue: seq<Message>

    constructor ()
      ensures queue == []
    {
      queue := [];
    }

    method Send(msg: Message)
      modifies this
      ensures queue == old(queue) + [msg]
    {
      queue := queue + [msg];
    }

    /** An empty mailbox blocks the reader, so a message is only ever taken from a non-empty one. */
    method Recv() returns (msg: Message)
      requires queue != []
      modifies this
      ensures [msg] + queue == old(queue)
    {
      msg := queue[0];
      queue := queue[1..];
    }
  }

  /** What may happen outside the dispatcher while it waits: a timer fires, or a worker, the
      watcher, a refresh request or a signal handler posts a message. */
  datatype Producer = Fire(handle: nat) | Post(msg: Message)

  function Fired(callback: Callback): seq<Message> {
    match callback
    case PostPollTick => [PollTick]
    case PostRetry(id) => [RetryTimerFired(id)]
    case DoNothing(_) => []
  }

  function Produce(t: Timers, q: seq<Message>, p: Producer): (Timers, seq<Message>) {
    match p
    case Post(msg) => (t, q + [msg])
    case Fire(h) => if h in t.live then (Without(t, h), q + Fired(t.live[h].callback)) else (t, q)
  }

  function ProduceAll(t: Timers, q: seq<Message>, ps: seq<Producer>): (Timers, seq<Message>)
    decreases ps
  {
    if ps == [] then (t, q)
    else var (t1, q1) := Produce(t, q, ps[0]); ProduceAll(t1, q1, ps[1..])
  }

  /** One await inside a handler: the producers in `ps` run before it resumes. */
  method Await(loop: Loop, mailbox: Mailbox, ps: seq<Producer>)
    modifies loop, mailbox
    ensures (loop.View(), mailbox.queue) == ProduceAll(old(loop.View()), old(mailbox.queue), ps)
  {
    for i := 0 to |ps|
      invariant ProduceAll(old(loop.View()), old(mailbox.queue), ps)
             == ProduceAll(loop.View(), mailbox.queue, ps[i..])
    {
      assert ps[i..][1..] == ps[i + 1..];
      match ps[i] {
        case Post(msg) => mailbox.Send(msg);
        case Fire(h) =>
          if h in loop.live {
            var callback := loop.live[h].callback;
            loop.Cancel(h);
            match callback {
              case PostPollTick => mailbox.Send(PollTick);
              case PostRetry(id) => mailbox.Send(RetryTimerFired(id));
              case DoNothing(_) =>
                assert mailbox.queue + [] == mailbox.queue;
            }
          }
      }
    }
  }
}
