/** Tracker data and the part of the effective configuration the orchestrator reads. Times
    are integers (microseconds since the first representable instant). */
module Tracker {
  import opened Prelude

  datatype BlockerRef = BlockerRef(id: Option<string>, identifier: Option<string>, state: Option<string>)

  /** A timestamp from the tracker. With an offset it is an instant; without one only a reading
      of some clock, and the two kinds cannot be compared. */
  datatype Stamp = Stamp(at: int, offset: Option<int>)

  datatype Issue = Issue(
    id: string,
    identifier: string,
    title: string,
    state: string,
    description: Option<string>,
    priority: Option<int>,
    blockedBy: seq<BlockerRef>,
    createdAt: Option<Stamp>,
    updatedAt: Option<Stamp>)

  datatype Comment = Comment(id: string, body: string, createdAt: Option<Stamp>, updatedAt: Option<Stamp>)

  datatype Config = Config(
    activeStates: seq<string>,
    terminalStates: seq<string>,
    maxConcurrentAgents: int,
    maxConcurrentByState: seq<(string, int)>,
    maxRetryBackoffMs: int,
    pollIntervalMs: int,
    stallTimeoutMs: int)
}
