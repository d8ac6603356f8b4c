/** The orchestrator's authoritative in-memory state. */
module State {
  import opened Prelude
  import opened Tracker
  import opened Usage
  import opened Mailboxes
  import opened Clarification

  const RECENT_EVENTS_LIMIT := 50

  // ---------------------------------------------------------------------
  // The state as a value
  // ---------------------------------------------------------------------

  datatype Entry = Entry(
    workerHandle: nat,
    identifier: string,
    issue: Issue,
    sessionId: Option<string>,
    lastReported: TokenSnapshot,
    startedAt: int,
    lastTimestamp: Option<int>,
    lastEvent: Option<string>,
    lastMessage: Option<string>,
    recentEvents: seq<RuntimeEvent>,
    retryAttempt: int)

  /** `order` is the insertion order of the running map, which every loop over it follows. */
  datatype OState = OState(
    pollIntervalMs: int,
    maxConcurrentAgents: int,
    order: seq<string>,
    running: map<string, Entry>,
    claimed: set<string>,
    completed: set<string>,
    identifierIndex: map<string, string>,
    codexTotals: TokenSnapshot,
    codexRateLimits: Option<RateLimitSnapshot>,
    runtimeSecondsTotal: real,
    clarificationWaiting: map<string, WaitEntry>)

  ghost predicate Ordered(st: OState) {
    Distinct(st.order) && forall k :: k in st.order <==> k in st.running
  }

  /** The sequence without `k`. */
  function Drop(order: seq<string>, k: string): (r: seq<string>)
    ensures forall x :: x in r <==> x in order && x != k
    ensures Distinct(order) ==> Distinct(r)
  {
    if order == [] then []
    else
      var last := order[|order| - 1];
      var init := Drop(order[..|order| - 1], k);
      assert order == order[..|order| - 1] + [last];
      if last == k then init
      else
        assert Distinct(order) ==> last !in order[..|order| - 1];
        assert forall x :: x in init + [last] <==> x in order && x != k;
        init + [last]
  }

  /** What stands before and after it stays as it stood. */
  lemma {:induction false} DropTakesOut(before: seq<string>, k: string, after: seq<string>)
    requires k !in before && k !in after
    ensures Drop(before + [k] + after, k) == before + after
  {
    if after == [] {
      assert (before + [k] + after)[..|before|] == before && before + after == before;
      DropAbsent(before, k);
    } else {
      var init := after[..|after| - 1];
      DropTakesOut(before, k, init);
      assert (before + [k] + after)[..|before| + |after|] == before + [k] + init;
    }
  }

  lemma Appended(order: seq<string>, id: string)
    requires Distinct(order) && id !in order
    ensures Distinct(order + [id])
    ensures forall k :: k in order + [id] <==> k in order || k == id
  {
  }

  function AddedRunning(st: OState, id: string, entry: Entry): OState {
    st.(order := if id in st.running then st.order else st.order + [id],
        running := st.running[id := entry],
        identifierIndex := st.identifierIndex[id := entry.identifier])
  }

  function RemovedRunning(st: OState, id: string): OState {
    if id in st.running then st.(order := Drop(st.order, id), running := st.running - {id}) else st
  }

  function WeightOf(running: map<string, Entry>, id: string, weight: Entry -> int): int {
    if id in running then weight(running[id]) else 0
  }

  /** The sum of a quantity over the running entries. */
  function Total(order: seq<string>, running: map<string, Entry>, weight: Entry -> int): int {
    if order == [] then 0
    else Total(order[..|order| - 1], running, weight) + WeightOf(running, order[|order| - 1], weight)
  }

  function InState(name: string): Entry -> int {
    (e: Entry) => if Lower(e.issue.state) == Lower(name) then 1 else 0
  }

  function CountInState(st: OState, name: string): int {
    Total(st.order, st.running, InState(name))
  }

  // ---------------------------------------------------------------------
  // The mutable records
  // ---------------------------------------------------------------------

  class RunningEntry {
    ghost const key: string
    const workerHandle: nat
    const identifier: string
    var issue: Issue
    var sessionId: Option<string>
    var lastReported: TokenSnapshot
    const startedAt: int
    var lastTimestamp: Option<int>
    var lastEvent: Option<string>
    var lastMessage: Option<string>
    var recentEvents: seq<RuntimeEvent>
    const retryAttempt: int

    ghost function View(): Entry
      reads this
    {
      Entry(workerHandle, identifier, issue, sessionId, lastReported, startedAt,
            lastTimestamp, lastEvent, lastMessage, recentEvents, retryAttempt)
    }

    lemma KeepsIdentifier()
      ensures View().identifier == identifier
    {
    }

    constructor (workerHandle: nat, issue: Issue, startedAt: int, retryAttempt: int)
      ensures key == issue.id && View() == FreshEntry(workerHandle, issue, startedAt, retryAttempt)
    {
      this.key := issue.id;
      this.workerHandle := workerHandle;
      this.identifier := issue.identifier;
      this.issue := issue;
      this.sessionId := None;
      this.lastReported := ZERO_TOKENS;
      this.startedAt := startedAt;
      this.lastTimestamp := None;
      this.lastEvent := None;
      this.lastMessage := None;
      this.recentEvents := [];
      this.retryAttempt := retryAttempt;
    }
  }

  function FreshEntry(workerHandle: nat, issue: Issue, startedAt: int, retryAttempt: int): Entry {
    Entry(workerHandle, issue.identifier, issue, None, ZERO_TOKENS, startedAt, None, None, None, [], retryAttempt)
  }

  class OrchestratorState {
    var pollIntervalMs: int
    var maxConcurrentAgents: int
    var order: seq<string>
    var running: map<string, RunningEntry>
    var claimed: set<string>
    var completed: set<string>
    var identifierIndex: map<string, string>
    var codexTotals: TokenSnapshot
    var codexRateLimits: Option<RateLimitSnapshot>
    var runtimeSecondsTotal: real
    var clarificationWaiting: map<string, WaitEntry>

    /** The entries' values; `Valid` ties them to the objects. */
    ghost var entries: map<string, Entry>

    /** Every entry object this state has ever held. */
    ghost var pool: set<RunningEntry>

    /** Every entry object knows its key, so no two issues share one. */
    ghost predicate Valid()
      reads this`running, this`entries, this`pool, pool
    {
      && entries.Keys == running.Keys
      && forall k :: k in running ==> running[k] in pool && running[k].key == k && entries[k] == running[k].View()
    }

    ghost function View(): OState
      reads this
    {
      OState(pollIntervalMs, maxConcurrentAgents, order, entries, claimed, completed, identifierIndex,
             codexTotals, codexRateLimits, runtimeSecondsTotal, clarificationWaiting)
    }

    constructor (pollIntervalMs: int, maxConcurrentAgents: int)
      ensures Valid() && pool == {}
      ensures View() == EmptyState(pollIntervalMs, maxConcurrentAgents)
    {
      this.pollIntervalMs := pollIntervalMs;
      this.maxConcurrentAgents := maxConcurrentAgents;
      order := [];
      running := map[];
      claimed := {};
      completed := {};
      identifierIndex := map[];
      codexTotals := ZERO_TOKENS;
      codexRateLimits := None;
      runtimeSecondsTotal := 0.0;
      clarificationWaiting := map[];
      entries := map[];
      pool := {};
    }

    lemma SameKeys()
      requires Valid()
      ensures entries.Keys == running.Keys
    {
    }

    method MarkClaimed(id: string)
      modifies this`claimed
      ensures View() == old(View()).(claimed := old(claimed) + {id})
    {
      claimed := claimed + {id};
    }

    method Unclaim(id: string)
      modifies this`claimed
      ensures View() == old(View()).(claimed := old(claimed) - {id})
    {
      claimed := claimed - {id};
    }

    /** The entry in the map, and in the ghost fields that mirror it. */
    method FileEntry(id: string, entry: RunningEntry)
      requires Valid() && entry.key == id
      modifies this`running, this`entries, this`pool
      ensures Valid() && pool == old(pool) + {entry}
      ensures entries == old(entries)[id := old(entry.View())]
    {
      hide RunningEntry.View;
      running := running[id := entry];
      entries := entries[id := entry.View()];
      pool := pool + {entry};
    }

    method AddRunning(entry: RunningEntry)
      requires Valid() && entry.key == entry.issue.id
      modifies this`running, this`order, this`identifierIndex, this`entries, this`pool
      ensures Valid() && pool == old(pool) + {entry}
      ensures View() == AddedRunning(old(View()), entry.issue.id, old(entry.View()))
    {
      hide RunningEntry.View, Valid;
      entry.KeepsIdentifier();
      SameKeys();
      var id := entry.issue.id;
      if id !in running {
        order := order + [id];
      }
      FileEntry(id, entry);
      identifierIndex := identifierIndex[id := entry.identifier];
    }

    method RemoveRunning(id: string) returns (r: Option<RunningEntry>)
      requires Valid()
      modifies this`running, this`order, this`entries
      ensures Valid()
      ensures View() == RemovedRunning(old(View()), id)
      ensures r == if id in old(running) then Some(old(running)[id]) else None
    {
      if id !in running {
        return None;
      }
      r := Some(running[id]);
      order := Drop(order, id);
      running := running - {id};
      entries := entries - {id};
    }

    /** Replaces the issue snapshot of a running entry, in place. */
    method RefreshRunning(id: string, issue: Issue)
      requires Valid() && id in running
      modifies this`entries, pool
      ensures Valid()
      ensures entries == old(entries)[id := old(entries)[id].(issue := issue)]
    {
      running[id].issue := issue;
      entries := entries[id := entries[id].(issue := issue)];
    }

    method RecordCompleted(id: string)
      modifies this`completed
      ensures View() == old(View()).(completed := old(completed) + {id})
    {
      completed := completed + {id};
    }

    method AddRuntimeSeconds(seconds: real)
      modifies this`runtimeSecondsTotal
      ensures View() == old(View()).(runtimeSecondsTotal := old(runtimeSecondsTotal) + seconds)
    {
      runtimeSecondsTotal := runtimeSecondsTotal + seconds;
    }

    method CountRunningInState(name: string) returns (n: int)
      requires Valid()
      ensures n == CountInState(View(), name)
    {
      n := 0;
      for i := 0 to |order|
        invariant n == Total(order[..i], entries, InState(name))
      {
        assert order[..i + 1][..i] == order[..i];
        if order[i] in running && Lower(running[order[i]].issue.state) == Lower(name) {
          n := n + 1;
        }
      }
      assert order[..|order|] == order;
    }
  }

  function EmptyState(pollIntervalMs: int, maxConcurrentAgents: int): OState {
    OState(pollIntervalMs, maxConcurrentAgents, [], map[], {}, {}, map[], ZERO_TOKENS, None, 0.0, map[])
  }

  // ---------------------------------------------------------------------
  // Sums over the running entries
  // ---------------------------------------------------------------------

  lemma {:induction false} TotalSame(order: seq<string>, a: map<string, Entry>, b: map<string, Entry>, weight: Entry -> int)
    requires forall k :: k in order ==> WeightOf(a, k, weight) == WeightOf(b, k, weight)
    ensures Total(order, a, weight) == Total(order, b, weight)
  {
    if order != [] {
      assert order[|order| - 1] in order;
      TotalSame(order[..|order| - 1], a, b, weight);
    }
  }

  lemma {:induction false} TotalUpdate(order: seq<string>, m: map<string, Entry>, id: string, e: Entry, weight: Entry -> int)
    requires Distinct(order) && id in order
    ensures Total(order, m[id := e], weight) == Total(order, m, weight) - WeightOf(m, id, weight) + weight(e)
  {
    var init, last := order[..|order| - 1], order[|order| - 1];
    assert order == init + [last];
    if last == id {
      assert id !in init;
      TotalSame(init, m, m[id := e], weight);
    } else {
      TotalUpdate(init, m, id, e, weight);
    }
  }

  lemma TotalAppend(order: seq<string>, m: map<string, Entry>, id: string, e: Entry, weight: Entry -> int)
    requires id !in order
    ensures Total(order + [id], m[id := e], weight) == Total(order, m, weight) + weight(e)
  {
    assert (order + [id])[..|order|] == order;
    TotalSame(order, m, m[id := e], weight);
  }

  lemma {:induction false} TotalDrop(order: seq<string>, m: map<string, Entry>, id: string, weight: Entry -> int)
    requires Distinct(order) && id in order
    ensures Total(Drop(order, id), m - {id}, weight) == Total(order, m, weight) - WeightOf(m, id, weight)
  {
    var init, last := order[..|order| - 1], order[|order| - 1];
    assert order == init + [last];
    var rest := Drop(init, id);
    if last == id {
      assert id !in init;
      DropAbsent(init, id);
      TotalSame(init, m, m - {id}, weight);
    } else {
      TotalDrop(init, m, id, weight);
      assert Drop(order, id) == rest + [last] && (rest + [last])[..|rest|] == rest;
    }
  }

  lemma {:induction false} DropAbsent(order: seq<string>, id: string)
    requires id !in order
    ensures Drop(order, id) == order
  {
    if order != [] {
      assert order == order[..|order| - 1] + [order[|order| - 1]];
      DropAbsent(order[..|order| - 1], id);
    }
  }
}
