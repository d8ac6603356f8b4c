# river-gang: a proved model of its orchestrator, app-server client, worker attempt and log output

river-gang watches an issue tracker and keeps one coding-agent worker per issue. This project models
the parts of it that decide what happens and proves what they keep:

- **The single-writer orchestrator.** One dispatcher owns the state and takes messages off a
  first-in first-out mailbox. Every handler is a method over heap objects (`OrchestratorState`,
  `RunningEntry`, `RetryQueue`, `Mailbox`, the event loop's timers) and is proved equal to a function
  on values; `World.Step` and `World.Run` lift these functions to whole runs in which the outside
  chooses every tracker reply, spawn result, clock reading, timer firing and interleaved message.
  `Framing` says what a tick and a retry can never touch, in any state. `Consistency`, `Crashes`,
  `Capacity`, `Tokens`, `GateRuns`, `Completion`, `Admission`, `Effects` and `Redelivery` state what holds
  over runs; `Overtaking` and `Revival` are concrete ones. `Ticking`, `GateMemory`, `Reconciliation` and
  `Bookkeeping` say in literal terms what a tick, the gate, reconciliation and the smaller messages do.
- **The app-server client.** Loops over an arbitrary stream of frames that answer server requests,
  correlate responses, drive the startup handshake and settle a turn. `Frames`, `Turns` and
  `Handshakes` hold the declarative side, `Client` the loops, `Posture` what the registered handlers
  answer to requests for approval and for input. `Settling` and `Wire` read turns, handshakes, requests,
  responses, replies and token reports off the raw members of the frames. The shape of a reply and its error codes are those of
  sections 5 and 5.1 of the JSON-RPC 2.0 Specification, without the `jsonrpc` member.
- **One worker attempt** (`Worker`). Ten reasons to end a sequence of calls each of which may return or
  raise. The trace of effects and the log of what went wrong are fixed exactly: how the transitions, the
  comment, the stop and the hook after the run end shows in the log and nowhere else. `Attempts` joins
  the worker to the client: what the app-server sends decides what the orchestrator receives.
- **Two algorithms of the log output.** Redaction of a possibly cyclic object graph (`Redaction`) and
  the key=value printer, which can be read back (`LogFormat`).

Times are integers in microseconds, delays in milliseconds. An external call is a value, `Returned` or
`Raised`. An await inside a handler lets timers fire and producers post to the mailbox, and nothing else.

## How a run is read

`World` holds the state, the retry queue with the loop's live timers, the mailbox, the configuration,
the remembered tick timer and a log of what the clarification gate has shown the outside. An event of a
run either delivers the front message, lets something happen outside (a timer fires, any message is
posted, including duplicate, stale and unknown ones), or tears down a stopped dispatcher.
`Orchestrator.Execute` shows that the object program does exactly what `World.Run` says.

Nothing is assumed of a run. Whatever is fetched, delivered, duplicated or stale, the books stay in order and
the heartbeat of a live dispatcher is neither lost nor doubled (`Consistency.RunSteady`); the laws of tokens,
the gate and completion hold, and no worker starts beyond a cap. Three things can go wrong, and it is proved
exactly when.

- The dispatcher can be taken down. `Crashes.RunDiesExactly`: this happens if and only if a tick comes to
  candidates it cannot sort, two of equal priority of which one has a creation date without an offset and
  the other has not, or to a text it cannot hash, one with a lone surrogate. `Crashes.MixedDatesKill` and `Crashes.SurrogateKills`
  are such first ticks.
- Books can disagree: something runs unclaimed, or runs while it waits for a retry. `Consistency.RunAgreesExactly`:
  they agree throughout a run if and only if no spawn ever fails, in a dispatch loop, for an issue that
  already runs. Fetches without repeated ids are enough for that (`Consistency.RunSound`);
  `Admission.DuplicateFetchBreaksBooks` is a first tick that fetches one issue twice.
- A candidate can be overtaken by a later one of its own state. `Capacity.CountFallsExactly`: the count of a
  state falls at a turn if and only if the turn starts a worker for an issue that already runs in that state
  and was now fetched in another; without such a turn in between there is no overtaking
  (`Capacity.NoPriorityInversion`), and none occurs when an issue is fetched in one state only
  (`Capacity.NoInversionWithinState`). `Overtaking.RefusedIsOvertaken` is a first tick in which it happens.

## Where the code and its documentation disagree

The model follows the code.

- `on_retry_timer` is documented to receive filtered candidates (lifecycle.py:131-135) and to keep the
  claim while it reschedules (lifecycle.py:139-146). The orchestrator hands it raw candidates
  (loop.py:625-636), and in no run is a queued issue claimed: `Effects.QueuedRetryIsOpenToTicks` shows that
  the next tick may dispatch it again, with attempt one.
- The gate is documented to fail closed (loop.py:293, loop.py:330). Its hashing is outside the guarded calls
  (loop.py:303, loop.py:343) and takes the dispatcher down with it: `Crashes.RunDiesExactly`.
- A failed spawn is documented to schedule a fresh retry (dispatch.py:164-167). The timer it starts does
  nothing (dispatch.py:182), so the retry comes only if a message for it is already on its way.
  `Redelivery.RedeliveredExactly`: where no live timer posts for the issue, the entry is popped by a retry
  message if and only if one was in the mailbox before and is delivered;
  `Redelivery.FailedSpawnSilences`: no such timer is left exactly if the only one was that of the entry the
  dispatch cancelled.
  `Revival.LateMessageRevivesFailedSpawn` is a run in which the message was there.
- `run_agent_attempt` is documented never to raise (worker.py:173-175); it raises exactly when it is given
  neither a client nor a factory: `Worker.RunAgentAttempt`.
- A response with another id is documented to be malformed (client.py:1171-1173). Ids are compared by
  value across number types, so the id `true` answers request 1: `Protocol.AcceptedExactly`.
- The policy text says that a request for user input fails the run (policy.py:16-17); the client answers it
  with no answers and goes on (client.py:1006-1034): `Posture.UserInputNeverFailsTurn`.

## Model

| member | source | states |
|---|---|---|
| Consistency.RunSteady | src/river_gang/orchestrator/loop.py:556-603 | in every run, whatever is fetched, delivered, duplicated or stale: what is claimed runs and does not wait for a retry; what runs or waits is filed under its own id and identifier; retry attempts are at least 2 and running ones at least 1, so no backoff is ever rejected; while the dispatcher is live one tick is always on its way, after shutdown none, and never are two tick timers live |
| Crashes.RunDiesExactly | src/river_gang/orchestrator/loop.py:243-279 | after any run the dispatcher is down if and only if one of its ticks came to eligible candidates that cannot be sorted, or one of its turns to a text that cannot be hashed |
| Crashes.GateRaisesExactly | src/river_gang/orchestrator/loop.py:284-345 | in any live state: the gate takes the dispatcher down if and only if a due issue whose comments came in has an input that cannot be encoded, or new inputs and insufficient answers with a question that cannot |
| Crashes.SoundRunSurvives | src/river_gang/orchestrator/loop.py:202-282 | a run in which the fetched issues compare pairwise and all their texts, comments and questions can be encoded never takes the dispatcher down |
| Crashes.MixedDatesKill | src/river_gang/tracker/issue.py:181-191 | a first tick with two candidates of equal priority, one creation date with and one without an offset, is the last |
| Crashes.SurrogateKills | src/river_gang/orchestrator/clarification.py:212-239 | so is a first tick with a candidate whose title holds a lone surrogate |
| Clarification.FingerprintsRaiseExactly | src/river_gang/orchestrator/clarification.py:239-244 | a fingerprint raises if and only if some text that goes into it holds a lone surrogate |
| Dispatch.SortRaisesExactly | src/river_gang/orchestrator/dispatch.py:85-97 | sorting raises if and only if two candidates of equal priority have creation dates of different kinds, and otherwise gives the sorted list |
| Consistency.RunAgreesExactly | src/river_gang/orchestrator/loop.py:255-279 | in every run: everything running is claimed and nothing running waits for a retry, after every step and every turn of every dispatch loop, if and only if no turn is a failing spawn for an issue that already runs |
| Consistency.RunSound | src/river_gang/orchestrator/loop.py:255-279 | both hold in every run whose fetches repeat no id |
| Consistency.StepSteady | src/river_gang/orchestrator/loop.py:564-603 | every single step keeps the first, and the agreement exactly unless its dispatch loop has such a turn |
| Consistency.WorkerExitKeeps | src/river_gang/orchestrator/lifecycle.py:58-115 | a worker exit, for a running or an unknown issue, keeps the books in order, and in agreement if they were, and never raises |
| Consistency.RetryTimerKeeps | src/river_gang/orchestrator/lifecycle.py:118-210 | so does a retry timer message on any of its paths; it loses no message and no tick |
| Consistency.DispatchKeeps | src/river_gang/orchestrator/dispatch.py:150-206 | a dispatch keeps the books in order; books that agree go on agreeing if and only if it is not a failing spawn for an issue already running |
| Consistency.LoopAgreesExactly | src/river_gang/orchestrator/loop.py:260-279 | the same for a whole dispatch loop, before, between and after its turns |
| Consistency.TickedSteady | src/river_gang/orchestrator/loop.py:202-282 | a tick ends with the books in order and the next tick scheduled, on every early return |
| Consistency.TickScheduledSteady | src/river_gang/orchestrator/loop.py:522-531 | rescheduling leaves exactly one live tick timer, the remembered one |
| Framing.ReconciledFrame | src/river_gang/orchestrator/loop.py:372-455 | in any state: reconciliation keeps the running set, the queue and everything but the issue snapshots of running entries, the mailbox and timers that fire meanwhile, and the lists of what was stopped |
| Framing.GateFrame | src/river_gang/orchestrator/loop.py:284-370 | in any state: the gate changes the waiting list and nothing else of the state, and shows the outside only what it logs |
| Framing.TickFrame | src/river_gang/orchestrator/loop.py:202-282 | in any state: a tick completes nothing, counts no token, loses no message, and adds running issues only below the global cap |
| Framing.RetryFrame | src/river_gang/orchestrator/lifecycle.py:118-210 | in any state: a retry changes the running map if and only if the entry is there, its issue never completed, was fetched, has a free slot and its spawn works; and then by that one issue |
| Admission.TickAdmitsOnlyCleared | src/river_gang/orchestrator/loop.py:202-282 | a tick starts a worker only for a fetched candidate that passed the filter of the configuration just loaded and that the gate cleared in this tick, as a first attempt on the fetched snapshot |
| Ticking.TickStartsExactly | src/river_gang/orchestrator/loop.py:202-282 | in any world: a tick starts an issue if and only if it comes to candidates it can sort and, at some turn, the issue is the candidate, both caps leave room, the gate opens and the spawn works; without candidates it starts nobody and shows the gate nothing; what it stops and cleans up is what reconciliation does, whose messages come first |
| Ticking.LoopStartsExactly | src/river_gang/orchestrator/loop.py:255-279 | the same for a dispatch loop over any candidates: no turn ends the loop early, and none removes anything |
| Ticking.TurnExactly | src/river_gang/orchestrator/loop.py:260-279 | a turn: nothing without room in both caps; what the gate does if it stays shut; else the issue claimed, running as a first attempt, its retry cancelled, or, when the spawn fails, unclaimed and queued with attempt two, twenty seconds or the cap away, behind a timer that posts nothing |
| Admission.DuplicateFetchBreaksBooks | src/river_gang/orchestrator/loop.py:255-279 | a concrete first tick fetching one issue twice leaves it running, unclaimed and queued |
| Effects.ExitStep | src/river_gang/orchestrator/lifecycle.py:58-115 | in every run, the step that delivers an exit: the issue no longer runs or is claimed, is completed exactly on success, and waits with its attempt one higher in one entry with one live timer of the right delay that will post; nothing else changes, and nothing at all if the issue does not run |
| Redelivery.RedeliveredExactly | src/river_gang/orchestrator/dispatch.py:174-185 | over every run without such a message from outside and without another start of the issue: an entry for which no live timer posts is popped by a retry message if and only if one was in the mailbox at the start, among the messages the run delivers |
| Redelivery.FailedSpawnSilences | src/river_gang/orchestrator/dispatch.py:169-185 | after a failed spawn no live timer posts for the issue if and only if the only one that did was that of the cancelled entry |
| Redelivery.FirstInFirstOut | src/river_gang/orchestrator/mailbox.py:92-103 | over every run what has been delivered, followed by what waits, begins with what waited at the start |
| Revival.LateMessageRevivesFailedSpawn | src/river_gang/orchestrator/loop.py:625-636 | a concrete run of six steps ends with a failed spawn whose retry, with attempt two, is started by a message already in the mailbox |
| Effects.RetryStep | src/river_gang/orchestrator/lifecycle.py:150-210 | in every run, the step that delivers a retry of a queued, never completed issue ends in exactly one of four ways: put back with its attempt and kind behind a timer that posts, let go, started with the attempt number of the entry, or queued again behind a timer that does not post; all but the start leave the state as it was |
| Effects.QueuedRetryIsOpenToTicks | src/river_gang/orchestrator/dispatch.py:48-73 | in every run a queued issue is unclaimed, and eligible if and only if it is not running, active, not terminal and not blocked; a tick then dispatches it with attempt one, below the number of the entry |
| Capacity.NoPriorityInversion | src/river_gang/orchestrator/loop.py:255-279 | for any state and any candidates: of two candidates the earlier one has a priority if the later one has, and no larger one; when a turn changes the running map, no earlier candidate was turned away by the global cap, and if one of the same state was turned away, a turn in between started a worker for an issue that ran in that state and was fetched in another (the last part where the order list names each running issue once, as it does in every run) |
| Capacity.UrgentGoesFirst | src/river_gang/orchestrator/loop.py:255-279 | whenever a candidate is dispatched, each one with a smaller priority number, or with one where it has none, had its turn before, when the global cap still left room |
| Capacity.NoInversionWithinState | src/river_gang/orchestrator/loop.py:255-279 | when an id is fetched in one state only (up to case), no earlier candidate of the same state was turned away at all |
| Capacity.DistinctHaveOneState | src/river_gang/orchestrator/loop.py:255-279 | fetches that repeat no id are of that kind |
| Overtaking.RefusedIsOvertaken | src/river_gang/orchestrator/loop.py:260-279 | a concrete first tick: an issue fetched twice, in two states, frees its slot, and a candidate refused before is overtaken by a later one of the same state |
| Capacity.RefusalsPersist | src/river_gang/orchestrator/loop.py:260-270 | for any state and any candidates: once the global cap is reached, every later candidate is refused; a refusal in a state refuses every later candidate in it as long as no turn moves an issue out of that state |
| Capacity.CountFallsExactly | src/river_gang/orchestrator/dispatch.py:100-139 | the count of a state falls at a turn if and only if the turn starts a worker for an issue that runs in that state and is now fetched in another |
| Capacity.TurnFallsExactly | src/river_gang/orchestrator/loop.py:260-279 | the same at every turn of a dispatch loop over any candidates |
| Capacity.TotalsGrow | src/river_gang/orchestrator/dispatch.py:100-139 | for any state and any candidates the caps stay and the running total never falls inside the dispatch loop |
| Capacity.DispatchedNotRefused | src/river_gang/orchestrator/loop.py:260-279 | for any state and any candidates: a turn changes the running map only if a slot was free |
| Capacity.RetryWithinCap | src/river_gang/orchestrator/lifecycle.py:181-208 | in any state: a retry changes the running map by its own issue only, into a free slot of the current state of that issue |
| Capacity.StepWithinCap | src/river_gang/orchestrator/loop.py:564-603 | no step, of any state, takes the running set above the cap it starts under |
| Capacity.RunWithinPeakCap | src/river_gang/orchestrator/dispatch.py:100-139 | over every run the number of workers never exceeds the largest global cap that has been in force, even when a reload lowers it |
| Tokens.RunBalanced | src/river_gang/orchestrator/lifecycle.py:294-314 | over every run each total equals last reports of ended sessions plus those of running ones plus what was reported and later taken back, with no assumption on the reports |
| Tokens.TotalsAreLastReports | src/river_gang/codex/usage.py:171-186 | with reports that never fall, each total is exactly the sum of last reports of ended and running sessions |
| Tokens.TotalsCoverRunning | src/river_gang/orchestrator/lifecycle.py:294-314 | with non-negative reports, each total stays at least the sum over running entries |
| Tokens.TotalsNeverFall | src/river_gang/orchestrator/lifecycle.py:294-314 | whatever is reported, no step of any state lowers a total |
| Lifecycle.IncreaseIsTokenDelta | src/river_gang/codex/usage.py:171-186 | the increase worked out inline in the handler is the delta the accounting helper defines |
| Usage.ReadUsageMap | src/river_gang/orchestrator/lifecycle.py:294-303 | the counts put into an event's usage map are the counts the handler reads out |
| GateRuns.NoRepeatedQuestion | src/river_gang/orchestrator/loop.py:284-370 | over every run two successive comments on an issue with equal question fingerprints have a clearance between them |
| GateRuns.RunGateSound | src/river_gang/orchestrator/loop.py:321-370 | over every run an issue waits exactly while a comment of its is pending, on that comment's questions |
| GateMemory.TurnRecords | src/river_gang/orchestrator/loop.py:284-370 | a turn of the gate writes a new record exactly if it asks: of that issue, the ids of the people who commented, the digest of the questions, the digest of the very texts asked about, and a poll time five minutes on; it strikes the record exactly if it opens; otherwise at most the poll time is new, five minutes on, exactly if the turn is due and finds the texts on record |
| GateMemory.AskedOnceSleeps | src/river_gang/orchestrator/loop.py:301-320 | once a turn has asked, every later turn that finds its record, on the same texts of the issue and the same comments from people, stays asleep |
| GateMemory.RunRemembers | src/river_gang/orchestrator/loop.py:284-370 | over every run an issue waits exactly while the gate has asked about it and not opened for it since, and the record is that of the last turn that asked |
| GateMemory.UnansweredStaysAsleep | src/river_gang/orchestrator/loop.py:301-320 | over every run such an issue is not asked about, analysed or let through again while its texts and what people have said stay the same |
| GateMemory.BareRecordGoesByComments | src/river_gang/orchestrator/loop.py:304-311 | a record without a digest, which no run has, goes by the ids of the people who commented: all seen keeps the gate asleep, a new one lets it analyse |
| GateRuns.SleepsWhileUnchanged | src/river_gang/orchestrator/loop.py:286-320 | before its poll time, while its inputs have the stored fingerprint, or while comments cannot be fetched, a waiting issue is neither analysed, commented nor let through, and the dispatcher stays up |
| GateRuns.OpensExactlyWhenClear | src/river_gang/orchestrator/loop.py:284-345 | the gate opens if and only if the issue is due, its comments came in and hash to a new fingerprint and the analysis was sufficient |
| GateMemory.OwnQuestionDoesNotWake | src/river_gang/orchestrator/loop.py:301-320 | the comment the gate posted, wherever it then stands among the comments, does not wake it, as long as the texts of the issue itself are as they were; a changed update time is such a text |
| Clarification.OwnCommentInvisible | src/river_gang/orchestrator/clarification.py:204-262 | with a comment of the gate inserted anywhere, the ids that count as seen are the same, and the texts to be hashed are the same if and only if those of the issue are: id, identifier, title, description, update time |
| Clarification.PartsFromPeopleOnly | src/river_gang/orchestrator/clarification.py:212-239 | the texts hashed are a function of the comments people wrote |
| Clarification.IdsFromPeopleOnly | src/river_gang/orchestrator/clarification.py:208-209 | the ids that count as seen are those of the comments people wrote |
| Clarification.OwnCommentIsMarked | src/river_gang/orchestrator/clarification.py:251-262 | every comment the gate formats is recognised as its own |
| Clarification.MarkedExactly | src/river_gang/orchestrator/clarification.py:204-205 | a comment counts as the gate's own exactly if the marker, written out, occurs in it anywhere |
| Clarification.HashedTexts | src/river_gang/orchestrator/clarification.py:212-239 | the hashed texts one by one: five of the issue, then four of each comment without the marker and none of one with it |
| Clarification.CommentExactly | src/river_gang/orchestrator/clarification.py:251-262 | the whole comment: marker, heading, numbered questions or the standard one, reason |
| Clarification.NumberedExactly | src/river_gang/orchestrator/clarification.py:255-255 | the questions are numbered one after another |
| Clarification.AskedExactly | src/river_gang/orchestrator/clarification.py:242-244 | the questions that count are those that are not blank, stripped, in order |
| Clarification.StripExactly | src/river_gang/orchestrator/clarification.py:242-244 | stripping takes off blanks at both ends and leaves none there |
| Clarification.FingerprintClarificationInputs | src/river_gang/orchestrator/clarification.py:212-239 | the loop hashes exactly the texts of the issue followed by those of the comments people wrote, or raises |
| Completion.CompletedNeverRetried | src/river_gang/orchestrator/lifecycle.py:163-170 | in every run, from any state, an issue that has ever completed is never started again by a retry timer |
| Completion.ContinuationNeverDispatches | src/river_gang/orchestrator/lifecycle.py:83-101 | in every run all that the timer of a continuation entry does is remove the entry |
| Completion.CompletedGrows | src/river_gang/orchestrator/state.py:99-100 | completed issues stay completed through every run, from any state |
| Completion.RetryRespectsCompleted | src/river_gang/orchestrator/lifecycle.py:150-210 | a retry timer completes nothing and starts at most its own, never completed, issue |
| Retry.OwnedAfterAll | src/river_gang/orchestrator/retry.py:58-127 | after any sequence of operations that pops an entry only once its timer is gone, every live retry timer belongs to the current entry of its issue |
| Retry.OwnedAfter | src/river_gang/orchestrator/retry.py:71-127 | one operation keeps that if and only if it does not pop an entry whose timer is live |
| Retry.OneLiveTimerPerIssue | src/river_gang/orchestrator/retry.py:58-66 | then no issue has two live timers |
| Retry.CancelAllLeavesNone | src/river_gang/orchestrator/retry.py:115-119 | then cancelling all leaves no live retry timer |
| Retry.BackoffGrowsToCap | src/river_gang/orchestrator/retry.py:46-55 | the delay is defined from attempt one on, never shrinks with the attempt and never exceeds the cap |
| Retry.BackoffDoublesUntilCap | src/river_gang/orchestrator/retry.py:46-55 | one attempt later the delay is doubled, or the cap |
| Retry.BackoffReachesCap | src/river_gang/orchestrator/retry.py:46-55 | every cap is reached |
| Retry.RetryQueue.Schedule | src/river_gang/orchestrator/retry.py:71-105 | replaces the issue's entry and timer by one new entry and timer, or raises and touches nothing |
| Retry.RetryQueue.Cancel | src/river_gang/orchestrator/retry.py:107-113 | removes the entry and its timer, and returns it |
| Retry.RetryQueue.CancelAll | src/river_gang/orchestrator/retry.py:115-119 | the loop removes every entry and the timer of each, and no other timer |
| Retry.RetryQueue.Pop | src/river_gang/orchestrator/retry.py:121-127 | removes and returns the entry without touching its timer |
| Dispatch.FilterCandidates | src/river_gang/orchestrator/dispatch.py:48-73 | the loop keeps the eligible candidates in order |
| Dispatch.FilteredMembers | src/river_gang/orchestrator/dispatch.py:48-82 | exactly the eligible candidates are kept, and no id more often than it came in |
| Dispatch.EligibleExactly | src/river_gang/orchestrator/dispatch.py:48-82 | eligible is: in an active and in no terminal state up to case, neither running nor claimed, and every blocker known to be in a terminal state |
| Dispatch.SortedForDispatch | src/river_gang/orchestrator/dispatch.py:85-97 | the result is ordered by the dispatch key, a permutation of the input, and stable |
| Dispatch.DispatchOrderOnFields | src/river_gang/orchestrator/dispatch.py:85-97 | of two issues in the result: with a priority before without, smaller before larger; at equal priority the earlier creation date first, a missing one last; at equal dates the identifier that is not greater |
| Dispatch.StringLeExactly | src/river_gang/orchestrator/dispatch.py:97-97 | identifiers compare by the first code point in which they differ, a prefix coming first |
| Dispatch.UnsortableExactly | src/river_gang/orchestrator/dispatch.py:85-97 | sorting raises if and only if of two candidates of equal priority one has a creation date without an offset, and the other one with an offset or none |
| Dispatch.SlotFree | src/river_gang/orchestrator/dispatch.py:100-139 | a slot is free if and only if both the global cap and the state's cap leave room |
| Bookkeeping.CountsTheRunning | src/river_gang/orchestrator/dispatch.py:123-139 | the count slots go by is the number of running issues in the state, up to case |
| Prelude.LowerExactly | src/river_gang/orchestrator/dispatch.py:60-60 | lower-casing moves the letters A to Z and nothing else |
| Dispatch.StateCapIsLast | src/river_gang/orchestrator/dispatch.py:116-117 | a state's cap is the global one exactly when no key agrees with it up to case, else that of the last key that does |
| Dispatch.StateCapUpToCase | src/river_gang/orchestrator/dispatch.py:100-120 | a state's cap does not depend on how the state is capitalised |
| Dispatch.ConcurrencyCheck | src/river_gang/orchestrator/dispatch.py:123-139 | counts the running entries in place and answers whether a slot is free |
| Dispatch.DispatchIssue | src/river_gang/orchestrator/dispatch.py:150-206 | the method over state, queue and loop does what the value function says, in place |
| Lifecycle.OnWorkerExit | src/river_gang/orchestrator/lifecycle.py:58-115 | the exit handler over the heap does what the value function says |
| Lifecycle.OnRetryTimer | src/river_gang/orchestrator/lifecycle.py:118-210 | the retry handler, its await included, does what the value function says |
| Lifecycle.OnCodexUpdate | src/river_gang/orchestrator/lifecycle.py:244-329 | updates the running entry in place and adds the reported increase to the totals |
| Bookkeeping.EventRecorded | src/river_gang/orchestrator/lifecycle.py:275-314 | field by field what an event does to its entry: last event and time, the last fifty events, message, session named after thread and turn, counts last reported; worker, issue, start and attempt stay |
| Bookkeeping.EventTouches | src/river_gang/orchestrator/lifecycle.py:270-318 | an event touches its own entry, the rate limits if it carries some, and each total by what it reports beyond the last report |
| Bookkeeping.RateLimitsRead | src/river_gang/codex/usage.py:194-210 | which members make up rate limits |
| Bookkeeping.StartedFresh | src/river_gang/orchestrator/dispatch.py:187-206 | a worker starts claimed, indexed, on the issue as given, with nothing reported or heard |
| Bookkeeping.UpdateStep | src/river_gang/orchestrator/loop.py:577-579 | the step that delivers a worker's event changes the state by it and nothing else |
| Bookkeeping.IdleRetryStep | src/river_gang/orchestrator/lifecycle.py:150-170 | the retry message of an issue that does not wait is passed over; that of a completed one strikes entry and claim |
| Bookkeeping.ReloadStep | src/river_gang/orchestrator/loop.py:592-600 | a reload puts the configuration, its poll interval and its global cap in force and changes nothing else |
| Bookkeeping.ShutdownStep | src/river_gang/orchestrator/loop.py:601-603 | a shutdown stops the dispatcher and the tick timer and touches no worker and no retry |
| Bookkeeping.TearDownStep | src/river_gang/orchestrator/retry.py:115-119 | the teardown of a dispatcher that is down leaves no retry entry and no timer of one |
| Bookkeeping.DownTakesNothing | src/river_gang/orchestrator/loop.py:564-603 | a dispatcher that is down takes no message |
| Bookkeeping.NextTickDue | src/river_gang/orchestrator/loop.py:522-531 | after a tick the next one is due after the poll interval of the configuration in force, the one just loaded if any; the caps on the state stay |
| Bookkeeping.ProducedExactly | src/river_gang/orchestrator/mailbox.py:92-100 | a timer that fires posts a poll tick, a retry of its issue or nothing, once; a message posted arrives at the back |
| State.OrchestratorState.AddRunning | src/river_gang/orchestrator/state.py:88-90 | files the entry under its issue's id and keeps the running map's order |
| State.OrchestratorState.RemoveRunning | src/river_gang/orchestrator/state.py:92-97 | removes and returns the entry, keeping the order of the others |
| State.DropTakesOut | src/river_gang/orchestrator/state.py:92-97 | what stands before and after the removed issue stays as it stood |
| State.OrchestratorState.CountRunningInState | src/river_gang/orchestrator/state.py:109-119 | the loop counts the running entries whose state agrees up to case |
| Reconcile.DetectStalls | src/river_gang/orchestrator/reconcile.py:30-53 | the loop finds, in order, exactly the running issues silent for at least the timeout, and none when the timeout is not positive |
| Reconcile.StalledExactly | src/river_gang/orchestrator/reconcile.py:30-53 | what is found is exactly the stalled running issues, each once |
| Reconcile.ById | src/river_gang/orchestrator/reconcile.py:87-87 | the refreshed issues by id, every id present and the last issue of an id winning |
| Reconcile.ReconcileRunningWithTracker | src/river_gang/orchestrator/reconcile.py:74-113 | the loop sorts every running issue by its verdict |
| Reconcile.OneActionEach | src/river_gang/orchestrator/reconcile.py:74-113 | every running issue gets exactly the one action its refreshed state calls for, and no other issue any |
| Reconciliation.ReconcilesExactly | src/river_gang/orchestrator/loop.py:372-455 | the mailbox gains one unsuccessful exit for each stalled running issue, in order, before what is produced meanwhile; cancelled are the unfinished workers of stalled issues and of those missing, terminal or inactive in the refresh; cleaned are the workspaces of the terminal ones; replaced are the snapshots of the active ones |
| Reconciliation.JudgedExactly | src/river_gang/orchestrator/reconcile.py:87-113 | the verdict on an issue follows the last state the refresh has for its id, up to case: terminal before active |
| Prelude.DecimalExactly | src/river_gang/orchestrator/loop.py:400-403 | a number is printed in digits that stand for it, without leading zero |
| Mailboxes.Mailbox.Send | src/river_gang/orchestrator/mailbox.py:92-100 | appends at the back |
| Mailboxes.Mailbox.Recv | src/river_gang/orchestrator/mailbox.py:102-103 | takes from the front |
| OrchestratorLoop.Orchestrator.Execute | src/river_gang/orchestrator/loop.py:556-603 | the dispatcher with its surroundings does exactly what the run of value functions says |
| OrchestratorLoop.Orchestrator.HandleNext | src/river_gang/orchestrator/loop.py:564-603 | one message off the mailbox, dispatched to its handler |
| OrchestratorLoop.Orchestrator.OnTick | src/river_gang/orchestrator/loop.py:202-282 | the tick over the heap: reconcile, reload, fetch, filter, sort, dispatch, reschedule |
| OrchestratorLoop.Orchestrator.ClarificationGateAllowsDispatch | src/river_gang/orchestrator/loop.py:284-370 | the gate over the heap, its awaits included |
| OrchestratorLoop.Orchestrator.ReconcileRunning | src/river_gang/orchestrator/loop.py:372-455 | the reconciliation over the heap |
| OrchestratorLoop.Orchestrator.RefreshSnapshots | src/river_gang/orchestrator/loop.py:451-455 | replaces in place the snapshots of exactly the entries that are still running |
| OrchestratorLoop.Orchestrator.ScheduleNextTick | src/river_gang/orchestrator/loop.py:522-531 | cancels the remembered tick timer before starting and remembering a new one |
| OrchestratorLoop.Orchestrator.CancelNextTick | src/river_gang/orchestrator/loop.py:546-550 | cancels the remembered tick timer and forgets it |
| OrchestratorLoop.Orchestrator.ScheduleInitialTick | src/river_gang/orchestrator/loop.py:542-544 | posts the first poll tick behind what is in the mailbox |
| Frames.OneReplyPerRequest | src/river_gang/codex/client.py:775-882 | for every stream: one reply per request with an int or str id, in arrival order, with that id and exactly one of result and error, -32602 before -32601 before -32603; no other frame is answered |
| Wire.RepliesOnTheWire | src/river_gang/codex/client.py:775-882 | the reply of a client with its own handlers to any frame, method by method and member by member |
| Frames.RepliesHaveNoMethod | src/river_gang/codex/client.py:830-882 | no reply can be taken for a request or a notification |
| Client.CodexClient.constructor | src/river_gang/codex/client.py:316-384 | registers exactly the table of handlers for the tool call, the five approvals, user input and elicitation |
| Posture.UserInputNeverFailsTurn | src/river_gang/codex/client.py:1006-1034 | a request for user input is answered with no answers if and only if its params are an object or null and its questions can be counted; and whatever the reply, the outcome of the turn is that of the turn without it |
| Posture.ApprovalsFollowPolicy | src/river_gang/codex/policy.py:96-135 | an approval request with object or null params is never answered with an error, and is granted if and only if the policy approves; a request for permissions is answered with none |
| Client.CodexClient.DispatchServerRequest | src/river_gang/codex/client.py:775-882 | writes the reply the request is owed, or nothing when its id cannot be routed |
| Client.CodexClient.AwaitResponse | src/river_gang/codex/client.py:1184-1223 | consumes up to and including the first frame that is neither request nor notification, answers every request and forwards every notification on the way, and reads nothing after it |
| Client.CodexClient.RoundTrip | src/river_gang/codex/client.py:1141-1158 | writes the request, waits, and turns silence and error bodies into the caller's errors |
| Client.CodexClient.StartSession | src/river_gang/codex/client.py:463-513 | the handshake over the process does what the value function says, ids included |
| Client.CodexClient.StreamFrames | src/river_gang/codex/client.py:643-773 | the streaming loop stops at the first decisive frame with its outcome, having answered every request and delivered every notification up to and including it |
| Client.CodexClient.RunTurn | src/river_gang/codex/client.py:569-773 | a turn refines the declarative one: outcome, frames consumed, frames written, events delivered, one fresh id |
| Client.CodexClient.StreamTurn | src/river_gang/codex/client.py:519-567 | the same with silence turned into a turn timeout |
| Client.CodexClient.JudgeEvent | src/river_gang/codex/client.py:697-773 | the cascade of tests on an event agrees with the definition of what settles a turn |
| Client.CodexClient.JudgeAck | src/river_gang/codex/client.py:600-633 | the cascade of tests on the acknowledgement agrees with the definition of what it settles |
| Client.CodexClient.AllocateId | src/river_gang/codex/client.py:386-389 | ids are handed out one after another |
| Client.CodexClient.StopSession | src/river_gang/codex/client.py:1100-1110 | waits for the exit and then closes, once and never again, and comes back whether or not the two raise |
| Turns.TurnSettlesExactly | src/river_gang/codex/client.py:569-773 | a turn succeeds (is cancelled) if and only if its acknowledgement, or the first decisive frame after an open one, says completed (interrupted) |
| Settling.AcknowledgedTurnEnds | src/river_gang/codex/client.py:600-773 | off the raw frames: an acknowledged turn ends as its acknowledgement says, or at the first failed read, "turn/completed" that is not "inProgress", or "error" without `willRetry` true, with the outcome of each; else it times out |
| Settling.UnacknowledgedTurnEnds | src/river_gang/codex/client.py:590-612 | what ends a turn that is not acknowledged, and how |
| Turns.QuietFramesDoNotMatter | src/river_gang/codex/client.py:643-680 | a request or an undeciding notification slipped in anywhere changes no outcome |
| Turns.TurnDeliversWhatItConsumed | src/river_gang/codex/client.py:675-697 | the events delivered are exactly the notifications consumed, in order, without usage before the acknowledgement and with their own after it |
| Turns.TurnStopsAtDecision | src/river_gang/codex/client.py:695-773 | the frame that settles the turn is the last one read, and its event the last one delivered |
| Protocol.AcceptedExactly | src/river_gang/codex/protocol.py:173-180 | a response is accepted if and only if its id equals the expected one by value, across number types and bools, and it would be accepted with the expected id itself; then it reads the same; `true` is accepted for 1 |
| Wire.ResponseRead | src/river_gang/codex/protocol.py:173-206 | off the raw members: when a response is a result, an error code, malformed, or raises |
| Wire.NamesRead | src/river_gang/codex/protocol.py:212-245 | the thread and turn ids are the non-empty strings at `thread.id` and `turn.id` |
| Wire.RequestsOnTheWire | src/river_gang/codex/protocol.py:64-145 | the four frames the client originates, member by member |
| Wire.PayloadOnTheWire | src/river_gang/codex/client.py:683-687 | the payload of an event off the params |
| Wire.EventOnTheWire | src/river_gang/codex/client.py:657-705 | a notification gives one event, of its name, time and payload, with the counts it reports where these are asked for; any other frame gives none |
| Wire.TokensOnTheWire | src/river_gang/codex/usage.py:70-157 | when a notification carries cumulative counts, under which names, and what missing ones default to |
| Wire.UsageOnTheWire | src/river_gang/orchestrator/lifecycle.py:294-303 | the usage map of an event, and when a consumer reads it |
| Handshakes.HandshakeOrder | src/river_gang/codex/client.py:463-513 | on every stream the client originates a prefix of initialize, initialized, thread/start, turn/start with consecutive ids, all four if a session is returned |
| Handshakes.HandshakeReplies | src/river_gang/codex/client.py:1184-1202 | all else it writes is the reply of each request it consumed |
| Handshakes.HandshakeWritten | src/river_gang/codex/client.py:463-513 | a handshake that goes well writes each request before it reads anything for it, and the replies to requests that arrive meanwhile before its next frame |
| Handshakes.SessionExactly | src/river_gang/codex/client.py:1204-1223 | a session comes back if and only if the first three frames that are neither requests nor notifications answer the three requests in order and name its thread and turn |
| Settling.HandshakeEnds | src/river_gang/codex/client.py:463-513 | how each round trip of a handshake fails or hands over to the next |
| Settling.RoundEnds | src/river_gang/codex/client.py:1141-1158 | what a round trip comes to, off the first frame that is neither request nor notification |
| Worker.RunAgentAttempt | src/river_gang/orchestrator/worker.py:151-203 | raises, doing nothing, exactly without client and factory; otherwise leaves exactly the trace and the log of an attempt |
| Worker.RunAgentAttemptImpl | src/river_gang/orchestrator/worker.py:206-437 | for every combination of calls returning or raising: the trace of effects, in which the ends of the best-effort calls have no part, and the log, in which each of theirs that went wrong stands once, in order |
| Worker.RunStarted | src/river_gang/orchestrator/worker.py:354-398 | however the turn ends, an escaping exception included, the stop and then the hook after the run follow it, and a raising stop is logged and goes no further |
| Worker.SafeTransition | src/river_gang/orchestrator/worker.py:525-546 | tries the move if there is a state, and logs instead of raising |
| Worker.SafeAddComment | src/river_gang/orchestrator/worker.py:549-560 | tries the comment, and logs instead of raising |
| Worker.RunAfterRunBestEffort | src/river_gang/orchestrator/worker.py:574-597 | runs the hook if there is one; a bad end or a raise is logged and goes no further |
| Worker.RunSingleTurn | src/river_gang/orchestrator/worker.py:445-477 | posts one update per event; four typed endings become reasons, any other escapes |
| Worker.FinalizeAttempt | src/river_gang/orchestrator/worker.py:485-522 | comment on failure, then the success-state transition if configured, then the exit, whatever becomes of the first two |
| Worker.Ending | src/river_gang/orchestrator/worker.py:234-437 | the attempt is normal, and reports no error, if and only if every stage was reached and the turn was done |
| Worker.EndsExactly | src/river_gang/orchestrator/worker.py:206-437 | which call that goes wrong gives which reason and which error, the earlier one deciding |
| Worker.TurnReachedExactly | src/river_gang/orchestrator/worker.py:206-352 | the turn is reached exactly if no call before it goes wrong |
| Worker.FailureBodyExactly | src/river_gang/orchestrator/worker.py:563-571 | the comment on a failed attempt |
| Worker.OneExitLast | src/river_gang/orchestrator/worker.py:485-522 | whatever the calls do, exactly one exit is posted, as the last effect, successful exactly when its reason is normal |
| Worker.UpdatesInOrder | src/river_gang/orchestrator/worker.py:457-467 | one update per event of the turn, in order, and no other |
| Worker.CommentThenTransition | src/river_gang/orchestrator/worker.py:505-511 | a failed attempt tries one comment, before the one success-state transition; a successful one tries none |
| Worker.SessionBracketed | src/river_gang/orchestrator/worker.py:315-398 | one stop after the updates exactly when a session started; the hook after the run exactly when configured and starting returned or raised an error of the client's family |
| Worker.AttemptInOrder | src/river_gang/orchestrator/worker.py:206-522 | the order of all effects, each at most once but the updates; the first move of the ticket right before the turn, the last right before the exit |
| Worker.AttemptHas | src/river_gang/orchestrator/worker.py:206-437 | which effect is there, by which stages went well |
| Worker.LoggedExactly | src/river_gang/orchestrator/worker.py:525-597 | what the log holds: the error of each best-effort call that was made and went wrong |
| Attempts.AttemptFollowsFrames | src/river_gang/orchestrator/worker.py:336-415 | the exit is successful if and only if the app-server's frames complete the handshake and settle the turn as completed; the updates are exactly the notifications the turn consumed |
| Attempts.ReasonByTurn | src/river_gang/orchestrator/worker.py:460-477 | which turn outcome gives which reason; a malformed frame in mid-turn is unexpected |
| Redaction.Redactor.RedactValue | src/river_gang/observability/logging.py:95-113 | the walk with one shared set of nodes on the path ends on every finite graph, cyclic or not, restores the set, and builds the redacted tree |
| Redaction.RedactIsUnfolding | src/river_gang/observability/logging.py:95-113 | redacting the graph is redacting its tree unfolding, so a shared node is redacted on every path to it |
| Redaction.SentinelExactlyAtRepeats | src/river_gang/observability/logging.py:95-113 | the cycle sentinel stands exactly where a node repeats on its own path |
| Redaction.RedactClean | src/river_gang/observability/logging.py:69-73 | nothing but the placeholder is left under a secret key |
| Redaction.SecretExactly | src/river_gang/observability/logging.py:37-73 | a string key is secret if and only if, lower-cased, it is one of ten names or has one of six texts at some position, all written out |
| Redaction.RedactsMembers | src/river_gang/observability/logging.py:95-113 | on any path: under a secret key stands "***", under any other the redaction of the value; lists go element by element, a repeated node becomes "<cycle>", anything else stays |
| Redaction.CleanIffUnchanged | src/river_gang/observability/logging.py:95-113 | redaction changes a tree if and only if something shows under a secret key |
| Redaction.Represented | src/river_gang/observability/logging.py:95-113 | every tree is the unfolding of some structure without dangling references |
| Redaction.RedactTwice | src/river_gang/observability/logging.py:81-92 | the result is a structure again, and redacting any structure it may be gives the same tree |
| Redaction.RedactTreeKeepsOpenPaths | src/river_gang/observability/logging.py:95-113 | away from secret keys every position keeps its place |
| Redaction.NeedleAnywhereIsSecret | src/river_gang/observability/logging.py:69-73 | a key that carries a needle in any spelling, anywhere, is secret |
| LogFormat.ChainIsSinglePass | src/river_gang/observability/logging.py:133-145 | the five chained replacements equal one pass over the characters |
| LogFormat.ReadFormatted | src/river_gang/observability/logging.py:133-145 | a printed value is read back whole, and reading stops exactly where it ended |
| LogFormat.FormatValueInjective | src/river_gang/observability/logging.py:133-145 | different texts print differently |
| LogFormat.FormatValueNoRawBreaks | src/river_gang/observability/logging.py:133-145 | no printed value contains a raw newline, carriage return or tab |
| LogFormat.EscapesExactly | src/river_gang/observability/logging.py:137-143 | which five characters are escaped, and how |
| LogFormat.QuotedExactly | src/river_gang/observability/logging.py:135-145 | a value is printed as it is if and only if it has no blank, double quote or control character, else between double quotes |
| LogFormat.LineExactly | src/river_gang/observability/logging.py:157-172 | the line, column by column |
| LogFormat.FormatLineInjective | src/river_gang/observability/logging.py:157-172 | with the raw level and logger columns equal, equal lines come from equal records |

## Left out

- Task cancellation: a cancelled worker posts no exit, and nothing about live tasks is claimed; wall-clock timeouts show up as silence in a stream, noticed between frames only.
- Writes to the process are taken to succeed; a broken pipe, which the process class reports as its exit, is not modelled.
- Reconcile.DetectStalls: compares exact integers, where the program compares a float of milliseconds with the timeout (codex/stall.py:52), so a silence within a rounding error of the timeout may be judged the other way: 1.001 s against 1001 ms is stalled here and not there.
- Redaction.Redactor.RedactValue: knows no recursion limit; on deep nesting the program raises instead of ending the walk.
- Dispatch.SortRaisesExactly: sorts by insertion; the built-in sort compares other pairs, but like every sort it compares all neighbours of the result, and so raises on the same lists.
- A crash of the dispatcher by anything but sorting, hashing or a rejected attempt number, such as exhausted memory or an error in logging, is not modelled.
- GateMemory.OwnQuestionDoesNotWake: says nothing of an issue whose update time its tracker moves when a comment is posted; its inputs then count as new, by `Clarification.OwnCommentInvisible`, and `GateRuns.NoRepeatedQuestion` still holds.
- A handler reads the clock once; the program reads it anew at each use.
- Hashing, timestamp rendering, which characters beyond ASCII stand for lone surrogates and how a string parses as a number are parameters, with nothing assumed of them, collision freedom included.
- The tool call's result is the outside's choice for each frame: running the tool, its time limit and its text are not modelled.
- State names and log keys are lower-cased letter by letter over ASCII.
- JSON numbers are exact integers and reals; NaN and infinities do not occur.
- LogFormat.FormatLineInjective: lines without exception information, because a stack trace is appended raw and may look like anything.
- Error texts of the client, log records, and the context variables around a handler have no effect on the state and are left out; the worker carries error texts through.
- Capitalised duplicates among the per-state caps are kept as a list in which the last entry wins, as in a dictionary that is lower-cased entry by entry.
- Parsing the clarification analysis out of model output, prompt rendering and the text of prompts.
- Growth of the sets of cancelled workers and cleanup tasks beyond what reconciliation adds; their completion callbacks.
- HTTP application, dashboard, command line, configuration loading and validation, workspace management, hooks, git, the tracker's transport and its caches.
