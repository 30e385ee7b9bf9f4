# Agent worker: verified models

This project models the concurrent cores of the BoBe agent worker (`BoBeAgent/src`, TypeScript)
and two small cores of the desktop app (`BoBeMacUI`, Swift), and proves what they promise over
every run. `dafny verify dfyconfig.toml` checks all of it.

A component that suspends at `await` is a state machine: one step is the code between two
suspension points, so a run of steps is an interleaving of the source. A component that updates
fields in place is also a class: each method a caller uses keeps the invariant of the component,
says what the call means to the caller, and is proved equal to the step the theorems speak about.
Files, timers, networks and provider answers appear as choices carried by the steps, and random
identifiers as values that were not used before.

| module | models |
|---|---|
| `Common` | the option type and bytes |
| `Gate`, `GateTheorems`, `PriorityGates` | the two-class slot scheduler with reserve, cancellation and idempotent release |
| `Slots`, `SlotsTheorems` | nested delegation over the model gate and the tool gate |
| `Pool`, `PoolSteps`, `PoolReload`, `PoolTheorems`, `PoolProgress`, `PoolService`, `PoolOutcomes`, `PoolAccess`, `SessionsObject` | the pool of live channels: leases, eviction by last use, idle retirement, maintenance, MCP replacement and what it reports, and how its calls settle |
| `Turn`, `ToolBalance`, `TurnCommits`, `TurnEventsObject` | the transducer from harness events to deltas, and when a turn commits |
| `ChatWorker`, `ChatTheorems`, `ChatEffects`, `WorkerHostObject` | concurrent chats, the stamping of deltas, terminal deltas, what a commit sends |
| `Rpc`, `RpcTheorems`, `RpcObject` | callbacks, requests, the bounded output queue and the one-shot finish |
| `RpcRead` | incremental framing over arbitrary chunks |
| `Persistence`, `Recovery` | creation, publication and recovery of a session on a disk that crashes |
| `Transcript` | the transcript validator and the graph it accepts |
| `Parallel`, `ParallelMapObject`, `Chain`, `BoundedOutput`, `DelegationTree` | bounded parallel and chained delegation, truncation of results, limits and faults shared over a turn |
| `EventCursor` | the resumable event stream |
| `Base64Url` | unpadded base64url and the Wi-Fi `SET` line |

## What the proofs found

Each of these is a place where a promise one would expect does not hold as stated. The code is
modelled as it is; a lemma gives the failing run or the exact condition.

- **Which crashes a session survives.** A loss of power leaves a disk from which the next open
  succeeds if and only if the disk is sturdy (`Persistence.SturdyExactly`). As long as no process is
  killed it is sturdy at every step of creation, publication and recovery, and in an open session exactly
  while all appended lines are flushed (`Recovery.QuietKillsAreSafe`, `Recovery.FlushBuysExactly`): an
  unflushed line may survive in part, and the next open refuses half a line
  (`BoBeAgent/src/persistence.ts:125`). A killed process is different: its unsynced writes stay visible,
  and recovery does not sync what it adopts (`BoBeAgent/src/persistence.ts:153-158`, `:183-208`). A kill is
  harmless, whatever losses of power follow outside unflushed sessions, if and only if the disk it leaves
  is quiet (`Recovery.HarmlessKillsExactly`); after any other, a later loss can leave a pointer without
  its transcript, two transcripts, a used transcript without a pointer, or half a line.
- **Terminal deltas.** A settled chat has exactly one terminal delta if and only if, at its one ending
  step, the worker was not closing and the connection was open with room (`ChatTheorems.ExactlyOneTerminal`).
  `notify` drops a delta of a closing worker, and a full output queue makes the report of an error throw
  (`BoBeAgent/src/rpc.ts:59-63`), after which the chat settles unheard (`ChatTheorems.FullQueueSilencesAChat`).
  A request refused before it is accepted gets no delta at all.
- **Failure of a turn.** An exhausted-retry event with an empty message clears a recorded failure
  (`BoBeAgent/src/events.ts:72`), and text withheld during the failure is then never sent. The deltas of a
  turn add up to the contents it announces if and only if no completed message lost text that way
  (`Turn.StreamedTextExactly`), and a failure lasts if and only if no such event follows
  (`Turn.FailureIsAbsorbingExactly`).
- **Prior results in a chain.** `replaceAll` with a string reads four `$` patterns in its
  replacement, so `{previous}` is replaced by the result itself if and only if the result contains
  none of them (`Chain.InsertedVerbatimExactly`), where the tool's description promises it always is.
- **Clean closing of the transport.** The transport class by itself promises less than the program needs:
  a queued notification is written by every clean close that can follow if and only if it was queued before
  the closing flush began (`RpcTheorems.DeliveredExactly`). The program keeps to that condition: the worker's
  `close`, which the flush waits for, makes every later notification silent (`BoBeAgent/src/worker.ts:62-64`,
  `:386-392`, `BoBeAgent/src/rpc.ts:217-221`), so in the composed system a clean close delivers every line
  that was ever queued (`ChatTheorems.CleanCloseDeliversAll`).
- **Tools of a turn.** Every tool announced as started is announced as ended, once, by the end of the turn if
  and only if no call id is started again while it is open (`ToolBalance.ToolsBalanceExactly`): the map of open
  tools then forgets the first of the two.
- **Event handling.** The handled events are an initial run of the log, each once, after every connection
  if and only if no connection was cut short by a task cancelled while its handler succeeded
  (`EventCursor.HandledOnceExactly`); the event is then handled again (`EventCursor.CancellationHandlesTwice`).
- **Background work** is served in bounded time while no interactive request arrives, and can be passed
  over any number of times while they do (`GateTheorems.BackgroundIsServed`, `GateTheorems.BackgroundCanStarve`).
- **Two loops that do less than they look.** The drain after a cancellation never grants a slot
  (`GateTheorems.CancelGrantsNothing`), and the eviction loop runs at most once (`PoolTheorems.EvictionRunsOnce`).

## Model

| member | source | states |
|---|---|---|
| `GateTheorems.RunKeeps` | BoBeAgent/src/execution.ts:27-75 | over every run, each waiter is in exactly one of pending, granted and cancelled; the counters equal the unreleased grants and stay within capacity and background share; each class is served in arrival order of the uncancelled; nobody who could be served is left waiting |
| `GateTheorems.IdleMeansEmpty` | BoBeAgent/src/execution.ts:54-75 | no wakeup is lost: with no slot held the queue is empty |
| `GateTheorems.WaitingIsJustified` | BoBeAgent/src/execution.ts:54-60 | work conservation: whoever waits finds all slots held, or is background and its share is used up |
| `GateTheorems.ReserveServesInteractive` | BoBeAgent/src/execution.ts:32-60 | an interactive request that finds fewer than `reserve` interactive slots held is granted at once |
| `GateTheorems.CancelGrantsNothing` | BoBeAgent/src/execution.ts:41-46 | cancelling a waiter removes it and grants nothing |
| `GateTheorems.ReleaseIsIdempotent` | BoBeAgent/src/execution.ts:66-73 | a second call of a release closure changes nothing |
| `GateTheorems.OutcomesAreFinal` | BoBeAgent/src/execution.ts:41-73 | in every continuation a cancelled waiter is never granted and a granted one never cancelled |
| `GateTheorems.BoundedWaiting` | BoBeAgent/src/execution.ts:54-75 | an interactive waiter with k interactive waiters ahead leaves the queue within k + 1 freed slots, whatever else arrives |
| `GateTheorems.BackgroundIsServed` | BoBeAgent/src/execution.ts:54-75 | while no interactive request arrives, a background waiter leaves within one freed background slot for each interactive waiter and each background waiter before it, and one more |
| `GateTheorems.BackgroundCanStarve` | BoBeAgent/src/execution.ts:55-60 | from any state with all slots held, interactive arrivals can keep a background waiter queued through any number of freed slots |
| `PriorityGates.PriorityGate.Acquire` | BoBeAgent/src/execution.ts:36-52 | the object's new state is the scheduler's step for an arrival |
| `PriorityGates.PriorityGate.Cancel` | BoBeAgent/src/execution.ts:41-46 | the new state is the step for a cancellation |
| `PriorityGates.PriorityGate.Release` | BoBeAgent/src/execution.ts:66-73 | the new state is the step for a release |
| `PriorityGates.PriorityGate.DrainQueue` | BoBeAgent/src/execution.ts:54-75 | the loop serves exactly the waiters the policy picks, in its order |
| `SlotsTheorems.DelegationNeverDeadlocks` | BoBeAgent/src/execution.ts:144-188 | for any delegation tree, any legal limits, and whatever calls are abandoned or skipped behind a failure, every reachable unfinished state has an enabled step |
| `SlotsTheorems.EveryTurnCompletes` | BoBeAgent/src/delegation.ts:61-75 | a run of a delegation tree, with chains that stop early, has at most two steps a call, and one that cannot go on has finished the tree |
| `SlotsTheorems.ChainsRunInOrder` | BoBeAgent/src/delegation.ts:61-75 | what a chain reaches is what its first unfinished step reaches, and nothing behind it |
| `SlotsTheorems.ItemsRunWithinLimit` | BoBeAgent/src/delegation.ts:35-44 | of a parallel call exactly the items are reached that have fewer than the limit of unfinished ones before them |
| `SlotsTheorems.HoldingWhileDelegatingDeadlocks` | BoBeAgent/src/execution.ts:145 | for every legal pair of gates: if delegating calls kept their slots, as many of them as there are tool slots would reach a state that is stuck and unfinished |
| `PoolTheorems.StepKeeps` | BoBeAgent/src/sessions.ts:158-231 | every step of every call keeps the pool's invariant |
| `PoolTheorems.StartKeeps` | BoBeAgent/src/sessions.ts:176-187 | a new object satisfies the invariant, and so does one that has opened the owner's channel |
| `PoolTheorems.EveryInterleavingIsSafe` | BoBeAgent/src/sessions.ts:158-231 | from a new or an initialized object, in every interleaving the live channels stay within the limit, a channel has at most one open session, and a session in use under a lease is open and not being retired |
| `PoolTheorems.LeasesWaitForMaintenance` | BoBeAgent/src/sessions.ts:191-196 | a lease is taken only while the maintenance counter is zero and no replacement is under way |
| `PoolTheorems.ReloadRunsAlone` | BoBeAgent/src/sessions.ts:451-459 | from its idleness check to its end an MCP reload meets no lease |
| `PoolTheorems.ReplacementIsAllOrNothing` | BoBeAgent/src/sessions.ts:461-483 | at each of the three places where a replacement's turn can end, what it leaves is all or nothing: every live session and the configuration at the new servers, or all at the old ones, or a worker fault |
| `PoolOutcomes.OutcomeIsHonest` | BoBeAgent/src/sessions.ts:461-483 | whatever step ends a reload's turn, the outcome the call then carries is honest: success if and only if no session refused the new servers, which all live sessions and the configuration then have; rolled back if and only if every session took the old ones again, which all then have; a fault only with one recorded |
| `PoolOutcomes.FailuresAreCounted` | BoBeAgent/src/sessions.ts:470-475 | a replacement counts a failure exactly with a session whose servers are then unknown, and otherwise the session has the servers it was given |
| `PoolOutcomes.ReloadReports` | BoBeAgent/src/sessions.ts:451-491 | over every run and interleaving: what a reload to given servers reports in the end was decided by one of its own steps, and that step left the servers asked for on success, the servers of before on a rollback, everything unchanged on a refusal, and a recorded fault otherwise |
| `PoolOutcomes.FaultedExactly` | BoBeAgent/src/sessions.ts:205-218 | a worker fault is recorded exactly by a step in which a session could not be closed or put back to its servers |
| `PoolTheorems.SettledPoolAgrees` | BoBeAgent/src/sessions.ts:461-491 | outside a replacement, and until a fault, all live sessions have the configured servers |
| `PoolTheorems.EvictionRunsOnce` | BoBeAgent/src/sessions.ts:169-175 | an eviction finds the pool exactly full, is the loop's first pass, and takes a channel nobody leases |
| `PoolTheorems.NoSlotExactly` | BoBeAgent/src/sessions.ts:169-175 | with the pool full a call evicts if some live channel is unleased, and gives up exactly if all are leased |
| `PoolAccess.OldestUseIsEvicted` | BoBeAgent/src/sessions.ts:158-203 | in every run an eviction takes the idle channel whose last lookup, opening or return is the oldest by the clock those steps read |
| `PoolTheorems.PoolNeverDeadlocks` | BoBeAgent/src/errors.ts:61-69 | while some call is unfinished, some call can take its next step |
| `PoolProgress.EveryCallSettles` | BoBeAgent/src/sessions.ts:158-231 | while no call is added, the calls in progress make a bounded number of steps in whatever order they run, and when none can go on every one of them has ended |
| `PoolService.IdlePoolServes` | BoBeAgent/src/sessions.ts:158-203 | when all calls have ended, a new call for any channel can come to use a session, open, its channel's only one and not being retired |
| `SessionsObject.Sessions.OldestIdle` | BoBeAgent/src/sessions.ts:170-173 | the victim is an unleased channel with the oldest access; none is found only if every channel is leased |
| `SessionsObject.Sessions.TakeLease` | BoBeAgent/src/sessions.ts:191-196 | keeps the pool's invariant; a lease is taken only with no maintenance and then meets no reload, otherwise the call is parked and nothing else changes |
| `SessionsObject.Sessions.LookUp` | BoBeAgent/src/sessions.ts:159-166 | keeps the invariant; the session found is live and its channel not being retired |
| `SessionsObject.Sessions.MakeRoom` | BoBeAgent/src/sessions.ts:169-175 | keeps the invariant; a victim is an unleased channel with the oldest access, taken on the loop's first turn from an exactly full pool; none is found only if all are leased |
| `SessionsObject.Sessions.VictimRetired` | BoBeAgent/src/sessions.ts:205-218 | keeps the invariant; only the victim's channel is forgotten, it is no longer retiring, and its session is closed even when closing failed |
| `SessionsObject.Sessions.OpenChannel` | BoBeAgent/src/sessions.ts:176-181 | keeps the invariant; the channel was not live, its session is new, and the pool stays within its limit |
| `SessionsObject.Sessions.ChannelOpened` | BoBeAgent/src/sessions.ts:182-187 | keeps the invariant; the session is open and the channel's only one, or the channel is forgotten |
| `SessionsObject.Sessions.ReturnLease` | BoBeAgent/src/sessions.ts:197-202 | keeps the invariant; afterwards the channel is leased exactly if another call still holds a lease on it |
| `SessionsObject.Sessions.StartReload` | BoBeAgent/src/sessions.ts:451-456 | keeps the invariant; refused exactly when servers are to be replaced and something is running or leased, and otherwise no call holds a lease |
| `SessionsObject.Sessions.WakeWaiters` | BoBeAgent/src/sessions.ts:446-449 | the loop resolves every parked call and no other |
| `SessionsObject.Sessions.FinishReload` | BoBeAgent/src/sessions.ts:446-459 | keeps the invariant; with the last maintenance no call stays parked |
| `SessionsObject.Sessions.ServersApplied` | BoBeAgent/src/sessions.ts:470-482 | keeps the invariant; without a failure or an earlier fault all live sessions have the new servers |
| `Turn.StreamedTextExactly` | BoBeAgent/src/events.ts:29-76 | for every turn: at every completion the deltas already sent for that message concatenate to its content if and only if no completed message lost text that came while a failure stood; no `done` before a commit |
| `Turn.StreamedTextIsCompletedText` | BoBeAgent/src/events.ts:29-76 | so it holds in every turn whose failures are never taken back |
| `Turn.FailureSurvives` | BoBeAgent/src/events.ts:29-76 | an event leaves a failed turn failed exactly when it is not a blank report of exhausted retries, and adds nothing visible |
| `Turn.FailureIsAbsorbing` | BoBeAgent/src/events.ts:29-101 | after a failure no message delta, completion or `done` is sent, by events or by a commit |
| `Turn.FailureIsAbsorbingExactly` | BoBeAgent/src/events.ts:29-76 | a failed turn stays failed through all that follows if and only if no blank report follows |
| `Turn.BlankReportUnfails` | BoBeAgent/src/events.ts:72 | a turn that fails, is unfailed and commits a message whose first words were never sent |
| `Turn.CommitCompletesTheTurn` | BoBeAgent/src/events.ts:94-128 | when every message end closes a message begun, a successful commit ends the stream with the completion of the last message, whose content is `text()`, and one `done`, and the stream is faithful if and only if no completed message lost text; an unsuccessful one sends nothing (which commits succeed is `TurnCommits.CommitsExactly`) |
| `Turn.OwnerQuestionCompletes` | BoBeAgent/src/events.ts:103-109 | an owner question is sent, completed and ended as one message under a new id, and leaves the stream as faithful as it was |
| `TurnCommits.CommitsExactly` | BoBeAgent/src/events.ts:78-101 | told from the events alone, for every turn: it commits if and only if no failure stands, every tool call started has ended, the last message stopped normally, and the last message begun and stopped was not given up for a retry and begins with what was streamed of it |
| `TurnCommits.OwnerQuestionExactly` | BoBeAgent/src/events.ts:103-109 | an owner question is accepted if and only if no failure stands, every tool call started has ended, and the last message stopped normally or to use a tool |
| `TurnCommits.FailureIs` | BoBeAgent/src/events.ts:45-73 | a failure is recorded if and only if the events leave one standing: a failed compaction, an exhausted retry, a retry after text was shown, or a message that differs from its deltas, with no blank report since |
| `TurnCommits.SilentCommits` | BoBeAgent/src/events.ts:23-26 | a turn whose deltas nobody receives sends nothing and commits in the same cases |
| `TurnCommits.ToolIsAnnounced` | BoBeAgent/src/events.ts:53-65 | a call that starts and later ends is announced twice under one identity: as started under its name, and as ended, a success exactly when it was no error |
| `TurnCommits.UnknownToolIsAnnounced` | BoBeAgent/src/events.ts:58-65 | the end of a call that is not open is announced under an identity never used before |
| `TurnCommits.FailedToolsEnd` | BoBeAgent/src/events.ts:130-133 | each tool still open is ended under its own identity and name, as no success, in order |
| `TurnCommits.ClosedOnce` | BoBeAgent/src/events.ts:130-133 | closing a turn leaves no tool open, so doing it again sends nothing |
| `TurnCommits.CountersAre` | BoBeAgent/src/events.ts:32-76 | the counters are the numbers of text deltas, ended tools, failed tools and ended turns among the events |
| `TurnCommits.ContentAppends` | BoBeAgent/src/events.ts:90-92 | the content of a message is the text of its text blocks, in order |
| `TurnEventsObject.TurnEvents.Event` | BoBeAgent/src/events.ts:29-76 | keeps the invariant for every event; a failed turn sends nothing visible, and stays failed unless the event is the blank report; the stream is faithful exactly when nothing was withheld from a completed message |
| `TurnEventsObject.TurnEvents.CommitReply` | BoBeAgent/src/events.ts:94-101 | it returns exactly when no failure is recorded, no tool is open, the last message stopped, and a reply is kept that begins with what was streamed of it; otherwise it throws and has sent nothing; it ends with the completion of the reply it committed, with its content and tokens, and `done` |
| `Turn.CompleteKeeps` | BoBeAgent/src/events.ts:111-128 | completing a pending reply announces its content, to which what was sent and withheld for it adds up; a mismatch sends nothing |
| `TurnEventsObject.TurnEvents.EndOpenTools` | BoBeAgent/src/events.ts:130-133 | keeps the invariant; the loop ends every open tool once, in order, as failed |
| `ToolBalance.ToolsBalanceExactly` | BoBeAgent/src/events.ts:53-65 | for every turn: after its failed tools are ended every tool announced as started has been announced as ended exactly once if and only if no call id was started again while it was open; no tool is ever announced as ended twice |
| `ChatWorker.StepKeeps` | BoBeAgent/src/worker.ts:66-219 | every step, of chats and of the transport they send through, keeps: one chat a channel, the session of a running chat names it, nothing after a terminal delta |
| `ChatTheorems.DeltasCarryTheirOwnId` | BoBeAgent/src/sessions.ts:509-554 | every delta is stamped with the id of the chat that caused it, however many chats run |
| `ChatTheorems.OneChatPerChannel` | BoBeAgent/src/worker.ts:210-219 | two chats that stream belong to different channels |
| `ChatTheorems.NothingAfterTerminal` | BoBeAgent/src/worker.ts:177-186 | no delta with a request's id follows that request's terminal delta |
| `ChatTheorems.ExactlyOneTerminal` | BoBeAgent/src/worker.ts:177-219 | a settled chat has one ending step; it has one terminal delta if the worker was not closing then and the connection was open with room, none otherwise |
| `ChatTheorems.OpenWorkerEndsEveryChat` | BoBeAgent/src/worker.ts:177-297 | while the worker is not closing and the transport has not begun to end, every settled chat has exactly one terminal delta |
| `ChatTheorems.ShutdownSilencesAChat` | BoBeAgent/src/worker.ts:62-64 | a run in which a shutdown leaves a settled chat without a terminal delta |
| `ChatTheorems.FullQueueSilencesAChat` | BoBeAgent/src/rpc.ts:54-63 | in every run, a report that meets a full output queue leaves its chat settled without a terminal delta, though the worker is not closing |
| `ChatTheorems.CleanCloseDeliversAll` | BoBeAgent/src/rpc.ts:213-229 | worker and transport composed: the worker closes before the flush begins, so a transport that closes without error has delivered every line that was ever queued |
| `ChatTheorems.ChatsCanFinish` | BoBeAgent/src/worker.ts:177-219 | an accepted chat that has not settled can always take a step that brings its end nearer |
| `ChatEffects.ArrivalExactly` | BoBeAgent/src/worker.ts:66-90 | a request is accepted exactly while the worker is open and its id is larger than all before; it then gets its channel exactly if it is well formed and no chat holds that |
| `ChatEffects.CommitSends` | BoBeAgent/src/worker.ts:284-297 | a commit of an open worker sends the last updates in order and then `done`, one line each, and succeeds exactly if all were sent; of a closing worker it sends nothing |
| `ChatEffects.UpdateSends` | BoBeAgent/src/worker.ts:62-64 | an update of a running chat is sent as one line, unless it is too long or ends the transport |
| `ChatEffects.SessionCarriesLast` | BoBeAgent/src/sessions.ts:509-554 | over every run a channel's session carries the id of the chat last installed in it since it was opened, and no other |
| `ChatEffects.ClosedWorkerEnds` | BoBeAgent/src/worker.ts:386-392 | a closed worker whose requests are answered can always end cleanly, with every queued line delivered |
| `WorkerHostObject.WorkerHost.Request` | BoBeAgent/src/worker.ts:66-70 | keeps the invariant; accepted exactly when open and in order; holds the channel exactly when it was free and the request well formed, and then no other chat does |
| `WorkerHostObject.WorkerHost.FreeChannel` | BoBeAgent/src/worker.ts:218 | keeps the invariant; no chat holds the channel any more |
| `WorkerHostObject.WorkerHost.CommitChat` | BoBeAgent/src/worker.ts:284-297 | keeps the invariant; the chat has exactly one terminal delta if the commit returns and the worker is not closing, and none otherwise |
| `WorkerHostObject.WorkerHost.ReportError` | BoBeAgent/src/worker.ts:177-185 | keeps the invariant; the chat settles with one terminal delta exactly when the report is heard |
| `RpcRead.Read` | BoBeAgent/src/rpc.ts:158-190 | for every split into chunks, the dispatched lines, the state and the way reading ends are those of the whole stream |
| `RpcRead.DrainLines` | BoBeAgent/src/rpc.ts:163-177 | the inner loop dispatches exactly the complete lines of the buffer, up to the first bad one |
| `RpcRead.OversizeWins` | BoBeAgent/src/rpc.ts:178 | an unterminated line over the limit fails whatever arrives later |
| `RpcRead.EndsExactly` | BoBeAgent/src/rpc.ts:158-190 | a stream of good lines and a tail dispatches the lines up to the first refused; if none is, it ends cleanly when nothing is left, and otherwise as an empty line, a line over the limit, or a line never finished |
| `RpcRead.EveryStreamSplits` | BoBeAgent/src/rpc.ts:163-180 | every stream is such lines and such a tail |
| `RpcRead.FramingRoundTrip` | BoBeAgent/src/rpc.ts:158-190 | lines framed by the peer are dispatched one by one, unchanged |
| `Rpc.StepKeeps` | BoBeAgent/src/rpc.ts:50-229 | every step keeps the queue's accounting, the ledger of callback ids and the ledger of requests |
| `RpcTheorems.CallbacksSettleOnce` | BoBeAgent/src/rpc.ts:90-109 | callback ids strictly decrease and each is settled at most once |
| `RpcTheorems.CallsAreSent` | BoBeAgent/src/rpc.ts:90-105 | in every run each caller that waits was asked for in exactly one queued line, every such line names an id issued, and an id issued without a line is settled |
| `RpcTheorems.CallIssuesExactly` | BoBeAgent/src/rpc.ts:90-98 | a call issues the next id exactly while the transport is not ending, fewer than 256 callers wait, and ids are left |
| `RpcTheorems.NoCallerLeftWaiting` | BoBeAgent/src/rpc.ts:192-215 | once finishing begins the table is empty for good, and every id ever issued is settled |
| `RpcTheorems.RequestsAnsweredOnce` | BoBeAgent/src/rpc.ts:119-148 | accepted ids strictly increase and each is answered by at most one line |
| `RpcTheorems.CleanCloseAnsweredAll` | BoBeAgent/src/rpc.ts:213-229 | a transport closed without error has written the answer of every request it accepted |
| `RpcTheorems.OutputIsAccounted` | BoBeAgent/src/rpc.ts:54-84 | the counters equal the count and size of unsettled lines, within 1024 lines and 32 MiB; the output saw a prefix of the queued lines, even after a failed write |
| `RpcTheorems.LineTakenExactly` | BoBeAgent/src/rpc.ts:54-66 | a line is queued exactly when it is at most 16 MiB, the transport is open, and fewer than 1024 lines and no more than 32 MiB with it are unwritten; a refusal for want of room ends the transport, any other changes nothing |
| `RpcTheorems.QueueMovesOn` | BoBeAgent/src/rpc.ts:66-84 | while a queued line is unsettled the oldest one can be handed over or settled, also after a failed write |
| `RpcTheorems.EndsExactly` | BoBeAgent/src/rpc.ts:119-215 | a transport that goes on ends exactly when its input does, an error is reported, a write fails, a line finds no room, the peer breaks the protocol, or an answer is a fault, cannot be sent or is the shutdown's; and with an error except at the end of the input or a shutdown answered |
| `RpcTheorems.CanCloseClean` | BoBeAgent/src/rpc.ts:213-229 | once nothing runs and no error is recorded, a transport that is ending can close cleanly, with all its lines delivered |
| `RpcTheorems.CleanCloseDelivers` | BoBeAgent/src/rpc.ts:213-229 | on every path from a state whose flush has not begun, a clean close delivers all the lines that state had queued |
| `RpcTheorems.DeliveredExactly` | BoBeAgent/src/rpc.ts:86-88 | of the transport by itself, whoever notifies: a queued notification is written by every clean close that can follow if and only if it was queued before the closing flush began |
| `RpcObject.JsonlRpc.NotifyHost` | BoBeAgent/src/rpc.ts:50-66 | keeps the invariant; queues the line or throws, and it throws only for a line too long or when the transport ends |
| `RpcObject.JsonlRpc.Ask` | BoBeAgent/src/rpc.ts:90-105 | keeps the invariant; an id it returns is the next one and is settled or waits, and then exactly its request line was queued; without an id nothing was issued |
| `RpcObject.JsonlRpc.ReceiveReply` | BoBeAgent/src/rpc.ts:149-155 | keeps the invariant; settles the callback that waits for it, or ends the transport with no callback left |
| `RpcObject.JsonlRpc.ReceiveRequest` | BoBeAgent/src/rpc.ts:119-123 | keeps the invariant; accepts exactly a request in order, while open and with fewer than 256 running |
| `RpcObject.JsonlRpc.WriteSettled` | BoBeAgent/src/rpc.ts:72-84 | keeps the invariant: the counters stay those of the unsettled lines, and a failed write ends the transport |
| `RpcObject.JsonlRpc.RejectCallbacks` | BoBeAgent/src/rpc.ts:192-195 | the loop settles every waiting callback once, in order |
| `RpcObject.JsonlRpc.Answered` | BoBeAgent/src/rpc.ts:126-148 | keeps the invariant; the handler is gone, its answer is the one answer line of that request, or the transport ends with an error |
| `RpcObject.JsonlRpc.EndInput` | BoBeAgent/src/rpc.ts:208-215 | keeps the invariant; no callback is left waiting and every id ever issued is settled |
| `Persistence.SturdyExactly` | BoBeAgent/src/persistence.ts:146-224 | every loss of power, torn lines included, leaves an openable disk if and only if the pointer's transcript and all its lines are synced and, with no pointer synced, at most one unused transcript can be found |
| `Persistence.StepKeeps` | BoBeAgent/src/persistence.ts:146-224 | every operation, every kill outside an append and every loss of power on a sturdy disk keeps the disk openable and the open from failing |
| `Recovery.NoOpenFails` | BoBeAgent/src/persistence.ts:146-209 | in a run whose power losses hit sturdy disks and whose kills hit no half-done append, no open ever fails, and a ready session has one transcript, matching the pointer |
| `Recovery.KilledAppendFails` | BoBeAgent/src/persistence.ts:125 | after any other kill the next open fails, with the incomplete-final-entry error |
| `Recovery.FlushBuysExactly` | BoBeAgent/src/persistence.ts:252-255 | with a session open, every loss of power leaves an openable disk if and only if all its lines are flushed |
| `Recovery.NextOpenSucceeds` | BoBeAgent/src/persistence.ts:146-181 | the open after a crash succeeds with one matching transcript; it keeps a published identity, or that of a complete header, and is new otherwise |
| `Recovery.IdentityIsStable` | BoBeAgent/src/persistence.ts:152 | once the pointer is durable it never changes |
| `Recovery.CheckedUnlessMade` | BoBeAgent/src/persistence.ts:146-181 | an open hands out a session unchecked exactly if it created that transcript itself |
| `Recovery.QuietKillsAreSafe` | BoBeAgent/src/files.ts:42-58 | if kills hit only quiet disks, power may fail after any step of an open, and of an open session whenever it has flushed, and no open fails |
| `Recovery.HarmlessKillsExactly` | BoBeAgent/src/persistence.ts:183-224 | a kill is harmless, whatever losses of power follow outside unflushed sessions, if and only if it hits a quiet disk |
| `Transcript.Validate` | BoBeAgent/src/persistence.ts:124-144 | accepts exactly the complete transcripts with a matching header, distinct ids and every reference to an earlier entry; each error has its cause |
| `Transcript.WalksToRoot` | BoBeAgent/src/persistence.ts:133-143 | the walk from any entry reaches a root within the entry count, visiting none twice |
| `Transcript.NoCycles` | BoBeAgent/src/persistence.ts:100-122 | no chain of parent, target, kept-entry and branch references returns to its start |
| `Transcript.AncestorsShareRoot` | BoBeAgent/src/persistence.ts:133-143 | an entry and its ancestors have one root: the parent graph is a forest |
| `Transcript.AppendAccepted` | BoBeAgent/src/persistence.ts:134-143 | appending an entry keeps a transcript accepted exactly when the entry passes against the ids so far |
| `Transcript.TruncatedIsAccepted` | BoBeAgent/src/persistence.ts:124-144 | losing whole lines from the end keeps a transcript accepted |
| `Parallel.BoundedAndOnce` | BoBeAgent/src/delegation.ts:35-44 | at most `concurrency` items run, items start in order, none twice |
| `Parallel.ResultsAreFinal` | BoBeAgent/src/delegation.ts:42 | a result is the value its own item produced, and is never replaced |
| `Parallel.NothingStartsAfterAbort` | BoBeAgent/src/delegation.ts:38-40 | from an abort on no item is started |
| `Parallel.AbortedExactly` | BoBeAgent/src/delegation.ts:38-39 | the signal is aborted exactly if an abort came, which it may at any time |
| `Parallel.ThrownForAReason` | BoBeAgent/src/delegation.ts:37-47 | a worker has thrown exactly if its own item failed, and then that failure, or it met an abort before an item |
| `Parallel.Collect` | BoBeAgent/src/delegation.ts:45-52 | the first failure in worker order, or one result an item in item order |
| `Parallel.EndsQuiet` | BoBeAgent/src/delegation.ts:45-52 | when the call ends nothing runs; with no failure every item has a result exactly when a worker was allowed |
| `Parallel.MovesEnd` | BoBeAgent/src/delegation.ts:37-44 | every move of a worker brings the end nearer |
| `Parallel.EveryRunSettles` | BoBeAgent/src/delegation.ts:35-52 | a run has at most two moves an item and one a worker, whatever fails and whenever it is aborted, and no worker can move exactly when all have settled |
| `ParallelMapObject.ParallelMap.Take` | BoBeAgent/src/delegation.ts:38-41 | keeps the invariant; the item taken is the next one, new, in no result and with no other worker; none is taken only at the end or after an abort |
| `ParallelMapObject.ParallelMap.Put` | BoBeAgent/src/delegation.ts:42 | keeps the invariant; the item had no result before, and no other result changes |
| `ParallelMapObject.ParallelMap.Reject` | BoBeAgent/src/delegation.ts:42 | keeps the invariant; the item that failed has no result |
| `Chain.RunChain` | BoBeAgent/src/delegation.ts:66-74 | each reply answers its own task with the prior text filled in; the chain stops at the first failure, abort or exception of the runner |
| `Chain.ChainFeeds` | BoBeAgent/src/delegation.ts:66-74 | the first task runs with its marks taken out, and every later one with the text of the reply before it |
| `Chain.ChainsAgree` | BoBeAgent/src/delegation.ts:66-74 | the tasks and the runner determine the chain: two chains over them agree as far as both go |
| `Chain.InsertedVerbatimExactly` | BoBeAgent/src/delegation.ts:70 | the prior result is inserted as it is, in every task, if and only if it has none of the four `$` patterns |
| `Chain.FirstMarkInserted` | BoBeAgent/src/delegation.ts:70 | where `{previous}` first stands in a task, wherever that is, the prior result takes its place, and the text behind is treated in the same way |
| `Chain.NoMarkNoChange` | BoBeAgent/src/delegation.ts:70 | a task in which `{previous}` stands nowhere is left as it is |
| `Chain.NextMarkReplaced` | BoBeAgent/src/delegation.ts:70 | from any place on, the next mark gives way to what the language makes of the prior result between all the text before the mark and all the text behind it |
| `Chain.OnlyMarkReplaced` | BoBeAgent/src/delegation.ts:70 | a task with one mark becomes the text before it, what the language makes of the prior result there, and the text behind it |
| `Chain.PatternsMean` | BoBeAgent/src/delegation.ts:70 | in a replacement the four patterns stand for a dollar sign, the mark, the text before it and the text behind it |
| `Chain.OtherTextStays` | BoBeAgent/src/delegation.ts:70 | text without a dollar sign stands for itself, and so does a dollar sign before any other character |
| `BoundedOutput.Bound` | BoBeAgent/src/delegation.ts:87-97 | the text whole, or its longest prefix within 50 KiB that splits no character, at most three bytes short |
| `BoundedOutput.BoundaryAt` | BoBeAgent/src/delegation.ts:92 | in valid UTF-8 a place is a character boundary exactly when no continuation byte stands there |
| `BoundedOutput.ContinuationMasks` | BoBeAgent/src/delegation.ts:92 | the bytes the mask picks out are those with the leading bits `10` |
| `BoundedOutput.BeginsExactly` | BoBeAgent/src/delegation.ts:89-94 | valid UTF-8 is what the arithmetic of the encoding yields: a text begins with a whole character exactly when its first bytes encode a place of Unicode that is no surrogate |
| `BoundedOutput.NoticeSays` | BoBeAgent/src/delegation.ts:93-96 | a cut text is followed by the notice, character by character, and a whole one by nothing |
| `BoundedOutput.TextValid` | BoBeAgent/src/delegation.ts:93-96 | the text with its notice is valid UTF-8 |
| `DelegationTree.StepKeeps` | BoBeAgent/src/sessions.ts:736-787 | every step keeps one shared counter and fault list a turn, nesting, and exact counts |
| `DelegationTree.TurnsAreBounded` | BoBeAgent/src/sessions.ts:737-740 | a turn creates at most sixteen children over its whole tree, none deeper than two |
| `DelegationTree.TurnFaultsExactly` | BoBeAgent/src/sessions.ts:621-623 | an ended turn threw a worker fault if and only if some step of the run recorded a failed cleanup in its tree, and nothing of its tree is left |
| `DelegationTree.TurnSucceedsExactly` | BoBeAgent/src/sessions.ts:608-624 | over every run an ended turn succeeded if and only if its own run went well and no step recorded a failed cleanup in its tree |
| `DelegationTree.DelegateExactly` | BoBeAgent/src/sessions.ts:736-757 | a call of `delegate` makes a child, one level deeper in the same turn, exactly while the parent is less than two deep and the turn has made fewer than sixteen |
| `DelegationTree.RunsExactly` | BoBeAgent/src/sessions.ts:543-624 | a run goes on exactly from the step that enters it, not aborted, to the one that ends it |
| `DelegationTree.GoneExactly` | BoBeAgent/src/sessions.ts:749-774 | a child is gone exactly once it was released or its session could not be created |
| `DelegationTree.TurnCanGoOn` | BoBeAgent/src/sessions.ts:736-787 | while a turn runs, some run of its tree can take a step that brings it nearer to its end, without delegating |
| `DelegationTree.FaultsAreThoseRecorded` | BoBeAgent/src/sessions.ts:621-623 | the fault list of a turn is empty exactly as long as no step has recorded a failed cleanup in its tree |
| `DelegationTree.FaultsReachTheirTurn` | BoBeAgent/src/sessions.ts:752-787 | a failed cleanup anywhere in the tree is appended, as it is, to the list of its own turn and no other |
| `DelegationTree.NoSuccessAfterAFault` | BoBeAgent/src/sessions.ts:608-624 | a run that reaches its `finally` throws the first fault of its turn exactly when there is one, its own cleanup included, and with none succeeds exactly when its body did; one aborted at its entry ends in an ordinary error without looking; so once a cleanup of a turn has failed no later run of the turn succeeds |
| `EventCursor.Client.ReceiveEvents` | BoBeMacUI/BoBe/Services/DaemonClient.swift:224-260 | the new state is the specification of one connection |
| `EventCursor.Client.AcknowledgeBundle` | BoBeMacUI/BoBe/Services/DaemonClient.swift:262-275 | the cursor moves as specified, and the result says whether it moved; an ordinary event with id and incarnation, once acknowledged, is not processed again |
| `EventCursor.Client.ReconnectDelay` | BoBeMacUI/BoBe/Services/DaemonClient.swift:277-284 | none at first, then half a second doubling up to fifteen |
| `EventCursor.ConnectionKeeps` | BoBeMacUI/BoBe/Services/DaemonClient.swift:57-68 | a connection that replays from no later than the next event and is not cut short takes the handled events further along the log, in order, each once |
| `EventCursor.HandledOnceExactly` | BoBeMacUI/BoBe/Services/DaemonClient.swift:224-275 | over any connections with drops, undecodable lines, refusals and cancellations: after each the handled events with ids are an initial run of the log, each once, if and only if none was cut short by a task cancelled while its handler succeeded |
| `EventCursor.UncancelledIsNotCutShort` | BoBeMacUI/BoBe/Services/DaemonClient.swift:250-255 | a handler that refuses while the task is cancelled cuts no connection short |
| `EventCursor.CleanConnectionCatchesUp` | BoBeMacUI/BoBe/Services/DaemonClient.swift:224-260 | a connection without refusals handles everything it replays |
| `EventCursor.RestartStartsAfresh` | BoBeMacUI/BoBe/Services/DaemonClient.swift:63-67 | a server that restarts with another incarnation is read from the start of its own log, whatever was handled before |
| `EventCursor.SnapshotResumes` | BoBeMacUI/BoBe/Services/DaemonClient.swift:262-275 | after a snapshot marker, of its incarnation exactly the events behind the place it names are processed |
| `EventCursor.CancellationHandlesTwice` | BoBeMacUI/BoBe/Services/DaemonClient.swift:250-251 | after a connection cut short, the next one that begins with the event left behind handles it again, whatever follows |
| `EventCursor.DelaysGrow` | BoBeMacUI/BoBe/Services/DaemonClient.swift:277-284 | delays never shrink while nothing is acknowledged and never exceed fifteen seconds |
| `Base64Url.RoundTrip` | BoBeMacUI/BoBe/Services/PairingExchange.swift:359-372 | decoding inverts encoding for every byte string |
| `Base64Url.PaddingRestored` | BoBeMacUI/BoBe/Services/PairingExchange.swift:370 | the padding the decoder restores is what the encoder dropped |
| `Base64Url.DecodesOnlyGroups` | BoBeMacUI/BoBe/Services/PairingExchange.swift:366-372 | only whole groups of four characters of the alphabet are decoded, with padding in the last two places alone |
| `Base64Url.UrlAlphabet` | BoBeMacUI/BoBe/Services/WB12OnboardingService.swift:34-40 | the encoding has no padding, plus, slash, space or newline |
| `Base64Url.CharactersCarryBits` | BoBeMacUI/BoBe/Services/WB12OnboardingService.swift:34-40 | each character of the encoding stands for the next six bits of the data, in the alphabet of RFC 4648, section 5, and there is one for every six bits begun |
| `Base64Url.DashIsNoPassword` | BoBeMacUI/BoBe/Services/WB12OnboardingService.swift:46-51 | a password that is not empty never encodes as `-`, and the field is read back as the password |
| `Base64Url.SetLineRead` | BoBeMacUI/BoBe/Services/WB12OnboardingService.swift:46-51 | the line determines nonce, network name and password |
| `Base64Url.SetLineOnTheWire` | BoBeMacUI/BoBe/Services/WB12OnboardingService.swift:46-51 | the line as it is sent, with `-` in the place of the password of an open network |

## Left out

- PoolTheorems.StepKeeps: the closed flag and `close` of the sessions are not steps; idle retirement may pick any unleased channel, which includes every choice the cutoff makes. The unleased call of `main` during initialization runs before any other call and is the initialized start of a run, not a step.
- PoolTheorems.EvictionRunsOnce: ties in access time may be broken either way, where the sort keeps map order.
- Rpc.StepKeeps: what the `finishing` promise does is split into the synchronous part, a flush and a close; the suspensions inside the handler's `close` are one step.
- ChatWorker.StepKeeps: compaction, background jobs and the other methods are not steps; they hold a channel as a chat does but send no deltas. What they and the host write to the transport is any step of it.
- ChatTheorems.ExactlyOneTerminal: the line of an error report is taken to be at most 16 KiB long, from the 2048 characters the message is cut to.
- DelegationTree.StepKeeps: that a run settles after its tool calls is taken from the harness; a cleanup fault after that would come too late for the root.
- Persistence.StepKeeps: the staged write and rename that publish the pointer are one step, and its staging file is not modelled; whole appended lines are taken to be entries the validator accepts. The creation of the directories is taken as durable, and nothing else is put into them before the pointer is published.
- Recovery.FlushBuysExactly: a flush does not overlap an append of the same session.
- Transcript.Validate: a line is its parsed value, and the checks of one entry that involve no other are one flag; trailing white space and JSON parsing are not modelled.
- RpcRead.Read: a line's decoding, parsing and dispatch are one handler that accepts or fails.
- BoundedOutput.Bound: the text is its UTF-8 bytes; lone surrogates, which the encoder replaces, do not occur.
- EventCursor.HandledOnceExactly: snapshot markers move the cursor past events by intent and are outside the theorem.
- Base64Url.RoundTrip: the platform's decoder is modelled as accepting any bits in the places padding stands for.
- Base64Url.SetLineRead: a nonce is any text without a space; the source's nonces are hexadecimal.
- Turn.CommitCompletesTheTurn: a message end without a message begun, which the harness does not send, sets `text()` but not the reply to commit; such turns are outside the theorem.
- The pi harness, providers, MCP servers, models and search are choices of the steps; timers and budgets are aborts that may come at any step.
- Sessions, the worker and delegation suspend inside methods: their objects are modelled by one method for each stretch between two suspension points, and the theorems speak about the steps.
- `settleEach`, redaction, prompts, payload checks of single entries and authority paths: easy members.
- The Rust service, pairing cryptography, process control and all user interface.
