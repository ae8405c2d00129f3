# Durable execution in agentle: a Dafny model and its proofs

agentle runs scripts that survive crashes. A script is run from the top after every crash or
suspension; a *mediator* answers each capability call from an append-only log when a result is
recorded, and otherwise executes the call and records the result. Executions receive messages from
durable per-workspace inboxes, park while they wait, and are woken by a dispatcher. A second
mediator re-runs a script against a recorded run to score it.

The project models these parts and proves what they promise:

- **Replay** (`Types`, `CallKeys`, `Scripts`, `Nodes`, `Replay`, `ReplayInv`, `ReplaySteps`,
  `ReplayTheorems`, `Schedules`, `SqlRuns`): a step system with any number of overlapping attempts of one
  execution over one log and one lease table; every attempt may crash at every step, park or finish.
  A script is an abstract deterministic program of calls and nested fork-joins; executors are
  arbitrary. Proved over all histories: one writer, replay refines one uninterrupted run,
  write-ahead intents, independence of the schedule, and that the SQL log's weaker append is enough.
- **Logs and mediator as objects** (`Logs`, `LogStores`, `Mediators`, `HomeDirs`, `MediatedSteps`):
  the two log back ends, the lease table and the mediator with its retry loop, each method tied to a
  function of the old state; a whole mediated call is a run of steps of the replay system.
- **Actors** (`Inboxes`, `Delivery`, `DeliveryOrder`, `DeliveryPrefix`, `DeliveryTimes`,
  `DeliveryLeases`, `LostMessages`): the message
  table refines one first-in-first-out queue per workspace; all executions of a database step
  together over one table.
- **Service** (`Positions`, `Platform`, `Works`, `Services`, `ServiceCalls`, `Deadlines`): status
  machine, suspension rows, resume and the pump loop; what a run records is what its executors gave
  and what its inbox held; its calls are the mediator's calls.
- **Evaluation** (`CanonKeys`, `Cassettes`, `EvalMediators`, `EvalRules`, `GoldenLogs`, `SelfEvals`,
  `Calibrations`): request keys, the tape, the evaluation mediator, self-evaluation, and Cohen's kappa.

`dafny verify dfyconfig.toml` checks everything.

## What the proofs found

- An executor error whose message is empty replays as an empty *success*, because a record has an
  error only if its error text is not empty (`Types.ReplayAnswersAlike`, exact condition).
- The append fence accepts a token when no lease is current: a writer that renewed before it was
  superseded can append a second result after the newer holder has released its lease
  (`Logs.LateAppendDuplicates`; exact condition in `Logs.WriteKeepsUniqueIff`).
- `recv` runs before any lease check, so two overlapping attempts can lose a message: one records a
  timeout, the other claims the next message for the same call (`LostMessages.MessageLost`). Nothing is
  lost exactly when no step of that kind happens (`DeliveryLeases.InOrderIffNoStepStrands`), and never
  when each recv runs under the current lease, or attempts run one at a time. What is received then
  need not even be a prefix of what was sent (`LostMessages.MessageSkipped`; exact condition in
  `DeliveryPrefix.ReceivedFirstIff`), but it always comes in order of arrival
  (`DeliveryPrefix.ReceivedInOrder`).
- A failing call that changed the home directory leaves it marked clean
  (`HomeDirs.FailingWriterLosesHome`; exact condition in `HomeDirs.CallKeepsHome`).
- A message posted to an execution without an actor name goes to a workspace nobody receives from
  (`Services.PostReachesIff`).
- `Claim` with an empty key returns a message without consuming it (`Inboxes.ClaimConsumesIff`).
- The evaluation's trajectory drops the arguments of recv (`SelfEvals.RecvArgsDropped`;
  exact condition in `SelfEvals.SameTrajectoryIff`).
- A bare trailing `?` of a URL is part of the request key (`CanonKeys.BareQueryMarkCounts`; exact
  condition in `CanonKeys.KeysEqualIff`).
- A run that fails to set up after `Resume` has removed the parked row stays *running* with nothing
  to wake it (`Services.Service.Resume`, the case `!setupOk`).

## Model

| member | source | states |
|---|---|---|
| `Types.HashDeterminesArgs` | internal/engine/mediator.go:302-310 | for the same capability and method, equal argument hashes mean equal arguments, so the replay check compares what it should |
| `Types.CheckPassesIff` | internal/engine/mediator.go:148-156 | the replay check passes on the record of a call exactly for a call of the same capability, method and arguments |
| `Types.ReplayAnswersAlike` | internal/engine/mediator.go:148-161 | a recorded result always passes its call's replay check, and replay answers as the first execution did exactly when the outcome was not an error with an empty message |
| `CallKeys.DottedInjective` | internal/engine/mediator.go:131-138 | different index paths of the call tree never render to the same dotted key |
| `CallKeys.CallKeysUnique` | internal/engine/mediator.go:125-138 | in any interleaving of calls and forks on all nodes of the tree, no two calls get the same key, and no call's key is a subtree's prefix |
| `Mediators.Mediator.NextKey` | internal/engine/mediator.go:131-138 | hands out the node's next dotted key and consumes one index |
| `Mediators.Mediator.Child` | internal/engine/mediator.go:125-128 | a new node over the same state, under the parent's next key, counting from zero |
| `Scripts.ParallelMapResult` | internal/vm/std_concurrency.go:69-75 | all values in input order, or the error of the lowest failing index, whatever order the branches ended in |
| `ReplayTheorems.SingleWriter` | internal/engine/engine.go:51-66 | after every history of overlapping attempts: a lease holder that has read the log knows exactly its length and its results, event i has sequence number i, and no call key has two results |
| `ReplayTheorems.LostStaysLost` | internal/engine/lease.go:34-74 | an attempt whose lease was taken over or given up does not hold it after any later step, and does not write |
| `ReplayTheorems.SupersededNeverWrites` | internal/engine/mediator.go:263-266 | over any continuation of any history, a superseded attempt never writes again |
| `ReplaySteps.StepKeeps` | internal/engine/mediator.go:140-225 | every step of every attempt - acquire, read, memo hit, intent, execute, result, barrier, park, flush, finish, release, crash - keeps the replay invariant |
| `ReplayTheorems.ReplayRefinement` | internal/engine/engine.go:51-110 | after every history the replay check has never failed, and every attempt that finished ended as the one reference run that answers each call from the log's results |
| `ReplayTheorems.ChangedCallDrifts` | internal/engine/mediator.go:148-161 | an attempt that meets the record of another call than it makes ends there as non-deterministic, and only then; otherwise it goes on with the recorded answer |
| `ReplayTheorems.RerunIsQuiet` | internal/engine/mediator.go:148-161 | once an attempt has finished, a later one executes nothing and writes nothing |
| `ReplayTheorems.WriteAheadEverywhere` | internal/engine/mediator.go:172-204 | every result of a non-idempotent call has an earlier intent with the same call key, argument hash and idempotency key; over all attempts such a key is executed at most as often as announced, always under one idempotency key |
| `ReplayTheorems.SqlLogSuffices` | internal/store/log.go:26-45 | after every history, whatever an attempt writes next, even a superseded one, has on the SQL log the verdict, view and contents it has on the compare-and-set log |
| `SqlRuns.SqlRunsAlike` | internal/store/log.go:26-66 | over whole runs: the histories possible over the SQL log are exactly those possible over the compare-and-set log; table and log hold the same events without a gap, and every attempt has the same view, place and output |
| `Schedules.RefIsEval` | internal/engine/mediator.go:140-225 | a complete reference run over the executors' answers is plain evaluation, with the same call at every position |
| `Schedules.ScheduleIndependence` | internal/vm/std_concurrency.go:39-75 | when executors are functions of key and invocation, every finished history ends with the value or lowest-index error of plain evaluation and records exactly its granted calls with the executors' answers |
| `Schedules.SameMemoEverywhere` | internal/vm/std_concurrency.go:39-75 | any two finished histories of such a script, whatever their interleavings and crashes, have the same results by key and the same output |
| `Logs.SqlAgreesUpToEnd` | internal/store/log.go:26-45 | for any log and cursor, the SQL append gives the in-memory log's answer and contents exactly when the cursor is not past the end, or the caller is fenced off |
| `Logs.MemVerdict` | internal/engine/log.go:44-61 | a token is fenced off exactly when another one is current, be it larger or smaller; otherwise the append conflicts exactly off the end, and writes at the end else; a refused one changes nothing |
| `Logs.SqlVerdict` | internal/store/log.go:26-45 | the same fence; a conflict exactly for a used number; one row more otherwise |
| `Logs.SqlReadsAlike` | internal/store/log.go:47-66 | reading the SQL rows of a log from any position gives what the in-memory log gives |
| `Logs.WriteLands` | internal/engine/mediator.go:263-300 | a write through a cursor not past the end lands exactly when no other lease is current; it sits at the end and the writer's view has caught up |
| `Logs.WriteKeepsUniqueIff` | internal/engine/log.go:44-61 | a write keeps results unique exactly when it is fenced off, is no result, or answers a key without one |
| `Logs.LateAppendDuplicates` | internal/engine/log.go:44-61 | with no current lease the fence lets an old token through: after re-sync it writes a second result for the same key |
| `Logs.SqlWritesAlike` | internal/store/log.go:26-45 | through a cursor not past the end, conflict and re-sync included, the SQL log behaves exactly as the compare-and-set log |
| `LogStores.MemLeaser.constructor` | internal/engine/lease.go:30-32 | no leases, no tokens minted |
| `LogStores.MemLeaser.Acquire` | internal/engine/lease.go:34-41 | mints a token larger than every current one and makes it current |
| `LogStores.MemLeaser.Renew` | internal/engine/lease.go:58-65 | succeeds exactly for the current token |
| `LogStores.MemLeaser.Release` | internal/engine/lease.go:67-74 | removes the lease exactly when the token is current |
| `LogStores.MemLog.Append` | internal/engine/log.go:44-61 | fenced, conflict or written, exactly as the compare-and-set specification; fenced exactly when another token is current; refused or for other executions, nothing changes |
| `LogStores.MemLog.Read` | internal/engine/log.go:63-74 | the events from a position on |
| `LogStores.SqlLog.Append` | internal/store/log.go:26-45 | rejects only a used sequence number, or a token when another one is current, and then changes nothing |
| `LogStores.SqlLog.Read` | internal/store/log.go:47-66 | the rows from a sequence number on, in order, built in a loop |
| `LogStores.StolenLease` | internal/store/store_test.go:266-270 | after a second acquire of an execution, the first holder's append is fenced off at whatever position, and the log stays as it is |
| `LogStores.StolenSqlLease` | internal/store/store_test.go:266-270 | the same for the SQL log |
| `Mediators.MedState.constructor` | internal/engine/mediator.go:100-123 | after the loop over the log read back: cursor at its end, memo its results |
| `Mediators.MedState.TryAppend` | internal/engine/mediator.go:269-299 | one turn of the append loop: it lands exactly at the log's end, or it absorbs what others wrote and strictly raises the cursor |
| `Mediators.MedState.Append` | internal/engine/mediator.go:263-300 | with other writers getting in before any try: fails exactly without the lease; otherwise the event follows everything the others wrote, all of which is absorbed; the loop ends |
| `Mediators.MedState.SnapshotBarrier` | internal/engine/mediator.go:239-258 | a barrier with the present home directory and the old cursor, a clean flag and a restarted debounce clock; nothing at all without the lease or when the sandbox cannot be snapshotted |
| `Mediators.MedState.FlushFS` | internal/engine/mediator.go:227-237 | writes the final barrier exactly when the home directory is dirty and there is a sandbox; fails only without the lease or a snapshot, changing nothing |
| `Mediators.Mediator.Conclude` | internal/engine/mediator.go:195-225 | records the outcome, marks a successful change dirty, and takes a barrier exactly when the debounce interval has elapsed since the last one; a failed snapshot fails the call and leaves the directory dirty |
| `Mediators.Mediator.Perform` | internal/engine/mediator.go:172-224 | intent first for non-idempotent calls, then the executor, then the record; nothing recorded on suspension |
| `Mediators.Mediator.Call` | internal/engine/mediator.go:140-225 | the whole call - hit, mismatch, not granted, lease lost, parked, barrier failed or answered - as a function of the old state and the clock; exactly when an executor ran, and when the debounce clock restarts |
| `Mediators.RecordedCall` | internal/engine/mediator.go:148-161 | a call whose key is on record runs nothing and changes nothing; it is stopped as non-deterministic exactly when capability, method or arguments differ from the recorded call's, and otherwise gets the result or the error its executor gave |
| `Mediators.RefusedIff` | internal/engine/mediator.go:164-170 | a call not on record is refused exactly when its capability is neither granted nor the shell of a sandbox |
| `HomeDirs.LatestSnapshot` | internal/engine/engine.go:113-122 | the loop returns the key of the barrier with no barrier behind it, or none exactly when there is no barrier |
| `HomeDirs.CallKeepsHome` | internal/engine/mediator.go:206-219 | after a call of the lease holder, a clean flag still means "the log restores the directory as it is" exactly when the flag was up, nothing ran, the directory is unchanged, or the call is a successful one declared to change it |
| `HomeDirs.BarrierIffDue` | internal/engine/mediator.go:206-219 | a call that changed the directory ends with a barrier of it exactly when the debounce interval has elapsed and the snapshot succeeds; otherwise the directory is dirty, and the call fails exactly when the snapshot did |
| `HomeDirs.FailingWriterLosesHome` | internal/engine/mediator.go:195-219 | a shell command that fails after changing a fresh directory: the log holds its intent and its failure, the directory is changed and marked clean, and a resume restores the fresh one |
| `HomeDirs.FlushIff` | internal/engine/mediator.go:227-237 | a flush appends one barrier of the directory as it is and clears the flag exactly when that was dirty and there is a sandbox; otherwise nothing changes |
| `HomeDirs.ParkedHomeIsRestored` | internal/engine/engine.go:87-101 | a sequential attempt with any calls under any debounce that flushes before parking is resumed on exactly the directory it parked with |
| `MediatedSteps.CallIsSteps` | internal/engine/mediator.go:140-225 | every call of the lease holder - memo hit, failed check, refusal, answer, failed barrier, parked - is a run of steps of the replay system, with the same log, view and dirty flag, and leaves the script where its result says |
| `Inboxes.Inbox.Enqueue` | internal/store/inbox.go:18-26 | appends one unconsumed row, an empty payload becoming null |
| `Inboxes.Inbox.Claim` | internal/store/inbox.go:32-66 | the row the key owns, or else the oldest unconsumed row, tagged with the key |
| `Inboxes.Inbox.InboxDepth` | internal/store/inbox.go:69-73 | the loop counts the set of unconsumed rows of the workspace |
| `Inboxes.ClaimIsTake` | internal/store/inbox.go:32-66 | claiming from the table is taking from the workspace's queue, and leaves every other workspace's queue alone |
| `Inboxes.TableIsQueues` | internal/store/inbox.go:18-73 | over any history with non-empty keys: consumed messages are the oldest ones, each key owns at most one message and each message has one owner, and enqueued = consumed + depth, for each workspace |
| `Inboxes.IdsRise` | internal/store/inbox.go:18-66 | over any history the table lists its messages by rising id, in order of arrival |
| `Inboxes.ClaimAgain` | internal/store/inbox.go:43-53 | repeating a claim that succeeded returns the same message and changes nothing |
| `Inboxes.ClaimConsumesIff` | internal/store/inbox.go:55-65 | with a message waiting and none owned, a claim consumes one exactly when its key is not empty |
| `Inboxes.InboxExecutor.Execute` | internal/caps/inbox.go:28-71 | recv: the claimed message, null once the deadline has passed, otherwise suspend; send: enqueue, by default to itself; anything else null |
| `Inboxes.RecvWaitsIff` | internal/caps/inbox.go:47-65 | a recv without a message of its own waits exactly when none is waiting and its deadline, if any, lies ahead; it answers null exactly on an empty inbox past the deadline, and else takes the oldest waiting message |
| `Inboxes.RecvAgain` | internal/caps/inbox.go:51-58 | a recv whose key owns a message gets it again at any time |
| `Delivery.IdemKeyInjective` | internal/engine/mediator.go:312-314 | equal idempotency keys mean the same execution and the same position in its call tree, whatever the ids look like |
| `Delivery.OwnIsPlay` | internal/platform/platform.go:109-125 | seen from one execution, every history of all executions over the shared table is a history of its own replay system |
| `Delivery.AlwaysFifo` | internal/store/inbox.go:32-66 | at every point of every history of all executions, consumed messages of a workspace come first and have different owners |
| `Delivery.DeliveredAtMostOnce` | internal/caps/inbox.go:47-65 | over all crashes and overlaps of all executions: each value recorded for a recv is a message of its workspace, and each message is the recorded result of at most one recv of at most one execution |
| `DeliveryTimes.NullAnswerIsLate` | internal/caps/inbox.go:59-65 | over all histories in which no message of the workspace is null: a recv recorded with null was run by some attempt at a clock reading at or past its deadline; one without a deadline never is |
| `DeliveryOrder.MessagesInOrderIff` | internal/caps/inbox.go:47-65 | for a sequential execution that owns its workspace, after any history: its recorded values are the consumed messages in order of arrival without a gap (one more may be claimed and not yet recorded) exactly when no recv has recorded a timeout while a message was claimed under its key; then they are a prefix of what was sent |
| `DeliveryPrefix.ReceivedInOrder` | internal/caps/inbox.go:47-65 | for such an execution, after any history and whatever was lost: the recorded values are, one for one, rows of the table at rising places |
| `DeliveryPrefix.ReceivedFirstIff` | internal/caps/inbox.go:47-65 | the received messages are exactly the first ones sent if and only if no lost message lies before a received one |
| `DeliveryPrefix.ValuesPrefixIff` | internal/caps/inbox.go:47-65 | as values: under that condition a prefix of those sent, and only under it when no value was sent twice |
| `DeliveryLeases.StepStrandsIff` | internal/engine/mediator.go:184-204 | a step loses a message exactly when it claims a value for a recv that is already answered, or answers a recv with null although a value was claimed under its key |
| `DeliveryLeases.InOrderIffNoStepStrands` | internal/engine/mediator.go:184-204 | messages are received in order and without a gap exactly when no step of the history is of that kind |
| `DeliveryLeases.LeasedReceivesInOrder` | internal/engine/mediator.go:184-204 | if every recv runs while its attempt holds the current lease, the recorded messages are a prefix of those sent, whatever crashes |
| `DeliveryLeases.RetriesReceiveInOrder` | internal/engine/engine.go:51-110 | attempts that crash or park and are retried one after the other receive every message once and in order |
| `LostMessages.MessageLost` | internal/caps/inbox.go:47-65 | a concrete lawful history of two overlapping attempts at a recv with deadline 1 in which a message is consumed and never recorded |
| `LostMessages.MessageSkipped` | internal/caps/inbox.go:47-65 | the same history continued: of two messages sent, only the second is ever received |
| `Deadlines.Thread.PushDeadline` | internal/vm/builtins.go:103-105 | the deadline becomes the innermost one |
| `Deadlines.Thread.PopDeadline` | internal/vm/builtins.go:107-112 | the innermost deadline goes, an empty stack stays empty |
| `Deadlines.Thread.EffectiveDeadline` | internal/vm/builtins.go:116-124 | the loop finds the soonest positive deadline, 0 when there is none |
| `Deadlines.NestedDeadline` | internal/vm/std_system.go:25-46 | inside a nested deadline the tighter of the two bounds holds, whichever was set first, and leaving it restores the outer one |
| `Positions.RecordMoves` | internal/engine/mediator.go:148-161 | recording the answer of the call where replay stops moves replay on by exactly that answer |
| `Positions.StopIsCall` | internal/engine/mediator.go:140-170 | the call replay stops at is the one the script makes at that key, given the answers so far |
| `Positions.StopIsRefRun` | internal/engine/mediator.go:148-161 | replay of recorded answers reaches the end of a script exactly when the reference run from them is complete, and with its result |
| `Platform.AnswerKeepsFine` | internal/engine/mediator.go:184-225 | an answered call keeps the log replayable without mismatch, and replay goes on with the answer the script got |
| `Platform.EndIsRefRun` | internal/engine/engine.go:51-110 | for every consistent log: the end a run reaches is the reference run over the log's results |
| `Platform.ParkFits` | internal/platform/platform.go:96-105 | parking keeps the tables consistent and appends one row |
| `Platform.UnparkFits` | internal/platform/resume.go:41-47 | removing the row and setting the status to running keeps the tables consistent |
| `Platform.PutRowUpserts` | internal/store/suspension.go:20-29 | afterwards the execution has this row and no other, and every other row is as before |
| `Platform.WorkspacesDiffer` | internal/platform/platform.go:109-112 | executions without an actor have an inbox each, never the empty one; a named actor's executions share its |
| `Services.RowIffSuspended` | internal/platform/platform.go:96-105 | a suspension row exists exactly for the suspended executions, and holds the workspace and deadline of the very recv at which replay of the log stops |
| `Services.PostReachesIff` | internal/platform/ui.go:149-162 | a message posted to an execution parked on an empty inbox without deadline meets its wake condition exactly when the actor name is not empty |
| `Services.RowWakes` | internal/platform/resume.go:86-96 | what the dispatcher finds ready is an execution whose next recv will not wait, at any later clock time |
| `Services.ReadyIffRecvAnswers` | internal/platform/resume.go:86-96 | the dispatcher finds a parked row ready exactly when the recv its execution waits at would not wait if it were run now |
| `Services.Service.SetStatus` | internal/platform/platform.go:83-91 | replaces one status |
| `Services.Service.Suspend` | internal/platform/platform.go:96-105 | status suspended and a row with the wake condition, as one step, for any execution; the tables stay consistent, and the row is a new one, when the execution ran and waits for just that |
| `Services.Service.Execute` | internal/caps/inbox.go:28-71 | one real run: the executor's own outcome under the call's idempotency key, or the inbox's; it suspends exactly when a recv finds no message and no deadline over, with its own workspace and deadline |
| `Services.Service.Call` | internal/engine/mediator.go:140-225 | the waiting call is answered on a longer log with what its executor gave, or, exactly when a recv has to wait, the execution is parked where replay stopped |
| `Works.AnsweredMade` | internal/engine/mediator.go:172-204 | answering the call replay stops at records what was executed for the script's own call under its idempotency key, and leaves the table with exactly its message sent or taken |
| `Works.MadeOn` | internal/engine/mediator.go:172-204 | over consecutive parts of a run: every new record is a real run of the executor, a message the recv owns or a timeout past its deadline, or a send's answer; the table gains exactly the messages recorded as sent, in order, and only this execution claims, from its own inbox |
| `Works.RunsOfTheirOwn` | internal/engine/mediator.go:184-204 | different records of a run have different real runs of an executor, all among those the run made |
| `ServiceCalls.ReplayedCall` | internal/engine/mediator.go:148-170 | a call that the service answers from the log or refuses is answered so by the mediator, which changes nothing |
| `ServiceCalls.RealCall` | internal/engine/mediator.go:172-225 | a call that the service makes for real leaves the log and gives the answer that the mediator's call does, but for a barrier, which is nothing to replay |
| `ServiceCalls.ServiceCallIsSteps` | internal/engine/mediator.go:140-225 | the call an execution stops at, made by the service, is a run of steps of the replay system to the same log and the same place in the script |
| `Services.Service.RunScript` | internal/engine/engine.go:51-110 | the run replays, goes on and ends as the recorded answers say, or parks; every answer it records came from its executors or its inbox; a recv that may wake is passed and the log grows |
| `Services.Service.RunEngine` | internal/engine/engine.go:51-110 | status and row after a run: completed or failed as the recorded answers end, suspended with a new row, or still running exactly when set-up failed; its records and messages are what it really did; no other execution is touched |
| `Services.Service.Resume` | internal/platform/resume.go:21-50 | does nothing unless suspended and not already resuming; otherwise the row goes and the run happens, recording only what it really did; if the wake condition holds and set-up succeeds, the script gets past its recv and the log strictly grows |
| `Services.Service.RunExecution` | internal/platform/platform.go:243-276 | creates the execution as running with an empty log and runs it; its records and messages are what the run really did |
| `Services.Service.PostMessage` | internal/platform/ui.go:149-162 | enqueues and resumes; a parked execution with a named actor moves on; one that is not suspended, or is already being resumed, is left as it is |
| `Services.ResumedBudget` | internal/platform/resume.go:64-78 | resuming a ready execution strictly lowers the number of calls all parked executions may still make |
| `Services.TotalBounds` | internal/platform/resume.go:56-82 | that number is at least the number of parked executions, so it never runs below zero |
| `Services.Service.PumpRound` | internal/platform/resume.go:58-78 | one round: no progress exactly when nothing changed and nothing parked was ready; every execution whose deadline was over, or for whom a message waited that nobody else can take, has got past its recv unless a set-up failed; only suspended executions move, and end as their recorded answers do |
| `Services.Service.Pump` | internal/platform/resume.go:56-82 | the pass ends before the round cap only when no parked execution is ready; a capped pass has used up at least 1000 of the calls left, so passes over finite scripts quiesce; only suspended executions move, only onwards, and end as their recorded answers do |
| `CanonKeys.CanonQuery` | internal/eval/cassette.go:84-97 | the loops drop exactly the ignored names, without regard to case, and sort the rest by name keeping each name's order |
| `CanonKeys.SortedDetermined` | internal/eval/cassette.go:95-97 | sorted parameter lists are equal when every name has the same values in the same order |
| `CanonKeys.KeysEqualIff` | internal/eval/cassette.go:64-99 | two requests have the same key exactly when trimmed lower-case method, lower-case scheme and host (case normalization, section 6.2.2.1 of RFC 3986), user, path, a bare trailing "?", the included body, and the values of every name that is not ignored agree |
| `CanonKeys.LowerAgreesIff` | internal/eval/cassette.go:66-82 | two texts agree in lower case exactly when they agree letter by letter up to case |
| `CanonKeys.TrimStrips` | internal/eval/cassette.go:66-80 | trimming takes exactly the white space off both ends |
| `CanonKeys.BodyCountsIff` | internal/eval/cassette.go:54-59 | requests that differ only in the body are different exactly unless the options explicitly leave the body out |
| `CanonKeys.UnparsableKeys` | internal/eval/cassette.go:76-80 | unparseable URLs are compared as texts up to case and never match a parseable one |
| `CanonKeys.BareQueryMarkCounts` | internal/eval/cassette.go:76-99 | whatever the options, two URLs that differ only in a bare trailing "?" have different keys |
| `CanonKeys.CanonTwice` | internal/eval/cassette.go:76-99 | the canonical URL is its own canonical form |
| `CanonKeys.ReorderKeepsKey` | internal/eval/cassette.go:95-97 | swapping neighbouring parameters with different names does not change the key |
| `CanonKeys.IgnoredKeepsKey` | internal/eval/cassette.go:84-94 | adding, dropping or changing an ignored parameter does not change the key |
| `Cassettes.Cassette.constructor` | internal/eval/cassette.go:126-146 | the loop extracts exactly the parseable http results of the log, in order |
| `Cassettes.Cassette.BuildIndex` | internal/eval/cassette.go:148-158 | the index lists every key's places in record order, and is built once |
| `Cassettes.Cassette.Lookup` | internal/eval/cassette.go:163-177 | the recording the cursor points at, or the last one, and the cursor after it |
| `Cassettes.HitsIffRecorded` | internal/eval/cassette.go:163-169 | whatever was looked up before, a lookup hits exactly when its key was recorded |
| `Cassettes.LookupReturns` | internal/eval/cassette.go:170-177 | after any lookups, the k-th lookup of a key recorded n times returns its min(k, n)-th recording |
| `Cassettes.RecordedOrderReplays` | internal/eval/cassette.go:126-177 | for every log, looking up the recorded requests in recorded order returns the i-th exchange at the i-th lookup |
| `Cassettes.ServedIffSameRequest` | internal/eval/cassette.go:64-177 | from log to tape: whatever was looked up before, a request is served exactly when the log holds an exchange that agrees with it in everything but what canonicalization drops |
| `EvalMediators.Mediator.SetStop` | internal/eval/mediator.go:402-407 | the first boundary stays and is returned |
| `EvalMediators.Mediator.Record` | internal/eval/mediator.go:383-390 | one more executed call and one more trajectory step |
| `EvalMediators.Mediator.Charge` | internal/eval/mediator.go:224-238 | counts a step, and stops for good past the step cap or the wall clock |
| `EvalMediators.Mediator.LiveCall` | internal/eval/mediator.go:243-254 | runs the bound executor; only a success is recorded |
| `EvalMediators.Mediator.PinnedCall` | internal/eval/mediator.go:258-288 | fixed clock, pinned random value, null for the rest |
| `EvalMediators.Mediator.Recv` | internal/eval/mediator.go:296-328 | the next recorded answer or the simulator's; exhaustion stops the run |
| `EvalMediators.Mediator.Http` | internal/eval/mediator.go:333-379 | the tape on a hit; on a miss a read goes live, and a write stops the run unless the policy is to go live |
| `EvalMediators.Mediator.Call` | internal/eval/mediator.go:196-220 | the whole evaluated call as a function of the old state |
| `EvalMediators.HaltsIffStopped` | internal/eval/mediator.go:224-240 | a call returns a boundary exactly when the run is stopped, and then the one that stopped it |
| `EvalMediators.FailsClosed` | internal/eval/mediator.go:224-240 | after the first stop of any run every later call returns the same boundary, nothing is recorded and no executor runs |
| `EvalMediators.RunsAreSound` | internal/eval/mediator.go:333-407 | in every run executed calls are exactly the trajectory steps, a step cap bounds the executor runs, and unless the policy is to go live the http executor runs only for requests never recorded and classified as reads |
| `EvalRules.CapsStopIff` | internal/eval/mediator.go:224-238 | a going run is stopped by its caps exactly when the step cap is used up or the wall clock has run out, and then before anything else happens |
| `EvalRules.LiveCalls` | internal/eval/mediator.go:243-254 | a live capability's call runs its executor once and is given its result, recorded, or its error, not recorded; without an executor it is refused |
| `EvalRules.SimulatedOthers` | internal/eval/mediator.go:213-218 | a simulated capability's other calls run live |
| `EvalRules.Receives` | internal/eval/mediator.go:296-329 | a recv is given the next recorded answer, or the simulator's, and stops the run exactly when there is none; no executor runs |
| `EvalRules.PinnedCalls` | internal/eval/mediator.go:258-288 | the clock gets the fixed time, random the pinned value, sleeping null; all recorded, no executor runs |
| `EvalRules.MissGoesLiveIff` | internal/eval/mediator.go:362-379 | a parseable request that was never recorded stops the run exactly when it is a write the policy does not send live; any other goes live and is given what its executor gives |
| `EvalRules.HitIsServed` | internal/eval/mediator.go:350-360 | a recorded request, read or write, is given the result or error of an entry for that very request; no executor runs and the run goes on |
| `EvalRules.BadArguments` | internal/eval/mediator.go:334-337 | unreadable arguments are an error for the script; nothing is looked up or run |
| `GoldenLogs.RecordedRecvs` | internal/platform/eval.go:466-475 | the loop collects the recv results of the log in order |
| `GoldenLogs.CountRPCs` | internal/platform/eval.go:479-487 | the loop counts the set of result events |
| `GoldenLogs.TrajectoryFromLog` | internal/platform/eval.go:398-411 | the loop turns the result events into trajectory steps in order |
| `GoldenLogs.Coverage` | internal/platform/eval.go:489-501 | the executed share of the golden run up to 1, reached exactly when something was executed and not less than the golden run |
| `GoldenLogs.LogInCallOrder` | internal/engine/mediator.go:263-300 | in every history of a sequential script, whatever crashed or overlapped, the log lists the answers in the order of the script's calls |
| `SelfEvals.TapeIsExchanges` | internal/eval/cassette.go:126-146 | the tape built from a log is the http part of its recorded answers |
| `SelfEvals.CallReproduced` | internal/eval/mediator.go:196-379 | a granted call whose answer was recorded is answered and recorded alike in the evaluation, whether served from tape, recvs or live |
| `SelfEvals.SelfEvaluation` | internal/platform/eval.go:63-174 | for any finished history of a sequential script without clock or random calls, with granted parseable http calls and otherwise successful calls: evaluated against its own recording it reaches the same output, is never stopped, executes exactly the recorded calls in the log's order, and covers them all |
| `SelfEvals.SameTrajectoryIff` | internal/eval/mediator.go:296-328 | that trajectory is outright the one read from the log exactly when no recorded recv had arguments |
| `SelfEvals.RecvArgsDropped` | internal/eval/mediator.go:323-331 | a recorded recv with arguments: the log's step has them, the evaluation's has not |
| `Calibrations.CountPairs` | internal/eval/calibration.go:33-44 | the loop's four counts are the numbers of pairs of each kind, and partition N |
| `Calibrations.Calibrate` | internal/eval/calibration.go:28-60 | counts, accuracy and kappa of the corpus; all zero for an empty one |
| `Calibrations.Agreement` | internal/eval/calibration.go:45-60 | kappa is 0 when both raters give every pair the same one label, and otherwise 2(TP TN - FP FN)/((TP+FN)(FN+TN)+(TP+FP)(FP+TN)); always in [-1, 1]; 1 exactly when the raters never differ |
| `Calibrations.ChanceFacts` | internal/eval/calibration.go:51-55 | chance agreement never exceeds one, and reaches it exactly when both raters give the same constant label |

## Left out

- Renewing the lease and appending are one atomic step in the replay system; `Logs.LateAppendDuplicates` shows what can happen between them.
- `Service.Suspend` and the first writes of `Resume` are atomic steps; a process that dies between their two store writes is not modelled.
- Replay: an executor error with an empty message is not among the outcomes of its Execute step; `Types.ReplayAnswersAlike` shows that exactly these replay differently.
- Replay: a run that loses its lease and then records the status failed is a crashed attempt here; statuses are modelled in `Services`, where runs do not overlap.
- Services.Service.RunExecution: takes scripts that do not fork and that make at most a given number of calls (any number; the interpreter's step limit guarantees one), because the dispatcher's measure counts calls; forks are in the replay modules. recv inside `parallel_map` is not modelled anywhere, because its suspension does not reach the runner.
- Services: store, lookup and version errors of `Resume`, `PostMessage` and `RunExecution` other than a missing execution; the in-memory `resuming` guard is a set, without the mutex.
- SelfEvals: `parallel_map` in the evaluated script, the simulator, and runs that trip a cap.
- HomeDirs: crashes that lose changes made since the last barrier under debounce.
- Replay: an attempt whose barrier failed can only crash there; the script does not see the error (`Mediators` has it as the call's result).
- SHA-256 is represented by what it hashes; ids and clocks are values with the properties used, integers are unbounded, kappa is over exact reals.
- CanonKeys: percent-decoding, non-ASCII case folding and white space, and the rendering of the canonical URL to text; URLs are parsed records.
- SQL, JSON and transactions: tables are sequences or maps and each transaction is one step; JSON decoding is a parameter. The `durable` flag, which no log back end uses, is dropped.
- The Starlark interpreter, real executors (llm, http, mcp, shell, plugins), the sandbox, the HTTP server, the user interface and its panels, judges, personas, spend records and the aggregation of samples: plumbing, or only easy members.
