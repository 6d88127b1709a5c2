# A verified model of the DBOS durable-execution engine

DBOS makes ordinary functions durable: a workflow's steps are checkpointed in PostgreSQL, and after a crash the
workflow is run again and takes the results of finished steps from their checkpoints. This project models the tables
that the engine shares between processes (`workflow_status`, `operation_outputs`, `notifications`, `workflow_events`
with its history, `streams`) as a labelled transition system. Each SQL transaction is one step, executors come and go at
any point, and the theorems speak of every interleaving.

`dafny verify dfyconfig.toml` checks everything.

| file | subject |
|---|---|
| `Common.dfy` | shared datatypes |
| `Replay.dfy`, `ParallelReplay.dfy` | step checkpoints and replay by any number of runs, with steps one after the other and in parallel |
| `StepStore.dfy` | the methods that read and write checkpoints, and the step retry loop |
| `TwoStore.dfy` | a user transaction committed in the application database, checkpointed in the system database |
| `WorkflowStatus.dfy`, `StatusMachine.dfy` | the status table, its statements, and what every sequence of them keeps |
| `SystemDatabase.dfy` | the methods on that table, as a class |
| `Ownership.dfy` | who runs a workflow and how often its body starts |
| `Debounce.dfy`, `Debouncer.dfy` | debounced workflows and the debouncer's loop |
| `QueueDispatch.dfy` | global, worker and rate limits with serial dequeues |
| `SnapshotDequeue.dfy`, `SnapshotRecovery.dfy` | the global limit with overlapping snapshot transactions, then with recoveries between them |
| `SnapshotRate.dfy`, `SnapshotRateExact.dfy` | the rate limit with overlapping snapshot transactions, and for which queues it is kept |
| `SnapshotLimitExact.dfy` | for which queues both limits are kept whatever arrives |
| `Scheduler.dfy`, `Running.dfy`, `WorkerPolls.dfy` | poll lanes, the registry of running workflows in one process, and both together |
| `KafkaIds.dfy`, `KafkaOrder.dfy`, `KafkaStamps.dfy`, `KafkaResume.dfy`, `KafkaSnapshot.dfy`, `KafkaReceiver.dfy` | ordered consumption of a Kafka partition, end to end |
| `Messages.dfy`, `MessageOrder.dfy` | send and recv, and the order in which messages are consumed |
| `Notifier.dfy`, `Streams.dfy` | wakeups, streams and their readers |
| `Fork.dfy`, `ForkReplay.dfy`, `Patch.dfy` | forking at a step, running the fork, and patching code with executions in flight |

Serialized values are strings. Clocks, random draws, the rows that an ordered SELECT returns, and whether a commit is
acknowledged are parameters of methods and of events.

## What the theorems assume, and where the code needs it

Where a property does not hold of the code as it stands, the model keeps the code, a lemma gives the failing run, and
another gives the condition.

- Results about one workflow assume that competing recorders of one of its steps with different outcomes have distinct end
  stamps, because a conflict is detected by comparing `completed_at`. `Replay.EqualStampsBreakAgreement` and
  `Messages.EqualStampsSendTwice` show what equal stamps do; `Replay.WriterAgreesExactly` and
  `Messages.SecondCommitIsSilentExactly` give the exact condition.
- A body must not let its next step depend on which of two parallel steps ends first, for that may differ when it is run again
  (`ParallelReplay.RacingStepsMisalign`). Bodies that await given steps before each action are fine
  (`ParallelReplay.AwaitedIsDeterministic`).
- A workflow that is resumed, or swept for recovery, while an executor has it in hand gets a second executor
  (`Ownership.DisturbedWorkflowHasTwo`).
- A lost acknowledgement of the application database's COMMIT makes the two stores disagree on that step
  (`TwoStore.AgreesExactlyWhenAcknowledged`): the handler takes it for a failed transaction and meets its own row. The
  transaction still commits at most once (`TwoStore.ExactlyOnce`).
- `setEvent` retried after a lost acknowledgement does not signal, because the retry is a replay
  (`Notifier.UnacknowledgedCommitIsSilent`). Readers of that event then wait for their polling interval; others are
  not affected (`Notifier.NoLostWakeup`).
- The global limit under overlapping snapshots needs that the first row a dequeue sees is not tied for its place, and that
  no row the dequeue has not counted as running overtakes it while the dequeue is open
  (`SnapshotRecovery.LimitHoldsWithRecoveries`, `SnapshotDequeue.TwoDequeuesLockExactly`). When no dequeue is open, rows may
  arrive anywhere. Without recoveries ahead of open dequeues, that condition is exact for keeping open dequeues current
  (`SnapshotDequeue.OtherSoundExactly`). Without it every queue that can start anything can exceed its global limit, and its
  rate limit with it (`SnapshotLimitExact.OvertakingExceedsLimits`).
- The rate limit then holds too if there is a global limit (`SnapshotRate.RateLimitHoldsUnderSnapshots`); without one,
  locked rows are skipped and it is exceeded, except by queues whose limits let nothing start or whose period is empty
  (`SnapshotRateExact.TooManyStarts`, `SnapshotRateExact.RateKeptExactly`).
- Worker concurrency on a queue that is not partitioned holds for the rows without a partition key (`Running.WorkerLimitHolds`),
  and for the queue as a whole if all its rows are of that kind (`Running.QueueTotalWithinLimit`). One more poll can take the
  queue past its limit exactly when a row with a key is running, which is not counted (`Running.TotalCanExceedExactly`,
  `Running.KeyedRowsEscapeTheCount`).
- Messages are consumed oldest first unless one arrives with an older stamp than a message of its box that is consumed or
  being consumed (`MessageOrder.LateArrivalIsOvertaken`, `MessageOrder.ArrivalKeepsOrderExactly`).
- A bulk fork ranks the event history by original workflow, so two forks of one original share a rank
  (`Fork.BulkForkFaithfulExactly`). A fork at a step that began before earlier ones had committed can leave gaps in a
  stream (`Fork.OutOfOrderForkHasGap`, `Fork.ForkStreamsDenseExactly`).
- A Kafka message's workflow that is resumed onto another queue, as by default, or given a lower priority can be overtaken
  (`KafkaResume.ResumedMessageIsOvertaken`, `KafkaResume.ReprioritizedMessageIsOvertaken`). Of every operation it is said
  exactly whether it keeps the order (`KafkaOrder.OtherKeepsOrderExactly`); none loses or duplicates a message
  (`KafkaOrder.NoMessageLostOrDuplicated`).
- Batch stamps are monotone over active rows; over completed ones only if the clock is past them after a restart
  (`KafkaStamps.StampsStrictlyIncrease`, `KafkaStamps.StampsExceedAllExactly`, `KafkaStamps.CompletedRowsAreOvertaken`).
- `setWorkflowDelay` ignores the debounce deadline (`Debouncing.SetDelayIgnoresDeadline`).
- The step retry loop's warning announces a cap on every wait; the first wait is not capped
  (`StepStore.EveryWaitBoundedExactly`). The model follows the code.
- Kafka workflow IDs join topic, partition and group with a separator that may occur in them
  (`KafkaIds.MessageIdsCollideAcrossSources`, `KafkaIds.IdsApartExactly`).

## Model

| member | source | states |
|---|---|---|
| Replay.WriterAgreesExactly | src/system_database.ts:4356-4420 | a recorder that is not told of a conflict holds the recorded result exactly when no row with another result is there, or the check is on and the stamps differ |
| Replay.OutcomeUnique | src/dbos-executor.ts:748-826 | over fixed checkpoints a deterministic body has at most one outcome |
| Replay.StepKeeps | src/system_database.ts:4356-4478 | every start, decision, step end, checkpoint, outcome write, await, crash, cancel and resume keeps the live runs of a workflow on its recorded rows, whatever happens to other workflows, and rows only grow |
| Replay.ReplayAgreement | src/dbos-executor.ts:899-1096 | over every interleaving of runs, crashes and re-runs, each run of a workflow has received the recorded results, no run meets another step's checkpoint, and all its recorded or returned outcomes are equal, if its own end stamps are distinct |
| Replay.RecordedStepsAreNotExecuted | src/system_database.ts:4422-4447 | a step that is recorded, and that no run is in the middle of, is never executed again |
| Replay.RowsNeverChange | src/system_database.ts:4356-4420 | from any state on and whatever the stamps, checkpoints stay as they are |
| Replay.OutcomeNeverChanges | src/system_database.ts:1097-1120 | a recorded SUCCESS or ERROR keeps its value although the update would overwrite it |
| Replay.EqualStampsBreakAgreement | src/system_database.ts:4391-4400 | a run in which two recorders with one end stamp report different outcomes of a workflow |
| ParallelReplay.ParallelAgreement | src/dbos-executor.ts:917-960 | the same for bodies that call several steps before one ends: function IDs are drawn in call order, checkpoints are written and results arrive in any order, also after the run has ended, and one function ID is one step for all runs and in the table |
| ParallelReplay.OutcomeUnique | src/dbos-executor.ts:748-826 | in whatever order results were recorded, they leave one outcome |
| ParallelReplay.RecordedStepsAreNotExecuted | src/system_database.ts:4422-4447 | a recorded step that no run is in the middle of is never executed again |
| ParallelReplay.AwaitedIsDeterministic | src/dbos-executor.ts:917-960 | a body that awaits given steps before each action meets what agreement asks |
| ParallelReplay.SequentialIsDeterministic | src/dbos-executor.ts:917-960 | so does every body whose steps follow one another |
| ParallelReplay.RacingStepsMisalign | src/dbos-executor.ts:947-955 | a body that goes on with whichever of two steps ends first meets another step's checkpoint when it is run again |
| StepStore.OperationOutputs.RecordOperationResult | src/system_database.ts:4356-4420 | first writer wins, and the conflict reported is the one the machine uses |
| StepStore.OperationOutputs.GetOperationResultAndThrowIfCancelled | src/system_database.ts:4422-4447 | cancellation comes before the lookup; otherwise the stored row or nothing |
| StepStore.RunAttempts | src/dbos-executor.ts:1003-1075 | the result is that of the first decisive attempt, every attempt before it is made and none after; else all errors in order; one wait after each failed attempt but the last; without retries one attempt and its own error |
| StepStore.WaitIsCappedExponential | src/dbos-executor.ts:1003-1070 | every wait after the first is interval * rate^k, capped |
| StepStore.EveryWaitBoundedExactly | src/dbos-executor.ts:1003-1070 | all waits respect the cap exactly when the configured interval does |
| TwoStore.ExactlyOnce | packages/nodepg-datasource/index.ts:96-247 | through crashes and lost acknowledgements at any point a read-write transaction commits at most once per step, and has committed exactly when its completion row holds a value |
| TwoStore.RepliesAgree | src/dbos-executor.ts:1138-1190 | every execution of a step gives the body what the system database holds for it, so all give the same, whatever is lost |
| TwoStore.StoresAndRepliesAgree | packages/nodepg-datasource/index.ts:176-247 | for a step whose own commits are acknowledged, both stores hold the same outcome and every execution gave the body that outcome |
| TwoStore.RecordedForever | packages/nodepg-datasource/index.ts:96-247 | from any state on, an outcome recorded in either store is never replaced |
| TwoStore.AgreesExactlyWhenAcknowledged | packages/nodepg-datasource/index.ts:176-247 | an uninterrupted execution leaves the stores in agreement exactly when its commit was acknowledged; else the checkpoint is a conflict error |
| TwoStore.ApplicationDatabase.InvokeTransactionFunction | packages/nodepg-datasource/index.ts:176-247 | the retry loop: a recorded outcome is returned without an attempt; else the first attempt that is not a serialization failure decides reply, completion row and effects; waits stay within 1 ms and 2 s |
| WorkflowStatus.AcceptedStartsAreNew | src/dbos.ts:1820-1858 | the option checks and the row construction admit only rows that the status machine can start from |
| WorkflowStatus.DebouncedEnqueuesAreNew | src/dbos-executor.ts:579-625 | a debouncer's row starts DELAYED, under its cap |
| StatusMachine.StepKeeps | src/system_database.ts:4135-4245 | every statement keeps row and slot invariants, including recoveries and resumes that do not look at the unique index |
| StatusMachine.DedupSlots | src/system_database.ts:1378-1407 | in every reachable table a row with a deduplication ID has a queue and is DELAYED, ENQUEUED or PENDING, and no two rows share a slot |
| StatusMachine.RejectedByActiveHolder | src/system_database.ts:4226-4245 | a start is rejected as a duplicate only by a workflow that has not ended |
| StatusMachine.CompletedForever | src/system_database.ts:1097-1120 | SUCCESS and ERROR as a set are never left |
| StatusMachine.CancelledUntilResumed | src/system_database.ts:1378-1407 | CANCELLED is left only by a resume of that workflow |
| StatusMachine.DeadlineUntilResumed | src/system_database.ts:1138-1156 | a deadline survives every recovery and dequeue until a resume clears it |
| StatusMachine.FirstDequeueFixesDeadline | src/system_database.ts:3158-3180 | the deadline computed from the timeout at the first dequeue is the workflow's deadline through everything that follows, until a resume |
| StatusMachine.ColumnsFitStatus | src/system_database.ts:1378-1407 | waiting rows have a queue and no start stamp, dequeued rows a stamp, cancelled rows neither; completed rows an outcome of their kind |
| SystemDatabases.SystemDatabase.InitWorkflowStatus | src/system_database.ts:800-891 | the upsert, its checks and its rollback have the effect and the reply of the status machine's start |
| SystemDatabases.SystemDatabase.CancelWorkflows | src/system_database.ts:1357-1390 | the level-by-level cascade cancels exactly the workflows reachable from the roots by parent links that have not completed |
| SystemDatabases.SystemDatabase.MaxPartitionKeyCreatedAt | src/system_database.ts:894-911 | the highest stamp among the key's ENQUEUED and PENDING rows, if any |
| SystemDatabases.StampAll | src/system_database.ts:935-948 | rows of one key get consecutive stamps from the later of clock and cursor; rows without a key get the clock |
| SystemDatabases.SystemDatabase.AssignBatchCreatedAt | src/system_database.ts:914-949 | the same with cursors seeded on first sight of a key, and every cursor moved past its rows |
| SystemDatabases.InsertAll | src/system_database.ts:1007-1056 | of a batch exactly the rows with new IDs are inserted, the first of equal IDs, and their IDs returned |
| SystemDatabases.SystemDatabase.EnqueueWorkflows | src/system_database.ts:961-1066 | refuses rows that are not ENQUEUED or carry a deduplication ID; else inserts the stamped batch, or nothing if the transaction fails; cursors move either way |
| SystemDatabases.ClaimSelected | src/system_database.ts:3145-3184 | the claim loop marks a prefix of the selection, as long as the rate limit allows |
| SystemDatabases.SystemDatabase.FindAndMarkStartableWorkflows | src/system_database.ts:3022-3190 | one dequeue transaction is a legal dequeue, and its effect is that dequeue's claim |
| Ownership.OneOwner | src/system_database.ts:800-891 | all starts of one workflow ID that are told to execute carry one owner transaction ID |
| Ownership.OwnerIsNotForgotten | src/system_database.ts:4176-4224 | a call that lost the acknowledgement of its insert is told to execute when it asks again |
| Ownership.BoundedStarts | src/dbos-executor.ts:632-694 | a body with a retry limit whose workflow is not resumed, and swept only for executors that do not run it, starts at most maxRetries + 1 times, whatever happens to other workflows |
| Ownership.OneRunner | src/system_database.ts:1138-1156 | no two executors ever have it in hand, with a retry limit or without |
| Ownership.DisturbedWorkflowHasTwo | src/system_database.ts:1138-1156 | if it is resumed or swept while an executor has it in hand, a second executor gets it |
| Ownership.SpentBudgetDeadLetters | src/system_database.ts:865-876 | a workflow whose attempts are spent is dead-lettered by its next dispatch, which frees its slot |
| Ownership.ResumedRunsAgain | src/system_database.ts:1397-1407 | a cancelled or dead-lettered workflow that is resumed and dequeued is told to execute, with a deadline counted from that dequeue |
| Debouncing.RetryImpossible | src/debouncer.ts:96-110 | when update and lookup see one reachable state, no bounce is classified as a retry, and the other three actions say exactly who holds the key |
| Debouncing.HolderDecides | src/system_database.ts:1461-1519 | the same from the invariant, for any table that has it |
| Debouncing.DelayNeverPassesDeadline | src/system_database.ts:1461-1480 | no sequence of operations moves a debounced wake-up past its deadline, unless a setWorkflowDelay of that workflow asks for more |
| Debouncing.DeadlineIsFixed | src/client.ts:366-383 | nothing changes the debounce deadline of a stored row |
| Debouncing.SetDelayIgnoresDeadline | src/system_database.ts:1419-1427 | setWorkflowDelay respects the cap exactly when it is asked for a delay within it |
| Debouncing.InputsOfLastBounce | src/system_database.ts:1461-1480 | the stored inputs are those of the last successful bounce |
| Debouncing.InputsFinalOnceReleased | src/system_database.ts:2981-2992 | a workflow that has left DELAYED never returns to it, and its inputs stay |
| Debouncers.DebounceDelayedWorkflow | src/system_database.ts:1461-1519 | extends the matching row exactly if there is one; otherwise reports the holder at the later time of the lookup, whatever others commit in between |
| Debouncers.LookupDecides | src/debouncer.ts:96-110 | after such a lookup the action says exactly who holds the key: nobody, a foreign workflow, or (retry) a debounce of this workflow that came in between |
| Debouncers.DebounceCall | src/debouncer.ts:125-208 | with any operations of others between all its statements, a returned handle is of a workflow that waits under the key with this call's inputs; an error means a foreign holder |
| Debouncers.StartFresh | src/debouncer.ts:184-206 | the enqueue executes only if it inserted its row; otherwise it leaves the table alone |
| QueueDispatch.ClaimsBounded | src/system_database.ts:3050-3110 | the claims of a dequeue respect the global, worker and rate limits and are eligible rows |
| QueueDispatch.ClaimsArePrefix | src/system_database.ts:3124-3143 | the claims are a prefix of the eligible rows in (priority, created_at) order |
| QueueDispatch.ConcurrencyLimitHolds | src/system_database.ts:3084-3107 | with atomic dequeues the PENDING rows of a queue or partition never outnumber its limit |
| QueueDispatch.RateLimitHolds | src/system_database.ts:3050-3074 | in every state and for every instant the rows stamped as started in the period up to it are at most the limit |
| QueueDispatch.LimitsFromEmptyTable | src/system_database.ts:3043-3186 | both limits hold of every run from an empty table |
| SnapshotDequeue.OverlappingClaimsDisjoint | src/system_database.ts:3124-3184 | two overlapping dequeue transactions that commit claim different rows |
| SnapshotDequeue.LimitHoldsUnderSnapshots | src/system_database.ts:3043-3186 | in every interleaving of snapshot transactions with starts, recoveries and all other statements, in which nothing overtakes the first row of an open dequeue and that row is not tied, the PENDING rows stay within the global limit |
| SnapshotDequeue.OtherSoundExactly | src/system_database.ts:3043-3186 | any other statement leaves every open dequeue harmless, bound to fail, or current exactly when it overtakes none of them |
| SnapshotRecovery.LimitHoldsWithRecoveries | src/system_database.ts:1138-1156 | the limit also holds while running workflows are recovered ahead of the first row of an open dequeue; only rows it has not counted as running must not overtake that row |
| SnapshotRecovery.OrderlyIsCalm | src/system_database.ts:3043-3186 | every interleaving that `LimitHoldsUnderSnapshots` covers is covered by `LimitHoldsWithRecoveries` |
| SnapshotDequeue.OverlappingDequeuesExclude | src/system_database.ts:3124-3184 | of two overlapping dequeues at most one commits a claim |
| SnapshotDequeue.TwoDequeuesLockExactly | src/system_database.ts:3122-3143 | two overlapping dequeues with room for one row each can both lock, and so both claim, exactly when their snapshots begin with different rows |
| SnapshotLimitExact.OvertakingExceedsLimits | src/system_database.ts:3043-3186 | for every global limit, worker limit and rate limit under which a queue can start something, an interleaving in which rows overtake open dequeues, and that exceeds the global limit and the rate limit |
| SnapshotLimitExact.LimitKeptExactly | src/system_database.ts:3084-3107 | every interleaving keeps the global limit exactly when the queue's limits let nothing start |
| SnapshotLimitExact.WindowsKeptExactly | src/system_database.ts:3050-3074 | every interleaving keeps the rate limit exactly when they let nothing start or its period is empty |
| SnapshotLimitExact.BothStart | src/system_database.ts:3122-3143 | with room for one row, two overlapping dequeues both start one if the second row has overtaken the first |
| SnapshotRate.RateLimitHoldsUnderSnapshots | src/system_database.ts:3043-3186 | with a global limit, in every interleaving in which nothing overtakes the first row of an open dequeue, and for every instant, the rows stamped as started in the period up to it are at most the rate limit |
| SnapshotRate.SnapshotLimitsFromEmptyTable | src/system_database.ts:3043-3186 | both limits hold of every such interleaving from an empty table, with rows arriving in any order while no dequeue is open |
| SnapshotRateExact.TooManyStarts | src/system_database.ts:3122-3143 | for every rate limit, worker limit and period of a queue without a global limit that can claim, an interleaving that starts one row too many in a period |
| SnapshotRateExact.RateKeptExactly | src/system_database.ts:3043-3186 | every interleaving from an empty table without such overtaking keeps the rate limit exactly when the queue has a global limit, or its limits let nothing start, or its period is empty |
| KafkaIds.MessageIdInjective | packages/kafkajs-receive/index.ts:447-456 | within one partition and group, different offsets have different workflow IDs |
| KafkaIds.SameIdMeansSameOrShadowed | packages/kafkajs-receive/index.ts:447-456 | two messages with one ID have one offset, and are of one source unless the topic and partition of one begin the topic of the other |
| KafkaIds.IdsApartExactly | packages/kafkajs-receive/index.ts:447-456 | no groups make the IDs of two partitions collide exactly when neither topic begins with the other topic and its partition |
| KafkaIds.DashFreeTopicsApart | packages/kafkajs-receive/index.ts:447-456 | topics without the separator never collide |
| KafkaIds.MessageIdsCollideAcrossSources | packages/kafkajs-receive/index.ts:447-456 | two different sources whose messages share a workflow ID |
| KafkaOrder.ReceiverSetupIsValid | packages/kafkajs-receive/index.ts:109-129 | the receiver's IDs and its per-key concurrency of one meet what the results below ask |
| KafkaOrder.NoMessageLostOrDuplicated | packages/kafkajs-receive/index.ts:425-489 | through redeliveries, failures, lost acknowledgements, restarts, and whatever is resumed, reprioritized, recovered or dequeued, the rows of a partition are those of the undropped messages before a frontier, one each, and all resolved offsets lie before it |
| KafkaOrder.StartsInOffsetOrder | src/system_database.ts:3087-3184 | whenever a message's workflow is dequeued, every earlier undropped message's workflow exists and is neither ENQUEUED nor PENDING, if the other operations leave the messages in their places; what they do to other workflows is free |
| KafkaOrder.OtherKeepsOrderExactly | src/system_database.ts:1397-1417 | any operation keeps the order exactly when the messages it resumes fit into it, it gives no waiting message another priority, and claims none for another version |
| KafkaOrder.ResumeElsewhereExactly | src/system_database.ts:1397-1407 | a resume onto another queue keeps it exactly when every message among the resumed workflows has completed |
| KafkaOrder.DeliveriesDisturbNothing | packages/kafkajs-receive/index.ts:466-477 | what the receiver itself does meets the condition |
| KafkaResume.ResumedMessageIsOvertaken | src/system_database.ts:1397-1407 | a run in which a cancelled message is resumed onto another queue and the next one is dequeued while it waits |
| KafkaResume.ReprioritizedMessageIsOvertaken | src/system_database.ts:1409-1417 | a run in which a message is given a lower priority and the next one is dequeued while it waits |
| KafkaSnapshot.SnapshotStartsInOffsetOrder | src/system_database.ts:3087-3184 | the same for snapshot dequeues, with deliveries, recoveries and other operations between the snapshot, the locks and the commit of concurrent dequeues, if in addition no resumed message overtakes the first one that an open dequeue has seen |
| KafkaOrder.SettledForever | src/system_database.ts:1138-1156 | a message's workflow that is no longer active never becomes active again, across recoveries and everything else but its own resume |
| KafkaStamps.ActiveStampsIncrease | src/system_database.ts:914-949 | in every reachable state the stamps of active messages strictly increase with the offset, unless a message has been resumed out of order |
| KafkaStamps.StampsStrictlyIncrease | src/system_database.ts:894-949 | the stamps of all messages, active or settled, strictly increase with the offset across batches, retries, restarts and any operations of others, if at the first delivery after each restart the clock is past the settled rows |
| KafkaStamps.StampsIncreaseWithoutRestart | src/system_database.ts:914-949 | they do so whatever the clock does, as long as the process does not restart |
| KafkaStamps.StampsExceedAllExactly | src/system_database.ts:894-949 | a delivery, redelivered messages included, stamps its new messages above all earlier ones exactly when the settled rows lie below the stamp of its first new message |
| KafkaStamps.CompletedRowsAreOvertaken | src/system_database.ts:894-911 | a run with a nondecreasing clock in which a message after a restart gets the stamp of its completed predecessor |
| KafkaReceiver.RetryUntilSuccess | packages/kafkajs-receive/index.ts:169-190 | attempts at a chunk are a history of deliveries; the chunk is resolved exactly if one was acknowledged |
| KafkaReceiver.EachBatch | packages/kafkajs-receive/index.ts:425-489 | the batch handler's effect on the database is that of a history of deliveries, and it resolves acknowledged chunks only |
| KafkaReceiver.TableIsBatch | src/system_database.ts:961-1066 | the rows the database inserts for a prepared batch are those of the machine's delivery |
| KafkaReceiver.AttemptDelivers | packages/kafkajs-receive/index.ts:466-477 | one enqueue attempt takes table and cursor where the machine's delivery goes, whatever its fate |
| Messages.SendsOnce | src/system_database.ts:2268-2305 | a send step adds at most one notification however it is retried or raced, and once it is recorded its message is there, if its own end stamps are distinct |
| Messages.ConsumedByOneRecv | src/system_database.ts:2335-2459 | a notification to a workflow is consumed exactly when it is the recorded output of a recv step of that workflow, and of one only, if the end stamps of its steps are distinct |
| Messages.DeliveredForever | src/system_database.ts:4449-4478 | checkpoints and messages are never lost or altered, and consuming is for good |
| MessageOrder.OldestFirst | src/system_database.ts:2412-2431 | with concurrent recvs, each choosing when its UPDATE starts, no consumed message of a destination and topic is younger than an unconsumed one, if every message arrives there no older than those consumed or chosen; equal stamps are allowed |
| MessageOrder.ArrivalKeepsOrderExactly | src/system_database.ts:2268-2305 | of every event, the condition is exact: a direct send, a send step's commit, or anything else keeps the order exactly if what arrives is in time |
| MessageOrder.LateArrivalIsOvertaken | src/system_database.ts:2412-2431 | a run in which a message with an older stamp arrives after a younger one is consumed |
| Messages.SecondCommitIsSilentExactly | src/system_database.ts:4391-4400 | an attempt that lost the race leaves the tables alone exactly when the stamps differ |
| Messages.EqualStampsSendTwice | src/system_database.ts:4391-4400 | a run in which one send step adds two notifications |
| Messages.OldestUnconsumed | src/system_database.ts:2412-2431 | finds the oldest unconsumed notification of a destination and topic, or that there is none |
| Messages.MessageStore.Send | src/system_database.ts:2268-2305 | inserts the message and its checkpoint together, or neither on a conflict |
| Messages.MessageStore.Recv | src/system_database.ts:2404-2459 | consumes the oldest message and records it together, or does neither on a conflict |
| Notifier.NoLostWakeup | src/system_database.ts:2563-2605 | if the commits of an event are acknowledged, no reader is blocked on it while its payload is neither on its way, in the reader's inbox, delivered, nor dropped |
| Notifier.UnacknowledgedCommitIsSilent | src/system_database.ts:2463-2508 | a run in which a lost acknowledgement leaves a reader without a wakeup |
| Notifier.NotificationMap.RegisterCallback | src/system_database.ts:411-418 | adds one callback under a new handle and leaves all others |
| Notifier.NotificationMap.DeregisterCallback | src/system_database.ts:420-428 | removes that callback and no other |
| Notifier.NotificationMap.CallCallbacks | src/system_database.ts:430-436 | calls exactly the callbacks registered for the key |
| Notifier.PendingNotifications.SignalNotification | src/system_database.ts:2826-2837 | adds the payload to its channel's batch |
| Notifier.PendingNotifications.FlushNotifications | src/system_database.ts:2869-2901 | takes everything pending and sends it, except the batches of channels that fail |
| Streams.NextOffset | src/system_database.ts:2742-2752 | one more than the greatest offset, or zero |
| Streams.DenseInCommitOrder | src/system_database.ts:2686-2777 | over every interleaving of writers the offsets are exactly 0..n-1 in commit order, and entries stay |
| Streams.ReadStream | src/dbos.ts:1623-1673 | what the reader has yielded is always a prefix of the stream cut at the first sentinel, and why it stopped |
| Streams.ClosedReaderHasAll | src/client.ts:680-731 | a reader that stops at a sentinel has yielded the whole stream, whatever is written later |
| Streams.DrainedReaderHasAll | src/dbos.ts:1654-1662 | a reader that stops on an ended workflow after the last write has yielded the whole stream |
| Streams.DrainedReaderHasAllExactly | src/dbos.ts:1654-1662 | it misses something exactly when a value is written after its last read |
| Fork.ForkFidelity | src/system_database.ts:1651-1852 | if the steps before s have committed when step s begins, in any order, and each event was set in order, a fork at s has exactly the checkpoints, events, history and streams that the original had when s began, children replaced |
| Fork.CopiedStepsAreReplayed | src/system_database.ts:1774-1800 | the fork has a checkpoint of an earlier step exactly if the original had it when s began, with the same result |
| ForkReplay.ForkedRunReplaysCopiedSteps | src/system_database.ts:1774-1800 | however the fork is run, crashed and run again, no run executes a step before s that the original had recorded; it receives the original's result |
| ForkReplay.ForkedStateOk | src/system_database.ts:1774-1800 | the state with the copied checkpoints has everything that replay agreement needs, for the same body |
| ForkReplay.OthersStayOk | src/system_database.ts:1774-1800 | of every other workflow it still has that, if it had it before |
| ForkReplay.CopiedIsFork | src/system_database.ts:1790-1800 | copying rows in the replay machine is what the fork's statement does to the checkpoints |
| Fork.LatestIsLast | src/system_database.ts:1826-1841 | the event value chosen is the one with the highest function ID before the step |
| Fork.EventsAreLatest | src/system_database.ts:2463-2508 | if the settings of each event commit in function-ID order, the current value of each event is its latest entry in the history |
| Fork.ForkStreamsDense | src/system_database.ts:1802-1812 | if the steps before s have committed when step s begins, the fork's streams have no gaps |
| Fork.ForkStreamsDenseExactly | src/system_database.ts:1802-1812 | in any order, a stream of the fork has no gap exactly when its copied entries come first |
| Fork.OutOfOrderForkHasGap | src/system_database.ts:2728-2777 | two parallel steps whose fork has a stream that starts at offset 1 |
| Fork.BulkForkFaithfulExactly | src/system_database.ts:1826-1841 | all forks of a bulk get their events exactly when no two forks of one original have entries of one event; distinct originals suffice |
| Fork.RepeatedOriginalLosesEvents | src/system_database.ts:1826-1841 | two forks of one workflow in one call, one of which has no event |
| Patching.ReplayStable | src/system_database.ts:1310-1356 | wherever an execution stops, replaying the code on its history stays aligned, ends in the same history and confirms every branch decided |
| Patching.OldHistoryAligned | src/dbos.ts:2242-2264 | patched code replays every history of the code without the patches, takes the old branch wherever the history decides, and leaves other patches' decisions as they were |
| Patching.PatchedHistoryAligned | src/dbos.ts:2266-2295 | once all decisions of a history are for the new code, deprecated code replays it, and other patches keep their decisions |
| Patching.DeprecatedAlignedExactly | src/dbos.ts:2266-2275 | patches whose branches begin differently can be deprecated for exactly the histories that decide them for the new code |
| Patching.RemovedAlignedExactly | src/dbos.ts:2266-2275 | deprecated patches can be removed for exactly the histories without their markers |
| Patching.DeploymentsStayAligned | src/dbos.ts:2242-2295 | through any sequence of crashes and documented deployments, the deployed code and the history stay aligned, and what is decided about a patch that is still a patch stays decided |
| Patching.DeprecatedTooEarly | src/dbos.ts:2266-2275 | deprecating a patch while an old execution is unfinished breaks its replay |
| Patching.WorkflowContext.CheckPatch | src/system_database.ts:1310-1356 | the decision, whether a marker is there, and the marker written when the history has ended |
| Patching.WorkflowContext.CallPatch | src/dbos.ts:2242-2264 | the branch and the checkpoints left are those of the replay; only a marker uses up a function ID |
| Patching.WorkflowContext.CallDeprecated | src/dbos.ts:2276-2295 | takes the new branch, writes nothing, and steps over its marker |
| Running.OneRunPerWorkflow | src/dbos-executor.ts:828-847 | in every state no workflow ID has two unreleased runs, and every registered one has one |
| Running.CleanupRemovesOwnEntryOnly | src/dbos-executor.ts:721-731 | a run's release removes its own entry and no other run's |
| Running.GuardIsNeededExactly | src/dbos-executor.ts:721-731 | without the guard a late cleanup differs exactly when the workflow has been started again |
| Running.WorkerLimitHolds | src/system_database.ts:3031-3085 | running plus claimed and undispatched workflows of a queue or partition never exceed the worker's limit, when claims are dispatched before the next poll and only polls for that key claim rows with it; on an unpartitioned queue this is so for the rows without a key, whatever else it holds |
| WorkerPolls.ClaimsAreDispatchedFirst | src/wfqueue.ts:616-688 | the lanes give that: when a poll claims, no claim of its queue is waiting to be dispatched |
| WorkerPolls.WorkerLimitHoldsInLanes | src/wfqueue.ts:596-688 | so with polls scheduled in lanes the worker's limit holds, while polls start and complete and queues come and go |
| Running.QueueTotalWithinLimit | src/system_database.ts:3031-3085 | all running plus claimed workflows of a queue that is not partitioned stay within the worker's limit if its rows carry no partition key |
| WorkerPolls.QueueTotalInLanes | src/wfqueue.ts:596-688 | so they do with polls scheduled in lanes |
| Running.TotalCanExceedExactly | src/system_database.ts:2097-2103 | with nothing left to dispatch, one more poll of an unpartitioned queue, of rows without a key, can take its total past the worker's limit exactly when a row with a key is running |
| Running.KeyedRowsEscapeTheCount | src/system_database.ts:2097-2103 | on an unpartitioned queue two rows with partition keys run under a limit of one |
| Running.Registry.StartUnlessRunning | src/dbos-executor.ts:828-847 | registers the workflow exactly if it was not registered |
| Running.Registry.CountRunningWorkflowsForQueue | src/system_database.ts:2097-2103 | the number of registered workflows of the queue and partition |
| Running.WorkflowRun.ReleaseRunningWorkflow | src/dbos-executor.ts:721-731 | the first call removes the entry, later calls do nothing |
| Scheduler.AdjustedBounds | src/wfqueue.ts:691-706 | the interval stays between the queue's minimum and 120 s, grows under contention, never grows without it, and the next poll is in the future within 5% of it |
| Scheduler.LanesAreExclusive | src/wfqueue.ts:596-634 | never more polls than lanes, never two of one queue, even if it is dropped and added again under a poll |
| Scheduler.OvertakenAtMostOnce | src/wfqueue.ts:512-634 | a due queue that is passed over is overtaken at most once by each other queue, while queues are added, reconfigured and dropped |
| Scheduler.QueueRunner.EarliestDue | src/wfqueue.ts:606-608 | a due queue with the earliest poll time, or that none is due |
| Scheduler.QueueRunner.ScheduleDueQueues | src/wfqueue.ts:596-613 | a pass starts polls earliest first until the lanes are full or no due queue is left |

## Left out

- Bodies that catch the errors by which the engine stops a run (cancellation, conflict, unexpected step).
- The attempts of one step inside the replay machines: a step executes once there; `StepStore.RunAttempts` covers its retries.
- Recording paths without a conflict check (the error path of `runInternalStep`, `#durableSleep`): only the exact condition of one write, `Replay.WriterAgreesExactly`, speaks of them.
- Function ID 0 treated as absent by `getStatus` and by step contexts.
- `deleteWorkflows`, garbage collection, import and export: no run contains them.
- Columns that nothing here depends on: `updated_at`, `completed_at` of workflows, users and roles, requests, attributes, serialization names. Output and error are one outcome.
- The executor ID that a winning checkpoint writes is part of `Ownership.dfy`, not of `Replay.dfy`.
- Ownership.BoundedStarts: excludes resuming the workflow, which restarts its count on purpose.
- KafkaOrder.StartsInOffsetOrder: one partition with ordering "partition" and one application version; ordering "topic" merges partitions and is not modelled.
- KafkaSnapshot.SnapshotStartsInOffsetOrder: the same.
- SnapshotRecovery.LimitHoldsWithRecoveries: the condition on recoveries and other statements suffices; an overtaken dequeue may still abort, so it is not necessary for the limit in every single run.
- Debouncers.DebounceCall: takes a list of turns; that the loop may go on for ever under endless contention is not modelled.
- Scheduler.OvertakenAtMostOnce: counts from the moment the queue is due in a pass; how long a poll takes is not bounded.
- Patching.ReplayStable: code distinguishes finitely many cases of a step's result.
- Singleton starts, `listenQueues` resolution and queue registration: option handling.
- Serialization formats, schedules, the conductor, the admin server, metrics, tracing, the LISTEN connection itself.
- Data sources other than node-postgres, and receivers other than kafkajs: variants of what is modelled.
