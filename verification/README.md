# scherry: the job and task engine, modelled and proved

scherry triggers jobs, splits each run into tasks, stores both in two tables, sends the tasks through at-least-once
topics, and lets consumers execute, retry and dead-letter them while periodic checks finalise the runs. This project
models that engine and proves what it guarantees over every run: what is executed and how often, what is finalised and
to which status, what can and cannot be lost, and what chains of retries and repeated triggers leave behind.

## How the model is laid out

| file | what it holds |
|---|---|
| `Domain.dfy`, `Store.dfy` | statuses, rows, the two transition tables; what each SQL statement or transaction does to the rows (functions), and `Repository`, the class whose methods do it |
| `Finalizer.dfy` | the two resolvers, the guarded write, the completion check and its backlog bound |
| `TaskExecutor.dfy`, `Consumer.dfy` | `ExecuteTask` and the fetch/process/commit loop as they run, and the proof that each is a run of the protocol |
| `Trigger.dfy`, `TriggerOutcomes.dfy`, `References.dfy` | `ExecuteJob`, recorded trigger failures and their retry, as they run; what each leaves, row by row; reference ids over histories |
| `Retry.dfy`, `RetryOutcomes.dfy`, `Lineage.dfy`, `FullRetry.dfy` | the streaming clone as it runs; what a retry leaves, row by row; sequence numbers, params and foreign keys along chains of retries; when a clone is complete, with other steps in between |
| `Refinement.dfy`, `TriggerRefinement.dfy`, `RetryRefinement.dfy` | the proofs that completion checks, triggers and retries of jobs are runs of the protocol: tables, topics and finalisations |
| `Registration.dfy` | `Service`, `ConsumerRegistry` and shared consumers |
| `Runs.dfy`, `Protocol.dfy`, `Invariants.dfy` | finite runs of a step function; the engine as a state machine; its invariant |
| `ExactlyOnce.dfy`, `StaleSummary.dfy`, `Lifecycle.dfy`, `Stranded.dfy`, `Cancelled.dfy`, `Bounded.dfy`, `NoLostWork.dfy`, `Redelivery.dfy`, `Drain.dfy`, `OneLiveRun.dfy`, `PublishFirst.dfy`, `Resume.dfy` | theorems about all runs of the state machine |
| `Witnesses.dfy` | concrete runs: each failing side of an exact condition about runs is met by a reachable state |

Methods follow the Go code statement by statement and are proved against functions on the table contents (`Db`). What these
functions mean is stated once more without them, column by column and with the statuses written out: in the last clauses of the
methods of `Repository`, `ExecuteTask`, `MaybeFinalizeJob` and `CheckJobCompletions`, and in `TriggerOutcomes`, `RetryOutcomes`
and `Registration.RegisteredMeans`, `RegisteredSharedMeans` and `RegisteredSharedAdds`. The state
machine in `Protocol.dfy` takes one store write, publish, call or crash at a time, of any number of consumers, triggers,
retries of jobs, cancellations and finalisers, in any order:

| steps | source |
|---|---|
| `Load`, `Skip`, `Work` (`Begin`, `RejectParams`, `Execute`, `Finish`, `Fail`, `Requeue`, `Exhaust`), `PublishRetry`, `PublishDlq` | `executeTask` and what it calls, `internal/executor/task_executor.go:29-218` |
| `Next`, `CrashConsumer` | the consumer loop and its restart at the committed offset, `internal/transport/consumer.go:34-60` |
| `Open`, `OpenSettled`, `Resume`, `Resettle`, `Publish`, `PublishFailed`, `ClearPrevious`, `Start`, `CrashStarter` | `internal/executor/job_executor.go:54-209`, `internal/executor/trigger_failure.go:71-108` |
| `Open` without rows, `AddRows`, `Republish` | `internal/executor/retry.go:78-208` |
| `Cancel` | `TerminateJob`, `internal/repository/repository.go:177-196` |
| `ReadJob`, `ReadSummary`, `Cas`, `FireHook`, `CrashFinaliser` | `maybeFinalizeJob`, `internal/executor/job_finalizer.go:194-241` |

Outcomes the engine does not decide are parameters: how user code goes, where a publish lands or whether it fails, whether a
commit goes through, row ids, timestamps. `Protocol.Orderly` states what the engine relies on its surroundings for:
deliveries of one task do not overlap in time, one trigger at a time works on a run, and a run is not cancelled between its
creation and its start, because the start carries no guard. What happens otherwise: a cancelled run is revived
(`Lifecycle.StartFollowsTableIff`, `Witnesses.StartRevives`; `Witnesses.StartCanRevive` reaches such a state), and a run two
triggers start is revived after it has completed and finalised twice (`Witnesses.SecondStartRevives`,
`Witnesses.SecondStartCanRevive`). Everything else interleaves freely.

Rows are inserted the way triggers and retries of jobs insert them (`Protocol.Programmed`): numbered by place, or cloned from
tasks of the source job; a retry may read a page in one step and insert its clones in a later one.

Theorems about every state reached by such runs say `Reachable`. Two narrow the runs further, and say so: `SafelyReachable`
(publishing to the retry topic succeeds) and `TidilyReachable` (triggers of one name neither overlap nor crash, and jobs are
not retried).

Where a claim one might expect is not what the code gives, the exact condition is proved; for the claims about runs `Witnesses`
reaches a state in which they fail:

- A finaliser's outcome, drawn from a summary read earlier, stays right until written if and only if no consumer was between
  writing FAILED on a task and putting it back to PENDING when the summary was read (`StaleSummary.SummaryStaysRightIff`).
- A finished row of a live job is final if and only if no consumer is in that same window (`Lifecycle.FinishedRowIsFinalIff`).
- After a job is over, no task of it is executed again if and only if no consumer had already decided to
  (`Lifecycle.ExecutionsStopIff`).
- An unfinished task of a RUNNING job can still be executed by the consumers, crashes included, if and only if a message for
  it lies at or past some committed offset (`Redelivery.ExecutableIff`). Without failed retry publishes one always does
  (`Redelivery.CoveredIsExecutable`). After a failed one the task can still be executed, until the commit of the message just
  processed ends that, unless another message for it lies beyond (`Redelivery.FailedRetryEndsAtCommit`).
- A task of a cancelled run never again reads PENDING, RUNNING or FAILED if and only if no consumer is at work on it
  (`Cancelled.CancelledTaskStaysClosedIff`).
- The unguarded start makes a cancelled run RUNNING again; it follows the job table exactly if the job is still live
  (`Lifecycle.StartFollowsTableIff`).
- The commit of a message passes over all messages before it, failed ones included (`Consumer.CommitPassesOver`).
- A row of a live job reads FAILED with no consumer at it if and only if a consumer refused the task's params or crashed between
  writing FAILED and writing what follows; the task is then never executed again, whatever attempts it had left
  (`Stranded.StrandedIff`, `Stranded.StrandedIsForEver`).
- A clone holds each task of its source exactly once if and only if it has as many tasks; a full retry whose streaming goes
  through does, and an interrupted one that is taken over never will (`FullRetry.FullRetryIsComplete`,
  `FullRetry.CompleteIffAsMany`, `FullRetry.StartedCloneIsSettled`).
- A registered job's consumer takes its tasks for retry messages if and only if the first of all registration calls, refused
  ones included, to ask for that consumer asked for it as its retry consumer (`Registration.ConsumerKindIsInherited`, with
  three ways it happens: `Registration.RetryConsumerCanBeTakenOver`, `Registration.RefusedJobsConsumerCanBeTakenOver`,
  `Registration.RetryConsumerCanBeReserved`).
- A reserved consumer reads no other job's messages, retries included, if and only if no call records a job whose retry
  consumer it is (`Registration.ReservedConsumerIsExclusiveIff`, `Registration.ReservedConsumerCanBeJoined`).

## Model

| member | source | states |
|---|---|---|
| `Domain.JobPathsAreShort` | internal/domain/state.go:9-19 | a path through the job table has at most two edges, and only its last status can be terminal |
| `Domain.WaysOutOfFinishedStatuses` | internal/domain/state.go:21-30 | of the statuses the finaliser counts as finished only FAILED has a way out |
| `Domain.JobKindsByTable` | internal/domain/constants.go:42 | a job is live exactly if the job table has a way out of its status, and over exactly if it leads there and not on |
| `Domain.TaskKindsByTable` | internal/domain/task.go:50-55 | a task is settled exactly if the task table leads there and not on, and finished exactly if it leads there and the task cannot be started |
| `Domain.JobRecord.Fire` | internal/domain/state.go:33-39 | firing moves the job along exactly one edge of the table, or refuses and changes nothing |
| `Domain.TaskRecord.Fire` | internal/domain/state.go:41-47 | the same for tasks; restarting a RUNNING task is the one transition that goes nowhere |
| `Store.PickBy` | internal/repository/repository.go:115-118 | the element with the smallest key, as ORDER BY ... LIMIT 1 gives it |
| `Store.SmallestFirst` | internal/repository/repository.go:144-147 | the smallest elements under a key, in order, distinct, as many as the limit allows, none skipped |
| `Store.Repository.FindJobByReference` | internal/repository/repository.go:105-131 | a row of the reference no other row of it is newer than; nothing only if none has it |
| `Store.Repository.FindPendingJobByParentID` | internal/repository/repository.go:289-301 | the newest PENDING or RUNNING clone of a job; nothing only if there is none |
| `Store.Repository.FindTasksByJobID` | internal/repository/repository.go:133-140 | every task of the job exactly once |
| `Store.Repository.FindTasksBatch` | internal/repository/repository.go:142-152 | a keyset page: the lowest-numbered matching tasks past a number, in order, none skipped, as many as the limit allows |
| `Store.Repository.FindCompletableJobIDs` | internal/repository/repository.go:255-279 | distinct RUNNING jobs of the name without an unfinished task, as many as the limit allows |
| `Store.Repository.UpdateTaskRow` | internal/repository/repository.go:281-287 | the named columns of one row change, unguarded, the others keep their values, and no other row changes |
| `Store.Repository.UpdateTasksStatus` | internal/repository/repository.go:161-165 | the listed tasks get the status, and nothing else changes |
| `Store.Repository.UpdateTasksStatusByJobID` | internal/repository/repository.go:167-171 | all tasks of one job get the status, and nothing else changes |
| `Store.Repository.UpdateJobStatus` | internal/repository/repository.go:225-231 | one job gets the status, whatever it had |
| `Store.Repository.UpdateJobIfStatus` | internal/repository/repository.go:236-248 | the write happens, and reports true, exactly if the row had the expected status |
| `Store.Repository.TerminateJob` | internal/repository/repository.go:177-196 | exactly a PENDING or RUNNING job is cancelled; a task changes, to CANCELLED, exactly if it is one of its PENDING ones; a refused call changes nothing |
| `Store.Repository.CancelPreviousJobs` | internal/repository/repository.go:198-218 | a job changes, to CANCELLED, exactly if it has the name, is not the current one and read PENDING or RUNNING; a task exactly if its job is one of these and it read PENDING, RUNNING or FAILED; other names and settled tasks are untouched |
| `Store.Repository.CreateJobAndTasks` | internal/repository/repository.go:333-349 | job and tasks appear together |
| `Store.Repository.CreateTasks` | internal/repository/repository.go:154-159 | the rows are added |
| `Finalizer.Outcome` | internal/executor/job_finalizer.go:25-51 | what the set of a job's task statuses settles is always a status the finaliser can write |
| `Finalizer.ResolveJobTerminalStatus` | internal/executor/job_finalizer.go:25-51 | the early-exit scan over rows with two counters depends on the set of statuses alone |
| `Finalizer.SummaryScanAndQueryAgree` | internal/executor/job_finalizer.go:130-146 | for any rows in any order with any statuses, the counted summary, the row scan and the completable query agree |
| `Finalizer.SummaryAgrees` | internal/executor/job_finalizer.go:130-146 | the counts settle exactly what the rows settle one by one |
| `Finalizer.MaybeFinalizeJob` | internal/executor/job_finalizer.go:194-241 | on its own, finalises exactly a RUNNING job whose tasks are finished, to the status they resolve to, and calls the hook once with the job's name, reference and new status |
| `Finalizer.FinalizeAll` | internal/executor/job_finalizer.go:186-191 | a page of ready jobs is finalised each from its own tasks, one hook call each in order |
| `Finalizer.CheckJobCompletions` | internal/executor/job_finalizer.go:181-192 | one check finalises a page of at most 200 completable jobs, each to the status its tasks resolve to, touches nothing else, and calls the hook of the name once for each, in order, with its reference and new status |
| `Finalizer.CheckShrinksBacklog` | internal/executor/job_finalizer.go:148-192 | a check of n completable jobs leaves n - min(n, 200) of them; exactly those that left have changed |
| `Finalizer.BacklogDrains` | internal/executor/job_finalizer.go:148-192 | after k checks n - min(n, 200 k) remain; each job that left carries the status its own tasks resolved to at the start, no other changed |
| `TaskExecutor.StartTaskExecution` | internal/executor/task_executor.go:111-119 | PENDING and RUNNING tasks are written RUNNING, others refused with no write |
| `TaskExecutor.CompleteTask` | internal/executor/task_executor.go:140-149 | a RUNNING task is written COMPLETED with the result text, any other refused with no write |
| `TaskExecutor.HandleTaskFailure` | internal/executor/task_executor.go:151-160 | FAILED, then either PENDING with one more attempt and a retry message, or MAX_RETRIES_EXHAUSTED and a dead letter |
| `TaskExecutor.RetryTask` | internal/executor/task_executor.go:162-182 | the row is PENDING with one more attempt and the error text; the retry topic with and without it configured |
| `TaskExecutor.SendTaskToDLQ` | internal/executor/task_executor.go:184-198 | the row is MAX_RETRIES_EXHAUSTED with the error text; the dead-letter topic with and without it configured |
| `TaskExecutor.FailTaskWithResult` | internal/executor/task_executor.go:208-218 | after unreadable params the row is FAILED with the error text |
| `TaskExecutor.ExecuteTask` | internal/executor/task_executor.go:29-89 | one delivery, for every row, configuration and outcome: when the task is started, overtaken by the end of its job or left alone; its row column by column, result text included, and that no other changes; its error, the retry message, the dead letter, and the call of user code with the row's params |
| `TaskExecutor.DeliveryIsARun` | internal/executor/task_executor.go:29-89 | what a delivery does to tables, topics, dead letters, result and execution count, a run of the protocol does too, whatever user code and publishes do |
| `Consumer.CommitPassesOver` | internal/transport/consumer.go:51-58 | the committed offset is past a message exactly when it or a later one was committed |
| `Consumer.Process` | internal/transport/consumer.go:42-59 | one turn of the loop: the position moves by one, the offset follows exactly if processing and commit succeed; topics, dead letters and calls of user code are those of the delivery; the turn is a run of the protocol |
| `Consumer.Run` | internal/transport/consumer.go:34-60 | the whole loop is a run of the protocol; it marks exactly the messages whose delivery, on the tables at that moment, succeeds and is committed, and leaves the offset after the last of them |
| `Invariants.StepKeeps` | internal/executor/task_executor.go:29-218 | every step of every actor keeps the invariant, moves job statuses only along the job table, and leaves tasks it does not deliver alone while their job is live |
| `Invariants.ReachableInv` | internal/executor/job_executor.go:148-189 | in every reachable state rows, consumers in mid-delivery, starters and finalisers fit together |
| `ExactlyOnce.FinalisedExactlyOnce` | internal/executor/job_finalizer.go:92-102 | over any interleaving a job has at most one successful compare-and-set; COMPLETED and PARTIAL_FAILED come from nowhere else; the hook fires once per success unless that finaliser crashed |
| `ExactlyOnce.WonStatusStays` | internal/repository/repository.go:236-248 | from the compare-and-set on, the job keeps the status it wrote along every run |
| `StaleSummary.SummaryStaysRightIff` | internal/executor/job_finalizer.go:203-223 | the outcome of a summary agrees with the rows at every later moment the job is RUNNING if and only if no retry was half-way when the summary was read |
| `StaleSummary.OvertakenByRetry` | internal/executor/task_executor.go:151-170 | one step that makes the outcome wrong while the job is still RUNNING, when a retry is half-way |
| `Lifecycle.JobStatusFollowsTable` | internal/domain/state.go:9-19 | along every run a job's status follows the job table, and a job that is over never changes |
| `Lifecycle.StartFollowsTableIff` | internal/executor/job_finalizer.go:85-90 | the unguarded start makes the job RUNNING whatever happened to it; it follows the table exactly if the job is still live |
| `Lifecycle.TaskStatusFollowsTable` | internal/domain/state.go:21-30 | every change of a stored task status that leaves the job live is one edge of the task table, though task writes carry no guard |
| `Lifecycle.FinishedRowIsFinalIff` | internal/executor/task_executor.go:53-61 | a finished row of a live job never changes while the job is live if and only if no consumer has just written FAILED on it |
| `Lifecycle.ExecutionsStopIff` | internal/executor/task_executor.go:46-51 | once a job is over, its task is never executed again if and only if no consumer had already decided to execute it |
| `Lifecycle.RejectedRunsExecuteNothing` | internal/executor/job_executor.go:148-157 | no task of a REJECTED run is ever executed |
| `Cancelled.CancelledTaskStaysClosedIff` | internal/executor/task_executor.go:111-119 | a task of a cancelled run never again reads PENDING, RUNNING or FAILED if and only if no consumer is at work on it |
| `Cancelled.PreviousTasksStayClosedIff` | internal/repository/repository.go:198-218 | the same for every task of every run that cancelling the previous runs of a name cancels, from that transaction on |
| `Witnesses.SummaryCanBeOvertaken` | internal/executor/job_finalizer.go:203-223 | a reachable state in which a finaliser draws FAILED and the rows later say otherwise while the job is RUNNING |
| `Witnesses.FinishedRowCanChange` | internal/executor/task_executor.go:151-170 | a reachable state in which a finished row of a live job changes later while the job is live |
| `Witnesses.ExecutionCanFollowTheEnd` | internal/executor/task_executor.go:46-51 | a reachable state in which a task is executed after its job is over |
| `Witnesses.CancelledTaskCanReopen` | internal/executor/task_executor.go:111-119 | a reachable state in which a cancelled task of a cancelled run is opened again |
| `Witnesses.WorkCanBeLost` | internal/executor/task_executor.go:175-181 | a reachable state in which a task with attempts left stays PENDING in a RUNNING job and no consumer can execute it any more |
| `Witnesses.StartRevives` | internal/executor/job_finalizer.go:85-90 | in every reachable state with a start due, the run can be cancelled first and the start then makes it RUNNING, against the job table |
| `Witnesses.StartCanRevive` | internal/executor/job_finalizer.go:85-90 | there is a reachable state with a start due |
| `Witnesses.SecondStartRevives` | internal/executor/job_executor.go:158-187 | in every reachable state with a run without tasks about to be started, a second trigger of it can start it again after it has completed; it is finalised, and its hook fired, twice |
| `Witnesses.SecondStartCanRevive` | internal/executor/job_executor.go:158-187 | there is such a state |
| `Stranded.StrandedIff` | internal/executor/task_executor.go:151-218 | after every run, a row of a live job reads FAILED with no consumer at it if and only if during the run a consumer refused the params or crashed between writing FAILED and writing what follows |
| `Stranded.StrandedIsForEver` | internal/executor/task_executor.go:111-119 | such a task is never executed again in any run, and its row stays while the job is live |
| `Witnesses.AttemptsCanBeForgone` | internal/executor/task_executor.go:151-160 | a reachable state with such a task, its message uncommitted and attempts left, and no run that executes it |
| `Bounded.ExecutionsAreBounded` | internal/executor/task_executor.go:151-182 | in every reachable state 1 <= attempt <= max(1, max_retries), and executions <= max(1, max_retries) + crashes in mid-delivery |
| `Bounded.DeadLettersAreTheExhausted` | internal/executor/task_executor.go:184-198 | the dead-letter topic holds each task at most once, only exhausted ones, which read MAX_RETRIES_EXHAUSTED while their job is live, and all of them but those dropped by a crash, a failed publish or a missing topic |
| `NoLostWork.StepCovers` | internal/transport/consumer.go:51-58 | every step whose retry publish succeeds keeps every unfinished task of a RUNNING job covered by a message, and those of a starting job by a message or the starter's list |
| `NoLostWork.NoTaskIsLost` | internal/executor/job_executor.go:162-175 | without failed retry publishes, through any crashes and redeliveries, a PENDING or RUNNING task of a RUNNING job has a message at or past some committed offset |
| `Redelivery.ExecutableIff` | internal/transport/consumer.go:42-59 | in every reachable state, some consumer steps, crashes included, execute an unfinished task of a RUNNING job once more if and only if a message for it lies at or past some committed offset |
| `Redelivery.CoveredIsExecutable` | internal/transport/consumer.go:51-58 | without failed retry publishes every unfinished task of a RUNNING job can still be executed |
| `Redelivery.CommitEndsWorkIff` | internal/transport/consumer.go:56-58 | after a commit an unfinished task of a RUNNING job can still be executed if and only if a message for it lies past the new offset or on another partition at or past its offset |
| `Redelivery.FailedRetryEndsAtCommit` | internal/executor/task_executor.go:175-181 | a task whose retry publish fails can still be executed, through a crash and redelivery; the next commit ends that unless another message for it lies beyond |
| `Drain.ProcessingLowers` | internal/executor/task_executor.go:151-198 | every step of a consumer lowers a measure of outstanding messages, stages and remaining attempts |
| `Drain.DrainingTerminates` | internal/transport/consumer.go:34-60 | no run of the consumers alone is longer than the measure, and one that cannot go on has read every message |
| `Drain.DrainedJobsAreFinished` | internal/executor/job_finalizer.go:181-192 | once drained, a RUNNING job has only finished tasks |
| `Drain.DrainedThenChecked` | internal/executor/job_finalizer.go:181-241 | after draining, ceil(n / 200) checks leave no job of the name RUNNING |
| `Drain.DrainAndCheck` | internal/executor/job_finalizer.go:181-241 | from every state reachable without failed retry publishes: any run of the consumers that cannot go on, then ceil(n / 200) checks, leave no job of the name RUNNING |
| `OneLiveRun.AtMostOneLiveRun` | internal/executor/job_executor.go:162-175 | between triggers of a name that cancels previous runs, at most one of its runs is live, whatever consumers, finalisers and cancellations do meanwhile |
| `PublishFirst.StartedRunIsPublished` | internal/executor/job_executor.go:162-175 | in every reachable state, every task of a RUNNING, COMPLETED or PARTIAL_FAILED job has been published |
| `PublishFirst.StartFindsAllPublished` | internal/executor/job_executor.go:173-175 | whenever a trigger, a resumed one or a retry of a job comes to start its run, under any interleaving, all tasks of the run have been published |
| `PublishFirst.PublishedStays` | internal/executor/job_executor.go:162-175 | what has been published stays so along every run |
| `Resume.PendingRunResumes` | internal/executor/job_executor.go:158-175 | wherever a PENDING run is left alone, a later trigger whose publishes succeed, into whatever partitions, can publish all its tasks and start it |
| `Resume.CrashedTriggerResumes` | internal/executor/job_executor.go:54-62 | the same for a trigger that crashes anywhere between creating and starting its run; what any resumed trigger finds at its start is `PublishFirst.StartFindsAllPublished` |
| `Retry.PublishTasks` | internal/transport/publisher.go:40-63 | what is written goes out in order, and one message not written fails the call |
| `Retry.SentAllAppends` | internal/transport/publisher.go:40-63 | each partition grows by exactly the messages routed to it, in order |
| `Retry.ReadPage` | internal/repository/repository.go:142-152 | on distinct numbers, a keyset page continues the list exactly where it stopped |
| `Retry.LastPage` | internal/executor/retry.go:179-181 | a page that is not full is the last one |
| `Retry.StreamCloneAndPublish` | internal/executor/retry.go:139-184 | for any page size the loop ends; the matching tasks are cloned in sequence order under fresh ids, each clone inserted and published once, total their number; a failed publish stops it after the first page that fails |
| `Retry.StreamingClonesOnlyMatches` | internal/executor/retry.go:151-169 | the rows created are pending first attempts of matching tasks in sequence order, with their number, name, key, params and attempt limit; nothing old changes |
| `Retry.StreamingClonesEveryMatch` | internal/executor/retry.go:151-169 | every matching task has exactly one clone |
| `Retry.StreamPublishTasks` | internal/executor/retry.go:189-208 | publishes every task of a job once, in sequence order, exactly if all are written; else up to and with the first page that fails |
| `Retry.PrepareAndStreamRetry` | internal/executor/retry.go:78-126 | a live clone is taken over with no row changed; else a new one is made and filled; a clone is returned exactly if all its messages are written, and tables and topics are stated for both results; an interrupted clone is not continued |
| `Retry.RetryJob` | internal/executor/retry.go:39-71 | each result exactly when it is returned, missing, live, unregistered, stream failed, already running and retried, with tables, topics and finalisation for each; a clone without tasks is finalised at once with one hook call |
| `RetryOutcomes.RetryIsRefused` | internal/executor/retry.go:39-56 | the three refusals exactly when they are returned, and that nothing changes |
| `RetryOutcomes.RetryTakesOver` | internal/executor/retry.go:89-103 | with a live clone: a newest one is taken up; stream failed, already running or started, and only its own row can change |
| `RetryOutcomes.RetryMakesClone` | internal/executor/retry.go:105-126 | without one: a new clone of the job with the request's reference, PENDING, RUNNING or COMPLETED; Retried exactly if all messages there are to send get through; else filled and published up to the first page that fails; no other row changes |
| `RetryOutcomes.RetryClonesTheRetried` | internal/executor/retry.go:127-169 | every row made repeats a task of the job, for a partial retry one that reads MAX_RETRIES_EXHAUSTED; if Retried each such task is repeated exactly once |
| `Lineage.StreamedRowsCloneAPage` | internal/executor/retry.go:151-169 | the rows made from a page read earlier clone distinct source tasks in the way the protocol asks of an insert, whatever was written between reading and inserting |
| `Lineage.NumbersAreSound` | internal/executor/job_executor.go:105-123 | in every reachable state every job's numbers are distinct and non-negative, so paging reaches all tasks; a directly created job has exactly 0 to n-1 |
| `Lineage.RetriesKeepTheWork` | internal/executor/retry.go:151-169 | along any chain of full or partial retries, with any steps between the reads and inserts, each task does the work of exactly one task of the first job: number, name, params, key, attempt limit |
| `FullRetry.FullRetryIsComplete` | internal/executor/retry.go:139-184 | from any reachable state, with any steps between its reads, inserts and publishes: once the loop of a retry of all tasks is through, the clone's tasks and the source's correspond one to one, for ever |
| `FullRetry.CompleteIffAsMany` | internal/executor/retry.go:151-169 | in every reachable state a clone and its source correspond one to one if and only if they have as many tasks |
| `FullRetry.StartedCloneIsSettled` | internal/executor/retry.go:89-103 | once it is not PENDING a clone is complete for ever or incomplete for ever |
| `Witnesses.FullRetryCanComplete` | internal/executor/retry.go:139-184 | a run of such a loop with the program's page size |
| `Witnesses.InterruptedCloneStaysShort` | internal/executor/retry.go:89-103 | a reachable state in which an interrupted full retry is taken over and started, and its clone incomplete for ever |
| `Lineage.EveryTaskFindsItsJob` | internal/repository/repository.go:91-103 | in every reachable state every task row finds its job through (job id, created_at) |
| `Trigger.BuildTasks` | internal/executor/job_executor.go:105-128 | the rows are numbered by place under fresh ids, or none if params of any cannot be encoded |
| `Trigger.BuiltRows` | internal/executor/job_executor.go:105-146 | one row per element in order, with the element's name, params and key, the job's attempt limit, creation time and initial task status, number by place, first attempt, empty result |
| `Trigger.PublishInBatches` | internal/executor/job_executor.go:191-209 | batches of 1000 publish the whole list in order exactly if all messages are written; else up to and with the first batch that fails |
| `Trigger.SentLengthMeans` | internal/executor/job_executor.go:191-209 | what is sent are whole batches of 1000 all of whose messages get through and the first that has one which does not, or everything |
| `Trigger.PersistMeans` | internal/executor/trigger_failure.go:45-69 | a failed attempt is recorded exactly if the metadata gives no number of attempts or at least as many have been made, for integers and JSON numbers |
| `Trigger.ExecuteJobFlow` | internal/executor/job_executor.go:148-189 | tables, topics, hook calls and error for a run that is over, RUNNING, PENDING with publishing succeeding or failing, with and without tasks |
| `Trigger.PrepareJobAndTasks` | internal/executor/job_executor.go:54-103 | an existing row of the reference is reused and the job executor not called; else it is called once, and a run or at most a failure recorded |
| `Trigger.PersistTriggerFailure` | internal/executor/trigger_failure.go:71-108 | a FAILED row without tasks is written unless the reference has a row |
| `Trigger.ExecuteJob` | internal/executor/job_executor.go:30-52 | one trigger as a relation between tables, topics and finalisations, with its own hook call and the calls of the job executor |
| `TriggerOutcomes.TriggerFinds` | internal/executor/job_executor.go:31-64 | without configuration nothing happens; the job executor is called exactly if no row has the reference; else the trigger goes on with a newest row of it |
| `TriggerOutcomes.OverRunIsResettled` | internal/executor/job_executor.go:148-157 | a found run that is over: its status overwrites exactly its tasks', nothing is published, and the status is reported |
| `TriggerOutcomes.RunningRunIsLeft` | internal/executor/job_executor.go:158-161 | a found RUNNING run: nothing changes, RUNNING is reported |
| `TriggerOutcomes.PendingRunFails` | internal/executor/job_executor.go:162-167 | a PENDING run one of whose tasks does not get through: FAILED, and no other row changes |
| `TriggerOutcomes.PendingRunStarts` | internal/executor/job_executor.go:168-189 | a PENDING run all of whose tasks get through: RUNNING, or COMPLETED without tasks; other live runs of its name are cancelled with their open tasks if it is configured so; jobs of other names and all other tasks are untouched |
| `TriggerOutcomes.TriggerRecordsFailure` | internal/executor/job_executor.go:75-103 | a job executor that fails, or params that cannot be encoded: at most one FAILED row with the call's name, reference and attempt limit, marked, without tasks |
| `TriggerOutcomes.DisabledRunIsRejected` | internal/executor/job_executor.go:130-157 | a new run of a disabled job: REJECTED with its tasks, nothing published |
| `TriggerOutcomes.UnpublishedRunFails` | internal/executor/job_executor.go:162-167 | a new run one of whose tasks does not get through: it holds the tasks of the plan in order, and is FAILED |
| `TriggerOutcomes.NewRunStarts` | internal/executor/job_executor.go:66-189 | a new run all of whose tasks get through: under the call's name and reference and the configured attempts it holds one task for each element of the plan, in order, with its name, params and key; RUNNING, or COMPLETED without tasks; all messages sent in order |
| `TriggerOutcomes.NewRunCancelsPrevious` | internal/executor/job_executor.go:168-172 | of the rows there were, exactly the live runs of its name, if so configured, and their open tasks change |
| `Trigger.RetryTriggerJob` | internal/executor/trigger_failure.go:116-146 | only a recorded failure that is over is triggered again, by its name under the new reference and without a count of attempts; each refusal changes nothing; the result is a latest row of that reference exactly if the trigger succeeds |
| `References.OneRunPerReference` | internal/executor/job_executor.go:54-85 | over any history of triggers that do not overlap, a reference has at most one row, stays taken, and the job executor is never called for one that is taken |
| `References.OnlyTheLastFailureIsRecorded` | internal/executor/trigger_failure.go:42-49 | of a retried trigger that fails every time, whatever else happens in between that leaves its reference alone, no attempt before the last writes anything, the last writes exactly one FAILED row without tasks, and the reference is taken from then on and not before |
| `References.OthersLeaveRef` | internal/executor/job_executor.go:30-103 | triggers of other references, and whatever creates no job, leave a reference alone |
| `References.RetryLeavesRef` | internal/executor/retry.go:39-126 | so do retries of jobs under other references |
| `References.SuccessfulTrigger` | internal/executor/job_executor.go:148-175 | whatever tables an earlier trigger left, a successful one leaves exactly one run of the reference, past PENDING, all tasks on the topic if it was new or PENDING |
| `TriggerRefinement.TriggerIsARun` | internal/executor/job_executor.go:30-189 | what a call of executeJob makes of tables, topics and finalisations, and nothing besides, some run of the protocol makes of them, for every result of the call |
| `TriggerRefinement.SuccessfulTriggerPublished` | internal/executor/job_executor.go:54-62 | in every reachable state with no other trigger at work, a successful trigger, also one that finds its run RUNNING or finished, leaves one run of the reference, past PENDING, with all tasks on the topic if it was ever started |
| `Refinement.FinaliserRuns` | internal/executor/job_finalizer.go:194-241 | a finaliser left undisturbed on a ready job writes the resolved status, wins once and fires its hook once |
| `Refinement.CheckIsARun` | internal/executor/job_finalizer.go:181-192 | what a completion check does, some run of the protocol does: the tables, and one win and one hook call for each job of the page |
| `RetryRefinement.TakenOverIsARun` | internal/executor/retry.go:89-103 | taking over a live clone, fully published or not, started or found RUNNING, is a run of the protocol |
| `RetryRefinement.MadeAnewIsARun` | internal/executor/retry.go:105-126 | making and filling a new clone, fully or up to a failed publish, is a run of the protocol that inserts rows as it asks |
| `RetryRefinement.RetryIsARun` | internal/executor/retry.go:39-71 | what a retry of a job makes of tables, topics and finalisations, whatever its result, some run of the protocol makes of them |
| `RetryRefinement.RetriesStaySound` | internal/executor/retry.go:39-71 | from any reachable state a retry as executed leads to a reachable one; so the distinct numbers a retry relies on are there before it and after it |
| `RetryRefinement.TriggersStaySound` | internal/executor/job_executor.go:30-189 | the same for triggers, with references from tasks to jobs intact |
| `TriggerRefinement.EmptyRunFinalises` | internal/executor/job_executor.go:177-187 | a RUNNING run without tasks is finalised COMPLETED by the steps of a finaliser |
| `Registration.ValidateShared` | internal/jobconfig/shared.go:49-78 | the loop over a set of seen names accepts exactly complete definitions of two or more jobs with pairwise different names |
| `Registration.ValidateManual` | internal/jobconfig/validate.go:19-42 | a job without a schedule is accepted exactly if name, executors, brokers, task topic, group and completion cron are given |
| `Registration.ValidateScheduled` | internal/jobconfig/validate.go:45-53 | a job with a schedule exactly if it is given as well |
| `Registration.ConsumerRegistry.Start` | internal/transport/consumer.go:109-127 | a nil reader is refused; an existing consumer is kept as it is; else one is started |
| `Registration.ConsumerRegistry.StopAll` | internal/transport/consumer.go:129-141 | every consumer is cancelled and its reader closed, and none is left |
| `Registration.Service.ConsumerOwned` | internal/scheduler/service.go:231-241 | finds a user of a consumer exactly if it is reserved or some job is on it |
| `Registration.Service.SetUpJobInfra` | internal/scheduler/service.go:253-292 | reserved consumers are refused; consumers start before the completion cron, and stay if that fails |
| `Registration.Service.Register` | internal/scheduler/service.go:77-99 | the job is recorded with its defaults before its schedule, and stays if that fails; the cron entries made are those of a recorded job and of an accepted schedule |
| `Registration.Service.RegisterManual` | internal/scheduler/service.go:104-120 | the same without a schedule |
| `Registration.Service.RegisterShared` | internal/scheduler/service.go:133-213 | all jobs are recorded and the consumer reserved together, with one completion entry each and one per schedule, or nothing but the crons before the first refused remains |
| `Registration.RegisteredMeans` | internal/scheduler/service.go:77-120 | when a plain registration goes through, the job as recorded with three attempts by default, and the consumers it leaves; nothing is reserved |
| `Registration.RegisteredSharedMeans` | internal/scheduler/service.go:133-213 | when a shared registration is accepted, the consumers it starts, and that refused it leaves jobs, consumers and reservations as they were |
| `Registration.RegisteredSharedAdds` | internal/scheduler/service.go:165-204 | accepted, it adds exactly its jobs, each with the shared routing and executor and three attempts by default, and one reservation |
| `Registration.SharedConsumersAreFrozen` | internal/scheduler/service.go:133-241 | over any sequence of registrations, the jobs whose tasks a reserved consumer reads are exactly those of the call that reserved it, as it recorded them |
| `Registration.EveryJobHasItsConsumer` | internal/scheduler/service.go:253-281 | every job registered by any sequence of calls has a running consumer; a failed call reserves nothing, a failed shared one changes nothing |
| `Registration.ReservedConsumerIsExclusiveIff` | internal/scheduler/service.go:253-281 | the jobs whose tasks or retry messages a reserved consumer reads are those it was reserved for if and only if no call, before or after, records a job whose retry consumer it is |
| `Registration.ReservedConsumerCanBeJoined` | internal/scheduler/service.go:253-281 | a shared registration and a later manual one whose retry messages come to the reserved consumer, which does not take them for retry messages |
| `Registration.KindIsTheFirstAskedFor` | internal/transport/consumer.go:109-127 | over any sequence of calls, refused ones included, a consumer runs with a kind if and only if the first call that asked for it asked for it as that kind |
| `Registration.ConsumerKindIsInherited` | internal/transport/consumer.go:114-118 | after any sequence of scheduled, manual and shared calls, refused ones included, every registered job has a consumer, and it takes the tasks for retry messages if and only if the first call to ask for it asked for it as its retry consumer |
| `Registration.RetryConsumerCanBeTakenOver` | internal/transport/consumer.go:114-118 | two manual registrations after which a job's tasks are read by the other job's retry consumer |
| `Registration.RefusedJobsConsumerCanBeTakenOver` | internal/scheduler/service.go:253-292 | the same when the registration that started the retry consumer was refused and its job is not registered |
| `Registration.RetryConsumerCanBeReserved` | internal/scheduler/service.go:133-213 | a shared registration that reserves another job's retry consumer |

## Left out

- Store errors: every statement succeeds. The code logs most of them and goes on; the writes it would then skip are not modelled.
- The updated_at, started_at, finished_at and duration columns, and job metadata except whether it marks a trigger failure.
- Which of several rows with one reference and one creation time is found: any of the newest.
- JSON: messages are task ids, since a delivery reloads the row; params and results are text, and decoding failures are parameters of the delivery or of the task data.
- Topics: partitions are sequences with one reader each; rebalancing appears as crashes, and a retry's delay as an arbitrary delivery order.
- Log lines, durations, and the hooks OnTaskStarted, OnTaskFinished and OnTasksPublished.
- Retry.StreamCloneAndPublish: the method runs alone, so no other writer changes the source's statuses while it pages; in the protocol reading a page, inserting its clones and publishing them are apart, other steps come between, and `Lineage` holds of all that.
- Retry.RetryJob: asks that every job's numbers be distinct and non-negative, which `Lineage.NumbersAreSound` proves of every reachable state and `RetryRefinement.RetriesStaySound` of retries as executed.
- Store.Repository.FindCompletableJobIDs: the page is any of the completable jobs, since updated_at, by which the query orders them, is not modelled.
- References.OneRunPerReference: covers triggers that do not overlap, as the code promises no more; retries of jobs do not look at references and are not part of its histories.
- Refinement.CheckIsARun: starts where no other finaliser is at work; interleaved finalisers are the protocol's own steps.
- TriggerRefinement.TriggerIsARun: starts where no other trigger or finaliser is at work; interleaved triggers are the protocol's own steps.
- RetryRefinement.RetryIsARun: starts there too, and interleaved retries of jobs are the protocol's own steps.
- Cancellation of a context, the HTTP console, Asynq, Redis, Postgres, Kafka clients, cron parsing, configuration and DSN validation.
