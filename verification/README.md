# The proof task queue, modelled and proved

The program is a queue for the second commit phase of sector sealing. Requesters (a cluster plugin, or
any client of the JSON-RPC server) submit byte strings; the server keeps one table of tasks and one
content-addressed store of inputs; worker processes claim tasks, read the inputs, compute proofs and
record them; the plugin polls until it can answer. Nothing spans the two stores or two statements
atomically, replies get lost, workers crash and come back, and requesters reset failed tasks.

The model is a transition system over all of it, with one step per statement, and the proofs are about
every run of that system: every interleaving of any number of submissions, requests, claims, record
calls and worker processes.

| file | what it holds |
|---|---|
| `Entities.dfy` | the values: tasks, states, addresses, submissions |
| `TaskTable.dfy` | the task table: each SQL statement as a function on rows, and the repository object `DbOps` |
| `Resources.dfy` | the resource store, as a directory or as a table |
| `Pipeline.dfy` | one worker process: two loops, two channels, the shared wrapping counter |
| `Protocol.dfy` | the whole system; every worker in it is a process of `Pipeline` |
| `Integrity.dfy` | end to end: a proof belongs to the bytes of its request |
| `Lease.dfy` | exclusive leases and what breaks them, completed rows, lost tasks, crash recovery |
| `Discipline.dfy` | rules under which no lease is broken, no completed task revived; the life of a row |
| `Availability.dfy` | inputs are there as long as they are needed |
| `Submissions.dfy` | submitting is idempotent |
| `Claims.dfy` | claims: who wins, how often, in which order |
| `Freshness.dfy` | reported errors are not leftovers |
| `Processes.dfy` | every worker of the whole system keeps the bounds and the settings it was started with |
| `Addressing.dfy` | task ids and resource ids; integrity, availability and submission with the program's own ids |
| `Reachability.dfy`, `Witnesses.dfy` | runs that exist, and runs that break a result without its condition |
| `Exactness.dfy` | the conditions on ids are exact: they hold if and only if no run goes wrong |
| `Server.dfy`, `Worker.dfy`, `Plugin.dfy` | the objects whose methods update state, each method tied to the transition system |
| `ParamFetch.dfy` | the download-and-verify loop for the proof parameters |

## Conditions, and what happens without them

Each condition can be checked by whoever runs the system, at the step that would violate it, and each has an
exact characterisation; nearly all have a run that goes wrong without it as well.

| result | condition | exact | a run without it |
|---|---|---|---|
| `EndToEnd` | ids do not collide | `AlwaysRightIff` | `SharedTaskGivesForeignProof`, `SharedResourceGivesForeignProof` |
| | no operator marks a task completed whose proof column is empty | `CompletingIsSoundIff` | `OperatorForgesProof` |
| `ExclusiveLease`, `RunningRowsAreAccountedFor`, `BootRecovers`, `LostUntilBoot` | no step breaks a lease: a reset of a running task, a boot while a record call of the worker's former life is to write, an operator's update that makes a running task anything else or anything else running | `AlwaysLeasedIff`, `StepKeepsLeaseIff` | `RecordOutlivesCrash`, `OperatorBreaksLease` |
| `CompletedIsAbsorbing` | no step breaks a lease; no reset of the task, no operator's update of it to another state | the theorem itself, `StepKeepsCompletedIff` | `StaleResetRevivesCompleted`, `OperatorRevivesCompleted` |
| `InputsAreAvailable`, `InputsAreRight` | equal resources mean equal tasks | `AlwaysAvailableIff`, `BytesDetermineTaskIff`, `DeletionIsSafeIff` | `SharedBytesLoseInput` |
| | no step breaks a lease, and none starves a task: to reopen a completed task whose input is deleted, or to delete the input of a task that has been reopened | `InputsAreAvailable` itself, `StepPresentIff`, `ReopeningIsSafeIff` | `StaleResetRevivesCompleted`, `OperatorRevivesCompleted` |
| `FifoClaims` | no step between the two statements overtakes: no late insert of a row stamped earlier, no reset of an older row | the theorem itself, `StepKeepsFirstIff`, `ResetBreaksFifoIff` | `LateInsertBreaksFifo` |
| `FifoWithMonotoneClock` | the clock does not go back; no submission under way at the select was stamped earlier; no reset of an older row | `NoEarlierStampsNoOvertaking` | `ClockBackBreaksFifo`, `LateInsertBreaksFifo` |
| `ErrorIsFresh` | no operator marks a task failed while a request traces it | `BlamingIsFreshIff` | `OperatorReportsNoError` |
| `FailedIffRecordedSince` | no step breaks a lease; no failed task is taken out of that state while another request traces it | `AlwaysQuietIff` | |
| `SubmissionsAgree` | the calls succeeded | `InsertSucceedsIff` | `LateSubmissionFails` |
| `FetchIsCorrect` | no wanted file has the name another one is renamed to | `AlwaysFetchesRightIff`, `CheckOneSparesIff` | `AliasBreaksFetch` |

The conditions on leases, completed tasks and inputs are about what a step meets in the table. `Discipline.dfy`
gives rules that can be kept beforehand and suffice for all of them (`DisciplineSuffices`,
`DisciplinedInputsAreAvailable`): a request looks its task up only when no other reset of that task is pending,
an abandoned one included; a worker boots only when no record call of its former life is left to write; the
operator leaves the states alone. Any number of requests may trace one task at once (`TwoRequestersTrace`), and a
requester may die at any time, while it polls too, and come back (`RequesterReturns`). The discipline is not
necessary: an operator may well reset a failed task nobody is about to reset.

`EndToEnd` needs neither the exclusive lease nor the limit of one request per task: a stale reset or a
double computation wastes work but never answers a request with a foreign proof.

## Observations about the code

- `gpuproxy/src/cli/params_fetch/mod.rs:217-218` says that with a list of sector sizes the verifying-key
  files are left in; the code below it removes them. The model follows the code.
- A task id depends on the payload of the miner address only, not on its network or protocol
  (`TaskIdsEqualIff`). The plugin makes id addresses only, so this does not affect it.
- The creation time of a row is read before its insert, by a separate statement, so a row may appear in the
  table after a claim has selected a row created later; first come, first served is then broken without
  any reset and with a clock that never goes back (`LateInsertBreaksFifo`).
- A task that its worker gives up for want of its input, or whose record call fails, stays running, with
  nobody working on it, until that worker is restarted (`LostUntilBoot`).
- Two concurrent submissions of one task may end in a primary-key error for the later one, although the
  task is there (`LateSubmissionFails`). The plugin reports that error to its caller.
- The backlog is fetched oldest first and popped from its end, so a restarted worker takes its newest
  task first (`BacklogOverRuns`).
- The counter of tasks in flight does wrap (`CounterUnderflows`), but never when it is read
  (`LoadIsExact`).
- A capacity of zero is excluded because a channel of capacity zero cannot be made; a retry sum of the
  largest 32-bit number is excluded because the retry counter would overflow.

## Model

| member | source | states |
|---|---|---|
| Integrity.EndToEnd | gpuproxy/src/cluster_c2_plugin/main.rs:149-250 | over every run in which ids do not collide and the operator completes no task with an empty proof column, a proof that answers a request is one the computation yields on exactly that request's bytes |
| Integrity.StepSound | gpuproxy/src/proxy_rpc/rpc.rs:137-162 | the joint invariant over rows, stored inputs, submissions, requests, pipelines and record calls is kept by every single step |
| Integrity.CompletingIsSoundIff | gpuproxy/src/proxy_rpc/db_ops.rs:193-201 | at any moment of such a run, marking tasks completed keeps the table sound if and only if none of them has an empty proof column, where the empty string is no proof |
| Exactness.AlwaysRightIff | gpuproxy/src/cluster_c2_plugin/main.rs:149-250 | every run answers every request with a proof of its own bytes, whatever the computation is, if and only if the ids of the submissions do not collide |
| Exactness.SharedTaskGivesForeignProof | gpuproxy/src/utils/mod.rs:104-115 | a run on which two submissions share a task id and the second is answered with a proof of the first |
| Exactness.SharedResourceGivesForeignProof | gpuproxy/src/proxy_rpc/rpc.rs:144-151 | a run on which two tasks share a resource id and the second is computed from the bytes of the first |
| Addressing.AddressedEndToEnd | gpuproxy/src/cluster_c2_plugin/main.rs:149-250 | the end-to-end result for the ids the program forms, from collision freedom of the hash on the byte strings of the run |
| Addressing.BigEndianRoundTrip | gpuproxy/src/utils/mod.rs:112 | the four bytes of the type code read back as the same 32-bit number, negative ones included |
| Addressing.BigEndianDigits | gpuproxy/src/utils/mod.rs:112 | the four bytes are the digits of the code to the base 256, highest first |
| Addressing.TaskBufferLayout | gpuproxy/src/utils/mod.rs:110-114 | what is hashed is the payload, four zero bytes for the type C2, and the resource id, in this order and nothing else |
| Addressing.FrameRoundTrip | gpuproxy/src/utils/mod.rs:110-113 | payload, type and resource id are read back from what is hashed, whatever the length of the payload |
| Addressing.FrameInjective | gpuproxy/src/utils/mod.rs:110-113 | two frames are equal if and only if all three parts are |
| Addressing.FrameAmbiguousOtherwise | gpuproxy/src/utils/mod.rs:110-113 | without the fixed length of the resource id two different tasks can have the same frame |
| Addressing.GenTaskId | gpuproxy/src/utils/mod.rs:104-115 | the id is the hash of payload, four zero bytes and the hash of the bytes |
| Addressing.TaskIdsEqualIff | gpuproxy/src/utils/mod.rs:100-115 | resource ids are equal exactly for equal bytes, task ids exactly for equal payload, type and bytes |
| Addressing.AddressedNoCollision | gpuproxy/src/utils/mod.rs:100-115 | a collision-free hash gives collision-free ids |
| Addressing.BytesDetermineTaskIff | gpuproxy/src/cluster_c2_plugin/main.rs:159-166 | equal bytes mean the same task exactly when equal bytes come with equal address payloads, as the plugin's do |
| Addressing.AddressedInputsAreRight | gpuproxy/src/proxy_rpc/rpc.rs:137-162 | the same for the ids the program forms, where equal bytes come with equal address payloads |
| Addressing.AddressedSubmissionsAgree | gpuproxy/src/proxy_rpc/rpc.rs:144-161 | with the ids the program forms, two successful submissions are answered with the same id if and only if payload, type and bytes are the same |
| Lease.ExclusiveLease | gpuproxy/src/proxy_rpc/db_ops.rs:220-322 | over every run that breaks no lease a task is held in one copy by one worker at most, the table names that worker as running it, and no record call for it is pending |
| Lease.AlwaysLeasedIff | gpuproxy/src/proxy_rpc/worker.rs:114-262 | over every run the lease holds at every moment if and only if no step breaks it |
| Lease.StepKeepsLeaseIff | gpuproxy/src/cluster_c2_plugin/main.rs:171-174 | every single step, of whatever kind, keeps the lease if and only if it is no reset of a running task, no boot over a record call still to write, and no operator's update from or to running |
| Discipline.StepMovesRow | gpuproxy/src/proxy_rpc/db_ops.rs:128-322 | every disciplined step moves each row along its life only, changing no column but those of the move; a failed row moves by its own reset only |
| Discipline.StepKept | gpuproxy/src/cluster_c2_plugin/main.rs:149-216 | the lease, and that each pending reset is the only one of its task and finds it failed, are kept by every disciplined step |
| Discipline.DisciplineSuffices | gpuproxy/src/cluster_c2_plugin/main.rs:149-216 | a disciplined run breaks no lease, and a disciplined continuation revives no completed task |
| Lease.CompletedIsAbsorbing | gpuproxy/src/proxy_rpc/db_ops.rs:193-201 | over every continuation of a run, both breaking no lease, a completed row, its proof included, is the same at every moment if and only if nobody resets the task and no operator gives it another state |
| Lease.StepKeepsCompletedIff | gpuproxy/src/proxy_rpc/db_ops.rs:297-322 | where the lease holds a step leaves a completed row as it is if and only if it is no reset and no operator's update of it |
| Lease.RunningRowsAreAccountedFor | gpuproxy/src/proxy_rpc/worker.rs:142-166 | over every run that breaks no lease, the rows a worker runs are exactly those it holds, those it is recording and those it lost, and these three do not overlap |
| Lease.BootRecovers | gpuproxy/src/proxy_rpc/db_ops.rs:265-273 | after a restart the worker holds one copy of exactly the tasks it had lost, and none of its own is lost any more |
| Lease.BootKeepsLeaseIff | gpuproxy/src/proxy_rpc/worker.rs:124-129 | a boot keeps the lease if and only if no record call of the worker's former life is left |
| Lease.ResetKeepsLeaseIff | gpuproxy/src/cluster_c2_plugin/main.rs:171-174 | a reset keeps the lease if and only if its task is not running |
| Lease.OperatorKeepsLeaseIff | gpuproxy/src/proxy_rpc/db_ops.rs:193-201 | an operator's update keeps the lease if and only if it turns no task from running to something else or the other way round |
| Lease.LostUntilBoot | gpuproxy/src/proxy_rpc/worker.rs:205-209 | over every run that breaks no lease and has no boot of its worker, a lost task stays lost and its row as it is |
| Lease.StepKeepsLost | gpuproxy/src/proxy_rpc/worker.rs:124-129 | of all steps that break no lease only the boot of its own worker takes a task out of the lost ones, and none changes its row |
| Availability.InputsAreAvailable | gpuproxy/src/proxy_rpc/rpc.rs:137-162 | over every run that breaks no lease, where equal resources mean equal tasks, every row that is not completed has its input in the store after every single step if and only if no step starves a task |
| Availability.InputsAreRight | gpuproxy/src/proxy_rpc/rpc.rs:244-259 | over every run that breaks no lease and starves no task, what is stored for a task that is not completed are the very bytes of every submission of it |
| Availability.StepPresentIff | gpuproxy/src/proxy_rpc/rpc.rs:137-162 | every single step keeps every needed input present if and only if it neither reopens a completed task without its input nor deletes the input of a reopened one |
| Availability.StepCovered | gpuproxy/src/proxy_rpc/rpc.rs:137-162 | the invariant behind it, program counters of submissions and record calls included, is kept by every single step, whatever breaks a lease |
| Availability.ReopeningIsSafeIff | gpuproxy/src/proxy_rpc/db_ops.rs:193-201 | a reset or an operator's update keeps every needed input present if and only if every completed task it reopens still has its input stored |
| Availability.DeletionOfCallIsSafeIff | gpuproxy/src/proxy_rpc/rpc.rs:255-258 | the deletion of a record call keeps every needed input present if and only if its own task is still completed |
| Availability.DisciplinedInputsAreAvailable | gpuproxy/src/proxy_rpc/rpc.rs:137-162 | every disciplined run starves no task and has every needed input at every moment |
| Availability.DeletionIsSafeIff | gpuproxy/src/proxy_rpc/rpc.rs:255-258 | deleting the input of a completed task leaves every other input present if and only if nobody has submitted the same bytes as another task that is not completed |
| Exactness.AlwaysAvailableIff | gpuproxy/src/proxy_rpc/rpc.rs:244-259 | every disciplined run has every needed input, whatever the computation is, if and only if equal resources mean equal tasks |
| Submissions.OneRowPerTask | migration/src/m20220101_000001_create_table.rs:62-67 | over every run, however submissions interleave, the row of a task is inserted at most once, and no row is deleted or becomes another task |
| Submissions.RowsComeFromInserts | gpuproxy/src/proxy_rpc/rpc.rs:153-160 | a row appears exactly by the insert of a submission of its task, with the miner, resource, type and comment of that call, the time it read before, and nothing else in it |
| Submissions.RowsAreAsSubmitted | gpuproxy/src/proxy_rpc/db_ops.rs:136-150 | over every run every row has the miner, type, comment and resource of one submission call of its task |
| Submissions.StepKeepsTasks | gpuproxy/src/proxy_rpc/db_ops.rs:128-322 | no step of any kind, the operator's included, deletes a row or changes id, miner, input, type, comment or creation time |
| Submissions.SubmissionAltersNoRow | gpuproxy/src/proxy_rpc/rpc.rs:144-161 | a submission leaves every existing row exactly as it is, in whatever state it is |
| Submissions.SubmissionsAgree | gpuproxy/src/proxy_rpc/rpc.rs:144-161 | a submission that succeeds is answered with the id of a row; two are answered with the same id if and only if they are of one task |
| Submissions.InsertSucceedsIff | gpuproxy/src/proxy_rpc/db_ops.rs:152 | a submission that found its task missing succeeds, after any run in between, if and only if no other submission has inserted the task meanwhile; at most one has, and the row is there either way |
| Claims.ClaimRefinement | gpuproxy/src/proxy_rpc/db_ops.rs:225-262 | over every run a losing claim leaves the table alone; a claim wins if and only if its row is still initial; the row is of an allowed type, is then running under the caller with the time and otherwise as before, and the caller is handed that very row |
| Claims.SelectsOldestIff | gpuproxy/src/proxy_rpc/db_ops.rs:228-235 | a claim can select a row if and only if it is initial, of an allowed type, and none such is older |
| Claims.SelectsWaiting | gpuproxy/src/proxy_rpc/db_ops.rs:228-236 | as soon as any row is initial and of an allowed type, a claim can select one |
| Claims.OneWinPerEpisode | gpuproxy/src/proxy_rpc/db_ops.rs:237-249 | among any number of concurrent fetchers, between two wins of one task it has been reset |
| Claims.FifoClaims | gpuproxy/src/proxy_rpc/db_ops.rs:225-249 | the selected row is first at every moment up to the update if and only if no step in between overtakes it, and then the row won is an oldest eligible one at the moment of the update |
| Claims.StepKeepsFirstIff | gpuproxy/src/proxy_rpc/db_ops.rs:144-152 | every single step leaves the selected row first if and only if it neither inserts an allowed row stamped earlier nor reopens an allowed older one |
| Claims.FifoWithMonotoneClock | gpuproxy/src/proxy_rpc/db_ops.rs:144-152 | with a clock that does not go back it is enough that, at the select, no submission under way was stamped earlier and that no older row is reset later |
| Claims.NoEarlierStampsNoOvertaking | gpuproxy/src/proxy_rpc/db_ops.rs:144-152 | under these conditions a run overtakes the row if and only if it reopens an older one |
| Claims.ResetBreaksFifoIff | gpuproxy/src/proxy_rpc/db_ops.rs:193-201 | a reset between the two statements breaks that order if and only if it reopens an allowed, older task |
| Freshness.ErrorIsFresh | gpuproxy/src/cluster_c2_plugin/main.rs:167-237 | an error the plugin reports was recorded after that request's own lookup and reset, if no operator marks its task failed while it is traced |
| Freshness.FailedIffRecordedSince | gpuproxy/src/cluster_c2_plugin/main.rs:224-237 | over every run that breaks no lease, blames no traced task and overruns no request, a traced task is failed exactly when an error has been recorded on it since the request looked it up or reset it |
| Freshness.AlwaysQuietIff | gpuproxy/src/cluster_c2_plugin/main.rs:167-174 | over every run that breaks no lease and blames no traced task, this holds at every moment if and only if no failed task is taken out of that state while a request traces it |
| Freshness.BlamingIsFreshIff | gpuproxy/src/proxy_rpc/db_ops.rs:193-201 | at any moment of such a run, marking tasks failed leaves every request with fresh errors only if and only if no request traces one of them that is not failed already |
| Freshness.ErrorsAreStamped | gpuproxy/src/proxy_rpc/db_ops.rs:281-286 | a row is failed after a step only if it was failed with the same text before or this step recorded that text |
| Freshness.TracingBegins | gpuproxy/src/cluster_c2_plugin/main.rs:167-215 | a request starts tracing its task only at a moment the task is not failed |
| Pipeline.BoundOverRuns | gpuproxy/src/proxy_rpc/worker.rs:131-166 | over every schedule tasks in flight and in hand never exceed the maximum, and the counter is off by the pending increment only, modulo 2^64 |
| Pipeline.StepBounded | gpuproxy/src/proxy_rpc/worker.rs:131-258 | the bound, the counter equation and the capacity of the result channel are kept by every step of either loop |
| Pipeline.LoadIsExact | gpuproxy/src/proxy_rpc/worker.rs:133-140 | what the loop head reads is the exact number in flight, so it goes on if and only if there is room |
| Pipeline.SendNeverBlocks | gpuproxy/src/proxy_rpc/worker.rs:160-166 | the task channel has a free slot whenever the fetcher sends |
| Pipeline.CounterUnderflows | gpuproxy/src/proxy_rpc/worker.rs:161-207 | a schedule on which the counter wraps below zero |
| Pipeline.Conservation | gpuproxy/src/proxy_rpc/worker.rs:124-258 | over every schedule and for every task, the copies obtained are those held or awaited now, recorded, or given up |
| Pipeline.StepConserves | gpuproxy/src/proxy_rpc/worker.rs:187-258 | the same balance for each single step |
| Pipeline.BacklogOverRuns | gpuproxy/src/proxy_rpc/worker.rs:143-144 | the backlog is taken from its end, one task a pop, and never grows |
| Pipeline.BacklogBeforeClaims | gpuproxy/src/proxy_rpc/worker.rs:143-158 | a new task is asked for only after the whole backlog has been taken |
| Pipeline.ChannelIsFifo | gpuproxy/src/proxy_rpc/worker.rs:160-196 | over every schedule tasks come out of the channel in the order they were sent |
| Pipeline.ReadsAllowed | gpuproxy/src/proxy_rpc/worker.rs:196-209 | a received task is given up after exactly one failed read more than the retry sum, and not before |
| Pipeline.RankOfDrained | gpuproxy/src/proxy_rpc/worker.rs:174-258 | the rank is never negative and is zero exactly for a drained process |
| Pipeline.ProgressDecreasesRank | gpuproxy/src/proxy_rpc/worker.rs:174-258 | every step that moves a task, a failed read included, strictly decreases the rank |
| Pipeline.PollingKeepsRank | gpuproxy/src/proxy_rpc/worker.rs:131-158 | polling that obtains no task leaves the rank alone |
| Pipeline.DrainIsBounded | gpuproxy/src/proxy_rpc/worker.rs:174-258 | without new claims every schedule makes at most as many moving steps as the rank |
| Pipeline.NoDeadlock | gpuproxy/src/proxy_rpc/worker.rs:174-258 | a moving step is enabled if and only if the process is not drained, despite the one-slot result channel |
| Pipeline.CanDrain | gpuproxy/src/proxy_rpc/worker.rs:174-258 | from every state there is a schedule no longer than the rank that empties the process |
| Processes.EveryWorkerIsBounded | gpuproxy/src/proxy_rpc/worker.rs:114-262 | in every state of the whole system every worker keeps its bound, its send finds room and its results are finished computations |
| Processes.WorksAsStarted | gpuproxy/src/proxy_rpc/worker.rs:115-209 | over every run, from the boot of a worker on and until it crashes, in flight and in hand never exceed the number it was started with; it calls for a task only with fewer in flight and no backlog, for the types it was started with; it gives a task up exactly at the read after the retry sum it was started with |
| Processes.BootStarts | gpuproxy/src/proxy_rpc/worker.rs:114-130 | a worker boots with exactly its running rows as backlog, each once and oldest first, with its own settings and nothing in flight |
| Processes.WorkersComeAndGo | gpuproxy/src/proxy_rpc/worker.rs:114-130 | a worker that does not run can boot with any settings on its running rows; one that runs can crash with whatever it holds |
| Worker.AttemptsOutcome | gpuproxy/src/proxy_rpc/worker.rs:196-221 | the retry loop goes on with the first answer that is there among one more than the retry sum, and gives up only when none is |
| Worker.FirstRead | gpuproxy/src/proxy_rpc/worker.rs:196-203 | the result is the first answer that is there among those the loop looks at, if there is one |
| Worker.LocalWorker.constructor | gpuproxy/src/proxy_rpc/worker.rs:114-130 | keeps the maximum, the retry sum and the types it is given, starts with the uncompleted tasks as backlog and with nothing in flight |
| Worker.LocalWorker.LoadCount | gpuproxy/src/proxy_rpc/worker.rs:133-140 | goes on if and only if fewer than the maximum are in the channels, computing or with the consumer |
| Worker.LocalWorker.SelectTask | gpuproxy/src/proxy_rpc/worker.rs:142-149 | takes the last of the backlog, or makes the claim call when it is empty |
| Worker.LocalWorker.ClaimAnswered | gpuproxy/src/proxy_rpc/worker.rs:150-157 | the claim's answer, or back to the loop head |
| Worker.LocalWorker.SendTask | gpuproxy/src/proxy_rpc/worker.rs:160-163 | is an enabled send, and the channel stays within its capacity |
| Worker.LocalWorker.CountTask | gpuproxy/src/proxy_rpc/worker.rs:165 | after the increment the counter is exact |
| Worker.LocalWorker.ReceiveTask | gpuproxy/src/proxy_rpc/worker.rs:189-196 | takes the task sent first to its first read |
| Worker.LocalWorker.PrepareTask | gpuproxy/src/proxy_rpc/worker.rs:196-221 | spawns the computation on the first answer that is there among one more than the retry sum, or gives the task and its place in the count up when none is |
| Worker.LocalWorker.FinishJob | gpuproxy/src/proxy_rpc/worker.rs:214-219 | is the end of a spawned computation |
| Worker.LocalWorker.DeliverResult | gpuproxy/src/proxy_rpc/worker.rs:220 | moves one finished computation into the free slot of the result channel |
| Worker.LocalWorker.RecordResult | gpuproxy/src/proxy_rpc/worker.rs:229-253 | takes the result and calls the server with its task and outcome |
| Worker.LocalWorker.EndRecord | gpuproxy/src/proxy_rpc/worker.rs:231-233 | the task no longer counts, whether the call succeeded or not; the counter wraps from zero |
| Worker.LocalWorker.FetcherRound | gpuproxy/src/proxy_rpc/worker.rs:131-166 | one undisturbed round sends a task if and only if there is room and one to be had, the backlog first, and leaves the counter exact |
| TaskTable.DbOps.GetWorkerId | gpuproxy/src/proxy_rpc/db_ops.rs:107-123 | the stored worker id survives; a fresh one is stored only when there is none |
| TaskTable.DbOps.AddTask | gpuproxy/src/proxy_rpc/db_ops.rs:128-153 | inserts an initial row with the id, miner, resource, type, comment and time it is given and nothing else in it, or fails and changes nothing when the id is taken |
| TaskTable.DbOps.UpdateStatusById | gpuproxy/src/proxy_rpc/db_ops.rs:193-201 | sets the state of the listed rows, unguarded, and nothing else |
| TaskTable.DbOps.FetchOneTodo | gpuproxy/src/proxy_rpc/db_ops.rs:220-263 | fails exactly when no initial row is of an allowed type; otherwise makes the oldest such row running under the caller, with the time, and changes nothing else |
| TaskTable.DbOps.FetchUncompleted | gpuproxy/src/proxy_rpc/db_ops.rs:265-273 | exactly the rows running under the worker, each once, oldest first |
| TaskTable.DbOps.RecordError | gpuproxy/src/proxy_rpc/db_ops.rs:275-295 | fails the row with text and worker, whoever holds it; nothing else changes |
| TaskTable.DbOps.RecordProof | gpuproxy/src/proxy_rpc/db_ops.rs:297-322 | completes the row with proof, worker and time and clears its error; nothing else changes |
| TaskTable.ResetIsSafeIff | gpuproxy/src/proxy_rpc/db_ops.rs:193-201 | the unguarded reset leaves every finished row finished if and only if it lists none |
| Resources.ResourceStore.StoreResourceInfo | gpuproxy/src/resource/mod.rs:58-62 | a file is overwritten; a row of a taken id is refused |
| Resources.ResourceStore.DeleteResource | gpuproxy/src/resource/mod.rs:64-68 | afterwards the id is not stored; a missing file is an error, a missing row is not |
| Server.Proxy.AddTaskInner | gpuproxy/src/proxy_rpc/rpc.rs:137-162 | undisturbed, always succeeds with the id of the task; stores the bytes under their id and the row with all its columns if they are missing, and changes nothing else |
| Server.Proxy.RecordProof | gpuproxy/src/proxy_rpc/rpc.rs:244-259 | undisturbed, completes the row with proof, worker and time, clears its error and deletes its input; an unknown task is an error and changes nothing |
| Server.Proxy.RecordError | gpuproxy/src/proxy_rpc/rpc.rs:262-272 | fails the row with text and worker, and nothing when it is missing |
| Server.StatementsMakeSubmission | gpuproxy/src/proxy_rpc/rpc.rs:144-161 | the single statements of the transition system, run without interruption, make the whole submission |
| Server.StatementsMakeRecord | gpuproxy/src/proxy_rpc/rpc.rs:250-258 | the three statements of a record call make the whole record call |
| Server.SubmittingTwice | gpuproxy/src/proxy_rpc/rpc.rs:144-161 | a second submission of the same task changes neither store |
| Server.RecordingOnce | gpuproxy/src/proxy_rpc/rpc.rs:244-259 | a record call completes exactly its row with exactly its proof and deletes exactly its input |
| Server.SubmissionsMayEnd | gpuproxy/src/proxy_rpc/rpc.rs:145-160 | a submission may go on or end with an error between any two of its statements, and what it has done stays |
| Server.ClaimsMayEnd | gpuproxy/src/proxy_rpc/db_ops.rs:235-262 | a claim may end before its update, or be updated with its reply lost, whether its worker runs or not |
| Server.RecordsMayEnd | gpuproxy/src/proxy_rpc/rpc.rs:250-258 | a record call may go on or end between any two of its statements, whether its worker runs or not |
| Plugin.TraceTaskResult | gpuproxy/src/cluster_c2_plugin/main.rs:218-250 | no answer as long as no reply is a failed or completed row; otherwise the error text or the proof of the first such row |
| Plugin.PollsDecide | gpuproxy/src/cluster_c2_plugin/main.rs:228-248 | in the whole system a poll ends its request if and only if the row is there and failed or completed, with its error text or proof |
| Plugin.LookupDecides | gpuproxy/src/cluster_c2_plugin/main.rs:166-209 | a lookup submits a missing task under its own bytes and comment, is about to reset a failed one, traces any other, and changes no row |
| Plugin.ResetReopens | gpuproxy/src/cluster_c2_plugin/main.rs:171-174 | a reset makes its own task initial, whatever it was, and nothing else, even after the client has given up |
| Plugin.AddedDecides | gpuproxy/src/cluster_c2_plugin/main.rs:194-202 | a request goes on to trace the task it submitted if the call returned an id, and ends with an error otherwise |
| Plugin.RequestsMayFail | gpuproxy/src/cluster_c2_plugin/main.rs:162-202 | a request may end at any time before it is answered; only a reset it has called for outlives it |
| Plugin.SubmitOrReset | gpuproxy/src/cluster_c2_plugin/main.rs:159-213 | undisturbed: a failed task is initial again and otherwise as before, any other that is there is untouched, a missing one is there with the columns and the bytes of the request; no other row changes |
| ParamFetch.ParamCache.FilenamesRequiringDownload | gpuproxy/src/cli/params_fetch/mod.rs:136-171 | is the check whose outcome the lemmas below state |
| ParamFetch.ParamCache.Retain | gpuproxy/src/cli/params_fetch/mod.rs:219-233 | keeps the order; without sizes everything; with sizes no .vk file, the .params files of exactly these sizes, and every other file |
| ParamFetch.ParamCache.DownloadFiles | gpuproxy/src/cli/params_fetch/mod.rs:265-278 | downloads the listed files, each leaving a content or nothing |
| ParamFetch.ParamCache.DownloadSectorSize | gpuproxy/src/cli/params_fetch/mod.rs:205-290 | is the first check and the repair loop the lemmas below are about; when it has returned, every requested parameter file is there with its digest |
| ParamFetch.RetainedIff | gpuproxy/src/cli/params_fetch/mod.rs:219-233 | the same of the list the lemmas are about |
| ParamFetch.CheckOutcome | gpuproxy/src/cli/params_fetch/mod.rs:136-171 | a check lists exactly the listed files that are missing, unreadable or wrong, and leaves every other one alone |
| ParamFetch.CheckSorts | gpuproxy/src/cli/params_fetch/mod.rs:136-171 | a check lists exactly the files that are missing, unreadable or of another digest, moves those it could read aside under the -invalid-digest name with their content, and leaves the others alone |
| ParamFetch.CheckOneSparesIff | gpuproxy/src/cli/params_fetch/mod.rs:163-166 | checking one file spoils a verified other one if and only if it moves wrong content over it |
| ParamFetch.ExtensionsDoNotAlias | gpuproxy/src/cli/params_fetch/mod.rs:163-164 | names with the two extensions of parameter files are never the renamed form of one another |
| ParamFetch.FetchIsCorrect | gpuproxy/src/cli/params_fetch/mod.rs:235-290 | when the loop has returned every kept file is there with its digest; files that were right are never touched, returned or not |
| ParamFetch.AlwaysFetchesRightIff | gpuproxy/src/cli/params_fetch/mod.rs:163-166 | a fetch that returns has all its files right, whatever is cached, expected, downloaded and unreadable, if and only if no name is the renamed form of another |
| ParamFetch.DownloadIsCorrect | gpuproxy/src/cli/params_fetch/mod.rs:205-290 | once the command has returned, every .params file of a requested size is there with its digest; files that had it and files not asked for are untouched |
| ParamFetch.RoundShortensIff | gpuproxy/src/cli/params_fetch/mod.rs:264-289 | a round's list is an ordered sublist of the one before, shorter if and only if some listed file is now right |
| ParamFetch.FetchTerminates | gpuproxy/src/cli/params_fetch/mod.rs:264-289 | if every listed file is delivered right in one of the rounds, the loop has returned after these rounds |
| ParamFetch.AliasBreaksFetch | gpuproxy/src/cli/params_fetch/mod.rs:163-166 | with aliasing names the loop can return with a file wrong that was verified before |
| Witnesses.OperatorForgesProof | gpuproxy/src/proxy_rpc/rpc.rs:286-296 | after a disciplined run an operator's update makes the plugin answer with an empty proof |
| Witnesses.OperatorReportsNoError | gpuproxy/src/proxy_rpc/rpc.rs:286-296 | after a disciplined run an operator's update makes the plugin report an error nobody recorded |
| Witnesses.StaleResetRevivesCompleted | gpuproxy/src/cluster_c2_plugin/main.rs:167-174 | two requests read the failed state; the second reset revives the row the first one's recomputation completed, whose input is gone |
| Witnesses.RecordOutlivesCrash | gpuproxy/src/proxy_rpc/worker.rs:229-253 | a record call executed after its worker's restart leaves the worker holding a completed task |
| Witnesses.SharedBytesLoseInput | gpuproxy/src/proxy_rpc/rpc.rs:255-258 | two miners share bytes; one completion deletes the input the other task still needs |
| Witnesses.LateSubmissionFails | gpuproxy/src/proxy_rpc/rpc.rs:154-160 | of two submissions that both find the task missing the later one is answered with an error |
| Witnesses.LateInsertBreaksFifo | gpuproxy/src/proxy_rpc/db_ops.rs:144-152 | on a disciplined run with a monotone clock a row stamped early is inserted after the select, and the claim wins a row that is not the oldest |
| Witnesses.ClockBackBreaksFifo | gpuproxy/src/proxy_rpc/db_ops.rs:144 | the clock goes back once after the select, and a whole submission made then gets before the selected row |
| Witnesses.OperatorBreaksLease | gpuproxy/src/proxy_rpc/db_ops.rs:193-201 | after a disciplined run an operator resets the task a worker holds, which is then up for the next claim |
| Witnesses.OperatorRevivesCompleted | gpuproxy/src/proxy_rpc/db_ops.rs:193-201 | after a disciplined run an operator's reset that keeps the lease changes a completed row and leaves it without its input |
| Witnesses.RequesterReturns | gpuproxy/src/cluster_c2_plugin/main.rs:180-187 | a requester dies while it polls; a new one, on a disciplined run, traces the task that is there |
| Witnesses.TwoRequestersTrace | gpuproxy/src/cluster_c2_plugin/main.rs:180-187 | two requests trace one task at once on a disciplined run |
| Reachability.TaskCanBeSubmitted | gpuproxy/src/proxy_rpc/rpc.rs:144-161 | an undisturbed submission of a new task succeeds on a disciplined run |
| Reachability.TaskCanBeCompleted | gpuproxy/src/proxy_rpc/worker.rs:131-258 | a waiting task whose input is stored can be claimed, computed and recorded on a disciplined run, after which the worker is free again |
| Reachability.TaskCanFail | gpuproxy/src/proxy_rpc/worker.rs:242-252 | it can as well end in any recorded error |
| Witnesses.LimitedWorkerWins | gpuproxy/src/proxy_rpc/db_ops.rs:230-249 | a worker started for one type alone wins a task of that type on a disciplined run |
| Reachability.TaskCanBeRequested | gpuproxy/src/cluster_c2_plugin/main.rs:189-215 | a lookup that finds its task missing submits it and goes on to trace it |
| Witnesses.NewTaskIsAnswered | gpuproxy/src/cluster_c2_plugin/main.rs:189-215 | a request for a missing task submits it, traces it, and is answered with the computed proof on a disciplined run |

## Left out

- The SQL layer: the tables are maps with a primary key, and each statement is atomic. The re-read at the end of the claim transaction is merged with its update, and a reply is delivered or lost together with the call's last statement. Rolling a claim back after its update is not modelled.
- The transport: HTTP, JSON-RPC, base64 and serde. A call is executed step by step or abandoned at any point, and its reply may be lost. The JSON check of `add_task` and the assembly of `submit_c2_task` happen before the modelled call.
- The computation itself: `seal_commit_phase2`, its panics and its errors. A relation says which proofs it may yield on which bytes; any failure text is possible.
- Hashing: SHA-1 and the UUID layout are a function on bytes. `forest_address`, where the address payload comes from, is not part of this model.
- Real time: sleeps, intervals and timeouts are free scheduling. The clock is kept only for the order of creation times, which a submission reads in a step of its own before its insert; the times of a claim and of a completion are read together with their statements, and nothing depends on their order.
- Fairness: the model says that a draining process always can move a task and how often, not that the scheduler runs it.
- The plugin takes any error whose text contains "not found" for a missing task (gpuproxy/src/cluster_c2_plugin/main.rs:190-192). In the model its lookup finds a task missing exactly when there is no row: an unrelated error with that text, which would make it submit a task that is there and trace one that may have failed before, is not modelled.
- Two processes under one worker id: the worker map has one process per id, as the stored id intends.
- A worker whose first call for its uncompleted tasks is lost: its fetcher task panics. In the model that call and the start of the process are one step.
- A closed task channel (the branch of the consumer that should never occur) and the branch for task types other than C2, the only one there is.
- Partial writes of input files: a write is atomic, and a file store has no other writers.
- `Worker.LocalWorker`, `Server.Proxy`, `Plugin.SubmitOrReset`: the objects' methods run from one point of interleaving to the next; interleavings themselves are in the transition system.
- Plugin.TraceTaskResult: does not model the endless loop; it takes the replies of as many polls as are made.
- ParamFetch.ParamCache.DownloadSectorSize: does not model the endless loop; it takes the outcomes of as many rounds as are made, and the order of the parameter names as given.
- `ipget` itself, its installation, and the directory of the cache: a download leaves some content, or none. A rename that fails ends the program and is not modelled.
- `filecoin_proofs`, which says what the extension of a file name is, is not part of this model: a name has an extension if it ends in a dot and the extension and there is something before the dot.
- Lists, worker states, heartbeat, configuration, command lines, logging and the Go client: no further property of interest here.
