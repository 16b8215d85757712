# Forge and Lakeforge: a verified model

This project models the control path of the Forge distributed query engine, the two
streams that carry data and results, and three self-contained pieces of Lakeforge, and
proves what they promise. `dafny verify dfyconfig.toml` checks all of it.

The central result runs through every layer. A physical plan is split into a tree of
shuffle stages; the stages run as tasks on executors that reject launches, die, report late
or twice, while other jobs come and go; the final stage's files are read back, cut at the
row limit and streamed to the client. `Queries.ClientCollectsPlan` says that, in every
reachable state of the cluster, for every completed query and every limit, the client
collects exactly the first rows of what the submitted plan means. `Queries.SendAnswer`
ties the driver to it: the result files are fetched chunk by chunk, and if every fetch
works these are the rows sent. `Queries.ClientCollectsLocal` adds when they are the rows of
running the plan in one process.

## How it is built

| file | what it holds |
|---|---|
| `Plans.dfy` | plans, record batches, and what a plan evaluates to; operators, hashing and round-robin turns are uninterpreted (`Engine`) |
| `Routing.dfy` | what an exchange does to rows: kept, placed by hash or turn, in order |
| `Exchange.dfy` | one shuffle: map-side writer (class `PartitionWriter`), grouping, reduce-side reader |
| `Planner.dfy` | splitting (class `DistributedPlanner`), the shape of the stage list, resolution of shuffle leaves |
| `Cutting.dfy` | which exchanges become stages, and that none is left inside one |
| `Meaning.dfy`, `Wire.dfy` | splitting preserves meaning; what the wire does to a plan, and when distributed and local execution agree |
| `Jobs.dfy`, `JobState.dfy` | the job state machine, as functions and as the class `JobState` that updates its fields in place |
| `JobInvariant.dfy`, `JobProtocol.dfy`, `JobTheorems.dfy`, `JobRuns.dfy` | one job among unreliable executors: invariant, steps, results, whole runs |
| `Attempts.dfy` | retries, stale reports, cancel lists, and why a job ended |
| `TaskKeys.dfy` | the text form of task ids and its parser |
| `Executors.dfy`, `Dispatch.dfy`, `Books.dfy`, `Scheduler.dfy` | slot accounting, dispatch rounds, the handlers (classes `ExecutorRegistry` and `Scheduler`) |
| `Cluster.dfy`, `ClusterRuns.dfy` | many jobs and executors, every interleaving; refinement to the single-job protocol |
| `Slots.dfy` | from when to when a task takes a slot; what a round and its answers do to every slot |
| `Transport.dfy`, `Streaming.dfy`, `Queries.dfy` | shuffle fetch, driver-to-client stream, and the whole path of a query |
| `Glob.dfy`, `Renaming.dfy`, `LocalBackend.dfy` | wildcard matching, hierarchical rename, local process reaping |

Code that updates things in place is a class with `modifies` clauses, and every method is
proved against a function on values; the theorems are about those functions.

The functions that methods are proved against have laws of their own, stated without them:
an exchange loses no row and hashes each to its place (`Routing`), the stages of a query are
its exchanges (`Cutting`), a task's attempt number counts the times it had to start over and
a job ends only for the reason it gives (`Attempts`), and an executor's list is exactly what
it was handed and has not answered for (`Slots`).

Plan evaluation has a switch, `wire`. With it off, `Eval` is execution inside one process.
With it on, a node that gathers several partitions receives them without their empty
batches, because that is what moving them between tasks does: the file writer skips empty
batches. `Wire.dfy` compares the two:

- One exchange on its own: exactly when they agree, for a gathering (`Wire.CoalesceExact`)
  and for a round robin (`Wire.RoundRobinExact`).
- A round robin over gathered partitions, the smallest plan that can shift: exactly when
  they agree (`Wire.GatheredRoundRobinExact`).
- Whole plans: they agree batch for batch if no gathering meets an empty batch
  (`Wire.DenseMeaning`), and row for row if operators look only at rows and no round robin
  deals a stream thinned out by a gathering below it (`Wire.SteadyMeaning`). A plan that
  gathers nowhere below a round robin is always of that kind (`Wire.ShelteredIsSteady`).
  For whole plans there is no converse: operators are uninterpreted, so one above a shifted
  round robin may bring the shift to nothing (one that drops all rows does), and equal
  batches may change places unseen. The exact condition therefore stands at the exchange,
  for batches that can be told apart.

## What the model assumes

- Reports about a known job concern attempts that were launched, and a completion carries
  what the launched plan writes. Completion handling does not check that the task was
  running (crates/forge-scheduler/src/job.rs:308-316), so this comes from the executors.
- Operators are deterministic functions of their input partitions, and each plan node has
  at least one partition and delivers as many as it announces.
- An executor id registers again only while it is absent from the registry, and always with
  the same slot count. `ClusterRuns.RegisterExact` says what happens otherwise.
- Job ids are not reused.
- Plan encoding is the identity; it cannot fail and loses nothing.
- A location carries the contents of the file it names; files do not change once reported.
- Stage ids are the positions in the stage list, which `Planner.StagesFormTree` proves for
  planned jobs.
- The in-process repartition counts empty batches when it deals in turns, as the map-side
  writer does. Both use the batch partitioner of DataFusion 53.1, which lies outside this
  repository.
- Numbers are unbounded, except in `TaskKeys`, where parsing is 32-bit.
- Incremental stream decoding depends on the bytes so far and not on how they are cut.

## What turned out not to hold without a condition

- Wildcard patterns that end in a letter can miss a match (`Glob.LiteralEndingMisses`); the
  exact condition is in `Glob.GreedyMatchExact`.
- Round-robin exchanges behind a gathering node may deal batches differently from local
  execution, because dropped empty batches shift the turns (`Wire.RoundRobinShifts`): they
  deal alike exactly if every batch with rows keeps its turn (`Wire.RoundRobinExact`).
- If a shuffle file's length cannot be read it counts as 0, and a file that takes a second
  read is cut off without an error; the exact condition is in `Transport.LengthMatters`.
- Losing an executor ends a job whenever a completed task ran there
  (`Attempts.LossExact`), even if every stage that reads its output is finished
  (`Attempts.ReadOutputsStillCount`). The comment in front of the code speaks of outputs an
  unfinished stage still needs (crates/forge-scheduler/src/job.rs:410-411).
- Registering an executor that is still known empties its list of running tasks
  (`ClusterRuns.RegisterExact`).
- Active jobs beyond the retention limit leave the submission order and are not dispatched
  any more (`ClusterRuns.RetentionExact`).
- Renaming leaves children behind exactly when a kind has more than 10,000 of them
  (`Renaming.NothingLeft` with `Renaming.Catalogs.Rename`). If the new name of a child is
  taken, renaming stops there and the child is lost: it is deleted before the insertion
  fails. `Renaming.RenameOutcome` says that, with no kind over that limit, this happens
  exactly if some child's new name is taken.

## Model

| member | source | states |
|---|---|---|
| Exchanges.PartitionWriter.Write | crates/forge-shuffle/src/storage.rs:109-125 | a file grows by the batch, or stays as it is for an empty one, and the counters stay those of the file |
| Exchanges.WriteBatch | crates/forge-shuffle/src/writer.rs:142-229 | each writer's file grows by its own piece of the batch and no other |
| Exchanges.WritePartition | crates/forge-shuffle/src/writer.rs:142-229 | a map task reports one file per output, labelled with task and executor; together they hold exactly the rows of its input, truly counted, with hashing each row in the file of its hash |
| Exchanges.Statistics | crates/forge-shuffle/src/writer.rs:97-140 | one location a writer, labelled with the map partition for identity stages and the output otherwise |
| Exchanges.GroupLocations | crates/forge-scheduler/src/planner.rs:174-200 | locations grouped by label in order, or failure exactly when a label is out of range |
| Exchanges.BucketsPlaceOnce | crates/forge-scheduler/src/planner.rs:183-195 | grouping places every location exactly once |
| Exchanges.ReadFile | crates/forge-shuffle/src/reader.rs:111-171 | reading one file yields what the task routed there; no rows means no file |
| Exchanges.ReadInOrder | crates/forge-shuffle/src/reader.rs:111-171 | a partition is read in map-task order |
| Exchanges.ReadStage | crates/forge-shuffle/src/reader.rs:111-171 | reader j gets all contributions to j in task order; an identity stage keeps each stream in its own partition |
| Exchanges.ReadGroups | crates/forge-shuffle/src/reader.rs:111-171 | grouping and reading a stage's files restores the output of the in-process exchange |
| Exchanges.IdentityExact | crates/forge-shuffle/src/storage.rs:109-112 | an identity exchange returns its input unchanged exactly if no batch is empty |
| Exchanges.StageKeepsRows | crates/forge-shuffle/src/reader.rs:111-171 | across a hash or round-robin stage, from map tasks to readers, no row is lost, doubled or made up, and hashed rows are where their hash says |
| Routing.HashOutput | crates/forge-shuffle/src/writer.rs:170-191 | from each input a hash output gets exactly the rows of its hash, in order |
| Routing.RoundRobinOutput | crates/forge-shuffle/src/writer.rs:170-191 | from each input a round-robin output gets exactly the batches of its turn, whole and in order |
| Routing.ExchangeKeepsRows | crates/forge-shuffle/src/writer.rs:170-191 | the outputs of an exchange hold the rows of its inputs, each exactly once |
| Routing.HashPlaces | crates/forge-shuffle/src/writer.rs:170-191 | a row comes out of a hash exchange only where its hash sends it |
| Exchanges.StageOutputInRange | crates/forge-shuffle/src/writer.rs:84-89 | every label a stage reports is below the partition count its readers expect |
| Planner.DistributedPlanner.PushStage | crates/forge-scheduler/src/planner.rs:76-109 | appends one stage with the next id and leaves an unresolved leaf for it |
| Planner.DistributedPlanner.SplitNode | crates/forge-scheduler/src/planner.rs:113-162 | the recursive cut with a running stage list computes the functional split |
| Planner.DistributedPlanner.Plan | crates/forge-scheduler/src/planner.rs:70-74 | the stage list of a whole query, result stage last |
| Planner.UnresolvedStages | crates/forge-scheduler/src/planner.rs:213-220 | the stage ids of all unresolved leaves, left to right |
| Planner.SplitPlanShape | crates/forge-scheduler/src/planner.rs:113-162 | splitting keeps every node's partition count, and dependencies are the leaves left in the node |
| Planner.StagesFormTree | crates/forge-scheduler/src/planner.rs:76-162 | ids count up from 1, dependencies are the leaves in order and smaller, every stage but the last is read by exactly one stage exactly once |
| Cutting.StagesAreExchanges | crates/forge-scheduler/src/planner.rs:113-162 | a query has one stage per hash or round-robin repartition and per gathering of several partitions, each writing for its exchange, plus the result stage, and no exchange is left inside a stage |
| Cutting.SplitCuts | crates/forge-scheduler/src/planner.rs:113-162 | the same of every subplan: the stages cut off it are its exchanges, inner ones first |
| Planner.ResolveStage | crates/forge-scheduler/src/planner.rs:169-210 | the recursive rebuild with early exits computes resolution; the leftmost failing leaf decides the error |
| Planner.ResolveTotal | crates/forge-scheduler/src/planner.rs:169-210 | resolution succeeds exactly if every leaf's stage is complete with labels in range; then no unresolved leaf is left and partition counts are kept |
| Planner.ResolveError | crates/forge-scheduler/src/planner.rs:169-210 | a failing resolution names the leftmost leaf that is not ready, and why |
| Planner.ResolveAgree | crates/forge-scheduler/src/planner.rs:174-181 | only the outputs of the named stages matter |
| Meaning.CutMeaning | crates/forge-scheduler/src/planner.rs:76-109 | a reader placed on a cut sees the exchange's output |
| Meaning.SplitMeaning | crates/forge-scheduler/src/planner.rs:70-210 | for every plan: once the stages cut off have run, the rewritten plan resolves and evaluates to the original, partition by partition |
| Wire.CoalesceExact | crates/forge-scheduler/src/planner.rs:133-160 | one gathered exchange is batch-for-batch exact precisely if no batch is empty |
| Wire.DenseMeaning | crates/forge-scheduler/src/planner.rs:113-162 | distributed and local evaluation agree batch for batch if no gathering meets an empty batch |
| Wire.SteadyMeaning | crates/forge-scheduler/src/planner.rs:113-162 | they agree row for row, partition by partition, for row-wise operators, if every round robin deals a stream that lost no batch |
| Wire.ShelteredIsSteady | crates/forge-scheduler/src/planner.rs:131-160 | a plan that gathers nowhere below a round robin meets that condition with every engine |
| Wire.TurnFreeMeaning | crates/forge-scheduler/src/planner.rs:131-160 | in particular they agree row for row without any round robin |
| Wire.RoundRobinExact | crates/forge-shuffle/src/writer.rs:170-191 | for distinct batches, dealing a stream without its empty batches fills every output as before exactly if every batch with rows keeps its turn |
| Wire.GatheredRoundRobinExact | crates/forge-scheduler/src/planner.rs:131-150 | a round robin over gathered partitions evaluates alike with and without the wire exactly if every batch with rows keeps its turn |
| Wire.RoundRobinShifts | crates/forge-scheduler/src/planner.rs:131-139 | a concrete plan on which a dropped empty batch shifts the round-robin turns and rows change partition |
| JobStates.CollectOutputs | crates/forge-scheduler/src/job.rs:225-231 | the locations of exactly the completed stages |
| JobStates.JobState.New | crates/forge-scheduler/src/job.rs:186-222 | builds the initial job in place, or nothing |
| JobStates.JobState.PrepareRunnable | crates/forge-scheduler/src/job.rs:216-221 | the start-up walk prepares the runnable stages in order and stops at the first failure |
| JobStates.JobState.PrepareStage | crates/forge-scheduler/src/job.rs:225-245 | the stage becomes runnable with its resolved plan, or nothing changes |
| JobStates.JobState.PendingTasks | crates/forge-scheduler/src/job.rs:252-269 | the nested walk computes the pending list |
| JobStates.JobState.MarkRunning | crates/forge-scheduler/src/job.rs:271-280 | only a pending slot of that attempt starts running |
| JobStates.JobState.MarkPending | crates/forge-scheduler/src/job.rs:283-289 | only a running slot of that attempt goes back |
| JobStates.JobState.TaskCompleted | crates/forge-scheduler/src/job.rs:297-334 | the whole new job, the transition, and whether resolving dependents worked |
| JobStates.JobState.UnblockDependents | crates/forge-scheduler/src/job.rs:336-353 | prepares the candidates in order, stopping at the first failure |
| JobStates.JobState.TaskFailed | crates/forge-scheduler/src/job.rs:355-387 | retry, give up with a verdict, or nothing for a stale report |
| JobStates.JobState.RunningTasks | crates/forge-scheduler/src/job.rs:390-408 | the nested walk computes the running list |
| JobStates.JobState.TakeBack | crates/forge-scheduler/src/job.rs:417-431 | running tasks of the executor go back under a new attempt; tells whether completed outputs lived there |
| JobStates.JobState.ExecutorLost | crates/forge-scheduler/src/job.rs:412-440 | requeue, or fail the job if outputs were lost |
| JobStates.JobState.Cancel | crates/forge-scheduler/src/job.rs:442-455 | the job ends once, its running tasks are listed |
| JobStates.JobState.FinishOk | crates/forge-scheduler/src/job.rs:457-484 | the result groups the final stage's locations by label, skipping labels out of range |
| JobStates.JobState.FinishErr | crates/forge-scheduler/src/job.rs:486-493 | the error is recorded and sent if nothing was sent before |
| JobInvariant.DependenciesResolve | crates/forge-scheduler/src/job.rs:225-245 | on planned jobs resolution cannot fail once the dependencies are completed |
| JobInvariant.NewJobInv | crates/forge-scheduler/src/job.rs:186-222 | every planned job starts, in the invariant |
| JobInvariant.CloseInv | crates/forge-scheduler/src/job.rs:321-353 | closing a stage opens exactly the dependents whose inputs are now complete, cannot fail, and keeps every stage's invariant |
| JobProtocol.PendingSpec | crates/forge-scheduler/src/job.rs:252-269 | the pending list holds exactly the pending slots of runnable stages |
| JobProtocol.RunningSpec | crates/forge-scheduler/src/job.rs:390-408 | the running list holds exactly the running slots with executor and attempt |
| JobProtocol.LossCancels | crates/forge-scheduler/src/job.rs:432-438 | a fatal loss asks exactly the other executors to cancel exactly what they run |
| JobProtocol.ReportKeeps | crates/forge-scheduler/src/job.rs:297-353 | a completion keeps the invariant, and resolving dependents never fails |
| JobProtocol.StepKeeps | crates/forge-scheduler/src/job.rs:271-455 | every step of the protocol keeps the invariant |
| Attempts.FailureExact | crates/forge-scheduler/src/job.rs:355-387 | an accepted failure ends the job exactly if the attempt was the last one allowed; otherwise the task waits again one attempt further, and no other slot changes |
| Attempts.GivingUpCancels | crates/forge-scheduler/src/job.rs:373-386 | a job that gives up cancels exactly its other running tasks, each on its executor |
| Attempts.CancellingCancels | crates/forge-scheduler/src/job.rs:442-455 | a cancelled job cancels exactly its running tasks |
| Attempts.LossExact | crates/forge-scheduler/src/job.rs:412-440 | losing an executor ends an active job exactly if some task was completed there |
| Attempts.LossSlots | crates/forge-scheduler/src/job.rs:417-431 | exactly the tasks that ran there wait again, one attempt further |
| Attempts.LossMakesStale | crates/forge-scheduler/src/job.rs:417-431 | whatever still arrives about an attempt a lost executor ran changes nothing |
| Attempts.ReadOutputsStillCount | crates/forge-scheduler/src/job.rs:410-440 | even if all readers of the lost output are finished |
| Attempts.RejectionUndoesLaunch | crates/forge-scheduler/src/job.rs:271-289 | a launch takes the waiting slot and no other; giving the task back restores the job |
| Attempts.ForeignMarks | crates/forge-scheduler/src/job.rs:271-289 | launching what does not wait, or giving back what does not run, or naming another attempt changes nothing |
| Attempts.TransitionsTell | crates/forge-scheduler/src/job.rs:297-455 | every handler says truly whether it ended the job, and a completion which stage it closed |
| Attempts.EndedJobIsLeft | crates/forge-scheduler/src/job.rs:297-455 | a job that is over is left alone by everything but a rejection |
| Attempts.StartsFresh | crates/forge-scheduler/src/job.rs:186-222 | a new job has its id and retries, and every task waits for attempt 0 |
| Attempts.AttemptsCounted | crates/forge-scheduler/src/job.rs:355-440 | along every run a task's attempt number is the number of its retried failures and of losses of the executor it ran on; rejections and stale reports cost nothing |
| Attempts.WhyEnded | crates/forge-scheduler/src/job.rs:297-455 | a job that is over was ended by one step for the reason its status names; it gives up only on a task that had started over as often as allowed |
| JobTheorems.NotStuck | crates/forge-scheduler/src/job.rs:252-353 | an active job always has a task that runs or is offered for launch |
| JobTheorems.EarlierDone | crates/forge-scheduler/src/job.rs:336-353 | once the final stage is done every stage is |
| JobTheorems.CompletedIsDone | crates/forge-scheduler/src/job.rs:457-480 | a completed job has every stage and task completed, and result partition p is exactly what final task p recorded, nothing dropped |
| JobTheorems.ResultIsMeaning | crates/forge-scheduler/src/job.rs:297-484 | a completed job's result reads back as the submitted plan's output, whatever was retried or lost |
| JobTheorems.DistributedRows | crates/forge-scheduler/src/planner.rs:70-210 | a completed job returns the rows of local execution, same partitions and order, for row-wise operators, if no round robin deals a stream that may have lost batches |
| JobTheorems.DistributedBatches | crates/forge-scheduler/src/planner.rs:70-210 | and the same batches if no gathering meets an empty batch |
| JobRuns.RunInv | crates/forge-scheduler/src/job.rs:186-455 | every reachable state satisfies the invariant |
| JobRuns.CompletedFrozen | crates/forge-scheduler/src/job.rs:311-316 | a completed slot never changes, whatever happens to the job |
| JobRuns.ExactlyOnce | crates/forge-scheduler/src/job.rs:297-319 | over every run at most one completion of a task is accepted, and its executor and outputs stay |
| JobRuns.NeverHeavier | crates/forge-scheduler/src/job.rs:355-440 | no reachable step, not even losing an executor, adds to the retry budget |
| JobRuns.AcceptedIsLighter | crates/forge-scheduler/src/job.rs:297-387 | every accepted report uses some of it up |
| JobRuns.BudgetBoundsReports | crates/forge-scheduler/src/job.rs:297-387 | accepted reports and what is left of the budget never exceed the initial budget |
| JobRuns.DecidedInTime | crates/forge-scheduler/src/job.rs:360-371 | at most tasks x (retries + 1) reports are ever accepted, and a job that has accepted so many is decided |
| JobRuns.VerdictStays | crates/forge-scheduler/src/job.rs:442-493 | the terminal status and what was sent never change |
| JobRuns.OneVerdict | crates/forge-scheduler/src/job.rs:442-493 | nothing is sent while a job is active, exactly one verdict after, and a result is always the submitted query's |
| TaskKeys.RoundTrip | crates/forge-executor/src/runner.rs:243-256 | every task id is recovered from its key, even with slashes in the job id |
| TaskKeys.PrintInjective | crates/forge-proto/src/lib.rs:9-16 | two attempts never share a key |
| TaskKeys.ParsedPrintsBack | crates/forge-executor/src/runner.rs:243-256 | an accepted key prints back as itself exactly if its numbers carry no sign and no leading zeros |
| Executors.ExecutorRegistry.Register | crates/forge-scheduler/src/executors.rs:59-74 | an entry with an empty running set replaces whatever was there |
| Executors.ExecutorRegistry.Remove | crates/forge-scheduler/src/executors.rs:87-90 | the entry is gone and handed back |
| Executors.ExecutorRegistry.TaskStarted | crates/forge-scheduler/src/executors.rs:118-122 | the key joins the running set of a known executor |
| Executors.ExecutorRegistry.TaskFinished | crates/forge-scheduler/src/executors.rs:124-133 | the key leaves the running set and the matching counter goes up |
| Executors.FinishedHolds | crates/forge-scheduler/src/executors.rs:124-133 | finishing a task frees its own key and no other |
| Slots.ReportFrees | crates/forge-scheduler/src/scheduler.rs:158-187 | a report that settles a task takes it off its executor's list, and nothing else comes or goes |
| Slots.ReportsFree | crates/forge-scheduler/src/scheduler.rs:158-187 | after a list of statuses exactly the settled tasks are off |
| Slots.ReportsCounted | crates/forge-scheduler/src/executors.rs:124-133 | an executor's counters grow by its successes and failures; a report about an unknown job counts as a success |
| Slots.RequeueFrees | crates/forge-scheduler/src/scheduler.rs:325-336 | tasks given back are off the list of the executor that gives them back, and no others |
| Slots.RequeueWaits | crates/forge-scheduler/src/scheduler.rs:325-336 | a task given back under its current attempt waits again, and no other slot changes |
| Slots.FreedSlot | crates/forge-scheduler/src/executors.rs:124-133 | a task struck off makes one slot more |
| Slots.FreedIsListed | crates/forge-scheduler/src/scheduler.rs:245-254 | and the next round lists it |
| Dispatching.LastMax | crates/forge-scheduler/src/scheduler.rs:270-272 | the last of the executors with the most free slots |
| Dispatching.FirstComeFirstServed | crates/forge-scheduler/src/scheduler.rs:259-294 | a round hands out min(free slots, pending) tasks, exactly the first ones in submission order |
| Dispatching.RoundBalanced | crates/forge-scheduler/src/scheduler.rs:269-277 | every executor that received a task keeps at least the most free slots anybody keeps, less one |
| Dispatching.HandedOnce | crates/forge-scheduler/src/scheduler.rs:259-294 | no task is handed out twice in a round |
| Dispatching.PendingAscends | crates/forge-scheduler/src/job.rs:252-269 | pending tasks are listed by stage and then by partition |
| Slots.RoundHandsOut | crates/forge-scheduler/src/scheduler.rs:269-290 | a round puts exactly what it hands out on the executors' lists |
| Slots.RoundStarts | crates/forge-scheduler/src/scheduler.rs:259-294 | a round starts exactly the tasks it hands out, each where and as it says, and changes no other slot of any job |
| Schedulers.Scheduler.Submit | crates/forge-scheduler/src/scheduler.rs:71-108 | plans, starts and lists the job, then forgets finished jobs beyond the limit |
| Schedulers.Scheduler.Evict | crates/forge-scheduler/src/scheduler.rs:99-103 | of the evicted ids exactly the inactive jobs are dropped |
| Schedulers.Scheduler.Cancel | crates/forge-scheduler/src/scheduler.rs:110-120 | cancels a known job, touches no other |
| Schedulers.Scheduler.UpdateTaskStatus | crates/forge-scheduler/src/scheduler.rs:158-187 | statuses applied one after the other to registry and jobs, unknown jobs included |
| Schedulers.Scheduler.ExecutorLost | crates/forge-scheduler/src/scheduler.rs:189-202 | off the registry, and every job told |
| Schedulers.Scheduler.Requeue | crates/forge-scheduler/src/scheduler.rs:325-336 | rejected tasks return to the pool and free their slots |
| Schedulers.Scheduler.ListFree | crates/forge-scheduler/src/scheduler.rs:245-254 | exactly the executors with free slots, most free first |
| Schedulers.Scheduler.AssignPending | crates/forge-scheduler/src/scheduler.rs:259-294 | the nested loops with their early exit compute the round |
| Schedulers.Scheduler.Dispatch | crates/forge-scheduler/src/scheduler.rs:244-294 | a round over what the registry shows |
| Clusters.RequeueKeepsAll | crates/forge-scheduler/src/scheduler.rs:325-336 | requeueing keeps the books in order, whatever ids an executor sends back |
| Clusters.AssignKeeps | crates/forge-scheduler/src/scheduler.rs:244-294 | a round keeps the books in order although it works from slots seen earlier, one executor at a time |
| Clusters.ClusterStepKeeps | crates/forge-scheduler/src/scheduler.rs:71-336 | every step of any thread keeps slots, books and all jobs in order |
| ClusterRuns.SlotsNeverExceeded | crates/forge-scheduler/src/executors.rs:30-34 | in every reachable state an executor has at most as many tasks as slots |
| Slots.ListIsHandouts | crates/forge-scheduler/src/scheduler.rs:158-336 | in every reachable state an executor's list is exactly what rounds handed to it and it has neither settled nor given back since: no slot leaks, none is freed early |
| ClusterRuns.BooksAgree | crates/forge-scheduler/src/scheduler.rs:158-336 | what an active job runs on an executor is on that executor's list, unless the jobs are just about to hear it is lost |
| ClusterRuns.StepRefines | crates/forge-scheduler/src/scheduler.rs:71-336 | in the cluster each job takes steps of the single-job protocol and no others |
| ClusterRuns.StepIsHeard | crates/forge-scheduler/src/scheduler.rs:110-202 | outside rounds and their answers a job hears exactly its own events: completions as completions, failures as failures, losses always, and nothing that concerns others |
| ClusterRuns.SubmitStarts | crates/forge-scheduler/src/scheduler.rs:71-108 | every plan can be submitted: its job is listed and kept with the retries asked for, all tasks at attempt 0 |
| ClusterRuns.CompletedStays | crates/forge-scheduler/src/job.rs:311-319 | in the cluster a completed task keeps its executor and outputs |
| ClusterRuns.AnswerIsMeaning | crates/forge-scheduler/src/job.rs:457-484 | in the cluster a completed query has sent one answer, which reads back as the plan's output |
| ClusterRuns.NothingForgotten | crates/forge-scheduler/src/scheduler.rs:244-294 | every listed active job has a task waiting where the next round looks, or one it runs on an executor that has it on its list or is just being given up |
| ClusterRuns.NewestStay | crates/forge-scheduler/src/scheduler.rs:92-105 | the submission order keeps the newest ids up to the limit, the new job last; exactly the finished jobs among those that fall off are forgotten |
| ClusterRuns.RetentionExact | crates/forge-scheduler/src/scheduler.rs:92-105 | active jobs stay listed exactly if the oldest ones beyond the limit are finished |
| ClusterRuns.RegisterExact | crates/forge-scheduler/src/executors.rs:59-74 | after a registration the books agree exactly if no active job runs anything on that executor |
| Transport.FetchShuffle | crates/forge-executor/src/server.rs:93-120 | the chunk loop sends what its pattern of reads gives |
| Transport.ServesFile | crates/forge-executor/src/server.rs:93-120 | for any short reads the chunks concatenate to the file and exactly the final one is marked last |
| Transport.LengthMatters | crates/forge-executor/src/server.rs:87-112 | the whole file gets across under every pattern of reads exactly if the noted length is not short of it, or it is a single byte |
| Transport.DecodeAll | crates/forge-shuffle/src/client.rs:97-110 | all batches a chunk completes, or an error if it makes no sense |
| Transport.ShuffleStream.Next | crates/forge-shuffle/src/client.rs:80-122 | yields what is still to come, one item a call, none lost, repeated or reordered |
| Transport.FetchYieldsFile | crates/forge-shuffle/src/client.rs:77-123 | fetching yields the file's batches in order for any chunk boundaries |
| Transport.FailureShows | crates/forge-executor/src/server.rs:97-103 | a read failure shows as an error after the batches before it, never as the end |
| Streaming.StreamBatches | crates/forge-driver/src/server.rs:310-349 | exactly the first rows up to the limit, no empty batch, the right count; a plan failure is an error unless the limit came first |
| Streaming.QueryStream.Next | crates/forge-client/src/lib.rs:59-90 | yields the events still to come, one a call |
| Streaming.ResponseEvents | crates/forge-client/src/lib.rs:59-90 | the client sees the schema once, before any batch, then the kept batches in order, then the count |
| Streaming.Collect | crates/forge-client/src/lib.rs:96-116 | the fold of all events, or the first failure |
| Streaming.ResponseCollected | crates/forge-client/src/lib.rs:96-116 | collecting gives back exactly the kept batches, the schema and the count |
| Streaming.FailureIsSeen | crates/forge-client/src/lib.rs:59-116 | a query that fails on the way is never taken for a complete one |
| Streaming.LimitExact | crates/forge-driver/src/server.rs:316-340 | a limit lets through the first rows, as many as it allows or there are |
| Queries.AllFetched | crates/forge-driver/src/server.rs:264-272 | fetching the files of a result in chunks, under any pattern of reads, yields the batches its locations stand for, partition after partition |
| Queries.SendAnswer | crates/forge-driver/src/server.rs:264-280 | the driver sends the first rows of what it fetches, in order, and ends with their number, or, exactly if a fetch fails before the limit is reached, with an error the client sees; if all fetches work these are the first rows of the result partitions |
| Queries.ClientCollectsPlan | crates/forge-driver/src/server.rs:241-281 | for every completed query and limit the client collects the first rows of the submitted plan's output, and their number |
| Queries.ClientCollectsLocal | crates/forge-driver/src/server.rs:241-281 | and these are the rows of running the plan in one process, for row-wise operators and no round robin over a thinned-out stream |
| Glob.GlobLike | crates/lakeforge-api/src/api/catalog.rs:1252-1274 | the loop accepts exactly what matches and, unless the pattern ends in a wildcard, has no matching proper prefix |
| Glob.CasesMatch | crates/lakeforge-api/src/api/catalog.rs:1252-1262 | ignoring case pairs each ASCII capital with its small letter and nothing else |
| Glob.PatternFirst | crates/lakeforge-api/src/api/catalog.rs:1252-1258 | both '*' and '%' stand for any run of characters, any other character for itself |
| Glob.MatchesIsLaid | crates/lakeforge-api/src/api/catalog.rs:1257-1258 | matching a pattern means laying out its pieces in order |
| Glob.GreedyMinimal | crates/lakeforge-api/src/api/catalog.rs:1259-1272 | the leftmost search ends no later than any other layout |
| Glob.GreedyMatchExact | crates/lakeforge-api/src/api/catalog.rs:1252-1274 | sound for all patterns, complete for those ending in a wildcard, and the exact condition for the rest |
| Glob.LiteralEndingMisses | crates/lakeforge-api/src/api/catalog.rs:1273 | "*a" matches "aa" and is rejected |
| Renaming.Catalogs.List | crates/lakeforge-api/src/store.rs:205-228 | the documents below a name, cut off at the limit |
| Renaming.Catalogs.Rename | crates/lakeforge-api/src/api/catalog.rs:662-719 | an error and nothing changed if the name is taken; otherwise success with every listed child moved, all children listed exactly if no kind exceeds the limit, or the first child whose new name is taken stops it: that child is lost, the others have moved or stay untouched, and there is one document fewer |
| Renaming.RenameOutcome | crates/lakeforge-api/src/api/catalog.rs:684-712 | with all children within the limit, renaming succeeds exactly if no child's new name is taken; otherwise exactly one child is lost |
| Renaming.Bijective | crates/lakeforge-api/src/api/catalog.rs:684-712 | moved documents are found under their new names, each once, with their contents; everything else is untouched |
| Renaming.NothingLeft | crates/lakeforge-api/src/api/catalog.rs:684-712 | nothing is left under the old name exactly if every child was listed |
| Renaming.LeafOfRenamedCatalog | crates/lakeforge-api/src/api/catalog.rs:690-699 | a table, volume, routine or model of a renamed catalog: new catalog, same schema, matching full name and parent |
| Renaming.SchemaOfRenamedCatalog | crates/lakeforge-api/src/api/catalog.rs:690-699 | a schema of a renamed catalog: new catalog, matching full name and parent |
| Renaming.LeafOfRenamedSchema | crates/lakeforge-api/src/api/catalog.rs:690-699 | the same of a renamed schema: same catalog, new schema, matching full name and parent |
| Renaming.RootOfRename | crates/lakeforge-api/src/api/catalog.rs:662-676 | the renamed catalog or schema has the new name and full name and the same parent, and is gone from the old name |
| LocalBackends.LocalBackend.ReapRound | crates/lakeforge-cluster-manager/src/local.rs:160-188 | one poll returns exactly the pids still there or unqueryable and gives up exactly the exited handles |
| LocalBackends.LocalBackend.ReapPids | crates/lakeforge-cluster-manager/src/local.rs:229-252 | at most 41 polls, between which others may take handles away or add some; force after the grace period on exactly the survivors; success only on the first poll that finds all gone |
| LocalBackends.LocalBackend.SweepExited | crates/lakeforge-cluster-manager/src/local.rs:124-150 | removes and counts exactly the unreferenced children seen exited |
| LocalBackends.LocalBackend.PidLive | crates/lakeforge-cluster-manager/src/local.rs:269-299 | the authoritative answer for a held child, an error if it cannot be had, the probe otherwise; an exit is consumed |
| LocalBackends.LocalBackend.Terminate | crates/lakeforge-cluster-manager/src/local.rs:435-456 | success only after a poll, one of at most 41, that finds executors and driver gone, whatever others do between polls |
| LocalBackends.LocalBackend.Resize | crates/lakeforge-cluster-manager/src/local.rs:404-433 | success means exactly the target number of executors, surviving prefix and parallel ports unchanged, the removed ones gone |
| LocalBackends.ClearMeansGone | crates/lakeforge-cluster-manager/src/local.rs:215-252 | success is never false, for tracked and untracked pids, with sweeps and queries in between, and no handle of a listed pid is kept |
| LocalBackends.ClearExact | crates/lakeforge-cluster-manager/src/local.rs:160-188 | a poll succeeds exactly if every listed pid answers that it is over: the child query where a handle is held, the probe where none is |
| LocalBackends.StuckMeansThere | crates/lakeforge-cluster-manager/src/local.rs:229-252 | failure is never false either: at each of its polls some listed process was still there or did not answer |
| LocalBackends.HandlesKept | crates/lakeforge-cluster-manager/src/local.rs:160-188 | a handle is given up exactly for a listed child seen exited in a poll, or because others took it |
| LocalBackends.ReferencedStays | crates/lakeforge-cluster-manager/src/local.rs:99-150 | over any interleaving a referenced child stays until its own cluster observes the exit |

## Left out

- Operator internals, hashing, expression evaluation: uninterpreted, constrained only by partition counts.
- Plan and schema encoding: the identity; a plan that cannot be encoded is not part of this model.
- Clocks, metrics, progress counters, tracing, heartbeats and purge lists: they do not influence which tasks run or what they return.
- Connections, reconnect backoff and delivery of cancellations: cancel lists are computed, sending them is not modelled.
- Overlapping attempts writing the same file: paths carry no attempt number; a reported location keeps the contents it was reported with.
- Launch batches per executor are one list in hand-out order; only which tasks an unanswered executor holds matters.
- Fallback of a completion whose dependents do not resolve: modelled, and proved never to happen for planned jobs (JobProtocol.ReportKeeps).
- Byte counts of files and the `finish` of a writer: no decision depends on them.
- Path checks of the shuffle server and local short-cut reads: both lead to the same file contents.
- Queries run on the driver itself, DDL and EXPLAIN: they bypass the scheduler.
- Arrow framing: a stream of bytes that complete messages; dictionary batches are not distinguished.
- Renaming.Catalogs.Rename: grants, engine registration and timestamps are not modelled, and the name prefix listing is taken as exact.
- LocalBackends.LocalBackend.Resize: does not say which handles remain after a failure to spawn; new pids are whatever the operating system gives.
- Executor-side permits, task cancellation on the executor and plan relocation: the executor appears through its answers and reports.
- Delta tables, SQL sessions, authorisation, the Kubernetes backend, notebooks, SDKs and the web UI: mostly calls into libraries outside this model.
