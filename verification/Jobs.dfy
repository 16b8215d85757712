/**
 The state machine of one job: stages, tasks and attempts.

 Every operation is given twice: as a function on `Job` values, which the
 protocol proofs use, and as a method of the class `JobState`, which updates
 its fields in place and is proved to do what the function says.
 */
module Jobs {
  import opened Options
  import opened Plans
  import opened Exchanges
  import opened Planner

  type ExecutorId = string

  datatype TaskId = TaskId(job: string, stage: nat, partition: nat, attempt: nat)

  datatype TaskState =
    | Pending
    | Running(executor: ExecutorId)
    | Completed(executor: ExecutorId)
    | Failed(error: string)

  datatype TaskSlot = TaskSlot(partition: nat, attempt: nat, state: TaskState, outputs: seq<Location>)

  datatype StageStatus = Blocked | Runnable | StageCompleted | StageFailed

  /** The resolved writer plan every task of a stage receives. */
  datatype TaskPlan = TaskPlan(input: Plan, partitioning: Option<Partitioning>)

  datatype StageState = StageState(stage: Stage, status: StageStatus, encodedPlan: Option<TaskPlan>,
    tasks: seq<TaskSlot>)

  datatype Reason = TaskGaveUp(id: TaskId, error: string) | OutputsLost(executor: ExecutorId)

  datatype JobStatus = JobRunning | JobCompleted | JobFailed(reason: Reason) | JobCancelled

  /** What the submitter hears. */
  datatype Verdict = Result(partitions: seq<seq<Location>>) | ExecutionError(reason: Reason) | CancelledError

  /** `stages[i]` is the state of the stage with id i + 1, the order in which the
      stage map is walked; `sent` lists the verdicts sent so far. */
  datatype Job = Job(
    jobId: string, maxRetries: nat, status: JobStatus, stages: seq<StageState>,
    finalStage: nat, resultTx: bool, sent: seq<Verdict>)
  {
    predicate Active() {
      status.JobRunning?
    }

    predicate HasTask(s: nat, p: nat) {
      1 <= s <= |stages| && p < |stages[s - 1].tasks|
    }

    function Task(s: nat, p: nat): TaskSlot
      requires HasTask(s, p)
    {
      stages[s - 1].tasks[p]
    }

    function WithTask(s: nat, p: nat, t: TaskSlot): Job
      requires HasTask(s, p)
    {
      var st := stages[s - 1];
      this.(stages := stages[s - 1 := st.(tasks := st.tasks[p := t])])
    }
  }

  datatype Transition = Transition(stagesCompleted: seq<nat>, jobFinished: bool, cancel: seq<(ExecutorId, TaskId)>)

  const IDLE := Transition([], false, [])

  // ---------------------------------------------------------------- stages

  function NewTasks(n: nat): seq<TaskSlot> {
    seq(n, p requires 0 <= p => TaskSlot(p, 0, Pending, []))
  }

  function NewStageState(stage: Stage): StageState {
    StageState(stage, if |stage.dependsOn| == 0 then Runnable else Blocked, None, NewTasks(stage.numTasks))
  }

  function OutputLists(tasks: seq<TaskSlot>): (lists: seq<seq<Location>>)
    ensures |lists| == |tasks|
  {
    seq(|tasks|, p requires 0 <= p < |tasks| => tasks[p].outputs)
  }

  function AllOutputs(st: StageState): seq<Location> {
    Concat(OutputLists(st.tasks))
  }

  predicate IsComplete(st: StageState) {
    forall p :: 0 <= p < |st.tasks| ==> st.tasks[p].state.Completed?
  }

  predicate StageDone(stages: seq<StageState>, id: nat) {
    1 <= id <= |stages| && stages[id - 1].status.StageCompleted?
  }

  /** Locations of the completed stages, by stage id. */
  function CompletedOutputs(stages: seq<StageState>): Outputs {
    map id: nat | 1 <= id <= |stages| && StageDone(stages, id) :: AllOutputs(stages[id - 1])
  }

  // ---------------------------------------------------------------- preparing stages

  /** Resolve the stage's shuffles; nothing changes if that fails. */
  function PrepareStage(stages: seq<StageState>, sid: nat): (r: Option<seq<StageState>>)
    ensures r.Some? ==> |r.value| == |stages|
  {
    if !(1 <= sid <= |stages|) then None
    else
      var st := stages[sid - 1];
      match Resolve(st.stage.input, CompletedOutputs(stages))
      case Resolved(input) =>
        Some(stages[sid - 1 := st.(encodedPlan := Some(TaskPlan(input, st.stage.partitioning)), status := Runnable)])
      case _ => None
  }

  /** Prepare in order, stopping at the first failure. */
  function PrepareAll(stages: seq<StageState>, sids: seq<nat>): (r: (seq<StageState>, bool))
    ensures |r.0| == |stages|
    decreases |sids|
  {
    if |sids| == 0 then (stages, true)
    else
      match PrepareStage(stages, sids[0])
      case Some(next) => PrepareAll(next, sids[1..])
      case None => (stages, false)
  }

  /** Ids of the first `n` stages with status Runnable. */
  function RunnableIds(stages: seq<StageState>, n: nat): seq<nat>
    requires n <= |stages|
  {
    if n == 0 then []
    else RunnableIds(stages, n - 1) + (if stages[n - 1].status.Runnable? then [n] else [])
  }

  function FreshStages(stages: seq<Stage>): (r: seq<StageState>)
    ensures |r| == |stages|
  {
    seq(|stages|, i requires 0 <= i < |stages| => NewStageState(stages[i]))
  }

  function NewJob(jobId: string, maxRetries: nat, stages: seq<Stage>): Option<Job> {
    if |stages| == 0 then None
    else
      var start := FreshStages(stages);
      var (prepared, ok) := PrepareAll(start, RunnableIds(start, |start|));
      if ok then Some(Job(jobId, maxRetries, JobRunning, prepared, stages[|stages| - 1].id, true, []))
      else None
  }

  predicate DepsCompleted(stages: seq<StageState>, st: StageState) {
    forall d :: d in st.stage.dependsOn ==> StageDone(stages, d)
  }

  predicate Unblockable(stages: seq<StageState>, st: StageState, completed: nat) {
    st.status.Blocked? && completed in st.stage.dependsOn && DepsCompleted(stages, st)
  }

  /** Which of the first `n` stages become runnable once `completed` is. */
  function Candidates(stages: seq<StageState>, completed: nat, n: nat): seq<nat>
    requires n <= |stages|
  {
    if n == 0 then []
    else Candidates(stages, completed, n - 1) + (if Unblockable(stages, stages[n - 1], completed) then [n] else [])
  }

  /** Prepare the stages that waited only for `completed`. */
  function UnblockDependents(stages: seq<StageState>, completed: nat): (r: (seq<StageState>, bool))
    ensures |r.0| == |stages|
  {
    PrepareAll(stages, Candidates(stages, completed, |stages|))
  }

  // ---------------------------------------------------------------- verdicts

  function FinalPartitions(j: Job): seq<seq<Location>>
    requires 1 <= j.finalStage <= |j.stages|
  {
    var st := j.stages[j.finalStage - 1];
    Buckets(AllOutputs(st), st.stage.ConsumerPartitions())
  }

  function Send(j: Job, v: Verdict): Job {
    if j.resultTx then j.(resultTx := false, sent := j.sent + [v]) else j
  }

  function FinishOk(j: Job): Job
    requires 1 <= j.finalStage <= |j.stages|
  {
    Send(j.(status := JobCompleted), Result(FinalPartitions(j)))
  }

  function FinishErr(j: Job, reason: Reason): Job {
    Send(j.(status := JobFailed(reason)), ExecutionError(reason))
  }

  // ---------------------------------------------------------------- queries

  datatype PendingTask = PendingTask(stage: nat, partition: nat, attempt: nat, plan: TaskPlan)

  function PendingOf(st: StageState, n: nat): seq<PendingTask>
    requires n <= |st.tasks|
  {
    if n == 0 || !st.status.Runnable? || st.encodedPlan.None? then []
    else
      var t := st.tasks[n - 1];
      PendingOf(st, n - 1) +
      (if t.state.Pending? then [PendingTask(st.stage.id, t.partition, t.attempt, st.encodedPlan.value)] else [])
  }

  function PendingUpTo(stages: seq<StageState>, n: nat): seq<PendingTask>
    requires n <= |stages|
  {
    if n == 0 then [] else PendingUpTo(stages, n - 1) + PendingOf(stages[n - 1], |stages[n - 1].tasks|)
  }

  /** Tasks ready to be launched. */
  function PendingTasks(j: Job): seq<PendingTask> {
    if !j.Active() then [] else PendingUpTo(j.stages, |j.stages|)
  }

  function RunningOf(jobId: string, st: StageState, n: nat): seq<(ExecutorId, TaskId)>
    requires n <= |st.tasks|
  {
    if n == 0 then []
    else
      var t := st.tasks[n - 1];
      RunningOf(jobId, st, n - 1) +
      (if t.state.Running? then [(t.state.executor, TaskId(jobId, st.stage.id, t.partition, t.attempt))] else [])
  }

  function RunningUpTo(jobId: string, stages: seq<StageState>, n: nat): seq<(ExecutorId, TaskId)>
    requires n <= |stages|
  {
    if n == 0 then [] else RunningUpTo(jobId, stages, n - 1) + RunningOf(jobId, stages[n - 1], |stages[n - 1].tasks|)
  }

  function RunningTasks(j: Job): seq<(ExecutorId, TaskId)> {
    RunningUpTo(j.jobId, j.stages, |j.stages|)
  }

  // ---------------------------------------------------------------- transitions

  function MarkRunning(j: Job, s: nat, p: nat, attempt: nat, e: ExecutorId): Job {
    if j.HasTask(s, p) && j.Task(s, p).attempt == attempt && j.Task(s, p).state.Pending?
    then j.WithTask(s, p, j.Task(s, p).(state := Running(e)))
    else j
  }

  function MarkPending(j: Job, s: nat, p: nat, attempt: nat): Job {
    if j.HasTask(s, p) && j.Task(s, p).attempt == attempt && j.Task(s, p).state.Running?
    then j.WithTask(s, p, j.Task(s, p).(state := Pending))
    else j
  }

  /** Whether a report about `id` is about the slot's current attempt. */
  predicate Accepts(j: Job, id: TaskId) {
    && j.Active()
    && j.HasTask(id.stage, id.partition)
    && j.Task(id.stage, id.partition).attempt == id.attempt
    && !j.Task(id.stage, id.partition).state.Completed?
  }

  function Recorded(j: Job, id: TaskId, e: ExecutorId, outputs: seq<Location>): Job
    requires j.HasTask(id.stage, id.partition)
  {
    j.WithTask(id.stage, id.partition, j.Task(id.stage, id.partition).(state := Completed(e), outputs := outputs))
  }

  function Closed(j: Job, s: nat): Job
    requires 1 <= s <= |j.stages|
  {
    j.(stages := j.stages[s - 1 := j.stages[s - 1].(status := StageCompleted)])
  }

  /** The outcome of a completion report: the new state, what to tell the
      scheduler, and whether resolving the dependents succeeded. */
  datatype Outcome = Outcome(job: Job, transition: Transition, ok: bool)

  function CompleteStage(j: Job, s: nat): Outcome
    requires 1 <= s <= |j.stages|
  {
    var closed := Closed(j, s);
    var (stages, ok) := UnblockDependents(closed.stages, s);
    var unblocked := closed.(stages := stages);
    if !ok then Outcome(unblocked, IDLE, false)
    else if s == j.finalStage then Outcome(FinishOk(unblocked), Transition([s], true, []), true)
    else Outcome(unblocked, Transition([s], false, []), true)
  }

  function TaskCompleted(j: Job, id: TaskId, e: ExecutorId, outputs: seq<Location>): Outcome {
    if !Accepts(j, id) then Outcome(j, IDLE, true)
    else
      var recorded := Recorded(j, id, e, outputs);
      if IsComplete(recorded.stages[id.stage - 1]) then CompleteStage(recorded, id.stage)
      else Outcome(recorded, IDLE, true)
  }

  function GiveUp(j: Job, id: TaskId, error: string): Job
    requires j.HasTask(id.stage, id.partition)
  {
    var failed := j.WithTask(id.stage, id.partition, j.Task(id.stage, id.partition).(state := Failed(error)));
    failed.(stages := failed.stages[id.stage - 1 := failed.stages[id.stage - 1].(status := StageFailed)])
  }

  function Retry(j: Job, id: TaskId): Job
    requires j.HasTask(id.stage, id.partition)
  {
    var t := j.Task(id.stage, id.partition);
    j.WithTask(id.stage, id.partition, t.(attempt := t.attempt + 1, state := Pending))
  }

  function TaskFailed(j: Job, id: TaskId, error: string): (Job, Transition) {
    if !Accepts(j, id) then (j, IDLE)
    else if j.Task(id.stage, id.partition).attempt < j.maxRetries then (Retry(j, id), IDLE)
    else
      var failed := GiveUp(j, id, error);
      (FinishErr(failed, TaskGaveUp(id, error)), Transition([], true, RunningTasks(failed)))
  }

  function LoseTask(t: TaskSlot, e: ExecutorId): TaskSlot {
    if t.state == Running(e) then t.(attempt := t.attempt + 1, state := Pending) else t
  }

  function LoseTasks(tasks: seq<TaskSlot>, e: ExecutorId): (r: seq<TaskSlot>)
    ensures |r| == |tasks|
  {
    seq(|tasks|, p requires 0 <= p < |tasks| => LoseTask(tasks[p], e))
  }

  function LoseStages(stages: seq<StageState>, e: ExecutorId): (r: seq<StageState>)
    ensures |r| == |stages|
  {
    seq(|stages|, i requires 0 <= i < |stages| => stages[i].(tasks := LoseTasks(stages[i].tasks, e)))
  }

  predicate HoldsOutput(st: StageState, e: ExecutorId) {
    exists p :: 0 <= p < |st.tasks| && st.tasks[p].state == Completed(e)
  }

  predicate HoldsOutputs(stages: seq<StageState>, e: ExecutorId) {
    exists i :: 0 <= i < |stages| && HoldsOutput(stages[i], e)
  }

  function ExecutorLost(j: Job, e: ExecutorId): (Job, Transition) {
    if !j.Active() then (j, IDLE)
    else
      var lost := j.(stages := LoseStages(j.stages, e));
      if HoldsOutputs(j.stages, e)
      then (FinishErr(lost, OutputsLost(e)), Transition([], true, RunningTasks(lost)))
      else (lost, IDLE)
  }

  function Cancel(j: Job): (Job, Transition) {
    if !j.Active() then (j, IDLE)
    else (Send(j.(status := JobCancelled), CancelledError), Transition([], true, RunningTasks(j)))
  }

  // ---------------------------------------------------------------- what a launched task reports

  /** The locations an executor reports for partition `p`; nothing for a partition
      the plan does not have. */
  function RunTask(e: Engine, plan: TaskPlan, p: nat, executor: ExecutorId): Option<seq<Location>> {
    if !Executable(plan.input) then None
    else
      var ins := Eval(e, false, plan.input);
      if p >= |ins| then None else Some(TaskOutput(e, plan.partitioning, p, |ins|, ins[p], executor))
  }
}
