/**
 One job among unreliable executors: launches, rejections, duplicate and stale
 reports, executor loss and cancellation, in any order.
 */
module JobProtocol {
  import opened Options
  import opened Plans
  import opened Planner
  import opened Jobs
  import opened JobInvariant

  /** A job and every attempt ever launched for it, with the plan it carried. */
  datatype System = System(job: Job, launched: map<TaskId, TaskPlan>)

  datatype Event =
    | Launch(id: TaskId, executor: ExecutorId)
    | Requeue(id: TaskId)
    | Report(id: TaskId, executor: ExecutorId, outputs: seq<Location>)
    | Failure(id: TaskId, error: string)
    | Lost(executor: ExecutorId)
    | CancelJob

  ghost predicate IsPending(j: Job, id: TaskId) {
    && id.job == j.jobId
    && 1 <= id.stage <= |j.stages|
    && j.stages[id.stage - 1].encodedPlan.Some?
    && PendingTask(id.stage, id.partition, id.attempt, j.stages[id.stage - 1].encodedPlan.value) in PendingTasks(j)
  }

  /** Only pending tasks are launched.  Reports speak of launched attempts, any
      number of times and from any executor, and a completion carries what
      the launched plan writes. */
  ghost predicate Enabled(e: Engine, s: System, ev: Event) {
    match ev
    case Launch(id, _) => IsPending(s.job, id)
    case Report(id, x, outputs) => id in s.launched && RunTask(e, s.launched[id], id.partition, x) == Some(outputs)
    case Failure(id, _) => id in s.launched
    case _ => true
  }

  ghost function Apply(s: System, ev: Event): System {
    match ev
    case Launch(id, x) =>
      var job := MarkRunning(s.job, id.stage, id.partition, id.attempt, x);
      if 1 <= id.stage <= |s.job.stages| && s.job.stages[id.stage - 1].encodedPlan.Some?
      then System(job, s.launched[id := s.job.stages[id.stage - 1].encodedPlan.value])
      else s.(job := job)
    case Requeue(id) => s.(job := MarkPending(s.job, id.stage, id.partition, id.attempt))
    case Report(id, x, outputs) => s.(job := TaskCompleted(s.job, id, x, outputs).job)
    case Failure(id, error) => s.(job := TaskFailed(s.job, id, error).0)
    case Lost(x) => s.(job := ExecutorLost(s.job, x).0)
    case CancelJob => s.(job := Cancel(s.job).0)
  }

  ghost predicate SystemInv(e: Engine, plan: Plan, s: System) {
    JobInv(e, plan, s.job) && LaunchesInv(s.job, s.launched)
  }

  // ---------------------------------------------------------------- what pending means

  lemma {:induction false} InPendingOf(st: StageState, n: nat, x: PendingTask)
    requires n <= |st.tasks| && InOrder(st)
    ensures x in PendingOf(st, n) <==>
      && st.status.Runnable? && st.encodedPlan == Some(x.plan) && x.stage == st.stage.id
      && x.partition < n && st.tasks[x.partition].state.Pending? && st.tasks[x.partition].attempt == x.attempt
  {
    if n > 0 && st.status.Runnable? && st.encodedPlan.Some? {
      InPendingOf(st, n - 1, x);
      var t := st.tasks[n - 1];
      InAppend(PendingOf(st, n - 1),
        if t.state.Pending? then [PendingTask(st.stage.id, t.partition, t.attempt, st.encodedPlan.value)] else [], x);
    }
  }

  ghost predicate WellNumbered(stages: seq<StageState>) {
    forall i :: 0 <= i < |stages| ==> stages[i].stage.id == i + 1 && InOrder(stages[i])
  }

  lemma {:induction false} InPendingUpTo(stages: seq<StageState>, n: nat, x: PendingTask)
    requires n <= |stages| && WellNumbered(stages)
    ensures x in PendingUpTo(stages, n) <==>
      1 <= x.stage <= n && x in PendingOf(stages[x.stage - 1], |stages[x.stage - 1].tasks|)
  {
    if n > 0 {
      InPendingUpTo(stages, n - 1, x);
      InPendingOf(stages[n - 1], |stages[n - 1].tasks|, x);
      InAppend(PendingUpTo(stages, n - 1), PendingOf(stages[n - 1], |stages[n - 1].tasks|), x);
    }
  }

  lemma InvNumbered(e: Engine, plan: Plan, j: Job)
    requires Original(plan) && JobInv(e, plan, j)
    ensures WellNumbered(j.stages)
  {
    StagesFormTree(e, plan);
    forall i | 0 <= i < |j.stages|
      ensures j.stages[i].stage.id == i + 1 && InOrder(j.stages[i])
    {
      assert StageInv(e, j.stages[i], PlanStages(e, plan)[i], CompletedOutputs(j.stages));
    }
  }

  lemma PendingInStage(stages: seq<StageState>, x: PendingTask)
    requires WellNumbered(stages)
    ensures x in PendingUpTo(stages, |stages|) <==>
      && 1 <= x.stage <= |stages|
      && var st := stages[x.stage - 1];
         && st.status.Runnable? && st.encodedPlan == Some(x.plan) && x.partition < |st.tasks|
         && st.tasks[x.partition].state.Pending? && st.tasks[x.partition].attempt == x.attempt
  {
    InPendingUpTo(stages, |stages|, x);
    if 1 <= x.stage <= |stages| {
      InPendingOf(stages[x.stage - 1], |stages[x.stage - 1].tasks|, x);
    }
  }

  lemma NotBlockedEncoded(e: Engine, plan: Plan, j: Job, s: nat)
    requires JobInv(e, plan, j) && 1 <= s <= |j.stages| && !j.stages[s - 1].status.Blocked?
    ensures j.stages[s - 1].encodedPlan.Some?
  {
    assert StageInv(e, j.stages[s - 1], PlanStages(e, plan)[s - 1], CompletedOutputs(j.stages));
  }

  ghost predicate PendingSlot(j: Job, id: TaskId) {
    && id.job == j.jobId && j.Active() && j.HasTask(id.stage, id.partition)
    && j.stages[id.stage - 1].status.Runnable?
    && j.Task(id.stage, id.partition).state.Pending? && j.Task(id.stage, id.partition).attempt == id.attempt
  }

  lemma PendingIsSlot(j: Job, id: TaskId)
    requires WellNumbered(j.stages)
    requires 1 <= id.stage <= |j.stages| && j.stages[id.stage - 1].status.Runnable? ==>
      j.stages[id.stage - 1].encodedPlan.Some?
    ensures IsPending(j, id) <==> PendingSlot(j, id)
  {
    if 1 <= id.stage <= |j.stages| && j.stages[id.stage - 1].encodedPlan.Some? {
      PendingInStage(j.stages,
                     PendingTask(id.stage, id.partition, id.attempt, j.stages[id.stage - 1].encodedPlan.value));
    }
  }

  /** The pending list holds exactly the pending slots of runnable stages. */
  lemma PendingSpec(e: Engine, plan: Plan, j: Job, id: TaskId)
    requires Original(plan) && JobInv(e, plan, j)
    ensures IsPending(j, id) <==> PendingSlot(j, id)
  {
    InvNumbered(e, plan, j);
    if 1 <= id.stage <= |j.stages| && !j.stages[id.stage - 1].status.Blocked? {
      NotBlockedEncoded(e, plan, j, id.stage);
    }
    PendingIsSlot(j, id);
  }

  // ---------------------------------------------------------------- what running means

  lemma {:induction false} InRunningOf(job: string, st: StageState, n: nat, x: ExecutorId, id: TaskId)
    requires n <= |st.tasks| && InOrder(st)
    ensures (x, id) in RunningOf(job, st, n) <==>
      && id.job == job && id.stage == st.stage.id && id.partition < n
      && st.tasks[id.partition].state == Running(x) && st.tasks[id.partition].attempt == id.attempt
  {
    if n > 0 {
      InRunningOf(job, st, n - 1, x, id);
      var t := st.tasks[n - 1];
      InAppend(RunningOf(job, st, n - 1),
        if t.state.Running? then [(t.state.executor, TaskId(job, st.stage.id, t.partition, t.attempt))] else [],
          (x, id));
    }
  }

  lemma {:induction false} InRunningUpTo(job: string, stages: seq<StageState>, n: nat, x: ExecutorId, id: TaskId)
    requires n <= |stages| && WellNumbered(stages)
    ensures (x, id) in RunningUpTo(job, stages, n) <==>
      1 <= id.stage <= n && (x, id) in RunningOf(job, stages[id.stage - 1], |stages[id.stage - 1].tasks|)
  {
    if n > 0 {
      InRunningUpTo(job, stages, n - 1, x, id);
      InRunningOf(job, stages[n - 1], |stages[n - 1].tasks|, x, id);
      InAppend(RunningUpTo(job, stages, n - 1), RunningOf(job, stages[n - 1], |stages[n - 1].tasks|), (x, id));
    }
  }

  /** The running list names exactly the running slots, each with its executor and
      current attempt: what a job that ends asks to be cancelled. */
  lemma RunningSpec(j: Job, x: ExecutorId, id: TaskId)
    requires WellNumbered(j.stages)
    ensures (x, id) in RunningTasks(j) <==>
      && id.job == j.jobId && j.HasTask(id.stage, id.partition)
      && j.Task(id.stage, id.partition).state == Running(x) && j.Task(id.stage, id.partition).attempt == id.attempt
  {
    InRunningUpTo(j.jobId, j.stages, |j.stages|, x, id);
    if 1 <= id.stage <= |j.stages| {
      InRunningOf(j.jobId, j.stages[id.stage - 1], |j.stages[id.stage - 1].tasks|, x, id);
    }
  }

  lemma LostNumbered(stages: seq<StageState>, x: ExecutorId)
    requires WellNumbered(stages)
    ensures WellNumbered(LoseStages(stages, x))
  {
    forall i | 0 <= i < |stages|
      ensures InOrder(LoseStages(stages, x)[i])
    {
      assert InOrder(stages[i]);
    }
  }

  /** Losing an executor never asks it to cancel anything, and asks every other
      executor to cancel exactly what it still runs for the job. */
  lemma LossCancels(j: Job, x: ExecutorId, y: ExecutorId, id: TaskId)
    requires WellNumbered(j.stages) && ExecutorLost(j, x).1.jobFinished
    ensures (y, id) in ExecutorLost(j, x).1.cancel <==>
      && y != x && id.job == j.jobId && j.HasTask(id.stage, id.partition)
      && j.Task(id.stage, id.partition).state == Running(y) && j.Task(id.stage, id.partition).attempt == id.attempt
  {
    var lost := j.(stages := LoseStages(j.stages, x));
    LostNumbered(j.stages, x);
    RunningSpec(lost, y, id);
  }

  // ---------------------------------------------------------------- every step keeps the invariant

  /** A quiet step keeps the whole invariant if it keeps the verdict's side. */
  lemma QuietInv(e: Engine, plan: Plan, s: System, j': Job)
    requires Original(plan) && SystemInv(e, plan, s)
    requires AllQuiet(s.job.stages, j'.stages) && j'.finalStage == s.job.finalStage && j'.jobId == s.job.jobId
    requires VerdictInv(j')
    ensures SystemInv(e, plan, s.(job := j'))
  {
    QuietStages(e, s.job.stages, j'.stages, PlanStages(e, plan));
    QuietLaunches(s.job, j', s.launched);
  }

  lemma SameFinal(j: Job, stages: seq<StageState>)
    requires 1 <= j.finalStage <= |j.stages| == |stages|
    requires stages[j.finalStage - 1] == j.stages[j.finalStage - 1]
    ensures FinalPartitions(j.(stages := stages)) == FinalPartitions(j)
  {
  }

  /** The final stage's outputs do not change once it is done. */
  lemma QuietFinal(e: Engine, plan: Plan, j: Job, stages: seq<StageState>)
    requires JobInv(e, plan, j) && AllQuiet(j.stages, stages)
    ensures StageDone(stages, j.finalStage) <==> StageDone(j.stages, j.finalStage)
    ensures StageDone(stages, j.finalStage) ==> FinalPartitions(j.(stages := stages)) == FinalPartitions(j)
  {
    QuietStages(e, j.stages, stages, PlanStages(e, plan));
    assert Quiet(j.stages[j.finalStage - 1], stages[j.finalStage - 1]);
    if StageDone(stages, j.finalStage) {
      SameFinal(j, stages);
    }
  }

  lemma WithTaskNoneFailed(j: Job, st: nat, p: nat, t: TaskSlot)
    requires j.HasTask(st, p) && NoneFailed(j.stages) && !t.state.Failed?
    ensures NoneFailed(j.WithTask(st, p, t).stages)
  {
    forall i | 0 <= i < |j.stages|
      ensures NoTaskFailed(j.WithTask(st, p, t).stages[i])
    {
      assert NoTaskFailed(j.stages[i]);
    }
  }

  lemma OneSlotQuiet(e: Engine, plan: Plan, s: System, st: nat, p: nat, t: TaskSlot, j': Job)
    requires Original(plan) && SystemInv(e, plan, s) && s.job.HasTask(st, p)
    requires QuietTask(s.job.Task(st, p), t) && !t.state.Failed? && !s.job.stages[st - 1].status.Blocked?
    requires j' == s.job.WithTask(st, p, t)
    ensures SystemInv(e, plan, s.(job := j'))
  {
    var j := s.job;
    WithTaskQuiet(j, st, p, t);
    QuietFinal(e, plan, j, j'.stages);
    if j.Active() {
      WithTaskNoneFailed(j, st, p, t);
    }
    QuietInv(e, plan, s, j');
  }

  lemma LaunchAdds(j: Job, launched: map<TaskId, TaskPlan>, id: TaskId, plan: TaskPlan)
    requires LaunchesInv(j, launched) && LaunchInv(j, id, plan)
    ensures LaunchesInv(j, launched[id := plan])
  {
  }

  lemma RunKeeps(e: Engine, plan: Plan, s: System, id: TaskId, x: ExecutorId)
    requires Original(plan) && SystemInv(e, plan, s) && IsPending(s.job, id)
    ensures SystemInv(e, plan, s.(job := MarkRunning(s.job, id.stage, id.partition, id.attempt, x)))
  {
    PendingSpec(e, plan, s.job, id);
    OneSlotQuiet(e, plan, s, id.stage, id.partition, s.job.Task(id.stage, id.partition).(state := Running(x)),
                 MarkRunning(s.job, id.stage, id.partition, id.attempt, x));
  }

  lemma LaunchKeeps(e: Engine, plan: Plan, s: System, id: TaskId, x: ExecutorId)
    requires Original(plan) && SystemInv(e, plan, s) && IsPending(s.job, id)
    ensures SystemInv(e, plan, Apply(s, Launch(id, x)))
  {
    PendingSpec(e, plan, s.job, id);
    RunKeeps(e, plan, s, id, x);
    var j' := MarkRunning(s.job, id.stage, id.partition, id.attempt, x);
    LaunchAdds(j', s.launched, id, j'.stages[id.stage - 1].encodedPlan.value);
  }

  lemma RunningNotBlocked(e: Engine, plan: Plan, j: Job, s: nat, p: nat)
    requires JobInv(e, plan, j) && j.HasTask(s, p) && !j.Task(s, p).state.Pending?
    ensures !j.stages[s - 1].status.Blocked?
  {
    assert StageInv(e, j.stages[s - 1], PlanStages(e, plan)[s - 1], CompletedOutputs(j.stages));
  }

  lemma RequeueKeeps(e: Engine, plan: Plan, s: System, id: TaskId)
    requires Original(plan) && SystemInv(e, plan, s)
    ensures SystemInv(e, plan, s.(job := MarkPending(s.job, id.stage, id.partition, id.attempt)))
  {
    var j := s.job;
    if j.HasTask(id.stage, id.partition) && j.Task(id.stage, id.partition).state.Running? {
      RunningNotBlocked(e, plan, j, id.stage, id.partition);
      var t := j.Task(id.stage, id.partition).(state := Pending);
      OneSlotQuiet(e, plan, s, id.stage, id.partition, t, j.WithTask(id.stage, id.partition, t));
    }
  }

  lemma LaunchedNotBlocked(s: System, id: TaskId)
    requires LaunchesInv(s.job, s.launched) && id in s.launched
    ensures 1 <= id.stage <= |s.job.stages| && !s.job.stages[id.stage - 1].status.Blocked?
  {
    assert LaunchInv(s.job, id, s.launched[id]);
  }

  lemma RetrySlot(j: Job, id: TaskId) returns (t: TaskSlot)
    requires Accepts(j, id)
    ensures Retry(j, id) == j.WithTask(id.stage, id.partition, t)
    ensures QuietTask(j.Task(id.stage, id.partition), t) && t.state.Pending?
  {
    var was := j.Task(id.stage, id.partition);
    t := was.(attempt := was.attempt + 1, state := Pending);
  }

  lemma RetryKeeps(e: Engine, plan: Plan, s: System, id: TaskId)
    requires Original(plan) && SystemInv(e, plan, s) && id in s.launched && Accepts(s.job, id)
    ensures SystemInv(e, plan, s.(job := Retry(s.job, id)))
  {
    LaunchedNotBlocked(s, id);
    var t := RetrySlot(s.job, id);
    OneSlotQuiet(e, plan, s, id.stage, id.partition, t, Retry(s.job, id));
  }

  lemma AcceptedIsRunnable(e: Engine, plan: Plan, j: Job, id: TaskId)
    requires JobInv(e, plan, j) && Accepts(j, id) && !j.stages[id.stage - 1].status.Blocked?
    ensures j.stages[id.stage - 1].status.Runnable?
  {
    NotYetComplete(j, id);
    assert StageInv(e, j.stages[id.stage - 1], PlanStages(e, plan)[id.stage - 1], CompletedOutputs(j.stages));
    assert NoTaskFailed(j.stages[id.stage - 1]);
  }

  lemma GiveUpQuiet(e: Engine, plan: Plan, s: System, id: TaskId, error: string)
    requires JobInv(e, plan, s.job) && Accepts(s.job, id) && !s.job.stages[id.stage - 1].status.Blocked?
    ensures AllQuiet(s.job.stages, GiveUp(s.job, id, error).stages)
  {
    AcceptedIsRunnable(e, plan, s.job, id);
    var before, after := s.job.stages, GiveUp(s.job, id, error).stages;
    forall i | 0 <= i < |before|
      ensures Quiet(before[i], after[i])
    {
    }
  }

  lemma GiveUpKeeps(e: Engine, plan: Plan, s: System, id: TaskId, error: string)
    requires Original(plan) && SystemInv(e, plan, s) && id in s.launched && Accepts(s.job, id)
    ensures SystemInv(e, plan, s.(job := FinishErr(GiveUp(s.job, id, error), TaskGaveUp(id, error))))
  {
    assert LaunchInv(s.job, id, s.launched[id]);
    GiveUpQuiet(e, plan, s, id, error);
    QuietInv(e, plan, s, FinishErr(GiveUp(s.job, id, error), TaskGaveUp(id, error)));
  }

  lemma FailureKeeps(e: Engine, plan: Plan, s: System, id: TaskId, error: string)
    requires Original(plan) && SystemInv(e, plan, s) && id in s.launched
    ensures SystemInv(e, plan, s.(job := TaskFailed(s.job, id, error).0))
  {
    if Accepts(s.job, id) {
      if s.job.Task(id.stage, id.partition).attempt < s.job.maxRetries {
        RetryKeeps(e, plan, s, id);
      } else {
        GiveUpKeeps(e, plan, s, id, error);
      }
    }
  }

  lemma LostQuiet(e: Engine, plan: Plan, j: Job, x: ExecutorId)
    requires JobInv(e, plan, j)
    ensures AllQuiet(j.stages, LoseStages(j.stages, x))
  {
    forall i | 0 <= i < |j.stages|
      ensures Quiet(j.stages[i], LoseStages(j.stages, x)[i])
    {
      assert StageInv(e, j.stages[i], PlanStages(e, plan)[i], CompletedOutputs(j.stages));
    }
  }

  lemma LostNoneFailed(stages: seq<StageState>, x: ExecutorId)
    requires NoneFailed(stages)
    ensures NoneFailed(LoseStages(stages, x))
  {
    forall i | 0 <= i < |stages|
      ensures NoTaskFailed(LoseStages(stages, x)[i])
    {
      assert NoTaskFailed(stages[i]);
    }
  }

  lemma LostKeeps(e: Engine, plan: Plan, s: System, x: ExecutorId)
    requires Original(plan) && SystemInv(e, plan, s)
    ensures SystemInv(e, plan, s.(job := ExecutorLost(s.job, x).0))
  {
    var j := s.job;
    if j.Active() {
      var stages := LoseStages(j.stages, x);
      LostQuiet(e, plan, j, x);
      QuietFinal(e, plan, j, stages);
      LostNoneFailed(j.stages, x);
      QuietInv(e, plan, s, ExecutorLost(j, x).0);
    }
  }

  lemma AllQuietRefl(stages: seq<StageState>)
    ensures AllQuiet(stages, stages)
  {
  }

  lemma CancelKeeps(e: Engine, plan: Plan, s: System)
    requires Original(plan) && SystemInv(e, plan, s)
    ensures SystemInv(e, plan, s.(job := Cancel(s.job).0))
  {
    if s.job.Active() {
      AllQuietRefl(s.job.stages);
      QuietInv(e, plan, s, Cancel(s.job).0);
    }
  }

  // ---------------------------------------------------------------- completion reports

  lemma LaunchedIsHonest(e: Engine, plan: Plan, s: System, id: TaskId, x: ExecutorId, outputs: seq<Location>)
    requires SystemInv(e, plan, s) && Enabled(e, s, Report(id, x, outputs))
    ensures ReportHonest(e, s.job, id, x, outputs)
  {
    assert LaunchInv(s.job, id, s.launched[id]);
  }

  /** Slots and plans of the launched stages survive a completion. */
  ghost predicate KeepsLaunches(stages: seq<StageState>, stages': seq<StageState>) {
    && |stages'| == |stages|
    && forall i :: 0 <= i < |stages| ==>
         && |stages'[i].tasks| == |stages[i].tasks|
         && (!stages[i].status.Blocked? ==>
           !stages'[i].status.Blocked? && stages'[i].encodedPlan == stages[i].encodedPlan)
         && forall p :: 0 <= p < |stages[i].tasks| ==> stages'[i].tasks[p].attempt == stages[i].tasks[p].attempt
  }

  lemma LaunchesKept(j: Job, j': Job, launched: map<TaskId, TaskPlan>)
    requires LaunchesInv(j, launched) && j'.jobId == j.jobId && KeepsLaunches(j.stages, j'.stages)
    ensures LaunchesInv(j', launched)
  {
    forall id | id in launched
      ensures LaunchInv(j', id, launched[id])
    {
      assert LaunchInv(j, id, launched[id]);
    }
  }

  lemma RecordedNoneFailed(j: Job, id: TaskId, x: ExecutorId, outputs: seq<Location>)
    requires NoneFailed(j.stages) && Accepts(j, id)
    ensures NoneFailed(Recorded(j, id, x, outputs).stages)
  {
    var j' := Recorded(j, id, x, outputs);
    forall i | 0 <= i < |j'.stages|
      ensures NoTaskFailed(j'.stages[i])
    {
      assert NoTaskFailed(j.stages[i]);
    }
  }

  lemma RecordKeepsLaunches(j: Job, id: TaskId, x: ExecutorId, outputs: seq<Location>)
    requires Accepts(j, id)
    ensures KeepsLaunches(j.stages, Recorded(j, id, x, outputs).stages)
  {
  }

  lemma RecordKeeps(e: Engine, plan: Plan, s: System, id: TaskId, x: ExecutorId, outputs: seq<Location>)
    requires Original(plan) && SystemInv(e, plan, s) && Enabled(e, s, Report(id, x, outputs)) && Accepts(s.job, id)
    requires !IsComplete(Recorded(s.job, id, x, outputs).stages[id.stage - 1])
    ensures SystemInv(e, plan, s.(job := Recorded(s.job, id, x, outputs)))
  {
    var j, j' := s.job, Recorded(s.job, id, x, outputs);
    LaunchedIsHonest(e, plan, s, id, x, outputs);
    RecordInv(e, j, PlanStages(e, plan), id, x, outputs);
    RecordedNoneFailed(j, id, x, outputs);
    RecordKeepsLaunches(j, id, x, outputs);
    LaunchesKept(j, j', s.launched);
  }

  /** How stage number `i` comes out of closing stage `s`. */
  ghost predicate OneCloses(st: StageState, st': StageState, closing: bool) {
    && NoTaskFailed(st')
    && |st'.tasks| == |st.tasks|
    && (!st.status.Blocked? ==> !st'.status.Blocked? && st'.encodedPlan == st.encodedPlan)
    && (forall p :: 0 <= p < |st.tasks| ==> st'.tasks[p].attempt == st.tasks[p].attempt)
    && (st'.status.StageCompleted? <==> closing || st.status.StageCompleted?)
  }

  lemma UntouchedCloses(st: StageState, st': StageState)
    requires UntouchedOrOpened(st, st') && NoTaskFailed(st)
    ensures OneCloses(st, st', false)
  {
  }

  lemma RecordedCloses(j: Job, id: TaskId, x: ExecutorId, outputs: seq<Location>)
    requires Accepts(j, id) && NoneFailed(j.stages) && !j.stages[id.stage - 1].status.Blocked?
    ensures OneCloses(j.stages[id.stage - 1], Closed(Recorded(j, id, x, outputs), id.stage).stages[id.stage - 1], true)
  {
    assert NoTaskFailed(j.stages[id.stage - 1]);
  }

  lemma EachOneCloses(j: Job, id: TaskId, x: ExecutorId, outputs: seq<Location>, r: seq<StageState>)
    requires Accepts(j, id) && NoneFailed(j.stages) && !j.stages[id.stage - 1].status.Blocked?
    requires |r| == |j.stages|
    requires r[id.stage - 1] == Closed(Recorded(j, id, x, outputs), id.stage).stages[id.stage - 1]
    requires forall k: nat :: k < |r| && k != id.stage - 1 ==> UntouchedOrOpened(j.stages[k], r[k])
    ensures forall i: nat :: i < |r| ==> OneCloses(j.stages[i], r[i], i == id.stage - 1)
  {
    RecordedCloses(j, id, x, outputs);
    forall i: nat | i < |r|
      ensures OneCloses(j.stages[i], r[i], i == id.stage - 1)
    {
      if i != id.stage - 1 {
        assert NoTaskFailed(j.stages[i]);
        UntouchedCloses(j.stages[i], r[i]);
      }
    }
  }

  ghost function ClosedBy(j: Job, id: TaskId, x: ExecutorId, outputs: seq<Location>): seq<StageState>
    requires j.HasTask(id.stage, id.partition)
  {
    Closed(Recorded(j, id, x, outputs), id.stage).stages
  }

  lemma ClosedSteps(e: Engine, plan: Plan, s: System, id: TaskId, x: ExecutorId, outputs: seq<Location>)
    requires ValidEngine(e) && Original(plan) && SystemInv(e, plan, s)
    requires Enabled(e, s, Report(id, x, outputs)) && Accepts(s.job, id)
    requires IsComplete(Recorded(s.job, id, x, outputs).stages[id.stage - 1])
    ensures var closed := ClosedBy(s.job, id, x, outputs);
      var (r, ok) := UnblockDependents(closed, id.stage);
      && ok && StagesInv(e, r, PlanStages(e, plan))
      && r[id.stage - 1] == closed[id.stage - 1]
      && (forall k: nat :: k < |r| && k != id.stage - 1 ==> UntouchedOrOpened(s.job.stages[k], r[k]))
    ensures !s.job.stages[id.stage - 1].status.Blocked?
  {
    StagesFormTree(e, plan);
    LaunchedIsHonest(e, plan, s, id, x, outputs);
    ReportCloses(e, s.job, PlanStages(e, plan), id, x, outputs);
    CloseInv(e, s.job.stages, ClosedBy(s.job, id, x, outputs), PlanStages(e, plan), id.stage);
  }

  /** The stage list after closing a stage. */
  lemma ClosedKeeps(e: Engine, plan: Plan, s: System, id: TaskId, x: ExecutorId, outputs: seq<Location>)
    requires ValidEngine(e) && Original(plan) && SystemInv(e, plan, s)
    requires Enabled(e, s, Report(id, x, outputs)) && Accepts(s.job, id)
    requires IsComplete(Recorded(s.job, id, x, outputs).stages[id.stage - 1])
    ensures var o := CompleteStage(Recorded(s.job, id, x, outputs), id.stage);
      && o.ok
      && StagesInv(e, o.job.stages, PlanStages(e, plan))
      && |o.job.stages| == |s.job.stages|
      && forall i: nat :: i < |s.job.stages| ==> OneCloses(s.job.stages[i], o.job.stages[i], i == id.stage - 1)
  {
    ClosedSteps(e, plan, s, id, x, outputs);
    var r := UnblockDependents(ClosedBy(s.job, id, x, outputs), id.stage).0;
    EachOneCloses(s.job, id, x, outputs, r);
    assert CompleteStage(Recorded(s.job, id, x, outputs), id.stage).job.stages == r;
  }

  /** With the stage list of a closing in place, the verdict follows. */
  lemma ClosedVerdict(j: Job, s: nat, j': Job)
    requires 1 <= j.finalStage <= |j.stages| && VerdictInv(j) && j.Active() && 1 <= s <= |j.stages|
    requires |j'.stages| == |j.stages| && j'.finalStage == j.finalStage
    requires forall i: nat :: i < |j.stages| ==> OneCloses(j.stages[i], j'.stages[i], i == s - 1)
    requires j' == if s == j.finalStage then FinishOk(j.(stages := j'.stages)) else j.(stages := j'.stages)
    ensures VerdictInv(j') && KeepsLaunches(j.stages, j'.stages)
  {
    assert OneCloses(j.stages[j.finalStage - 1], j'.stages[j.finalStage - 1], j.finalStage == s);
    forall i: nat | i < |j.stages|
      ensures NoTaskFailed(j'.stages[i])
    {
      assert OneCloses(j.stages[i], j'.stages[i], i == s - 1);
    }
    assert FinalPartitions(j') == FinalPartitions(j.(stages := j'.stages));
  }

  lemma ReportKeeps(e: Engine, plan: Plan, s: System, id: TaskId, x: ExecutorId, outputs: seq<Location>)
    requires ValidEngine(e) && Original(plan) && SystemInv(e, plan, s) && Enabled(e, s, Report(id, x, outputs))
    ensures SystemInv(e, plan, s.(job := TaskCompleted(s.job, id, x, outputs).job))
    ensures TaskCompleted(s.job, id, x, outputs).ok
  {
    if Accepts(s.job, id) {
      var recorded := Recorded(s.job, id, x, outputs);
      if IsComplete(recorded.stages[id.stage - 1]) {
        ClosedKeeps(e, plan, s, id, x, outputs);
        var j' := CompleteStage(recorded, id.stage).job;
        ClosedVerdict(s.job, id.stage, j');
        LaunchesKept(s.job, j', s.launched);
      } else {
        RecordKeeps(e, plan, s, id, x, outputs);
      }
    }
  }

  /** Every step of the protocol keeps the invariant. */
  lemma StepKeeps(e: Engine, plan: Plan, s: System, ev: Event)
    requires ValidEngine(e) && Original(plan) && SystemInv(e, plan, s) && Enabled(e, s, ev)
    ensures SystemInv(e, plan, Apply(s, ev))
  {
    match ev
    case Launch(id, x) => LaunchKeeps(e, plan, s, id, x);
    case Requeue(id) => RequeueKeeps(e, plan, s, id);
    case Report(id, x, outputs) => ReportKeeps(e, plan, s, id, x, outputs);
    case Failure(id, error) => FailureKeeps(e, plan, s, id, error);
    case Lost(x) => LostKeeps(e, plan, s, x);
    case CancelJob => CancelKeeps(e, plan, s);
  }
}
