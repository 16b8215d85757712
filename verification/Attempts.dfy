/**
 What becomes of attempts: when a task is tried again, what makes a report
 stale, whom a job that ends asks to stop, and why a job ended.
 */
module Attempts {
  import opened Options
  import opened Plans
  import opened Planner
  import opened Jobs
  import opened JobInvariant
  import opened JobProtocol
  import opened JobRuns

  /** Only slot (s, p) may differ between the two jobs. */
  ghost predicate OthersSame(j: Job, j': Job, s: nat, p: nat) {
    && |j'.stages| == |j.stages|
    && forall t: nat, q: nat :: j.HasTask(t, q) && !(t == s && q == p) ==> SameSlot(j, j', t, q)
  }

  // ---------------------------------------------------------------- failing

  /** An accepted failure costs the job its life exactly if the attempt was the last one
      allowed; otherwise the task waits again, one attempt further. */
  lemma FailureExact(j: Job, id: TaskId, error: string)
    requires Accepts(j, id)
    ensures var j' := TaskFailed(j, id, error).0;
      && (j'.Active() <==> id.attempt < j.maxRetries)
      && j'.maxRetries == j.maxRetries && OthersSame(j, j', id.stage, id.partition)
      && j'.HasTask(id.stage, id.partition)
      && var t, t' := j.Task(id.stage, id.partition), j'.Task(id.stage, id.partition);
         if id.attempt < j.maxRetries
         then t' == t.(attempt := id.attempt + 1, state := Pending) && j'.sent == j.sent
         else
           && t' == t.(state := Failed(error)) && j'.status == JobFailed(TaskGaveUp(id, error))
           && j'.stages[id.stage - 1].status.StageFailed?
           && j'.sent == j.sent + if j.resultTx then [ExecutionError(TaskGaveUp(id, error))] else []
  {
  }

  /** A job that gives up asks exactly the executors of its other running tasks to stop them. */
  lemma GivingUpCancels(j: Job, id: TaskId, error: string, y: ExecutorId, other: TaskId)
    requires WellNumbered(j.stages) && Accepts(j, id) && j.maxRetries <= id.attempt
    ensures (y, other) in TaskFailed(j, id, error).1.cancel <==>
      && other.job == j.jobId && j.HasTask(other.stage, other.partition)
      && !(other.stage == id.stage && other.partition == id.partition)
      && j.Task(other.stage, other.partition).state == Running(y)
      && j.Task(other.stage, other.partition).attempt == other.attempt
  {
    var failed := GiveUp(j, id, error);
    forall i | 0 <= i < |failed.stages|
      ensures failed.stages[i].stage.id == i + 1 && InOrder(failed.stages[i])
    {
      assert InOrder(j.stages[i]);
    }
    RunningSpec(failed, y, other);
  }

  /** A job that is cancelled asks exactly the executors of its running tasks to stop them. */
  lemma CancellingCancels(j: Job, y: ExecutorId, id: TaskId)
    requires WellNumbered(j.stages)
    ensures (y, id) in Cancel(j).1.cancel <==>
      && j.Active() && id.job == j.jobId && j.HasTask(id.stage, id.partition)
      && j.Task(id.stage, id.partition).state == Running(y) && j.Task(id.stage, id.partition).attempt == id.attempt
  {
    RunningSpec(j, y, id);
  }

  // ---------------------------------------------------------------- losing an executor

  ghost predicate RanOn(j: Job, s: nat, p: nat, x: ExecutorId) {
    j.HasTask(s, p) && j.Task(s, p).state == Running(x)
  }

  ghost predicate DoneOn(j: Job, s: nat, p: nat, x: ExecutorId) {
    j.HasTask(s, p) && j.Task(s, p).state == Completed(x)
  }

  /** A loss ends an active job exactly if some task was completed there; the tasks
      that ran there wait again, one attempt further, and no other slot changes. */
  lemma LossExact(j: Job, x: ExecutorId)
    requires j.Active()
    ensures var j' := ExecutorLost(j, x).0;
      && (j'.Active() <==> forall s: nat, p: nat :: !DoneOn(j, s, p, x))
      && (!j'.Active() ==> j'.status == JobFailed(OutputsLost(x)))
      && j'.sent == j.sent + (if j'.Active() || !j.resultTx then [] else [ExecutionError(OutputsLost(x))])
  {
    if HoldsOutputs(j.stages, x) {
      var i :| 0 <= i < |j.stages| && HoldsOutput(j.stages[i], x);
      var p: nat :| p < |j.stages[i].tasks| && j.stages[i].tasks[p].state == Completed(x);
      assert DoneOn(j, i + 1, p, x);
    }
    forall s: nat, p: nat | DoneOn(j, s, p, x)
      ensures HoldsOutputs(j.stages, x)
    {
      assert HoldsOutput(j.stages[s - 1], x);
    }
  }

  /** That is so even when every stage reading the lost output is finished, so that nobody
      needs it any more. */
  lemma ReadOutputsStillCount(j: Job, x: ExecutorId, s: nat, p: nat)
    requires j.Active() && DoneOn(j, s, p, x)
    requires forall i :: 0 <= i < |j.stages| && s in j.stages[i].stage.dependsOn ==> j.stages[i].status.StageCompleted?
    ensures ExecutorLost(j, x).0.status == JobFailed(OutputsLost(x))
  {
    LossExact(j, x);
  }

  lemma LossSlots(j: Job, x: ExecutorId, s: nat, p: nat)
    requires j.Active() && j.HasTask(s, p)
    ensures var j', t := ExecutorLost(j, x).0, j.Task(s, p);
      && j'.HasTask(s, p)
      && j'.Task(s, p) == if RanOn(j, s, p, x) then t.(attempt := t.attempt + 1, state := Pending) else t
  {
  }

  /** Whatever still arrives from a lost executor about what it ran is stale. */
  lemma LossMakesStale(j: Job, x: ExecutorId, id: TaskId, y: ExecutorId, outputs: seq<Location>, error: string)
    requires j.Active() && RanOn(j, id.stage, id.partition, x) && j.Task(id.stage, id.partition).attempt == id.attempt
    ensures var j' := ExecutorLost(j, x).0;
      && !Accepts(j', id)
      && TaskCompleted(j', id, y, outputs).job == j' && TaskFailed(j', id, error).0 == j'
      && MarkPending(j', id.stage, id.partition, id.attempt) == j'
  {
    LossSlots(j, x, id.stage, id.partition);
  }

  // ---------------------------------------------------------------- launching and rejecting

  /** A launch takes a waiting slot and nothing else; handing the task back undoes it. */
  lemma RejectionUndoesLaunch(j: Job, s: nat, p: nat, attempt: nat, x: ExecutorId)
    requires j.HasTask(s, p) && j.Task(s, p).state.Pending? && j.Task(s, p).attempt == attempt
    ensures var j' := MarkRunning(j, s, p, attempt, x);
      && RanOn(j', s, p, x) && j'.Task(s, p).attempt == attempt && OthersSame(j, j', s, p)
      && MarkPending(j', s, p, attempt) == j
  {
    var j' := MarkRunning(j, s, p, attempt, x);
    var st := j.stages[s - 1];
    assert st.tasks[p := st.tasks[p].(state := Running(x))][p := st.tasks[p]] == st.tasks;
    assert j.stages[s - 1 := j'.stages[s - 1]][s - 1 := st] == j.stages;
  }

  /** Launching what does not wait, or handing back what does not run, or naming another
      attempt changes nothing. */
  lemma ForeignMarks(j: Job, s: nat, p: nat, attempt: nat, x: ExecutorId)
    ensures MarkRunning(j, s, p, attempt, x) != j ==>
      j.HasTask(s, p) && j.Task(s, p).state.Pending? && j.Task(s, p).attempt == attempt
    ensures MarkPending(j, s, p, attempt) != j ==>
      j.HasTask(s, p) && j.Task(s, p).state.Running? && j.Task(s, p).attempt == attempt
  {
  }

  // ---------------------------------------------------------------- what the scheduler is told

  /** The report completes the last open task of its stage. */
  ghost predicate ClosesStage(j: Job, id: TaskId) {
    && Accepts(j, id)
    && forall p: nat :: j.HasTask(id.stage, p) && p != id.partition ==> j.Task(id.stage, p).state.Completed?
  }

  /** Each handler tells truly whether it ended the job, and a completion which stage it closed. */
  lemma TransitionsTell(j: Job, id: TaskId, x: ExecutorId, outputs: seq<Location>, error: string)
    ensures TaskFailed(j, id, error).1.jobFinished <==> j.Active() && !TaskFailed(j, id, error).0.Active()
    ensures ExecutorLost(j, x).1.jobFinished <==> j.Active() && !ExecutorLost(j, x).0.Active()
    ensures Cancel(j).1.jobFinished <==> j.Active()
    ensures !Cancel(j).0.Active()
    ensures var o := TaskCompleted(j, id, x, outputs);
      o.ok ==>
        && (o.transition.jobFinished <==> j.Active() && !o.job.Active())
        && (o.transition.jobFinished <==> ClosesStage(j, id) && id.stage == j.finalStage)
        && o.transition.stagesCompleted == if ClosesStage(j, id) then [id.stage] else []
  {
    if Accepts(j, id) {
      var st := Recorded(j, id, x, outputs).stages[id.stage - 1];
      assert ClosesStage(j, id) <==> IsComplete(st) by {
        if ClosesStage(j, id) {
          forall p | 0 <= p < |st.tasks|
            ensures st.tasks[p].state.Completed?
          {
            assert p != id.partition ==> j.HasTask(id.stage, p);
          }
        } else {
          var p: nat :| j.HasTask(id.stage, p) && p != id.partition && !j.Task(id.stage, p).state.Completed?;
          assert !st.tasks[p].state.Completed?;
        }
      }
    }
  }

  /** Whatever comes in about a job that has ended leaves it alone, except that
      a rejected task is marked as waiting. */
  lemma EndedJobIsLeft(e: Engine, s: System, ev: Event)
    requires Enabled(e, s, ev) && !s.job.Active()
    ensures ev.Requeue? || Apply(s, ev) == s
  {
  }

  // ---------------------------------------------------------------- how often a task is tried

  /** A job starts with every task waiting for its first attempt. */
  lemma StartsFresh(jobId: string, retries: nat, specs: seq<Stage>, s: nat, p: nat)
    requires NewJob(jobId, retries, specs).Some?
    ensures var j := NewJob(jobId, retries, specs).value;
      && j.jobId == jobId && j.maxRetries == retries && j.Active() && j.sent == [] && j.resultTx
      && |j.stages| == |specs| && j.finalStage == specs[|specs| - 1].id
      && (1 <= s <= |specs| ==> |j.stages[s - 1].tasks| == specs[s - 1].numTasks)
      && (j.HasTask(s, p) ==> j.Task(s, p) == TaskSlot(p, 0, Pending, []))
  {
    var start := FreshStages(specs);
    PreparedKeepsTasks(start, RunnableIds(start, |start|));
  }

  /** Step `ev` makes the task start over: its current attempt fails with tries left, or
      the executor it runs on is lost. */
  ghost predicate StartsOver(s: System, ev: Event, st: nat, p: nat) {
    && s.job.Active() && s.job.HasTask(st, p)
    && var t := s.job.Task(st, p);
       match ev
       case Failure(id, _) =>
         && id.stage == st && id.partition == p && id.attempt == t.attempt && t.attempt < s.job.maxRetries
         && !t.state.Completed?
       case Lost(x) => t.state == Running(x)
       case _ => false
  }

  lemma AttemptStep(s: System, ev: Event, st: nat, p: nat)
    requires s.job.HasTask(st, p)
    ensures Apply(s, ev).job.HasTask(st, p) && Apply(s, ev).job.maxRetries == s.job.maxRetries
    ensures Apply(s, ev).job.Task(st, p).attempt ==
            s.job.Task(st, p).attempt + if StartsOver(s, ev, st, p) then 1 else 0
  {
    match ev
    case Report(id, x, outputs) =>
      ReportLighter(s.job, id, x, outputs);
      if st == id.stage && p == id.partition && Accepts(s.job, id) {
        ReportRecords(s.job, id, x, outputs);
      } else {
        ReportTouchesOne(s.job, id, x, outputs, st, p);
      }
    case Failure(id, error) =>
      if Accepts(s.job, id) {
        FailureExact(s.job, id, error);
        if !(st == id.stage && p == id.partition) {
          assert SameSlot(s.job, Apply(s, ev).job, st, p);
        }
      }
    case Lost(x) =>
      if s.job.Active() {
        LossSlots(s.job, x, st, p);
      }
    case _ =>
  }

  /** How often the task started over in the first `n` steps. */
  ghost function StartsOvers(r: Run, n: nat, s: nat, p: nat): nat
    requires n <= |r.events| < |r.states|
  {
    if n == 0 then 0
    else StartsOvers(r, n - 1, s, p) + if StartsOver(r.states[n - 1], r.events[n - 1], s, p) then 1 else 0
  }

  lemma RunBegins(e: Engine, plan: Plan, r: Run, s: nat, p: nat)
    requires IsRun(e, plan, r)
    ensures r.states[0].job.Active()
    ensures r.states[0].job.HasTask(s, p) ==> r.states[0].job.Task(s, p).attempt == 0
  {
    var jobId, retries :| NewJob(jobId, retries, PlanStages(e, plan)) == Some(r.states[0].job);
    StartsFresh(jobId, retries, PlanStages(e, plan), s, p);
  }

  /** Along every run, a task's attempt number counts the times it started over:
      accepted failures with tries left, and losses of the executor it ran on.
      Rejected launches, stale reports and other tasks cost it nothing. */
  lemma {:induction false} AttemptsCounted(e: Engine, plan: Plan, r: Run, n: nat, s: nat, p: nat)
    requires IsRun(e, plan, r) && n < |r.states| && r.states[0].job.HasTask(s, p)
    ensures var j := r.states[n].job;
      && j.HasTask(s, p) && j.maxRetries == r.states[0].job.maxRetries
      && j.Task(s, p).attempt == StartsOvers(r, n, s, p)
  {
    if n == 0 {
      RunBegins(e, plan, r, s, p);
    } else {
      AttemptsCounted(e, plan, r, n - 1, s, p);
      assert Stepped(e, r, n - 1);
      AttemptStep(r.states[n - 1], r.events[n - 1], s, p);
    }
  }

  // ---------------------------------------------------------------- why a job ended

  /** The event is a reason for the active job `j` to end with this status. */
  ghost predicate Reasons(j: Job, ev: Event, status: JobStatus) {
    match status
    case JobRunning => false
    case JobCompleted => ev.Report? && ClosesStage(j, ev.id) && ev.id.stage == j.finalStage
    case JobFailed(TaskGaveUp(id, error)) => ev == Failure(id, error) && Accepts(j, id) && j.maxRetries <= id.attempt
    case JobFailed(OutputsLost(x)) => ev == Lost(x) && exists s: nat, p: nat :: DoneOn(j, s, p, x)
    case JobCancelled => ev.CancelJob?
  }

  lemma EndingReport(j: Job, id: TaskId, x: ExecutorId, outputs: seq<Location>)
    requires j.Active() && TaskCompleted(j, id, x, outputs).ok
    ensures var j' := TaskCompleted(j, id, x, outputs).job;
      j'.Active() || (j'.status.JobCompleted? && ClosesStage(j, id) && id.stage == j.finalStage)
  {
    TransitionsTell(j, id, x, outputs, "");
  }

  lemma EndingOther(s: System, ev: Event)
    requires s.job.Active() && !ev.Report?
    ensures Apply(s, ev).job.Active() || Reasons(s.job, ev, Apply(s, ev).job.status)
  {
    if ev.Failure? && Accepts(s.job, ev.id) {
      FailureExact(s.job, ev.id, ev.error);
    } else if ev.Lost? {
      LossExact(s.job, ev.executor);
    }
  }

  lemma EndingStep(e: Engine, plan: Plan, s: System, ev: Event)
    requires ValidEngine(e) && Original(plan) && SystemInv(e, plan, s) && Enabled(e, s, ev)
    requires s.job.Active()
    ensures Apply(s, ev).job.Active() || Reasons(s.job, ev, Apply(s, ev).job.status)
  {
    if ev.Report? {
      ReportKeeps(e, plan, s, ev.id, ev.executor, ev.outputs);
      EndingReport(s.job, ev.id, ev.executor, ev.outputs);
    } else {
      EndingOther(s, ev);
    }
  }

  lemma RunEndingStep(e: Engine, plan: Plan, r: Run, i: nat)
    requires ValidEngine(e) && Original(plan) && IsRun(e, plan, r) && i < |r.events| && r.states[i].job.Active()
    ensures r.states[i + 1].job.Active() || Reasons(r.states[i].job, r.events[i], r.states[i + 1].job.status)
  {
    assert Stepped(e, r, i);
    RunInv(e, plan, r, i);
    EndingStep(e, plan, r.states[i], r.events[i]);
  }

  lemma RunEndedStep(e: Engine, plan: Plan, r: Run, i: nat)
    requires ValidEngine(e) && Original(plan) && IsRun(e, plan, r) && i < |r.events| && !r.states[i].job.Active()
    ensures r.states[i + 1].job.status == r.states[i].job.status
  {
    assert Stepped(e, r, i);
    RunInv(e, plan, r, i);
    VerdictAbsorbing(r.states[i], r.events[i]);
  }

  lemma SameTasksAlong(e: Engine, plan: Plan, r: Run, i: nat, s: nat, p: nat)
    requires ValidEngine(e) && Original(plan) && IsRun(e, plan, r) && i < |r.states|
    ensures r.states[i].job.HasTask(s, p) <==> r.states[0].job.HasTask(s, p)
  {
    RunInv(e, plan, r, i);
    RunInv(e, plan, r, 0);
    if 1 <= s <= |PlanStages(e, plan)| {
      var j, j' := r.states[0].job, r.states[i].job;
      assert StageInv(e, j.stages[s - 1], PlanStages(e, plan)[s - 1], CompletedOutputs(j.stages));
      assert StageInv(e, j'.stages[s - 1], PlanStages(e, plan)[s - 1], CompletedOutputs(j'.stages));
    }
  }

  lemma TriedOut(e: Engine, plan: Plan, r: Run, i: nat, id: TaskId)
    requires ValidEngine(e) && Original(plan) && IsRun(e, plan, r) && i < |r.states|
    requires Accepts(r.states[i].job, id) && r.states[i].job.maxRetries <= id.attempt
    ensures r.states[0].job.HasTask(id.stage, id.partition)
    ensures StartsOvers(r, i, id.stage, id.partition) == id.attempt >= r.states[0].job.maxRetries
  {
    SameTasksAlong(e, plan, r, i, id.stage, id.partition);
    AttemptsCounted(e, plan, r, i, id.stage, id.partition);
  }

  lemma {:induction false} EndedAt(e: Engine, plan: Plan, r: Run, n: nat) returns (i: nat)
    requires ValidEngine(e) && Original(plan) && IsRun(e, plan, r) && n < |r.states| && !r.states[n].job.Active()
    ensures i < n && r.states[i].job.Active()
    ensures r.states[i + 1].job.status == r.states[n].job.status
    ensures Reasons(r.states[i].job, r.events[i], r.states[n].job.status)
  {
    if n == 0 {
      RunBegins(e, plan, r, 0, 0);
    } else if r.states[n - 1].job.Active() {
      i := n - 1;
      RunEndingStep(e, plan, r, i);
    } else {
      i := EndedAt(e, plan, r, n - 1);
      RunEndedStep(e, plan, r, n - 1);
    }
  }

  /** A job that is over was ended by one step that had the reason its status names;
      it gave up only on a task that had started over `maxRetries` times. */
  lemma WhyEnded(e: Engine, plan: Plan, r: Run, n: nat) returns (i: nat)
    requires ValidEngine(e) && Original(plan) && IsRun(e, plan, r) && n < |r.states| && !r.states[n].job.Active()
    ensures i < n && r.states[i].job.Active()
    ensures r.states[i + 1].job.status == r.states[n].job.status
    ensures Reasons(r.states[i].job, r.events[i], r.states[n].job.status)
    ensures r.events[i].Failure? ==>
      var id := r.events[i].id;
      r.states[0].job.HasTask(id.stage, id.partition) &&
      StartsOvers(r, i, id.stage, id.partition) == id.attempt >= r.states[0].job.maxRetries
  {
    i := EndedAt(e, plan, r, n);
    if r.events[i].Failure? {
      TriedOut(e, plan, r, i, r.events[i].id);
    }
  }
}
