/**
 Whole runs of one job: completions are accepted once and stay, accepted reports
 are bounded by the retry budget, and one verdict is sent.
 */
module JobRuns {
  import opened Options
  import opened Plans
  import opened Planner
  import opened Jobs
  import opened JobInvariant
  import opened JobProtocol
  import opened JobTheorems

  datatype Run = Run(states: seq<System>, events: seq<Event>)

  ghost predicate Stepped(e: Engine, r: Run, i: nat)
    requires i < |r.events| && |r.states| == |r.events| + 1
  {
    Enabled(e, r.states[i], r.events[i]) && r.states[i + 1] == Apply(r.states[i], r.events[i])
  }

  ghost predicate IsRun(e: Engine, plan: Plan, r: Run) {
    && |r.states| == |r.events| + 1
    && (exists jobId, retries :: NewJob(jobId, retries, PlanStages(e, plan)) == Some(r.states[0].job))
    && r.states[0].launched == map[]
    && forall i :: 0 <= i < |r.events| ==> Stepped(e, r, i)
  }

  lemma RunStarts(e: Engine, plan: Plan, r: Run)
    requires ValidEngine(e) && Original(plan) && IsRun(e, plan, r)
    ensures SystemInv(e, plan, r.states[0])
  {
    var jobId, retries :| NewJob(jobId, retries, PlanStages(e, plan)) == Some(r.states[0].job);
    NewJobInv(e, plan, jobId, retries);
  }

  /** Every reachable state satisfies the invariant. */
  lemma {:induction false} RunInv(e: Engine, plan: Plan, r: Run, i: nat)
    requires ValidEngine(e) && Original(plan) && IsRun(e, plan, r) && i < |r.states|
    ensures SystemInv(e, plan, r.states[i])
  {
    if i == 0 {
      RunStarts(e, plan, r);
    } else {
      RunInv(e, plan, r, i - 1);
      assert Stepped(e, r, i - 1);
      StepKeeps(e, plan, r.states[i - 1], r.events[i - 1]);
    }
  }

  // ---------------------------------------------------------------- exactly once

  lemma {:induction false} PreparedKeepsTasks(stages: seq<StageState>, sids: seq<nat>)
    ensures forall i :: 0 <= i < |stages| ==> PrepareAll(stages, sids).0[i].tasks == stages[i].tasks
    decreases |sids|
  {
    if |sids| > 0 {
      var next := PrepareStage(stages, sids[0]);
      if next.Some? {
        PreparedKeepsTasks(next.value, sids[1..]);
      }
    }
  }

  ghost predicate SameSlot(j: Job, j': Job, s: nat, p: nat)
    requires j.HasTask(s, p)
  {
    j'.HasTask(s, p) && j'.Task(s, p) == j.Task(s, p)
  }

  /** Any completion report leaves the slots of all other tasks alone. */
  lemma ReportTouchesOne(j: Job, id: TaskId, x: ExecutorId, outputs: seq<Location>, s: nat, p: nat)
    requires j.HasTask(s, p) && !(s == id.stage && p == id.partition && Accepts(j, id))
    ensures SameSlot(j, TaskCompleted(j, id, x, outputs).job, s, p)
  {
    if Accepts(j, id) {
      var recorded := Recorded(j, id, x, outputs);
      var closed := Closed(recorded, id.stage).stages;
      PreparedKeepsTasks(closed, Candidates(closed, id.stage, |closed|));
    }
  }

  lemma ReportRecords(j: Job, id: TaskId, x: ExecutorId, outputs: seq<Location>)
    requires Accepts(j, id)
    ensures var j' := TaskCompleted(j, id, x, outputs).job;
      && j'.HasTask(id.stage, id.partition)
      && j'.Task(id.stage, id.partition) == j.Task(id.stage, id.partition).(state := Completed(x), outputs := outputs)
  {
    var closed := Closed(Recorded(j, id, x, outputs), id.stage).stages;
    PreparedKeepsTasks(closed, Candidates(closed, id.stage, |closed|));
  }

  /** A completed slot never changes again, whatever happens to the job. */
  lemma CompletedFrozen(s: System, ev: Event, st: nat, p: nat)
    requires s.job.HasTask(st, p) && s.job.Task(st, p).state.Completed?
    ensures SameSlot(s.job, Apply(s, ev).job, st, p)
  {
    if ev.Report? {
      ReportTouchesOne(s.job, ev.id, ev.executor, ev.outputs, st, p);
    }
  }

  /** A report about another attempt than the slot's current one changes nothing. */
  lemma StaleReportIgnored(j: Job, id: TaskId, x: ExecutorId, outputs: seq<Location>, error: string)
    requires j.HasTask(id.stage, id.partition)
    requires j.Task(id.stage, id.partition).attempt != id.attempt || j.Task(id.stage, id.partition).state.Completed?
    ensures TaskCompleted(j, id, x, outputs) == Outcome(j, IDLE, true)
    ensures TaskFailed(j, id, error) == (j, IDLE)
  {
  }

  lemma {:induction false} FrozenOverRun(e: Engine, plan: Plan, r: Run, i: nat, k: nat, s: nat, p: nat)
    requires IsRun(e, plan, r) && i <= k < |r.states|
    requires r.states[i].job.HasTask(s, p) && r.states[i].job.Task(s, p).state.Completed?
    ensures SameSlot(r.states[i].job, r.states[k].job, s, p)
    decreases k - i
  {
    if i < k {
      assert Stepped(e, r, i);
      CompletedFrozen(r.states[i], r.events[i], s, p);
      FrozenOverRun(e, plan, r, i + 1, k, s, p);
    }
  }

  /** Step `i` accepts a completion of task (s, p). */
  ghost predicate AcceptsAt(r: Run, i: nat, s: nat, p: nat)
    requires i < |r.events| < |r.states|
  {
    && r.events[i].Report? && r.events[i].id.stage == s && r.events[i].id.partition == p
    && Accepts(r.states[i].job, r.events[i].id)
  }

  /** Over every run, at most one completion of a task is accepted, and what it
      recorded is there in every later state. */
  lemma ExactlyOnce(e: Engine, plan: Plan, r: Run, i: nat, k: nat, s: nat, p: nat)
    requires IsRun(e, plan, r) && i < k < |r.events| && AcceptsAt(r, i, s, p)
    ensures !AcceptsAt(r, k, s, p)
    ensures r.states[k].job.HasTask(s, p)
    ensures r.states[k].job.Task(s, p).state == Completed(r.events[i].executor)
    ensures r.states[k].job.Task(s, p).outputs == r.events[i].outputs
  {
    var ev := r.events[i];
    assert Stepped(e, r, i);
    ReportRecords(r.states[i].job, ev.id, ev.executor, ev.outputs);
    FrozenOverRun(e, plan, r, i + 1, k, s, p);
  }

  // ---------------------------------------------------------------- the retry budget

  /** Reports a task can still absorb. */
  function Weight(t: TaskSlot, retries: nat): nat {
    if t.state.Completed? || t.state.Failed? then 0
    else if t.attempt < retries then 1 + retries - t.attempt else 1
  }

  function TasksWeight(tasks: seq<TaskSlot>, retries: nat, n: nat): nat
    requires n <= |tasks|
  {
    if n == 0 then 0 else TasksWeight(tasks, retries, n - 1) + Weight(tasks[n - 1], retries)
  }

  function StagesWeight(stages: seq<StageState>, retries: nat, n: nat): nat
    requires n <= |stages|
  {
    if n == 0 then 0
    else StagesWeight(stages, retries, n - 1) + TasksWeight(stages[n - 1].tasks, retries, |stages[n - 1].tasks|)
  }

  function Budget(j: Job): nat {
    StagesWeight(j.stages, j.maxRetries, |j.stages|)
  }

  ghost predicate LighterTasks(a: seq<TaskSlot>, b: seq<TaskSlot>, retries: nat) {
    |b| == |a| && forall p :: 0 <= p < |a| ==> Weight(b[p], retries) <= Weight(a[p], retries)
  }

  lemma {:induction false} TasksLighter(a: seq<TaskSlot>, b: seq<TaskSlot>, retries: nat, n: nat, p: nat)
    requires LighterTasks(a, b, retries) && n <= |a|
    ensures TasksWeight(b, retries, n) <= TasksWeight(a, retries, n)
    ensures p < n && Weight(b[p], retries) < Weight(a[p], retries) ==>
      TasksWeight(b, retries, n) < TasksWeight(a, retries, n)
  {
    if n > 0 {
      TasksLighter(a, b, retries, n - 1, p);
    }
  }

  ghost predicate LighterStages(a: seq<StageState>, b: seq<StageState>, retries: nat) {
    |b| == |a| && forall i :: 0 <= i < |a| ==> LighterTasks(a[i].tasks, b[i].tasks, retries)
  }

  lemma {:induction false} StagesLighter(a: seq<StageState>, b: seq<StageState>, retries: nat, n: nat, s: nat, p: nat)
    requires LighterStages(a, b, retries) && n <= |a|
    ensures StagesWeight(b, retries, n) <= StagesWeight(a, retries, n)
    ensures s < n && p < |a[s].tasks| && Weight(b[s].tasks[p], retries) < Weight(a[s].tasks[p], retries) ==>
      StagesWeight(b, retries, n) < StagesWeight(a, retries, n)
  {
    if n > 0 {
      StagesLighter(a, b, retries, n - 1, s, p);
      TasksLighter(a[n - 1].tasks, b[n - 1].tasks, retries, |a[n - 1].tasks|, p);
    }
  }

  ghost predicate Accepted(s: System, ev: Event) {
    (ev.Report? || ev.Failure?) && Accepts(s.job, ev.id)
  }

  /** An accepted report is not about a failed task; no reachable state has one to offer. */
  ghost predicate NotFailed(s: System, ev: Event) {
    Accepted(s, ev) ==> !s.job.Task(ev.id.stage, ev.id.partition).state.Failed?
  }

  lemma WithTaskLighter(j: Job, s: nat, p: nat, t: TaskSlot)
    requires j.HasTask(s, p) && Weight(t, j.maxRetries) <= Weight(j.Task(s, p), j.maxRetries)
    ensures LighterStages(j.stages, j.WithTask(s, p, t).stages, j.maxRetries)
  {
  }

  ghost predicate SameTasks(a: seq<StageState>, b: seq<StageState>) {
    |b| == |a| && forall i :: 0 <= i < |a| ==> b[i].tasks == a[i].tasks
  }

  lemma ClosingKeepsTasks(j: Job, s: nat)
    requires 1 <= s <= |j.stages|
    ensures SameTasks(j.stages, CompleteStage(j, s).job.stages)
    ensures CompleteStage(j, s).job.maxRetries == j.maxRetries
  {
    var closed := Closed(j, s).stages;
    PreparedKeepsTasks(closed, Candidates(closed, s, |closed|));
  }

  lemma LighterThrough(a: seq<StageState>, b: seq<StageState>, c: seq<StageState>, retries: nat)
    requires LighterStages(a, b, retries) && SameTasks(b, c)
    ensures LighterStages(a, c, retries)
  {
  }

  lemma ReportLighter(j: Job, id: TaskId, x: ExecutorId, outputs: seq<Location>)
    ensures var j' := TaskCompleted(j, id, x, outputs).job;
      LighterStages(j.stages, j'.stages, j.maxRetries) && j'.maxRetries == j.maxRetries
  {
    if Accepts(j, id) {
      var recorded := Recorded(j, id, x, outputs);
      WithTaskLighter(j, id.stage, id.partition,
                      j.Task(id.stage, id.partition).(state := Completed(x), outputs := outputs));
      ClosingKeepsTasks(recorded, id.stage);
      LighterThrough(j.stages, recorded.stages, CompleteStage(recorded, id.stage).job.stages, j.maxRetries);
    }
  }

  lemma FailureLighter(j: Job, id: TaskId, error: string)
    requires Accepts(j, id) ==> !j.Task(id.stage, id.partition).state.Failed?
    ensures var j' := TaskFailed(j, id, error).0;
      LighterStages(j.stages, j'.stages, j.maxRetries) && j'.maxRetries == j.maxRetries
  {
    if Accepts(j, id) {
      var t := j.Task(id.stage, id.partition);
      WithTaskLighter(j, id.stage, id.partition, t.(attempt := t.attempt + 1, state := Pending));
      WithTaskLighter(j, id.stage, id.partition, t.(state := Failed(error)));
    }
  }

  lemma LostLighter(j: Job, x: ExecutorId)
    ensures LighterStages(j.stages, LoseStages(j.stages, x), j.maxRetries)
  {
    forall i | 0 <= i < |j.stages|
      ensures LighterTasks(j.stages[i].tasks, LoseStages(j.stages, x)[i].tasks, j.maxRetries)
    {
    }
  }

  lemma SameStagesLighter(stages: seq<StageState>, retries: nat)
    ensures LighterStages(stages, stages, retries)
  {
  }

  /** No step, not even losing an executor, adds to the budget. */
  lemma NeverHeavier(s: System, ev: Event)
    requires NotFailed(s, ev)
    ensures LighterStages(s.job.stages, Apply(s, ev).job.stages, s.job.maxRetries)
    ensures Apply(s, ev).job.maxRetries == s.job.maxRetries
  {
    SameStagesLighter(s.job.stages, s.job.maxRetries);
    match ev
    case Launch(id, x) =>
      if s.job.HasTask(id.stage, id.partition) && s.job.Task(id.stage, id.partition).state.Pending? {
        WithTaskLighter(s.job, id.stage, id.partition, s.job.Task(id.stage, id.partition).(state := Running(x)));
      }
    case Requeue(id) =>
      if s.job.HasTask(id.stage, id.partition) && s.job.Task(id.stage, id.partition).state.Running? {
        WithTaskLighter(s.job, id.stage, id.partition, s.job.Task(id.stage, id.partition).(state := Pending));
      }
    case Report(id, x, outputs) => ReportLighter(s.job, id, x, outputs);
    case Failure(id, error) => FailureLighter(s.job, id, error);
    case Lost(x) => LostLighter(s.job, x);
    case CancelJob =>
  }

  lemma AcceptedSlotIsLighter(s: System, ev: Event)
    requires Accepted(s, ev) && NotFailed(s, ev)
    ensures var j' := Apply(s, ev).job;
      && j'.HasTask(ev.id.stage, ev.id.partition)
      && Weight(j'.Task(ev.id.stage, ev.id.partition), s.job.maxRetries) <
         Weight(s.job.Task(ev.id.stage, ev.id.partition), s.job.maxRetries)
  {
    if ev.Report? {
      ReportRecords(s.job, ev.id, ev.executor, ev.outputs);
    }
  }

  /** Every accepted report uses some of it up. */
  lemma AcceptedIsLighter(s: System, ev: Event)
    requires Accepted(s, ev) && NotFailed(s, ev)
    ensures Budget(Apply(s, ev).job) < Budget(s.job)
  {
    var j, j' := s.job, Apply(s, ev).job;
    NeverHeavier(s, ev);
    AcceptedSlotIsLighter(s, ev);
    StagesLighter(j.stages, j'.stages, j.maxRetries, |j.stages|, ev.id.stage - 1, ev.id.partition);
  }

  lemma ActiveNotFailed(e: Engine, plan: Plan, s: System, ev: Event)
    requires SystemInv(e, plan, s)
    ensures NotFailed(s, ev)
  {
    if Accepted(s, ev) {
      assert NoTaskFailed(s.job.stages[ev.id.stage - 1]);
    }
  }

  lemma StepBudget(e: Engine, plan: Plan, s: System, ev: Event)
    requires SystemInv(e, plan, s)
    ensures Budget(Apply(s, ev).job) + (if Accepted(s, ev) then 1 else 0) <= Budget(s.job)
  {
    ActiveNotFailed(e, plan, s, ev);
    NeverHeavier(s, ev);
    StagesLighter(s.job.stages, Apply(s, ev).job.stages, s.job.maxRetries, |s.job.stages|, 0, 0);
    if Accepted(s, ev) {
      AcceptedIsLighter(s, ev);
    }
  }

  /** Accepted reports among the first `n` steps. */
  ghost function AcceptedCount(r: Run, n: nat): nat
    requires n <= |r.events| < |r.states|
  {
    if n == 0 then 0 else AcceptedCount(r, n - 1) + (if Accepted(r.states[n - 1], r.events[n - 1]) then 1 else 0)
  }

  lemma RunStepBudget(e: Engine, plan: Plan, r: Run, i: nat)
    requires ValidEngine(e) && Original(plan) && IsRun(e, plan, r) && i < |r.events|
    ensures Budget(r.states[i + 1].job) + (if Accepted(r.states[i], r.events[i]) then 1 else 0) <=
      Budget(r.states[i].job)
  {
    assert Stepped(e, r, i);
    RunInv(e, plan, r, i);
    StepBudget(e, plan, r.states[i], r.events[i]);
  }

  lemma {:induction false} BudgetBoundsReports(e: Engine, plan: Plan, r: Run, n: nat)
    requires ValidEngine(e) && Original(plan) && IsRun(e, plan, r) && n < |r.states|
    ensures AcceptedCount(r, n) + Budget(r.states[n].job) <= Budget(r.states[0].job)
  {
    if n > 0 {
      BudgetBoundsReports(e, plan, r, n - 1);
      RunStepBudget(e, plan, r, n - 1);
    }
  }

  /** Tasks of the first `n` stages. */
  function TaskCount(stages: seq<StageState>, n: nat): nat
    requires n <= |stages|
  {
    if n == 0 then 0 else TaskCount(stages, n - 1) + |stages[n - 1].tasks|
  }

  lemma OneMore(n: nat, m: nat, c: nat)
    ensures (n + m) * c == n * c + m * c
  {
  }

  lemma {:induction false} TasksWeightBound(tasks: seq<TaskSlot>, retries: nat, n: nat)
    requires n <= |tasks|
    ensures TasksWeight(tasks, retries, n) <= n * (retries + 1)
  {
    if n > 0 {
      TasksWeightBound(tasks, retries, n - 1);
      OneMore(n - 1, 1, retries + 1);
    }
  }

  lemma {:induction false} StagesWeightBound(stages: seq<StageState>, retries: nat, n: nat)
    requires n <= |stages|
    ensures StagesWeight(stages, retries, n) <= TaskCount(stages, n) * (retries + 1)
  {
    if n > 0 {
      StagesWeightBound(stages, retries, n - 1);
      var m := |stages[n - 1].tasks|;
      TasksWeightBound(stages[n - 1].tasks, retries, m);
      OneMore(TaskCount(stages, n - 1), m, retries + 1);
    }
  }

  lemma {:induction false} OpenTaskWeighs(tasks: seq<TaskSlot>, retries: nat, n: nat, p: nat)
    requires p < n <= |tasks| && !tasks[p].state.Completed? && !tasks[p].state.Failed?
    ensures TasksWeight(tasks, retries, n) >= 1
  {
    if p < n - 1 {
      OpenTaskWeighs(tasks, retries, n - 1, p);
    }
  }

  lemma {:induction false} OpenStageWeighs(stages: seq<StageState>, retries: nat, n: nat, s: nat, p: nat)
    requires s < n <= |stages| && p < |stages[s].tasks|
    requires !stages[s].tasks[p].state.Completed? && !stages[s].tasks[p].state.Failed?
    ensures StagesWeight(stages, retries, n) >= 1
  {
    if s < n - 1 {
      OpenStageWeighs(stages, retries, n - 1, s, p);
    } else {
      OpenTaskWeighs(stages[s].tasks, retries, |stages[s].tasks|, p);
    }
  }

  /** An active job still has budget: some task of it is open. */
  lemma ActiveHasBudget(e: Engine, plan: Plan, j: Job)
    requires Original(plan) && JobInv(e, plan, j) && j.Active()
    ensures Budget(j) >= 1
  {
    var id := NotStuck(e, plan, j);
    PendingSpec(e, plan, j, id);
    OpenStageWeighs(j.stages, j.maxRetries, |j.stages|, id.stage - 1, id.partition);
  }

  lemma BudgetLimit(j: Job) returns (limit: nat)
    ensures limit == TaskCount(j.stages, |j.stages|) * (j.maxRetries + 1)
    ensures Budget(j) <= limit
  {
    limit := TaskCount(j.stages, |j.stages|) * (j.maxRetries + 1);
    StagesWeightBound(j.stages, j.maxRetries, |j.stages|);
  }

  lemma ReportsWithin(e: Engine, plan: Plan, r: Run, n: nat, limit: nat)
    requires ValidEngine(e) && Original(plan) && IsRun(e, plan, r) && n < |r.states|
    requires Budget(r.states[0].job) <= limit
    ensures AcceptedCount(r, n) <= limit && (AcceptedCount(r, n) == limit ==> !r.states[n].job.Active())
  {
    BudgetBoundsReports(e, plan, r, n);
    if r.states[n].job.Active() {
      RunInv(e, plan, r, n);
      ActiveHasBudget(e, plan, r.states[n].job);
    }
  }

  /** A job is decided within tasks x (retries + 1) accepted reports: never are more
      accepted, and while the job is active there are fewer. */
  lemma DecidedInTime(e: Engine, plan: Plan, r: Run, n: nat)
    requires ValidEngine(e) && Original(plan) && IsRun(e, plan, r) && n < |r.states|
    ensures var j := r.states[0].job;
      var bound := TaskCount(j.stages, |j.stages|) * (j.maxRetries + 1);
      && AcceptedCount(r, n) <= bound
      && (AcceptedCount(r, n) == bound ==> !r.states[n].job.Active())
  {
    var limit := BudgetLimit(r.states[0].job);
    ReportsWithin(e, plan, r, n, limit);
  }

  // ---------------------------------------------------------------- one verdict

  /** An inactive job keeps its status and what it sent. */
  lemma VerdictAbsorbing(s: System, ev: Event)
    requires !s.job.Active() && !s.job.resultTx
    ensures Apply(s, ev).job.status == s.job.status
    ensures Apply(s, ev).job.sent == s.job.sent && !Apply(s, ev).job.resultTx
  {
  }

  lemma {:induction false} VerdictStays(e: Engine, plan: Plan, r: Run, i: nat, k: nat)
    requires ValidEngine(e) && Original(plan) && IsRun(e, plan, r) && i <= k < |r.states|
    requires !r.states[i].job.Active()
    ensures r.states[k].job.status == r.states[i].job.status
    ensures r.states[k].job.sent == r.states[i].job.sent
    decreases k - i
  {
    if i < k {
      assert Stepped(e, r, i);
      RunInv(e, plan, r, i);
      VerdictAbsorbing(r.states[i], r.events[i]);
      VerdictStays(e, plan, r, i + 1, k);
    }
  }

  /** Along every run: nothing is sent while the job is active, exactly one verdict
      once it is not, the same one ever after, and only the submitted
      query's answer if it is a result. */
  lemma OneVerdict(e: Engine, plan: Plan, r: Run, i: nat, k: nat)
    requires ValidEngine(e) && Original(plan) && Executable(plan) && IsRun(e, plan, r) && i <= k < |r.states|
    ensures var j, j' := r.states[i].job, r.states[k].job;
      && |j.sent| == (if j.Active() then 0 else 1)
      && (!j.Active() ==> j'.status == j.status && j'.sent == j.sent)
      && (j.sent != [] && j.sent[0].Result? ==> ReadAll(j.sent[0].partitions) == CompactAll(Eval(e, true, plan)))
  {
    RunInv(e, plan, r, i);
    if !r.states[i].job.Active() {
      VerdictStays(e, plan, r, i, k);
      if r.states[i].job.status.JobCompleted? {
        ResultIsMeaning(e, plan, r.states[i].job);
      }
    }
  }
}
