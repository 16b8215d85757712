/**
 What the invariant buys: an active job is never stuck, a completed job is done
 entirely, and its result reads back as the meaning of the submitted plan.
 */
module JobTheorems {
  import opened Options
  import opened Plans
  import opened Exchanges
  import opened Planner
  import opened Meaning
  import opened Wire
  import opened Jobs
  import opened JobInvariant
  import opened JobProtocol

  // ---------------------------------------------------------------- never stuck

  lemma DependencyIsEarlier(e: Engine, specs: seq<Stage>, k: nat, d: nat)
    requires Shape(e, specs, 0) && k < |specs| && d in specs[k].dependsOn
    ensures 1 <= d <= k
  {
    assert specs[k] in specs && StageShape(e, specs[k], specs);
    var n :| 0 <= n < |specs[k].dependsOn| && specs[k].dependsOn[n] == d;
    var l := Leaves(specs[k].input)[n];
    assert Fed(l, specs, specs[k].id);
    var t :| t in specs && t.id == l.stage && t.id < specs[k].id && t.ConsumerPartitions() == l.partitions;
    var m :| 0 <= m < |specs| && specs[m] == t;
  }

  lemma {:induction false} LeastIncomplete(stages: seq<StageState>, n: nat) returns (s: nat)
    requires 1 <= n <= |stages| && !StageDone(stages, n)
    ensures 1 <= s <= n && !StageDone(stages, s)
    ensures forall d: nat :: 1 <= d < s ==> StageDone(stages, d)
  {
    if d: nat :| 1 <= d < n && !StageDone(stages, d) {
      s := LeastIncomplete(stages, d);
    } else {
      s := n;
    }
  }

  /** The earliest unfinished stage is not waiting for anything. */
  lemma LeastIsRunnable(e: Engine, specs: seq<Stage>, stages: seq<StageState>, s: nat)
    requires Shape(e, specs, 0) && StagesInv(e, stages, specs) && NoneFailed(stages)
    requires 1 <= s <= |stages| && !StageDone(stages, s)
    requires forall d: nat :: 1 <= d < s ==> StageDone(stages, d)
    ensures stages[s - 1].status.Runnable? && !IsComplete(stages[s - 1]) && NoTaskFailed(stages[s - 1])
  {
    forall d | d in specs[s - 1].dependsOn
      ensures d in CompletedOutputs(stages)
    {
      DependencyIsEarlier(e, specs, s - 1, d);
    }
    assert StageInv(e, stages[s - 1], specs[s - 1], CompletedOutputs(stages));
  }

  lemma OpenTask(j: Job, s: nat) returns (id: TaskId)
    requires j.Active() && 1 <= s <= |j.stages| && j.stages[s - 1].status.Runnable?
    requires !IsComplete(j.stages[s - 1]) && NoTaskFailed(j.stages[s - 1])
    ensures j.HasTask(id.stage, id.partition)
    ensures j.Task(id.stage, id.partition).state.Running? || PendingSlot(j, id)
  {
    var st := j.stages[s - 1];
    var p :| 0 <= p < |st.tasks| && !st.tasks[p].state.Completed?;
    id := TaskId(j.jobId, s, p, st.tasks[p].attempt);
  }

  /** An active job always has a task that runs or is ready to be launched. */
  lemma NotStuck(e: Engine, plan: Plan, j: Job) returns (id: TaskId)
    requires Original(plan) && JobInv(e, plan, j) && j.Active()
    ensures j.HasTask(id.stage, id.partition)
    ensures j.Task(id.stage, id.partition).state.Running? || IsPending(j, id)
  {
    StagesFormTree(e, plan);
    var s := LeastIncomplete(j.stages, j.finalStage);
    LeastIsRunnable(e, PlanStages(e, plan), j.stages, s);
    id := OpenTask(j, s);
    PendingSpec(e, plan, j, id);
  }

  // ---------------------------------------------------------------- completed means done

  /** Every stage but the last feeds a later one. */
  lemma Consumer(e: Engine, specs: seq<Stage>, d: nat) returns (i: nat)
    requires Shape(e, specs, 0) && Consumed(specs, d)
    ensures d <= i < |specs| && d in specs[i].dependsOn
  {
    i :| ConsumedBy(specs, d, i);
    assert d in multiset(specs[i].dependsOn);
    DependencyIsEarlier(e, specs, i, d);
  }

  lemma DoneNeedsDone(e: Engine, specs: seq<Stage>, stages: seq<StageState>, i: nat, d: nat)
    requires StagesInv(e, stages, specs) && i < |specs| && StageDone(stages, i + 1) && d in specs[i].dependsOn
    ensures StageDone(stages, d)
  {
    assert StageInv(e, stages[i], specs[i], CompletedOutputs(stages));
    assert d in CompletedOutputs(stages);
  }

  lemma {:induction false} EarlierStageDone(e: Engine, specs: seq<Stage>, stages: seq<StageState>, d: nat)
    requires Shape(e, specs, 0) && StagesInv(e, stages, specs) && StageDone(stages, |stages|)
    requires forall c: nat :: 1 <= c < |specs| ==> Consumed(specs, c)
    requires 1 <= d <= |stages|
    ensures StageDone(stages, d)
    decreases |stages| - d
  {
    if d < |stages| {
      var i := Consumer(e, specs, d);
      EarlierStageDone(e, specs, stages, i + 1);
      DoneNeedsDone(e, specs, stages, i, d);
    }
  }

  lemma EarlierDone(e: Engine, plan: Plan, j: Job, d: nat)
    requires Original(plan) && JobInv(e, plan, j) && StageDone(j.stages, j.finalStage)
    requires 1 <= d <= |j.stages|
    ensures StageDone(j.stages, d)
  {
    StagesFormTree(e, plan);
    EarlierStageDone(e, PlanStages(e, plan), j.stages, d);
  }

  lemma {:induction false} BucketOfSingles(lists: seq<seq<Location>>, p: nat)
    requires forall q :: 0 <= q < |lists| ==> |lists[q]| == 1 && lists[q][0].outputPartition == q
    ensures Bucket(Concat(lists), p) == if p < |lists| then lists[p] else []
  {
    if |lists| > 0 {
      var m := |lists| - 1;
      BucketOfSingles(lists[..m], p);
      BucketAppend(Concat(lists[..m]), lists[m], p);
      var l := lists[m];
      assert l == [l[0]] && l[..0] == [];
      assert Bucket(l, p) == if p == m then l else [];
    }
  }

  /** Every task recorded a single location, labelled with its own number. */
  ghost predicate OneEach(tasks: seq<TaskSlot>) {
    forall p :: 0 <= p < |tasks| ==> |tasks[p].outputs| == 1 && tasks[p].outputs[0].outputPartition == p
  }

  /** The stage with id `s` and all its tasks are completed. */
  ghost predicate StageFinished(stages: seq<StageState>, s: nat) {
    StageDone(stages, s) && IsComplete(stages[s - 1])
  }

  lemma AllDone(e: Engine, plan: Plan, j: Job)
    requires Original(plan) && JobInv(e, plan, j) && StageDone(j.stages, j.finalStage)
    ensures forall s: nat :: 1 <= s <= |j.stages| ==> StageFinished(j.stages, s)
  {
    forall s: nat | 1 <= s <= |j.stages|
      ensures StageFinished(j.stages, s)
    {
      EarlierDone(e, plan, j, s);
      assert StageInv(e, j.stages[s - 1], PlanStages(e, plan)[s - 1], CompletedOutputs(j.stages));
    }
  }

  /** A complete identity stage: one location a task, labelled with the task's number. */
  lemma IdentityOutputs(e: Engine, st: StageState)
    requires Honest(e, st) && IsComplete(st) && st.encodedPlan.Some? && st.encodedPlan.value.partitioning.None?
    ensures OneEach(st.tasks)
  {
    forall p | 0 <= p < |st.tasks|
      ensures |st.tasks[p].outputs| == 1 && st.tasks[p].outputs[0].outputPartition == p
    {
      assert st.tasks[p].state.Completed?;
    }
  }

  lemma SinglesAreBuckets(st: StageState)
    requires OneEach(st.tasks)
    ensures Buckets(AllOutputs(st), |st.tasks|) == OutputLists(st.tasks)
  {
    var lists := OutputLists(st.tasks);
    forall p: nat | p < |lists|
      ensures Bucket(Concat(lists), p) == lists[p]
    {
      BucketOfSingles(lists, p);
    }
  }

  lemma FinalStageLists(e: Engine, specs: seq<Stage>, stages: seq<StageState>)
    requires StagesInv(e, stages, specs) && |specs| >= 1 && StageDone(stages, |stages|)
    requires Shape(e, specs, 0) && specs[|specs| - 1].partitioning.None?
    ensures var final := stages[|stages| - 1];
      && Buckets(AllOutputs(final), final.stage.ConsumerPartitions()) == OutputLists(final.tasks)
      && OneEach(final.tasks)
  {
    var final := stages[|stages| - 1];
    assert StageInv(e, final, specs[|specs| - 1], CompletedOutputs(stages));
    IdentityOutputs(e, final);
    SinglesAreBuckets(final);
  }

  lemma FinalLists(e: Engine, plan: Plan, j: Job)
    requires ValidEngine(e) && Original(plan) && JobInv(e, plan, j) && StageDone(j.stages, j.finalStage)
    ensures FinalPartitions(j) == OutputLists(j.stages[|j.stages| - 1].tasks)
    ensures OneEach(j.stages[|j.stages| - 1].tasks)
  {
    StagesFormTree(e, plan);
    FinalStageLists(e, PlanStages(e, plan), j.stages);
  }

  /** The result of a completed job: every stage and task is done, and result
      partition `p` is exactly what the final stage's task `p` recorded. */
  lemma CompletedIsDone(e: Engine, plan: Plan, j: Job)
    requires ValidEngine(e) && Original(plan) && JobInv(e, plan, j) && j.status.JobCompleted?
    ensures forall s: nat :: 1 <= s <= |j.stages| ==> StageFinished(j.stages, s)
    ensures var final := j.stages[|j.stages| - 1];
      && j.sent == [Result(OutputLists(final.tasks))]
      && OneEach(final.tasks)
  {
    AllDone(e, plan, j);
    FinalLists(e, plan, j);
  }

  // ---------------------------------------------------------------- the result is the query's meaning

  lemma StageExecuted(e: Engine, plan: Plan, j: Job, i: nat)
    requires ValidEngine(e) && Original(plan) && JobInv(e, plan, j)
    requires i < |j.stages| && StageDone(j.stages, i + 1)
    ensures Executed(e, PlanStages(e, plan)[i], CompletedOutputs(j.stages))
  {
    var specs := PlanStages(e, plan);
    StagesFormTree(e, plan);
    assert specs[i] in specs && StageShape(e, specs[i], specs);
    var outs := CompletedOutputs(j.stages);
    assert StageInv(e, j.stages[i], specs[i], outs);
    var executors := CompletedWrote(e, j.stages[i], specs[i], outs);
    assert outs[specs[i].id] == AllOutputs(j.stages[i]);
  }

  lemma AllExecuted(e: Engine, plan: Plan, j: Job)
    requires ValidEngine(e) && Original(plan) && JobInv(e, plan, j) && StageDone(j.stages, j.finalStage)
    ensures forall s :: s in SplitPlan(e, plan, 0).stages ==> Executed(e, s, CompletedOutputs(j.stages))
  {
    var root := SplitPlan(e, plan, 0);
    forall s | s in root.stages
      ensures Executed(e, s, CompletedOutputs(j.stages))
    {
      var i :| 0 <= i < |root.stages| && root.stages[i] == s;
      assert PlanStages(e, plan)[i] == s;
      EarlierDone(e, plan, j, i + 1);
      StageExecuted(e, plan, j, i);
    }
  }

  /** The final stage wrote the meaning of the plan, one partition per task. */
  lemma FinalWrote(e: Engine, plan: Plan, j: Job) returns (executors: seq<string>)
    requires ValidEngine(e) && Original(plan) && Executable(plan) && JobInv(e, plan, j) &&
      StageDone(j.stages, j.finalStage)
    ensures Wrote(AllOutputs(j.stages[|j.stages| - 1]), e, None, Eval(e, true, plan), executors)
    ensures j.stages[|j.stages| - 1].stage.ConsumerPartitions() == |Eval(e, true, plan)|
  {
    var k := |j.stages| - 1;
    var specs := PlanStages(e, plan);
    var outs := CompletedOutputs(j.stages);
    AllExecuted(e, plan, j);
    SplitMeaning(e, plan, 0, outs);
    StagesFormTree(e, plan);
    assert specs[k] in specs && StageShape(e, specs[k], specs);
    assert StageInv(e, j.stages[k], specs[k], outs);
    executors := CompletedWrote(e, j.stages[k], specs[k], outs);
    EvalWidth(e, true, plan);
    SplitPlanShape(e, plan, 0);
  }

  /** Whatever was retried, rejected or lost on the way: the partitions a
      completed job hands over read back as the original plan's output. */
  lemma ResultIsMeaning(e: Engine, plan: Plan, j: Job)
    requires ValidEngine(e) && Original(plan) && Executable(plan) && JobInv(e, plan, j) && j.status.JobCompleted?
    ensures |j.sent| == 1 && j.sent[0].Result?
    ensures ReadAll(j.sent[0].partitions) == CompactAll(Eval(e, true, plan))
  {
    var executors := FinalWrote(e, plan, j);
    ReadGroups(e, None, Eval(e, true, plan), executors);
  }

  /** A distributed query returns the rows of a local one, in the same
      partitions and order, if its operators look only at rows and every round
      robin deals what one process would deal. */
  lemma DistributedRows(e: Engine, plan: Plan, j: Job)
    requires ValidEngine(e) && Original(plan) && Executable(plan) && JobInv(e, plan, j) && j.status.JobCompleted?
    requires RowEngine(e) && Steady(e, plan)
    ensures |j.sent| == 1 && j.sent[0].Result?
    ensures SameRowsAll(ReadAll(j.sent[0].partitions), Eval(e, false, plan))
  {
    ResultIsMeaning(e, plan, j);
    SteadyMeaning(e, plan);
    var a, b := Eval(e, true, plan), Eval(e, false, plan);
    forall p | 0 <= p < |a|
      ensures SameRows(CompactAll(a)[p], b[p])
    {
      CompactKeepsRows(a[p]);
      assert SameRows(a[p], b[p]);
    }
  }

  /** And batch for batch, on any engine, if no gathering meets an empty batch. */
  lemma DistributedBatches(e: Engine, plan: Plan, j: Job)
    requires ValidEngine(e) && Original(plan) && Executable(plan) && JobInv(e, plan, j) && j.status.JobCompleted?
    requires Dense(e, plan)
    ensures |j.sent| == 1 && j.sent[0].Result?
    ensures ReadAll(j.sent[0].partitions) == CompactAll(Eval(e, false, plan))
  {
    ResultIsMeaning(e, plan, j);
    DenseMeaning(e, plan);
  }
}
