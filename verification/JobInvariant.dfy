/**
 What every step of a planned job keeps, and that the steps cannot fail.
 */
module JobInvariant {
  import opened Options
  import opened Plans
  import opened Exchanges
  import opened Planner
  import opened Meaning
  import opened Jobs

  // ---------------------------------------------------------------- the invariant

  /** Completed tasks hold exactly what running the stage's plan writes. */
  ghost predicate Honest(e: Engine, st: StageState) {
    forall p :: 0 <= p < |st.tasks| && st.tasks[p].state.Completed? ==>
      && st.encodedPlan.Some?
      && RunTask(e, st.encodedPlan.value, p, st.tasks[p].state.executor) == Some(st.tasks[p].outputs)
  }

  ghost predicate InOrder(st: StageState) {
    forall p :: 0 <= p < |st.tasks| ==> st.tasks[p].partition == p
  }

  ghost predicate DepsReady(spec: Stage, outs: Outputs) {
    forall d :: d in spec.dependsOn ==> d in outs
  }

  ghost predicate AllPending(st: StageState) {
    forall p :: 0 <= p < |st.tasks| ==> st.tasks[p].state.Pending?
  }

  ghost predicate Encoded(st: StageState, spec: Stage, outs: Outputs) {
    var r := Resolve(spec.input, outs);
    r.Resolved? && st.encodedPlan == Some(TaskPlan(r.value, spec.partitioning))
  }

  /** A stage is Blocked exactly while some dependency is not completed, and any
      other stage carries its plan, resolved against completed outputs. */
  ghost predicate StageInv(e: Engine, st: StageState, spec: Stage, outs: Outputs) {
    && st.stage == spec
    && |st.tasks| == spec.numTasks
    && InOrder(st)
    && (st.status.Blocked? <==> !DepsReady(spec, outs))
    && (st.status.Blocked? ==> AllPending(st))
    && (!st.status.Blocked? ==> Encoded(st, spec, outs))
    && (st.status.StageCompleted? <==> IsComplete(st))
    && Honest(e, st)
  }

  ghost predicate StagesInv(e: Engine, stages: seq<StageState>, specs: seq<Stage>) {
    && |stages| == |specs|
    && forall i :: 0 <= i < |specs| ==> StageInv(e, stages[i], specs[i], CompletedOutputs(stages))
  }

  ghost predicate NoTaskFailed(st: StageState) {
    !st.status.StageFailed? && forall p :: 0 <= p < |st.tasks| ==> !st.tasks[p].state.Failed?
  }

  ghost predicate NoneFailed(stages: seq<StageState>) {
    forall i :: 0 <= i < |stages| ==> NoTaskFailed(stages[i])
  }

  /** The single verdict agrees with the status. */
  ghost predicate VerdictInv(j: Job)
    requires 1 <= j.finalStage <= |j.stages|
  {
    && j.resultTx == j.Active()
    && match j.status
       case JobRunning => j.sent == [] && NoneFailed(j.stages) && !StageDone(j.stages, j.finalStage)
       case JobCompleted => j.sent == [Result(FinalPartitions(j))] && StageDone(j.stages, j.finalStage)
       case JobFailed(reason) => j.sent == [ExecutionError(reason)]
       case JobCancelled => j.sent == [CancelledError]
  }

  ghost predicate JobInv(e: Engine, plan: Plan, j: Job) {
    && StagesInv(e, j.stages, PlanStages(e, plan))
    && j.finalStage == |j.stages|
    && VerdictInv(j)
  }

  /** A launched attempt is not ahead of its slot, and carried the stage's plan. */
  ghost predicate LaunchInv(j: Job, id: TaskId, plan: TaskPlan) {
    && id.job == j.jobId
    && j.HasTask(id.stage, id.partition)
    && id.attempt <= j.Task(id.stage, id.partition).attempt
    && !j.stages[id.stage - 1].status.Blocked?
    && j.stages[id.stage - 1].encodedPlan == Some(plan)
  }

  ghost predicate LaunchesInv(j: Job, launched: map<TaskId, TaskPlan>) {
    forall id :: id in launched ==> LaunchInv(j, id, launched[id])
  }

  // ---------------------------------------------------------------- completed outputs

  lemma SameOutputs(a: seq<StageState>, b: seq<StageState>)
    requires |a| == |b|
    requires forall i :: 0 <= i < |a| ==> (a[i].status.StageCompleted? <==> b[i].status.StageCompleted?)
    requires forall i :: 0 <= i < |a| && a[i].status.StageCompleted? ==> AllOutputs(a[i]) == AllOutputs(b[i])
    ensures CompletedOutputs(a) == CompletedOutputs(b)
  {
    forall id: nat
      ensures StageDone(a, id) <==> StageDone(b, id)
    {
    }
  }

  /** A completed stage of a planned job wrote what its plan evaluates to. */
  lemma CompletedWrote(e: Engine, st: StageState, spec: Stage, outs: Outputs) returns (executors: seq<string>)
    requires ValidEngine(e) && StageInv(e, st, spec, outs) && st.status.StageCompleted?
    requires spec.numTasks == Width(e, spec.input)
    ensures Executable(st.encodedPlan.value.input)
    ensures Wrote(AllOutputs(st), e, spec.partitioning, Eval(e, false, st.encodedPlan.value.input), executors)
  {
    ResolveTotal(e, spec.input, outs);
    var input := st.encodedPlan.value.input;
    EvalWidth(e, false, input);
    var ins := Eval(e, false, input);
    executors := seq(|st.tasks|, p requires 0 <= p < |st.tasks| =>
      if st.tasks[p].state.Completed? then st.tasks[p].state.executor else "");
    forall p | 0 <= p < |st.tasks|
      ensures OutputLists(st.tasks)[p] == StageOutput(e, spec.partitioning, ins, executors)[p]
    {
    }
    assert OutputLists(st.tasks) == StageOutput(e, spec.partitioning, ins, executors);
  }

  /** So its labels fit every leaf that reads it. */
  lemma CompletedInRange(e: Engine, st: StageState, spec: Stage, outs: Outputs)
    requires ValidEngine(e) && StageInv(e, st, spec, outs) && st.status.StageCompleted?
    requires spec.numTasks == Width(e, spec.input) && spec.outputPartitions == OutputCount(spec.partitioning)
    ensures InRange(AllOutputs(st), spec.ConsumerPartitions())
  {
    var executors := CompletedWrote(e, st, spec, outs);
    ResolveTotal(e, spec.input, outs);
    var input := st.encodedPlan.value.input;
    EvalWidth(e, false, input);
    StageOutputInRange(e, spec.partitioning, Eval(e, false, input), executors, spec.ConsumerPartitions());
  }

  ghost predicate CompletedInv(e: Engine, stages: seq<StageState>, specs: seq<Stage>, outs: Outputs)
    requires |stages| == |specs|
  {
    forall i :: 0 <= i < |stages| && stages[i].status.StageCompleted? ==> StageInv(e, stages[i], specs[i], outs)
  }

  lemma DoneStage(e: Engine, stages: seq<StageState>, specs: seq<Stage>, t: Stage, outs: Outputs)
    returns (st: StageState)
    requires outs == CompletedOutputs(stages) && t.id in outs
    requires |stages| == |specs| && CompletedInv(e, stages, specs, outs)
    requires 1 <= t.id <= |specs| && specs[t.id - 1] == t
    ensures st.status.StageCompleted? && outs[t.id] == AllOutputs(st) && StageInv(e, st, t, outs)
  {
    assert StageDone(stages, t.id);
    st := stages[t.id - 1];
  }

  lemma DoneInRange(e: Engine, stages: seq<StageState>, specs: seq<Stage>, t: Stage, outs: Outputs)
    requires ValidEngine(e) && outs == CompletedOutputs(stages) && t.id in outs
    requires |stages| == |specs| && CompletedInv(e, stages, specs, outs)
    requires 1 <= t.id <= |specs| && specs[t.id - 1] == t
    requires t.numTasks == Width(e, t.input) && t.outputPartitions == OutputCount(t.partitioning)
    ensures InRange(outs[t.id], t.ConsumerPartitions())
  {
    var st := DoneStage(e, stages, specs, t, outs);
    CompletedInRange(e, st, t, outs);
  }

  lemma FeedingStage(e: Engine, specs: seq<Stage>, l: Leaf, bound: nat) returns (t: Stage)
    requires Shape(e, specs, 0) && Fed(l, specs, bound)
    ensures 1 <= t.id <= |specs| && specs[t.id - 1] == t
    ensures t.id == l.stage && t.ConsumerPartitions() == l.partitions
    ensures t.numTasks == Width(e, t.input) && t.outputPartitions == OutputCount(t.partitioning)
  {
    t :| t in specs && t.id == l.stage && t.id < bound && t.ConsumerPartitions() == l.partitions;
    var m :| 0 <= m < |specs| && specs[m] == t;
    assert StageShape(e, t, specs);
  }

  /** One leaf: its stage is an earlier one, complete, with labels in range. */
  lemma LeafReady(e: Engine, stages: seq<StageState>, specs: seq<Stage>, l: Leaf, bound: nat, outs: Outputs)
    requires ValidEngine(e) && Shape(e, specs, 0) && |stages| == |specs|
    requires outs == CompletedOutputs(stages) && CompletedInv(e, stages, specs, outs)
    requires Fed(l, specs, bound) && l.stage in outs
    ensures Ready(l, outs)
  {
    var t := FeedingStage(e, specs, l, bound);
    DoneInRange(e, stages, specs, t, outs);
  }

  lemma LeafIsDependency(e: Engine, specs: seq<Stage>, k: nat, l: Leaf)
    requires Shape(e, specs, 0) && k < |specs| && l in Leaves(specs[k].input)
    ensures l.stage in specs[k].dependsOn && Fed(l, specs, specs[k].id)
  {
    assert specs[k] in specs && StageShape(e, specs[k], specs);
    var leaves := Leaves(specs[k].input);
    var n :| 0 <= n < |leaves| && leaves[n] == l;
    assert specs[k].dependsOn[n] == l.stage;
  }

  /** Resolution is total on planned jobs: once a stage's dependencies are
      completed, neither resolution error can occur. */
  lemma DependenciesResolve(e: Engine, stages: seq<StageState>, specs: seq<Stage>, k: nat, outs: Outputs)
    requires ValidEngine(e) && Shape(e, specs, 0) && |stages| == |specs| && k < |specs|
    requires outs == CompletedOutputs(stages) && CompletedInv(e, stages, specs, outs)
    requires DepsReady(specs[k], outs)
    ensures Resolve(specs[k].input, outs).Resolved?
  {
    assert specs[k] in specs && StageShape(e, specs[k], specs);
    forall l | l in Leaves(specs[k].input)
      ensures Ready(l, outs)
    {
      LeafIsDependency(e, specs, k, l);
      LeafReady(e, stages, specs, l, specs[k].id, outs);
    }
    ResolveTotal(e, specs[k].input, outs);
  }

  ghost predicate Preparable(stages: seq<StageState>, sid: nat, outs: Outputs) {
    && 1 <= sid <= |stages|
    && !stages[sid - 1].status.StageCompleted?
    && Resolve(stages[sid - 1].stage.input, outs).Resolved?
  }

  ghost predicate AllPreparable(stages: seq<StageState>, sids: seq<nat>, outs: Outputs) {
    forall k :: 0 <= k < |sids| ==> Preparable(stages, sids[k], outs)
  }

  /** `st'` is `st` made runnable with its plan resolved against `outs`. */
  ghost predicate PreparedFrom(st': StageState, st: StageState, outs: Outputs) {
    Encoded(st', st.stage, outs) && st' == st.(encodedPlan := st'.encodedPlan, status := Runnable)
  }

  /** `r` is `closed` with exactly the stages of `c` prepared. */
  ghost predicate PreparedExactly(r: seq<StageState>, closed: seq<StageState>, c: seq<nat>, outs: Outputs) {
    && |r| == |closed|
    && forall i: nat :: i < |closed| ==>
         if i + 1 in c then PreparedFrom(r[i], closed[i], outs) else r[i] == closed[i]
  }

  // ---------------------------------------------------------------- preparing

  lemma {:induction false} PrepareAllSpec(stages: seq<StageState>, sids: seq<nat>, outs: Outputs)
    requires outs == CompletedOutputs(stages)
    requires AllPreparable(stages, sids, outs)
    requires forall k, l :: 0 <= k < l < |sids| ==> sids[k] != sids[l]
    ensures var (r, ok) := PrepareAll(stages, sids);
      && ok
      && CompletedOutputs(r) == outs
      && PreparedExactly(r, stages, sids, outs)
    decreases |sids|
  {
    if |sids| > 0 {
      var sid := sids[0];
      assert Preparable(stages, sid, outs);
      var next := PrepareStage(stages, sid).value;
      SameOutputs(stages, next);
      var rest := sids[1..];
      forall k | 0 <= k < |rest|
        ensures Preparable(next, rest[k], outs)
      {
        assert rest[k] == sids[k + 1] && Preparable(stages, sids[k + 1], outs) && sids[0] != sids[k + 1];
      }
      PrepareAllSpec(next, rest, outs);
      assert forall x :: x in sids <==> x == sid || x in rest by {
        assert sids == [sid] + rest;
      }
      assert sid !in rest;
    }
  }

  lemma InAppend<T>(a: seq<T>, b: seq<T>, x: T)
    ensures x in a + b <==> x in a || x in b
  {
  }

  lemma {:induction false} InCandidates(stages: seq<StageState>, completed: nat, n: nat, x: nat)
    requires n <= |stages|
    ensures x in Candidates(stages, completed, n) <==> 1 <= x <= n && Unblockable(stages, stages[x - 1], completed)
  {
    if n > 0 {
      InCandidates(stages, completed, n - 1, x);
      InAppend(Candidates(stages, completed, n - 1),
               if Unblockable(stages, stages[n - 1], completed) then [n] else [], x);
    }
  }

  ghost predicate Increasing(ids: seq<nat>, bound: nat) {
    && (forall k :: 0 <= k < |ids| ==> ids[k] <= bound)
    && (forall k, l :: 0 <= k < l < |ids| ==> ids[k] != ids[l])
  }

  lemma {:induction false} CandidatesIncrease(stages: seq<StageState>, completed: nat, n: nat)
    requires n <= |stages|
    ensures Increasing(Candidates(stages, completed, n), n)
  {
    if n > 0 {
      CandidatesIncrease(stages, completed, n - 1);
    }
  }

  lemma {:induction false} InRunnableIds(stages: seq<StageState>, n: nat, x: nat)
    requires n <= |stages|
    ensures x in RunnableIds(stages, n) <==> 1 <= x <= n && stages[x - 1].status.Runnable?
  {
    if n > 0 {
      InRunnableIds(stages, n - 1, x);
      InAppend(RunnableIds(stages, n - 1), if stages[n - 1].status.Runnable? then [n] else [], x);
    }
  }

  lemma {:induction false} RunnableIdsIncrease(stages: seq<StageState>, n: nat)
    requires n <= |stages|
    ensures Increasing(RunnableIds(stages, n), n)
  {
    if n > 0 {
      RunnableIdsIncrease(stages, n - 1);
    }
  }

  // ---------------------------------------------------------------- the initial state

  ghost predicate Begun(e: Engine, st: StageState, spec: Stage) {
    StageInv(e, st, spec, map[]) && NoTaskFailed(st) && !st.status.StageCompleted?
  }

  lemma StartOutputs(specs: seq<Stage>)
    ensures CompletedOutputs(FreshStages(specs)) == map[]
  {
    forall id: nat ensures !StageDone(FreshStages(specs), id) {}
  }

  lemma StartResolves(e: Engine, specs: seq<Stage>, i: nat)
    requires Shape(e, specs, 0) && i < |specs| && specs[i].dependsOn == []
    ensures Resolve(specs[i].input, map[]).Resolved?
  {
    assert specs[i] in specs && StageShape(e, specs[i], specs);
    assert |Leaves(specs[i].input)| == 0;
    ResolveTotal(e, specs[i].input, map[]);
  }

  lemma StartPreparable(e: Engine, specs: seq<Stage>, sid: nat)
    requires Shape(e, specs, 0)
    requires var start := FreshStages(specs); sid in RunnableIds(start, |start|)
    ensures Preparable(FreshStages(specs), sid, map[])
  {
    var start := FreshStages(specs);
    InRunnableIds(start, |start|, sid);
    StartResolves(e, specs, sid - 1);
  }

  lemma StartInv(e: Engine, specs: seq<Stage>, i: nat, outs: Outputs, st': StageState)
    requires Shape(e, specs, 0) && i < |specs| && outs == map[]
    requires var st := NewStageState(specs[i]);
      if st.status.Runnable? then PreparedFrom(st', st, outs) else st' == st
    ensures StageInv(e, st', specs[i], outs) && NoTaskFailed(st') && !st'.status.StageCompleted?
  {
    if |specs[i].dependsOn| > 0 {
      assert specs[i].dependsOn[0] in specs[i].dependsOn;
    }
    assert st'.tasks[0].state.Pending?;
  }

  lemma StartPrepared(e: Engine, specs: seq<Stage>)
    requires Shape(e, specs, 0)
    ensures var start := FreshStages(specs);
      var (r, ok) := PrepareAll(start, RunnableIds(start, |start|));
      && ok && CompletedOutputs(r) == map[]
      && forall i :: 0 <= i < |specs| ==> Begun(e, r[i], specs[i])
  {
    var start := FreshStages(specs);
    var sids := RunnableIds(start, |start|);
    StartOutputs(specs);
    RunnableIdsIncrease(start, |start|);
    forall k | 0 <= k < |sids|
      ensures Preparable(start, sids[k], map[])
    {
      StartPreparable(e, specs, sids[k]);
    }
    PrepareAllSpec(start, sids, map[]);
    var (r, ok) := PrepareAll(start, sids);
    forall i: nat | i < |specs|
      ensures Begun(e, r[i], specs[i])
    {
      InRunnableIds(start, |start|, i + 1);
      StartInv(e, specs, i, map[], r[i]);
    }
  }

  /** Every planned job starts, and starts in the invariant. */
  lemma NewJobInv(e: Engine, plan: Plan, jobId: string, maxRetries: nat)
    requires ValidEngine(e) && Original(plan)
    ensures var j := NewJob(jobId, maxRetries, PlanStages(e, plan));
      && j.Some? && JobInv(e, plan, j.value)
      && j.value.jobId == jobId && j.value.maxRetries == maxRetries && j.value.Active()
  {
    var specs := PlanStages(e, plan);
    StagesFormTree(e, plan);
    StartPrepared(e, specs);
    assert specs[|specs| - 1].id == |specs|;
    var j := NewJob(jobId, maxRetries, specs).value;
    forall i | 0 <= i < |specs|
      ensures NoTaskFailed(j.stages[i]) && !j.stages[i].status.StageCompleted? &&
        StageInv(e, j.stages[i], specs[i], map[])
    {
      assert Begun(e, j.stages[i], specs[i]);
    }
  }

  // ---------------------------------------------------------------- quiet steps

  ghost predicate QuietTask(t: TaskSlot, t': TaskSlot) {
    t'.partition == t.partition && !t.state.Completed? && !t'.state.Completed? && t'.attempt >= t.attempt
  }

  /** No task enters or leaves completion, and a blocked stage is left alone. */
  ghost predicate Quiet(st: StageState, st': StageState) {
    && st'.stage == st.stage && st'.encodedPlan == st.encodedPlan
    && (st'.status == st.status || (st.status.Runnable? && st'.status.StageFailed?))
    && |st'.tasks| == |st.tasks|
    && forall p :: 0 <= p < |st.tasks| ==>
         || st'.tasks[p] == st.tasks[p]
         || (!st.status.Blocked? && QuietTask(st.tasks[p], st'.tasks[p]))
  }

  ghost predicate AllQuiet(stages: seq<StageState>, stages': seq<StageState>) {
    |stages'| == |stages| && forall i :: 0 <= i < |stages| ==> Quiet(stages[i], stages'[i])
  }

  lemma QuietStage(e: Engine, st: StageState, st': StageState, spec: Stage, outs: Outputs)
    requires StageInv(e, st, spec, outs) && Quiet(st, st')
    ensures StageInv(e, st', spec, outs)
    ensures IsComplete(st) <==> IsComplete(st')
    ensures IsComplete(st) ==> st'.tasks == st.tasks
  {
    if IsComplete(st) {
      assert st'.tasks == st.tasks;
    } else {
      var p :| 0 <= p < |st.tasks| && !st.tasks[p].state.Completed?;
      assert !st'.tasks[p].state.Completed?;
    }
    if st'.status.Blocked? {
      assert forall p :: 0 <= p < |st.tasks| ==> st'.tasks[p] == st.tasks[p];
    }
    forall p | 0 <= p < |st.tasks|
      ensures st'.tasks[p].partition == p
    {
      assert st.tasks[p].partition == p;
    }
    forall p | 0 <= p < |st'.tasks| && st'.tasks[p].state.Completed?
      ensures st'.tasks[p] == st.tasks[p]
    {
    }
  }

  /** Quiet steps keep every stage's invariant and all completed outputs. */
  lemma QuietStages(e: Engine, stages: seq<StageState>, stages': seq<StageState>, specs: seq<Stage>)
    requires StagesInv(e, stages, specs) && AllQuiet(stages, stages')
    ensures StagesInv(e, stages', specs)
    ensures CompletedOutputs(stages') == CompletedOutputs(stages)
    ensures forall i :: 0 <= i < |stages| && stages[i].status.StageCompleted? ==> stages'[i] == stages[i]
  {
    var outs := CompletedOutputs(stages);
    forall i | 0 <= i < |stages|
      ensures StageInv(e, stages'[i], specs[i], outs)
      ensures stages[i].status.StageCompleted? <==> stages'[i].status.StageCompleted?
      ensures stages[i].status.StageCompleted? ==> stages'[i] == stages[i]
    {
      QuietStage(e, stages[i], stages'[i], specs[i], outs);
    }
    SameOutputs(stages, stages');
  }

  lemma QuietLaunches(j: Job, j': Job, launched: map<TaskId, TaskPlan>)
    requires LaunchesInv(j, launched) && j'.jobId == j.jobId && AllQuiet(j.stages, j'.stages)
    ensures LaunchesInv(j', launched)
  {
    forall id | id in launched
      ensures LaunchInv(j', id, launched[id])
    {
      assert LaunchInv(j, id, launched[id]);
      assert Quiet(j.stages[id.stage - 1], j'.stages[id.stage - 1]);
    }
  }

  lemma WithTaskQuiet(j: Job, s: nat, p: nat, t: TaskSlot)
    requires j.HasTask(s, p) && QuietTask(j.Task(s, p), t) && !j.stages[s - 1].status.Blocked?
    ensures AllQuiet(j.stages, j.WithTask(s, p, t).stages)
  {
  }

  // ---------------------------------------------------------------- completion

  lemma NotYetComplete(j: Job, id: TaskId)
    requires Accepts(j, id)
    ensures !IsComplete(j.stages[id.stage - 1])
  {
    assert !j.stages[id.stage - 1].tasks[id.partition].state.Completed?;
  }

  /** The report is about a task of a stage that was handed out, and its outputs
      are what the handed-out plan writes. */
  ghost predicate ReportHonest(e: Engine, j: Job, id: TaskId, x: ExecutorId, outputs: seq<Location>) {
    && j.HasTask(id.stage, id.partition)
    && !j.stages[id.stage - 1].status.Blocked?
    && j.stages[id.stage - 1].encodedPlan.Some?
    && RunTask(e, j.stages[id.stage - 1].encodedPlan.value, id.partition, x) == Some(outputs)
  }

  lemma RecordedStage(e: Engine, j: Job, specs: seq<Stage>, id: TaskId, x: ExecutorId, outputs: seq<Location>)
    requires StagesInv(e, j.stages, specs) && Accepts(j, id) && ReportHonest(e, j, id, x, outputs)
    ensures var st := j.stages[id.stage - 1];
      var st' := Recorded(j, id, x, outputs).stages[id.stage - 1];
      && Honest(e, st')
      && InOrder(st')
      && st' == st.(tasks := st'.tasks) && |st'.tasks| == |st.tasks|
  {
    var st := j.stages[id.stage - 1];
    assert StageInv(e, st, specs[id.stage - 1], CompletedOutputs(j.stages));
  }

  /** A completion that does not close its stage. */
  lemma RecordInv(e: Engine, j: Job, specs: seq<Stage>, id: TaskId, x: ExecutorId, outputs: seq<Location>)
    requires StagesInv(e, j.stages, specs) && Accepts(j, id) && ReportHonest(e, j, id, x, outputs)
    requires !IsComplete(Recorded(j, id, x, outputs).stages[id.stage - 1])
    ensures StagesInv(e, Recorded(j, id, x, outputs).stages, specs)
    ensures CompletedOutputs(Recorded(j, id, x, outputs).stages) == CompletedOutputs(j.stages)
  {
    var j' := Recorded(j, id, x, outputs);
    var outs := CompletedOutputs(j.stages);
    var i := id.stage - 1;
    NotYetComplete(j, id);
    RecordedStage(e, j, specs, id, x, outputs);
    SameOutputs(j.stages, j'.stages);
    forall k | 0 <= k < |specs|
      ensures StageInv(e, j'.stages[k], specs[k], outs)
    {
      assert StageInv(e, j.stages[k], specs[k], outs);
      if k == i {
        assert j'.stages[k].tasks[id.partition].state.Completed?;
      }
    }
  }

  /** `closed` is the job's stages with the running stage `s` fully recorded and closed. */
  ghost predicate Closing(e: Engine, stages: seq<StageState>, closed: seq<StageState>, s: nat) {
    && 1 <= s <= |stages| == |closed|
    && (forall i :: 0 <= i < |closed| && i != s - 1 ==> closed[i] == stages[i])
    && !stages[s - 1].status.StageCompleted? && !stages[s - 1].status.Blocked?
    && closed[s - 1] == stages[s - 1].(status := StageCompleted, tasks := closed[s - 1].tasks)
    && |closed[s - 1].tasks| == |stages[s - 1].tasks|
    && IsComplete(closed[s - 1]) && Honest(e, closed[s - 1]) && InOrder(closed[s - 1])
  }

  lemma ReportCloses(e: Engine, j: Job, specs: seq<Stage>, id: TaskId, x: ExecutorId, outputs: seq<Location>)
    requires StagesInv(e, j.stages, specs) && Accepts(j, id) && ReportHonest(e, j, id, x, outputs)
    requires IsComplete(Recorded(j, id, x, outputs).stages[id.stage - 1])
    ensures Closing(e, j.stages, Closed(Recorded(j, id, x, outputs), id.stage).stages, id.stage)
  {
    NotYetComplete(j, id);
    RecordedStage(e, j, specs, id, x, outputs);
    assert StageInv(e, j.stages[id.stage - 1], specs[id.stage - 1], CompletedOutputs(j.stages));
  }

  /** Closing stage `s` adds its outputs and nothing else. */
  lemma OutputsGrow(e: Engine, stages: seq<StageState>, closed: seq<StageState>, s: nat)
    requires Closing(e, stages, closed, s)
    ensures CompletedOutputs(closed) == CompletedOutputs(stages)[s := AllOutputs(closed[s - 1])]
    ensures s !in CompletedOutputs(stages)
  {
    forall id: nat
      ensures StageDone(closed, id) <==> id == s || StageDone(stages, id)
    {
    }
    assert !StageDone(stages, s);
  }

  lemma KeepsEncoded(e: Engine, specs: seq<Stage>, k: nat, st: StageState, outs: Outputs, outs': Outputs)
    requires Shape(e, specs, 0) && k < |specs| && Encoded(st, specs[k], outs) && DepsReady(specs[k], outs)
    requires forall id :: id in outs ==> id in outs' && outs'[id] == outs[id]
    ensures Encoded(st, specs[k], outs')
  {
    forall l | l in Leaves(specs[k].input)
      ensures l.stage in outs
    {
      LeafIsDependency(e, specs, k, l);
    }
    ResolveAgree(specs[k].input, outs, outs');
  }

  /** The stages that do not open keep their invariant under the larger outputs. */
  lemma StaysInv(e: Engine, stages: seq<StageState>, closed: seq<StageState>, specs: seq<Stage>, s: nat, k: nat)
    requires Shape(e, specs, 0) && StagesInv(e, stages, specs) && Closing(e, stages, closed, s)
    requires k < |closed| && !Unblockable(closed, closed[k], s)
    ensures StageInv(e, closed[k], specs[k], CompletedOutputs(closed))
  {
    var outs, outs' := CompletedOutputs(stages), CompletedOutputs(closed);
    OutputsGrow(e, stages, closed, s);
    assert StageInv(e, stages[k], specs[k], outs);
    if DepsReady(specs[k], outs) {
      KeepsEncoded(e, specs, k, stages[k], outs, outs');
    }
  }

  lemma OpensReady(e: Engine, stages: seq<StageState>, closed: seq<StageState>, specs: seq<Stage>, s: nat, k: nat)
    requires StagesInv(e, stages, specs) && Closing(e, stages, closed, s)
    requires k < |closed| && Unblockable(closed, closed[k], s)
    ensures DepsReady(specs[k], CompletedOutputs(closed))
    ensures k != s - 1 && closed[k].stage == specs[k]
  {
    assert StageInv(e, stages[k], specs[k], CompletedOutputs(stages));
    forall d | d in specs[k].dependsOn
      ensures d in CompletedOutputs(closed)
    {
      assert StageDone(closed, d);
    }
  }

  lemma ClosedInv(e: Engine, stages: seq<StageState>, closed: seq<StageState>, specs: seq<Stage>, s: nat)
    requires Shape(e, specs, 0) && StagesInv(e, stages, specs) && Closing(e, stages, closed, s)
    ensures CompletedInv(e, closed, specs, CompletedOutputs(closed))
  {
    forall i: nat | i < |closed| && closed[i].status.StageCompleted?
      ensures StageInv(e, closed[i], specs[i], CompletedOutputs(closed))
    {
      StaysInv(e, stages, closed, specs, s, i);
    }
  }

  /** A stage whose last dependency just completed resolves. */
  lemma OpensPreparable(e: Engine, stages: seq<StageState>, closed: seq<StageState>, specs: seq<Stage>, s: nat, k: nat)
    requires ValidEngine(e) && Shape(e, specs, 0) && StagesInv(e, stages, specs) && Closing(e, stages, closed, s)
    requires k < |closed| && Unblockable(closed, closed[k], s)
    ensures Preparable(closed, k + 1, CompletedOutputs(closed))
    ensures DepsReady(specs[k], CompletedOutputs(closed))
    ensures k != s - 1 && closed[k].stage == specs[k]
  {
    OpensReady(e, stages, closed, specs, s, k);
    ClosedInv(e, stages, closed, specs, s);
    DependenciesResolve(e, closed, specs, k, CompletedOutputs(closed));
  }

  ghost predicate UntouchedOrOpened(st: StageState, st': StageState) {
    st' == st || (st.status.Blocked? && st'.tasks == st.tasks && st'.stage == st.stage && st'.status.Runnable?)
  }

  /** What becomes of stage number `k` when stage `s` closes. */
  ghost predicate ClosedStep(e: Engine, stages: seq<StageState>, closed: seq<StageState>, specs: seq<Stage>, s: nat,
                             k: nat, st': StageState)
    requires k < |stages| == |closed| == |specs|
  {
    && StageInv(e, st', specs[k], CompletedOutputs(closed))
    && if k == s - 1 then st' == closed[k] else UntouchedOrOpened(stages[k], st')
  }

  /** And opens. */
  lemma OpensInv(e: Engine, stages: seq<StageState>, closed: seq<StageState>, specs: seq<Stage>, s: nat, k: nat,
                 st': StageState)
    requires ValidEngine(e) && Shape(e, specs, 0) && StagesInv(e, stages, specs) && Closing(e, stages, closed, s)
    requires k < |closed| && Unblockable(closed, closed[k], s)
    requires PreparedFrom(st', closed[k], CompletedOutputs(closed))
    ensures ClosedStep(e, stages, closed, specs, s, k, st')
  {
    OpensReady(e, stages, closed, specs, s, k);
    assert StageInv(e, stages[k], specs[k], CompletedOutputs(stages));
    assert st'.tasks[0].state.Pending?;
  }

  /** A stage that neither closes nor opens. */
  lemma StaysStep(e: Engine, stages: seq<StageState>, closed: seq<StageState>, specs: seq<Stage>, s: nat, k: nat)
    requires Shape(e, specs, 0) && StagesInv(e, stages, specs) && Closing(e, stages, closed, s)
    requires k < |closed| && !Unblockable(closed, closed[k], s)
    ensures ClosedStep(e, stages, closed, specs, s, k, closed[k])
  {
    StaysInv(e, stages, closed, specs, s, k);
  }

  lemma CandidatesPreparable(e: Engine, stages: seq<StageState>, closed: seq<StageState>, specs: seq<Stage>, s: nat)
    requires ValidEngine(e) && Shape(e, specs, 0) && StagesInv(e, stages, specs) && Closing(e, stages, closed, s)
    ensures AllPreparable(closed, Candidates(closed, s, |closed|), CompletedOutputs(closed))
  {
    var c := Candidates(closed, s, |closed|);
    forall k | 0 <= k < |c|
      ensures Preparable(closed, c[k], CompletedOutputs(closed))
    {
      InCandidates(closed, s, |closed|, c[k]);
      OpensPreparable(e, stages, closed, specs, s, c[k] - 1);
    }
  }

  lemma EachCloses(e: Engine, stages: seq<StageState>, closed: seq<StageState>, specs: seq<Stage>, s: nat,
                   c: seq<nat>, r: seq<StageState>)
    requires ValidEngine(e) && Shape(e, specs, 0) && StagesInv(e, stages, specs) && Closing(e, stages, closed, s)
    requires forall k: nat :: k < |closed| ==> (k + 1 in c <==> Unblockable(closed, closed[k], s))
    requires PreparedExactly(r, closed, c, CompletedOutputs(closed))
    ensures forall k: nat :: k < |r| ==> ClosedStep(e, stages, closed, specs, s, k, r[k])
  {
    forall k: nat | k < |closed|
      ensures ClosedStep(e, stages, closed, specs, s, k, r[k])
    {
      if Unblockable(closed, closed[k], s) {
        OpensInv(e, stages, closed, specs, s, k, r[k]);
      } else {
        StaysStep(e, stages, closed, specs, s, k);
      }
    }
  }

  /** A stage closes: exactly the dependents whose inputs are now all there
      become runnable, and resolving them cannot fail. */
  lemma CloseSteps(e: Engine, stages: seq<StageState>, closed: seq<StageState>, specs: seq<Stage>, s: nat)
    requires ValidEngine(e) && Shape(e, specs, 0) && StagesInv(e, stages, specs) && Closing(e, stages, closed, s)
    ensures var (r, ok) := UnblockDependents(closed, s);
      && ok && CompletedOutputs(r) == CompletedOutputs(closed)
      && forall k: nat :: k < |r| ==> ClosedStep(e, stages, closed, specs, s, k, r[k])
  {
    var c := Candidates(closed, s, |closed|);
    CandidatesIncrease(closed, s, |closed|);
    CandidatesPreparable(e, stages, closed, specs, s);
    PrepareAllSpec(closed, c, CompletedOutputs(closed));
    forall k: nat | k < |closed|
      ensures k + 1 in c <==> Unblockable(closed, closed[k], s)
    {
      InCandidates(closed, s, |closed|, k + 1);
    }
    EachCloses(e, stages, closed, specs, s, c, PrepareAll(closed, c).0);
  }

  lemma CloseInv(e: Engine, stages: seq<StageState>, closed: seq<StageState>, specs: seq<Stage>, s: nat)
    requires ValidEngine(e) && Shape(e, specs, 0) && StagesInv(e, stages, specs) && Closing(e, stages, closed, s)
    ensures var (r, ok) := UnblockDependents(closed, s);
      && ok && StagesInv(e, r, specs)
      && CompletedOutputs(r) == CompletedOutputs(closed)
      && r[s - 1] == closed[s - 1]
      && (forall k: nat :: k < |r| && k != s - 1 ==> UntouchedOrOpened(stages[k], r[k]))
  {
    CloseSteps(e, stages, closed, specs, s);
    var (r, ok) := UnblockDependents(closed, s);
    forall k: nat | k < |r|
      ensures StageInv(e, r[k], specs[k], CompletedOutputs(r))
      ensures if k == s - 1 then r[k] == closed[k] else UntouchedOrOpened(stages[k], r[k])
    {
      assert ClosedStep(e, stages, closed, specs, s, k, r[k]);
    }
  }
}
