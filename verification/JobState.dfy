/**
 The job state machine as it runs: an object whose methods update its fields in
 place, each proved to do what the function of the same name on `Job` says.
 */
module JobStates {
  import opened Options
  import opened Plans
  import opened Exchanges
  import opened Planner
  import opened Jobs

  /** The locations of completed stages, collected by stage id. */
  method CollectOutputs(stages: seq<StageState>) returns (outs: Outputs)
    requires forall i :: 0 <= i < |stages| ==> stages[i].stage.id == i + 1
    ensures outs == CompletedOutputs(stages)
  {
    outs := map[];
    for i := 0 to |stages|
      invariant forall id: nat :: id in outs <==> id <= i && StageDone(stages, id)
      invariant forall id: nat :: id in outs ==> outs[id] == AllOutputs(stages[id - 1])
    {
      if stages[i].status.StageCompleted? {
        assert StageDone(stages, i + 1);
        outs := outs[stages[i].stage.id := AllOutputs(stages[i])];
      }
    }
  }

  lemma {:induction false} PrepareAllAppend(stages: seq<StageState>, a: seq<nat>, b: seq<nat>)
    ensures var r := PrepareAll(stages, a);
      PrepareAll(stages, a + b) == if r.1 then PrepareAll(r.0, b) else r
    decreases |a|
  {
    if |a| == 0 {
      assert a + b == b;
    } else {
      assert (a + b)[1..] == a[1..] + b;
      var next := PrepareStage(stages, a[0]);
      if next.Some? {
        PrepareAllAppend(next.value, a[1..], b);
      }
    }
  }

  lemma PrepareAllOne(stages: seq<StageState>, sid: nat)
    ensures var r := PrepareStage(stages, sid);
      PrepareAll(stages, [sid]) == if r.Some? then (r.value, true) else (stages, false)
  {
    var r := PrepareStage(stages, sid);
    assert [sid][1..] == [];
    if r.Some? {
      assert PrepareAll(r.value, [sid][1..]) == (r.value, true);
    }
  }

  lemma {:induction false} RunnableIdsGrow(stages: seq<StageState>, n: nat, m: nat) returns (rest: seq<nat>)
    requires n <= m <= |stages|
    ensures RunnableIds(stages, m) == RunnableIds(stages, n) + rest
    decreases m - n
  {
    if n == m {
      rest := [];
    } else {
      var r := RunnableIdsGrow(stages, n, m - 1);
      rest := r + (if stages[m - 1].status.Runnable? then [m] else []);
    }
  }

  /** A step of the walk over all stages that prepares the runnable ones. */
  lemma RunnableStep(start: seq<StageState>, stages: seq<StageState>, i: nat, next: Option<seq<StageState>>)
    requires i < |start| && start[i].status.Runnable?
    requires PrepareAll(start, RunnableIds(start, i)) == (stages, true)
    requires next == PrepareStage(stages, i + 1)
    ensures next.Some? ==> PrepareAll(start, RunnableIds(start, i + 1)) == (next.value, true)
    ensures next.None? ==> !PrepareAll(start, RunnableIds(start, |start|)).1
  {
    var ids := RunnableIds(start, i);
    assert RunnableIds(start, i + 1) == ids + [i + 1];
    PrepareAllAppend(start, ids, [i + 1]);
    PrepareAllOne(stages, i + 1);
    var rest := RunnableIdsGrow(start, i + 1, |start|);
    PrepareAllAppend(start, ids + [i + 1], rest);
  }

  class JobState {
    const jobId: string
    const maxRetries: nat
    const finalStage: nat
    var status: JobStatus
    var stages: seq<StageState>
    var resultTx: bool

    /** The receiving end of the result channel. */
    var sent: seq<Verdict>

    ghost predicate Valid()
      reads this
    {
      && 1 <= finalStage <= |stages|
      && forall i :: 0 <= i < |stages| ==> stages[i].stage.id == i + 1
    }

    ghost function Value(): Job
      reads this
    {
      Job(jobId, maxRetries, status, stages, finalStage, resultTx, sent)
    }

    constructor Fresh(id: string, retries: nat, specs: seq<Stage>)
      requires |specs| > 0 && Numbered(specs, 0)
      ensures Valid()
      ensures Value() == Job(id, retries, JobRunning, FreshStages(specs), |specs|, true, [])
    {
      jobId, maxRetries, finalStage := id, retries, specs[|specs| - 1].id;
      status, stages, resultTx, sent := JobRunning, FreshStages(specs), true, [];
    }

    /** Start a job; nothing if there are no stages or a first stage does not resolve. */
    static method New(id: string, retries: nat, specs: seq<Stage>) returns (r: Option<JobState>)
      requires Numbered(specs, 0)
      ensures r.Some? <==> NewJob(id, retries, specs).Some?
      ensures r.Some? ==> fresh(r.value) && r.value.Valid() && Some(r.value.Value()) == NewJob(id, retries, specs)
    {
      if |specs| == 0 {
        return None;
      }
      var job := new JobState.Fresh(id, retries, specs);
      var ok := job.PrepareRunnable();
      return if ok then Some(job) else None;
    }

    /** Resolve a stage's shuffles and make it runnable. */
    method PrepareStage(sid: nat) returns (ok: bool)
      requires Valid()
      modifies this`stages
      ensures Valid()
      ensures var r := Jobs.PrepareStage(old(stages), sid);
        ok == r.Some? && stages == if ok then r.value else old(stages)
    {
      var outputs := CollectOutputs(stages);
      if !(1 <= sid <= |stages|) {
        return false;
      }
      var st := stages[sid - 1];
      var resolved := ResolveStage(st.stage.input, outputs);
      if !resolved.Resolved? {
        return false;
      }
      st := st.(encodedPlan := Some(TaskPlan(resolved.value, st.stage.partitioning)), status := Runnable);
      stages := stages[sid - 1 := st];
      return true;
    }

    /** Prepare the stages that depend on nothing, stopping at the first failure. */
    method PrepareRunnable() returns (ok: bool)
      requires Valid()
      modifies this`stages
      ensures Valid()
      ensures var r := PrepareAll(old(stages), RunnableIds(old(stages), |old(stages)|));
        ok == r.1 && (ok ==> stages == r.0)
    {
      ghost var start := stages;
      for i := 0 to |stages|
        invariant Valid() && |stages| == |start|
        invariant PrepareAll(start, RunnableIds(start, i)) == (stages, true)
        invariant forall k :: i <= k < |start| ==> stages[k] == start[k]
      {
        if stages[i].status.Runnable? {
          RunnableStep(start, stages, i, Jobs.PrepareStage(stages, i + 1));
          var prepared := PrepareStage(i + 1);
          if !prepared {
            return false;
          }
        } else {
          assert RunnableIds(start, i + 1) == RunnableIds(start, i);
        }
      }
      return true;
    }

    // ---------------------------------------------------------------- queries

    method PendingTasks() returns (out: seq<PendingTask>)
      ensures out == Jobs.PendingTasks(Value())
    {
      out := [];
      if !status.JobRunning? {
        return;
      }
      for i := 0 to |stages|
        invariant out == PendingUpTo(stages, i)
      {
        var st := stages[i];
        if st.status.Runnable? && st.encodedPlan.Some? {
          ghost var before := out;
          for p := 0 to |st.tasks|
            invariant out == before + PendingOf(st, p)
          {
            var t := st.tasks[p];
            if t.state.Pending? {
              out := out + [PendingTask(st.stage.id, t.partition, t.attempt, st.encodedPlan.value)];
            }
          }
        }
      }
    }

    method RunningTasks() returns (out: seq<(ExecutorId, TaskId)>)
      ensures out == Jobs.RunningTasks(Value())
    {
      out := [];
      for i := 0 to |stages|
        invariant out == RunningUpTo(jobId, stages, i)
      {
        var st := stages[i];
        ghost var before := out;
        for p := 0 to |st.tasks|
          invariant out == before + RunningOf(jobId, st, p)
        {
          var t := st.tasks[p];
          if t.state.Running? {
            out := out + [(t.state.executor, TaskId(jobId, st.stage.id, t.partition, t.attempt))];
          }
        }
      }
    }

    // ---------------------------------------------------------------- launching

    predicate HasTask(s: nat, p: nat)
      reads this
    {
      1 <= s <= |stages| && p < |stages[s - 1].tasks|
    }

    method SetTask(s: nat, p: nat, t: TaskSlot)
      requires Valid() && HasTask(s, p)
      modifies this`stages
      ensures Valid() && Value() == old(Value()).WithTask(s, p, t)
    {
      var st := stages[s - 1];
      stages := stages[s - 1 := st.(tasks := st.tasks[p := t])];
    }

    method MarkRunning(s: nat, p: nat, attempt: nat, executor: ExecutorId)
      requires Valid()
      modifies this`stages
      ensures Valid() && Value() == Jobs.MarkRunning(old(Value()), s, p, attempt, executor)
    {
      if HasTask(s, p) {
        var t := stages[s - 1].tasks[p];
        if t.attempt == attempt && t.state.Pending? {
          SetTask(s, p, t.(state := Running(executor)));
        }
      }
    }

    method MarkPending(s: nat, p: nat, attempt: nat)
      requires Valid()
      modifies this`stages
      ensures Valid() && Value() == Jobs.MarkPending(old(Value()), s, p, attempt)
    {
      if HasTask(s, p) {
        var t := stages[s - 1].tasks[p];
        if t.attempt == attempt && t.state.Running? {
          SetTask(s, p, t.(state := Pending));
        }
      }
    }

    // ---------------------------------------------------------------- closing stages and sending verdicts

    method UnblockDependents(completed: nat) returns (ok: bool)
      requires Valid()
      modifies this`stages
      ensures Valid() && (stages, ok) == Jobs.UnblockDependents(old(stages), completed)
    {
      ghost var before := stages;
      var candidates: seq<nat> := [];
      for i := 0 to |stages|
        invariant candidates == Candidates(stages, completed, i)
        invariant forall k :: 0 <= k < |candidates| ==> 1 <= candidates[k] <= i
      {
        if Unblockable(stages, stages[i], completed) {
          candidates := candidates + [stages[i].stage.id];
        }
      }
      var i := 0;
      while i < |candidates|
        invariant Valid() && i <= |candidates|
        invariant PrepareAll(before, candidates) == PrepareAll(stages, candidates[i..])
      {
        assert candidates[i..][1..] == candidates[i + 1..];
        ok := PrepareStage(candidates[i]);
        if !ok {
          return;
        }
        i := i + 1;
      }
      ok := true;
    }

    /** Take the sender, if it is still there, and use it. */
    method Send(v: Verdict)
      requires Valid()
      modifies this`resultTx, this`sent
      ensures Valid() && Value() == Jobs.Send(old(Value()), v)
    {
      if resultTx {
        resultTx, sent := false, sent + [v];
      }
    }

    static method PlaceLocations(locs: seq<Location>, n: nat) returns (parts: seq<seq<Location>>)
      ensures parts == Buckets(locs, n)
    {
      parts := seq(n, _ => []);
      for i := 0 to |locs|
        invariant parts == Buckets(locs[..i], n)
      {
        assert locs[..i + 1] == locs[..i] + [locs[i]] && locs[..i + 1][..i] == locs[..i];
        var idx := locs[i].outputPartition;
        if idx < n {
          BucketsStep(locs[..i], locs[i], n);
          parts := parts[idx := parts[idx] + [locs[i]]];
        } else {
          assert forall j: nat :: j < n ==> Bucket(locs[..i + 1], j) == Bucket(locs[..i], j);
        }
      }
      assert locs[..|locs|] == locs;
    }

    /** Hand over the final stage's locations by partition, skipping any whose
        label is out of range. */
    method FinishOk()
      requires Valid()
      modifies this
      ensures Valid() && Value() == Jobs.FinishOk(old(Value()))
    {
      status := JobCompleted;
      var final := stages[finalStage - 1];
      var parts := PlaceLocations(AllOutputs(final), final.stage.ConsumerPartitions());
      Send(Result(parts));
    }

    method CloseStage(s: nat) returns (tr: Transition, ok: bool)
      requires Valid() && 1 <= s <= |stages|
      modifies this
      ensures Valid()
      ensures Outcome(Value(), tr, ok) == CompleteStage(old(Value()), s)
    {
      stages := stages[s - 1 := stages[s - 1].(status := StageCompleted)];
      ok := UnblockDependents(s);
      if !ok {
        return IDLE, false;
      }
      tr := Transition([s], false, []);
      if s == finalStage {
        FinishOk();
        tr := Transition([s], true, []);
      }
    }

    // ---------------------------------------------------------------- reports

    method TaskCompleted(id: TaskId, executor: ExecutorId, outputs: seq<Location>) returns (tr: Transition, ok: bool)
      requires Valid()
      modifies this
      ensures Valid()
      ensures Outcome(Value(), tr, ok) == Jobs.TaskCompleted(old(Value()), id, executor, outputs)
    {
      tr, ok := IDLE, true;
      if !status.JobRunning? || !HasTask(id.stage, id.partition) {
        return;
      }
      var t := stages[id.stage - 1].tasks[id.partition];
      if t.attempt != id.attempt || t.state.Completed? {
        return;
      }
      SetTask(id.stage, id.partition, t.(state := Completed(executor), outputs := outputs));
      if IsComplete(stages[id.stage - 1]) {
        tr, ok := CloseStage(id.stage);
      }
    }

    method FinishErr(reason: Reason)
      requires Valid()
      modifies this
      ensures Valid() && Value() == Jobs.FinishErr(old(Value()), reason)
    {
      status := JobFailed(reason);
      Send(ExecutionError(reason));
    }

    method TaskFailed(id: TaskId, error: string) returns (tr: Transition)
      requires Valid()
      modifies this
      ensures Valid() && (Value(), tr) == Jobs.TaskFailed(old(Value()), id, error)
    {
      tr := IDLE;
      if !status.JobRunning? || !HasTask(id.stage, id.partition) {
        return;
      }
      var t := stages[id.stage - 1].tasks[id.partition];
      if t.attempt != id.attempt || t.state.Completed? {
        return;
      }
      if t.attempt < maxRetries {
        SetTask(id.stage, id.partition, t.(attempt := t.attempt + 1, state := Pending));
        return;
      }
      SetTask(id.stage, id.partition, t.(state := Failed(error)));
      stages := stages[id.stage - 1 := stages[id.stage - 1].(status := StageFailed)];
      var cancel := RunningTasks();
      FinishErr(TaskGaveUp(id, error));
      tr := Transition([], true, cancel);
    }

    // ---------------------------------------------------------------- losing an executor, cancelling

    static method LoseTasksOf(st: StageState, executor: ExecutorId) returns (tasks: seq<TaskSlot>, held: bool)
      ensures tasks == LoseTasks(st.tasks, executor)
      ensures held <==> HoldsOutput(st, executor)
    {
      tasks, held := st.tasks, false;
      for p := 0 to |tasks|
        invariant |tasks| == |st.tasks|
        invariant forall k :: 0 <= k < p ==> tasks[k] == LoseTask(st.tasks[k], executor)
        invariant forall k :: p <= k < |tasks| ==> tasks[k] == st.tasks[k]
        invariant held <==> exists k :: 0 <= k < p && st.tasks[k].state == Completed(executor)
      {
        var t := tasks[p];
        match t.state {
          case Running(x) =>
            if x == executor {
              tasks := tasks[p := t.(attempt := t.attempt + 1, state := Pending)];
            }
          case Completed(x) =>
            if x == executor {
              held := true;
            }
          case _ =>
        }
      }
    }

    /** Return the executor's running tasks to the pool under a new attempt, and
        tell whether it held completed outputs. */
    method TakeBack(executor: ExecutorId) returns (lostOutputs: bool)
      requires Valid()
      modifies this`stages
      ensures Valid() && stages == LoseStages(old(stages), executor)
      ensures lostOutputs == HoldsOutputs(old(stages), executor)
    {
      ghost var before := stages;
      lostOutputs := false;
      for i := 0 to |stages|
        invariant Valid() && |stages| == |before|
        invariant forall k :: 0 <= k < i ==> stages[k] == LoseStages(before, executor)[k]
        invariant forall k :: i <= k < |before| ==> stages[k] == before[k]
        invariant lostOutputs <==> exists k :: 0 <= k < i && HoldsOutput(before[k], executor)
      {
        var tasks, held := LoseTasksOf(stages[i], executor);
        stages := stages[i := stages[i].(tasks := tasks)];
        lostOutputs := lostOutputs || held;
      }
    }

    method ExecutorLost(executor: ExecutorId) returns (tr: Transition)
      requires Valid()
      modifies this
      ensures Valid() && (Value(), tr) == Jobs.ExecutorLost(old(Value()), executor)
    {
      tr := IDLE;
      if !status.JobRunning? {
        return;
      }
      var lostOutputs := TakeBack(executor);
      if lostOutputs {
        var cancel := RunningTasks();
        FinishErr(OutputsLost(executor));
        tr := Transition([], true, cancel);
      }
    }

    method Cancel() returns (tr: Transition)
      requires Valid()
      modifies this
      ensures Valid() && (Value(), tr) == Jobs.Cancel(old(Value()))
    {
      tr := IDLE;
      if !status.JobRunning? {
        return;
      }
      var cancel := RunningTasks();
      status := JobCancelled;
      Send(CancelledError);
      tr := Transition([], true, cancel);
    }
  }
}
