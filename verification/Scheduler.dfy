/**
 The scheduler as it runs: handlers that update the registry and the job
 objects in place, each proved to do to the books what its specification says.
 */
module Schedulers {
  import opened Options
  import opened Plans
  import opened Planner
  import opened Jobs
  import JobInvariant
  import opened JobStates
  import opened Executors
  import opened Dispatching
  import opened SchedulerBooks
  import opened Clusters

  lemma {:induction false} FullTasks(r: Round, job: string, tasks: seq<PendingTask>, i: nat, n: nat)
    requires job in r.jobs && i <= n <= |tasks| && AssignTasks(r, job, tasks, i).full
    ensures AssignTasks(r, job, tasks, n) == AssignTasks(r, job, tasks, i)
  {
    if i < n {
      FullTasks(r, job, tasks, i, n - 1);
    }
  }

  lemma {:induction false} FullJobs(r: Round, order: seq<string>, i: nat, n: nat)
    requires i <= n <= |order| && AssignJobs(r, order, i).full
    ensures AssignJobs(r, order, n) == AssignJobs(r, order, i)
  {
    if i < n {
      FullJobs(r, order, i, n - 1);
    }
  }

  /** Exactly the executors with free slots, each once, most free first. */
  ghost predicate Listed(registry: Registry, free: seq<Slot>) {
    && Descending(free) && DistinctSlots(free)
    && forall s :: s in free <==>
         s.executor in registry && s.free == FreeSlots(registry[s.executor]) && s.free > 0
  }

  lemma InsertedIn(free: seq<Slot>, i: nat, s: Slot)
    requires i <= |free|
    ensures forall t :: t in free[..i] + [s] + free[i..] <==> t in free || t == s
  {
    var r := free[..i] + [s] + free[i..];
    forall t
      ensures t in r <==> t in free || t == s
    {
      assert free == free[..i] + free[i..];
      JobInvariant.InAppend(free[..i], free[i..], t);
      JobInvariant.InAppend(free[..i] + [s], free[i..], t);
      JobInvariant.InAppend(free[..i], [s], t);
    }
  }

  lemma InsertedOrder(free: seq<Slot>, i: nat, s: Slot)
    requires i <= |free| && Descending(free) && DistinctSlots(free)
    requires forall t :: t in free ==> t.executor != s.executor
    requires forall k :: 0 <= k < i ==> free[k].free >= s.free
    requires i < |free| ==> free[i].free < s.free
    ensures Descending(free[..i] + [s] + free[i..]) && DistinctSlots(free[..i] + [s] + free[i..])
  {
    var r := free[..i] + [s] + free[i..];
    forall a, b | 0 <= a < b < |r|
      ensures r[a].free >= r[b].free && r[a].executor != r[b].executor
    {
      assert a != i ==> r[a] == free[if a < i then a else a - 1];
      assert b != i ==> r[b] == free[if b < i then b else b - 1];
    }
  }

  lemma EvictedOneMore(jobs: map<string, Job>, evict: seq<string>, id: string)
    ensures Evicted(jobs, evict + [id]) ==
            var rest := Evicted(jobs, evict);
            if id in rest && !rest[id].Active() then rest - {id} else rest
  {
  }

  lemma UpdateTwice<K, V>(m: map<K, V>, k: K, a: V, b: V)
    ensures m[k := a][k := b] == m[k := b]
  {
  }

  /** The jobs in `todo` have not been told yet. */
  function ToldExcept(jobs: map<string, Job>, x: ExecutorId, todo: set<string>): map<string, Job> {
    map k | k in jobs :: if k in todo then jobs[k] else Jobs.ExecutorLost(jobs[k], x).0
  }

  lemma ToldOneMore(jobs: map<string, Job>, x: ExecutorId, todo: set<string>, k: string)
    requires k in todo && k in jobs
    ensures ToldExcept(jobs, x, todo - {k}) == ToldExcept(jobs, x, todo)[k := Jobs.ExecutorLost(jobs[k], x).0]
  {
  }

  lemma ToldAll(jobs: map<string, Job>, x: ExecutorId)
    ensures ToldExcept(jobs, x, {}) == Told(jobs, x)
    ensures ToldExcept(jobs, x, jobs.Keys) == jobs
  {
  }

  /** The round has reached task number `m` of the job. */
  ghost function AtTask(start: Round, job: string, tasks: seq<PendingTask>): (Round, nat) -> bool {
    (p: Round, m: nat) => m <= |tasks| && job in start.jobs && p == AssignTasks(start, job, tasks, m)
  }

  lemma AtTaskStep(start: Round, job: string, tasks: seq<PendingTask>, p: Round, m: nat)
    requires job in p.jobs && m < |tasks| && AtTask(start, job, tasks)(p, m)
    ensures AtTask(start, job, tasks)(AssignNext(p, job, tasks[m]), m + 1)
  {
  }

  lemma AtTaskFirst(start: Round, job: string, tasks: seq<PendingTask>)
    requires job in start.jobs
    ensures AtTask(start, job, tasks)(start, 0)
  {
    assert AssignTasks(start, job, tasks, 0) == start;
  }

  lemma AtTaskKept(start: Round, job: string, tasks: seq<PendingTask>)
    ensures forall p: Round, m: nat {:trigger AssignNext(p, job, tasks[m])} ::
      m < |tasks| && job in p.jobs && AtTask(start, job, tasks)(p, m) ==>
        AtTask(start, job, tasks)(AssignNext(p, job, tasks[m]), m + 1)
  {
    forall p: Round, m: nat {:trigger AssignNext(p, job, tasks[m])} |
      m < |tasks| && job in p.jobs && AtTask(start, job, tasks)(p, m)
      ensures AtTask(start, job, tasks)(AssignNext(p, job, tasks[m]), m + 1)
    {
      AtTaskStep(start, job, tasks, p, m);
    }
  }

  lemma AtTaskDone(start: Round, job: string, tasks: seq<PendingTask>, q: Round, n: nat)
    requires job in start.jobs && !start.full && tasks == PendingTasks(start.jobs[job])
    requires AtTask(start, job, tasks)(q, n) && (q.full || n == |tasks|)
    ensures q == AssignJob(start, job)
  {
    if q.full {
      FullTasks(start, job, tasks, n, |tasks|);
    }
  }

  /** The round has reached job number `m`. */
  ghost function AtJob(start: Round, order: seq<string>): (Round, nat) -> bool {
    (p: Round, m: nat) => m <= |order| && p == AssignJobs(start, order, m)
  }

  lemma AtJobStep(start: Round, order: seq<string>, p: Round, m: nat)
    requires m < |order| && AtJob(start, order)(p, m)
    ensures AtJob(start, order)(AssignJob(p, order[m]), m + 1)
  {
  }

  lemma AtJobFirst(start: Round, order: seq<string>)
    ensures AtJob(start, order)(start, 0)
  {
    assert AssignJobs(start, order, 0) == start;
  }

  lemma AtJobKept(start: Round, order: seq<string>)
    ensures forall p: Round, m: nat {:trigger AssignJob(p, order[m])} ::
      m < |order| && AtJob(start, order)(p, m) ==> AtJob(start, order)(AssignJob(p, order[m]), m + 1)
  {
    forall p: Round, m: nat {:trigger AssignJob(p, order[m])} | m < |order| && AtJob(start, order)(p, m)
      ensures AtJob(start, order)(AssignJob(p, order[m]), m + 1)
    {
      AtJobStep(start, order, p, m);
    }
  }

  lemma AtJobDone(start: Round, order: seq<string>, q: Round, n: nat)
    requires AtJob(start, order)(q, n) && (q.full || n == |order|)
    ensures q == AssignJobs(start, order, |order|)
  {
    if q.full {
      FullJobs(start, order, n, |order|);
    }
  }

  class Scheduler {
    const executors: ExecutorRegistry
    const retained: nat
    var jobs: map<string, JobState>
    var jobOrder: seq<string>

    /** What the job objects currently hold. */
    ghost var values: map<string, Job>

    ghost predicate Valid()
      reads this`jobs, this`values, jobs.Values
    {
      && values.Keys == jobs.Keys
      && (forall k :: k in jobs ==> jobs[k].Valid() && jobs[k].Value() == values[k])
      && forall k, l :: k in jobs && l in jobs && k != l ==> jobs[k] != jobs[l]
    }

    /** What holds while the object of one job runs ahead of its value. */
    ghost predicate ValidBut(id: string)
      reads this`jobs, this`values, jobs.Values
    {
      && id in jobs && jobs[id].Valid() && values.Keys == jobs.Keys
      && (forall k :: k in jobs && k != id ==> jobs[k].Valid() && jobs[k].Value() == values[k])
      && forall k, l :: k in jobs && l in jobs && k != l ==> jobs[k] != jobs[l]
    }

    /** The value catches up with the job's object. */
    ghost method Note(id: string)
      requires ValidBut(id)
      modifies this`values
      ensures Valid() && values == old(values)[id := jobs[id].Value()]
    {
      values := values[id := jobs[id].Value()];
    }

    ghost function Value(): Books
      reads this, executors
    {
      Books(executors.executors, values, jobOrder)
    }

    constructor (retained: nat)
      ensures Valid() && Value() == Books(map[], map[], []) && fresh(executors) && this.retained == retained
    {
      executors := new ExecutorRegistry();
      this.retained := retained;
      jobs, jobOrder, values := map[], [], map[];
    }

    // ---------------------------------------------------------------- clients

    /** The submission order grows by one, and loses what exceeds the limit. */
    method Enlist(id: string) returns (evict: seq<string>)
      modifies this`jobOrder
      ensures var order := old(jobOrder) + [id];
        evict == Excess(order, retained) && jobOrder == order[|evict|..]
    {
      jobOrder := jobOrder + [id];
      evict := [];
      if |jobOrder| > retained {
        var excess := |jobOrder| - retained;
        evict, jobOrder := jobOrder[..excess], jobOrder[excess..];
      }
    }

    method EvictOne(id: string)
      requires Valid()
      modifies this`jobs, this`values
      ensures Valid() && jobs.Values <= old(jobs.Values)
      ensures values == if id in old(values) && !old(values)[id].Active() then old(values) - {id} else old(values)
    {
      if id in jobs && !jobs[id].status.JobRunning? {
        jobs, values := jobs - {id}, values - {id};
      }
    }

    method Evict(evict: seq<string>)
      requires Valid()
      modifies this`jobs, this`values
      ensures Valid() && values == Evicted(old(values), evict)
    {
      for i := 0 to |evict|
        invariant Valid() && values == Evicted(old(values), evict[..i]) && jobs.Values <= old(jobs.Values)
      {
        assert evict[..i + 1] == evict[..i] + [evict[i]];
        EvictedOneMore(old(values), evict[..i], evict[i]);
        EvictOne(evict[i]);
      }
      assert evict[..|evict|] == evict;
    }

    method Add(id: string, job: JobState)
      requires Valid() && job.Valid() && job !in jobs.Values
      modifies this
      ensures Valid() && Value() == Submitted(old(Value()), id, job.Value(), retained)
    {
      jobs, values := jobs[id := job], values[id := job.Value()];
      var evict := Enlist(id);
      Evict(evict);
    }

    /** The stages of the plan, and a job to run them. */
    static method PlanJob(e: Engine, id: string, plan: Plan, retries: nat) returns (job: Option<JobState>)
      requires Original(plan)
      ensures job.Some? == NewJob(id, retries, PlanStages(e, plan)).Some?
      ensures job.Some? ==> fresh(job.value) && job.value.Valid()
      ensures job.Some? ==> Some(job.value.Value()) == NewJob(id, retries, PlanStages(e, plan))
    {
      var planner := new DistributedPlanner(e);
      var specs := planner.Plan(plan);
      StagesFormTree(e, plan);
      job := JobState.New(id, retries, specs);
    }

    /** Plan, start and list a job, then forget finished ones over the limit. */
    method Submit(e: Engine, id: string, plan: Plan, retries: nat) returns (ok: bool)
      requires Valid() && Original(plan)
      modifies this
      ensures Valid()
      ensures var j := NewJob(id, retries, PlanStages(e, plan));
        && ok == j.Some?
        && Value() == if ok then Submitted(old(Value()), id, j.value, retained) else old(Value())
    {
      var job := PlanJob(e, id, plan, retries);
      if job.None? {
        return false;
      }
      Add(id, job.value);
      return true;
    }

    method Cancel(id: string) returns (found: bool)
      requires Valid()
      modifies this`values, jobs.Values
      ensures Valid() && Value() == Cancelled(old(Value()), id)
      ensures found == (id in jobs)
    {
      if id !in jobs {
        return false;
      }
      var _ := jobs[id].Cancel();
      Note(id);
      return true;
    }

    // ---------------------------------------------------------------- executors

    method CompleteTask(id: TaskId, x: ExecutorId, outputs: seq<Location>) returns (ok: bool)
      requires Valid() && id.job in jobs
      modifies this`values, jobs.Values
      ensures var o := TaskCompleted(old(values)[id.job], id, x, outputs);
        Valid() && ok == o.ok && values == old(values)[id.job := o.job]
    {
      var job := jobs[id.job];
      var _, resolved := job.TaskCompleted(id, x, outputs);
      Note(id.job);
      ok := resolved;
    }

    method Fail(id: TaskId, error: string)
      requires Valid() && id.job in jobs
      modifies this`values, jobs.Values
      ensures Valid() && values == old(values)[id.job := TaskFailed(old(values)[id.job], id, error).0]
    {
      var job := jobs[id.job];
      var _ := job.TaskFailed(id, error);
      Note(id.job);
    }

    method Complete(id: TaskId, x: ExecutorId, outputs: seq<Location>)
      requires Valid() && id.job in jobs
      modifies this`values, jobs.Values
      ensures Valid() && values == old(values)[id.job := Reported(old(values)[id.job], id, x, outputs)]
    {
      var ok := CompleteTask(id, x, outputs);
      if !ok {
        ghost var j := values[id.job];
        Fail(id, "resolve failed");
        UpdateTwice(old(values), id.job, j, values[id.job]);
      }
    }

    method UpdateKnown(s: TaskStatus)
      requires Valid() && s.id.job in jobs
      modifies this`values, executors, jobs.Values
      ensures Valid() && Value() == Updated(old(Value()), s)
    {
      match s.report {
        case Done(outputs) =>
          executors.TaskFinished(s.executor, s.id, true);
          Complete(s.id, s.executor, outputs);
        case Broke(error) =>
          executors.TaskFinished(s.executor, s.id, false);
          Fail(s.id, error);
        case StillRunning =>
      }
    }

    method Update(s: TaskStatus)
      requires Valid()
      modifies this`values, executors, jobs.Values
      ensures Valid() && Value() == Updated(old(Value()), s)
    {
      if s.id.job !in jobs {
        executors.TaskFinished(s.executor, s.id, true);
      } else {
        UpdateKnown(s);
      }
    }

    method UpdateTaskStatus(statuses: seq<TaskStatus>)
      requires Valid()
      modifies this`values, executors, jobs.Values
      ensures Valid() && Value() == UpdatedAll(old(Value()), statuses, |statuses|)
    {
      for i := 0 to |statuses|
        invariant Valid() && Value() == UpdatedAll(old(Value()), statuses, i)
      {
        Update(statuses[i]);
      }
    }

    method TellJob(k: string, x: ExecutorId)
      requires Valid() && k in jobs
      modifies this`values, jobs.Values
      ensures Valid() && values == old(values)[k := Jobs.ExecutorLost(old(values)[k], x).0]
    {
      var job := jobs[k];
      var _ := job.ExecutorLost(x);
      Note(k);
    }

    /** One more job is told, in whatever order the map yields them. */
    method TellNext(x: ExecutorId, k: string, ghost before: map<string, Job>, ghost todo: set<string>)
      requires Valid() && k in todo && todo <= before.Keys == jobs.Keys
      requires values == ToldExcept(before, x, todo)
      modifies this`values, jobs.Values
      ensures Valid() && values == ToldExcept(before, x, todo - {k})
    {
      ToldOneMore(before, x, todo, k);
      assert values[k] == before[k];
      TellJob(k, x);
    }

    method TellJobs(x: ExecutorId)
      requires Valid()
      modifies this`values, jobs.Values
      ensures Valid() && values == Told(old(values), x)
    {
      ghost var before := values;
      ToldAll(before, x);
      var todo := jobs.Keys;
      while todo != {}
        invariant Valid() && todo <= before.Keys == jobs.Keys
        invariant values == ToldExcept(before, x, todo)
        decreases |todo|
      {
        var k :| k in todo;
        TellNext(x, k, before, todo);
        todo := todo - {k};
      }
    }

    /** Off the registry first; then every job is told. */
    method ExecutorLost(x: ExecutorId)
      requires Valid()
      modifies this`values, executors, jobs.Values
      ensures Valid()
      ensures Value() == Books(old(Value()).registry - {x}, Told(old(values), x), jobOrder)
    {
      var _ := executors.Remove(x);
      TellJobs(x);
    }

    method RequeueOne(x: ExecutorId, id: TaskId)
      requires Valid()
      modifies this`values, executors, jobs.Values
      ensures Valid() && Value() == RequeuedOne(old(Value()), x, id)
    {
      executors.TaskFinished(x, id, false);
      if id.job in jobs {
        var job := jobs[id.job];
        job.MarkPending(id.stage, id.partition, id.attempt);
        Note(id.job);
      }
    }

    /** Give rejected tasks back. */
    method Requeue(x: ExecutorId, ids: seq<TaskId>)
      requires Valid()
      modifies this`values, executors, jobs.Values
      ensures Valid() && Value() == Requeued(old(Value()), x, ids, |ids|)
    {
      for i := 0 to |ids|
        invariant Valid() && Value() == Requeued(old(Value()), x, ids, i)
      {
        RequeueOne(x, ids[i]);
      }
    }

    // ---------------------------------------------------------------- rounds

    ghost function Now(free: seq<Slot>, launches: seq<Handout>, full: bool): Round
      reads this, executors
    {
      Round(free, values, executors.executors, launches, full)
    }

    static method Insert(free: seq<Slot>, s: Slot) returns (r: seq<Slot>)
      requires Descending(free) && DistinctSlots(free) && forall t :: t in free ==> t.executor != s.executor
      ensures Descending(r) && DistinctSlots(r)
      ensures forall t :: t in r <==> t in free || t == s
    {
      var i := 0;
      while i < |free| && free[i].free >= s.free
        invariant i <= |free|
        invariant forall k :: 0 <= k < i ==> free[k].free >= s.free
      {
        i := i + 1;
      }
      r := free[..i] + [s] + free[i..];
      InsertedIn(free, i, s);
      InsertedOrder(free, i, s);
    }

    method ListFree() returns (free: seq<Slot>)
      ensures Listed(executors.executors, free)
    {
      free := [];
      var todo := executors.executors.Keys;
      while todo != {}
        invariant todo <= executors.executors.Keys
        invariant Descending(free) && DistinctSlots(free)
        invariant forall s :: s in free <==>
          && s.executor in executors.executors && s.executor !in todo
          && s.free == FreeSlots(executors.executors[s.executor]) && s.free > 0
        decreases |todo|
      {
        var x :| x in todo;
        todo := todo - {x};
        var n := FreeSlots(executors.executors[x]);
        if n > 0 {
          free := Insert(free, Slot(x, n));
        }
      }
    }

    method Launch(x: ExecutorId, job: string, t: PendingTask)
      requires Valid() && job in jobs
      modifies this`values, executors, jobs.Values
      ensures Valid()
      ensures values == old(values)[job := MarkRunning(old(values)[job], t.stage, t.partition, t.attempt, x)]
      ensures executors.executors ==
        Started(old(executors.executors), x, TaskId(job, t.stage, t.partition, t.attempt))
    {
      var state := jobs[job];
      state.MarkRunning(t.stage, t.partition, t.attempt, x);
      Note(job);
      executors.TaskStarted(x, TaskId(job, t.stage, t.partition, t.attempt));
    }

    /** The executor with the most slots left gets the task, if any has one. */
    method AssignNext(job: string, t: PendingTask, free0: seq<Slot>, launches0: seq<Handout>)
      returns (free: seq<Slot>, launches: seq<Handout>, full: bool)
      requires Valid() && job in jobs
      modifies this`values, executors, jobs.Values
      ensures Valid()
      ensures Now(free, launches, full) == Dispatching.AssignNext(old(Now(free0, launches0, false)), job, t)
    {
      free, launches, full := free0, launches0, NoneFree(free0);
      if !full {
        var i := LastMax(free0);
        var s := free0[i];
        free := free0[i := Slot(s.executor, s.free - 1)];
        Launch(s.executor, job, t);
        launches := launches0 + [Handout(s.executor, TaskId(job, t.stage, t.partition, t.attempt), t.plan)];
      }
    }

    /** The walk stops at task number `n`, and keeps whatever every step keeps. */
    method WalkTasks(job: string, tasks: seq<PendingTask>, free0: seq<Slot>, launches0: seq<Handout>,
                     ghost inv: (Round, nat) -> bool)
      returns (free: seq<Slot>, launches: seq<Handout>, full: bool, ghost n: nat)
      requires Valid() && job in jobs && inv(Now(free0, launches0, false), 0)
      requires forall p: Round, m: nat {:trigger Dispatching.AssignNext(p, job, tasks[m])} ::
        m < |tasks| && job in p.jobs && inv(p, m) ==> inv(Dispatching.AssignNext(p, job, tasks[m]), m + 1)
      modifies this`values, executors, jobs.Values
      ensures Valid() && n <= |tasks| && (full || n == |tasks|)
      ensures inv(Now(free, launches, full), n)
    {
      free, launches, full := free0, launches0, false;
      var i := 0;
      while i < |tasks| && !full
        invariant Valid() && i <= |tasks|
        invariant inv(Now(free, launches, full), i)
      {
        free, launches, full := AssignNext(job, tasks[i], free, launches);
        i := i + 1;
      }
      n := i;
    }

    method TakeTurn(job: string, free0: seq<Slot>, launches0: seq<Handout>)
      returns (free: seq<Slot>, launches: seq<Handout>, full: bool)
      requires Valid()
      modifies this`values, executors, jobs.Values
      ensures Valid()
      ensures Now(free, launches, full) == AssignJob(old(Now(free0, launches0, false)), job)
    {
      if job !in jobs || !jobs[job].status.JobRunning? {
        return free0, launches0, false;
      }
      var tasks := jobs[job].PendingTasks();
      ghost var start := Now(free0, launches0, false);
      ghost var n;
      AtTaskFirst(start, job, tasks);
      AtTaskKept(start, job, tasks);
      free, launches, full, n := WalkTasks(job, tasks, free0, launches0, AtTask(start, job, tasks));
      AtTaskDone(start, job, tasks, Now(free, launches, full), n);
    }

    /** The walk stops at job number `n`, and keeps whatever every turn keeps. */
    method WalkJobs(free0: seq<Slot>, ghost inv: (Round, nat) -> bool)
      returns (launches: seq<Handout>, ghost q: Round, ghost n: nat)
      requires Valid() && inv(Now(free0, [], false), 0)
      requires forall p: Round, m: nat {:trigger AssignJob(p, jobOrder[m])} ::
        m < |jobOrder| && inv(p, m) ==> inv(AssignJob(p, jobOrder[m]), m + 1)
      modifies this`values, executors, jobs.Values
      ensures Valid() && n <= |jobOrder| && (q.full || n == |jobOrder|)
      ensures q == Now(q.free, launches, q.full) && inv(q, n)
    {
      var free, full := free0, false;
      launches := [];
      var i := 0;
      while i < |jobOrder| && !full
        invariant Valid() && i <= |jobOrder|
        invariant inv(Now(free, launches, full), i)
      {
        free, launches, full := TakeTurn(jobOrder[i], free, launches);
        i := i + 1;
      }
      q, n := Now(free, launches, full), i;
    }

    /** Walk the jobs in submission order until the slots run out. */
    method AssignPending(free0: seq<Slot>) returns (launches: seq<Handout>)
      requires Valid()
      modifies this`values, executors, jobs.Values
      ensures Valid()
      ensures var r := Dispatched(old(Value()), free0);
        Value() == Books(r.registry, r.jobs, jobOrder) && launches == r.handed
    {
      ghost var start := Now(free0, [], false);
      ghost var q, n;
      AtJobFirst(start, jobOrder);
      AtJobKept(start, jobOrder);
      launches, q, n := WalkJobs(free0, AtJob(start, jobOrder));
      AtJobDone(start, jobOrder, q, n);
    }

    /** One round, up to sending the batches. */
    method Dispatch() returns (launches: seq<Handout>)
      requires Valid()
      modifies this`values, executors, jobs.Values
      ensures Valid()
      ensures exists free: seq<Slot> ::
        && Listed(old(executors.executors), free)
        && var r := Dispatched(old(Value()), free);
           Value() == Books(r.registry, r.jobs, jobOrder) && launches == r.handed
    {
      var free := ListFree();
      launches := AssignPending(free);
    }
  }
}
