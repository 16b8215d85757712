/**
 Many jobs on many executors: every interleaving of dispatch rounds with
 submissions, registrations, reports, rejections, failed launches, losses and
 cancellations.
 */
module Clusters {
  import opened Options
  import opened Plans
  import opened Planner
  import opened Jobs
  import opened JobInvariant
  import opened JobProtocol
  import opened JobRuns
  import opened TaskKeys
  import opened Executors
  import opened Dispatching
  import opened SchedulerBooks

  type Launched = map<TaskId, TaskPlan>

  /** Where the one dispatching thread is: looking at executors one after the
      other, or waiting for answers to what it handed out. */
  datatype Phase = Looking(free: seq<Slot>) | Sending(handed: seq<Handout>)

  /** `losing` is an executor already off the registry that the jobs have not
      been told about; `plans` and `launched` only record what happened. */
  datatype Cluster = Cluster(
    books: Books, plans: map<string, Plan>, launched: Launched, phase: Phase, losing: Option<ExecutorId>)

  datatype Step =
    | Submit(job: string, plan: Plan, retries: nat)
    | CancelQuery(job: string)
    | Register(executor: ExecutorId)
    | StartRound
    | Look(executor: ExecutorId)
    | Assign(free: seq<Slot>)
    | Answer(executor: ExecutorId, rejected: seq<TaskId>)
    | LaunchFails(executor: ExecutorId)
    | Remove(executor: ExecutorId)
    | TellJobs
    | Status(status: TaskStatus)

  /** Slots per executor id, and how many jobs are kept. */
  datatype Setting = Setting(engine: Engine, slots: ExecutorId -> nat, retained: nat)

  // ---------------------------------------------------------------- steps

  ghost predicate Seen(free: seq<Slot>, x: ExecutorId) {
    exists k :: 0 <= k < |free| && free[k].executor == x
  }

  ghost predicate Descending(free: seq<Slot>) {
    forall a, b :: 0 <= a < b < |free| ==> free[a].free >= free[b].free
  }

  /** What is left once the batch of `x` is answered. */
  function Without(handed: seq<Handout>, x: ExecutorId): seq<Handout> {
    if |handed| == 0 then []
    else
      var last := handed[|handed| - 1];
      Without(handed[..|handed| - 1], x) + (if last.executor == x then [] else [last])
  }

  function BatchOf(handed: seq<Handout>, x: ExecutorId): seq<TaskId> {
    if |handed| == 0 then []
    else
      var last := handed[|handed| - 1];
      BatchOf(handed[..|handed| - 1], x) + (if last.executor == x then [last.id] else [])
  }

  /** A status about a known job speaks of a launched attempt, and a completion
      carries what the launched plan writes. */
  ghost predicate Truthful(e: Engine, c: Cluster, s: TaskStatus) {
    s.id.job in c.books.jobs ==>
      && s.id in c.launched
      && (s.report.Done? ==> RunTask(e, c.launched[s.id], s.id.partition, s.executor) == Some(s.report.outputs))
  }

  ghost predicate May(g: Setting, c: Cluster, step: Step) {
    match step
    case Submit(job, plan, _) => job !in c.plans && Original(plan)
    case Register(x) => x !in c.books.registry
    case StartRound => c.phase == Sending([]) && c.losing.None?
    case Look(x) => c.phase.Looking? && x in c.books.registry && !Seen(c.phase.free, x)
    case Assign(free) => c.phase.Looking? && multiset(free) == multiset(c.phase.free) && Descending(free)
    case Answer(x, _) => c.phase.Sending? && c.losing.None?
    case LaunchFails(x) => c.phase.Sending? && c.losing.None?
    case Remove(x) => c.phase.Sending? && c.losing.None?
    case TellJobs => c.losing.Some?
    case Status(s) => Truthful(g.engine, c, s)
    case CancelQuery(_) => true
  }

  function Noted(launched: Launched, handed: seq<Handout>): Launched {
    if |handed| == 0 then launched
    else
      var last := handed[|handed| - 1];
      Noted(launched, handed[..|handed| - 1])[last.id := last.plan]
  }

  function Looked(free: seq<Slot>, x: ExecutorId, e: Entry): seq<Slot> {
    if FreeSlots(e) > 0 then free + [Slot(x, FreeSlots(e))] else free
  }

  ghost function Next(g: Setting, c: Cluster, step: Step): Cluster
    requires May(g, c, step)
  {
    match step
    case Submit(job, plan, retries) =>
      var j := NewJob(job, retries, PlanStages(g.engine, plan));
      if j.None? then c
      else c.(books := Submitted(c.books, job, j.value, g.retained), plans := c.plans[job := plan])
    case CancelQuery(job) => c.(books := Cancelled(c.books, job))
    case Register(x) => c.(books := c.books.(registry := Registered(c.books.registry, x, g.slots(x))))
    case StartRound => c.(phase := Looking([]))
    case Look(x) => c.(phase := Looking(Looked(c.phase.free, x, c.books.registry[x])))
    case Assign(free) =>
      var r := Dispatched(c.books, free);
      c.(books := Books(r.registry, r.jobs, c.books.order),
         launched := Noted(c.launched, r.handed), phase := Sending(r.handed))
    case Answer(x, rejected) =>
      c.(books := Requeued(c.books, x, rejected, |rejected|), phase := Sending(Without(c.phase.handed, x)))
    case LaunchFails(x) =>
      var ids := BatchOf(c.phase.handed, x);
      c.(books := Requeued(c.books, x, ids, |ids|), phase := Sending(Without(c.phase.handed, x)))
    case Remove(x) => c.(books := c.books.(registry := c.books.registry - {x}), losing := Some(x))
    case TellJobs => c.(books := c.books.(jobs := Told(c.books.jobs, c.losing.value)), losing := None)
    case Status(s) => c.(books := Updated(c.books, s))
  }

  // ---------------------------------------------------------------- invariant

  function LaunchedOf(launched: Launched, job: string): Launched {
    map id | id in launched && id.job == job :: launched[id]
  }

  ghost predicate JobOk(e: Engine, plans: map<string, Plan>, launched: Launched, k: string, j: Job) {
    && k in plans && Original(plans[k]) && j.jobId == k
    && SystemInv(e, plans[k], System(j, LaunchedOf(launched, k)))
  }

  ghost predicate JobsOk(e: Engine, plans: map<string, Plan>, launched: Launched, jobs: map<string, Job>) {
    forall k :: k in jobs ==> JobOk(e, plans, launched, k, jobs[k])
  }

  ghost predicate RunsOn(j: Job, s: nat, p: nat, attempt: nat, x: ExecutorId) {
    && j.Active() && j.HasTask(s, p)
    && j.Task(s, p).state == Running(x) && j.Task(s, p).attempt == attempt
  }

  /** What a job believes to run, the registry holds. */
  ghost predicate Agrees(registry: Registry, losing: Option<ExecutorId>, k: string, j: Job) {
    forall s: nat, p: nat, attempt: nat, x: ExecutorId :: RunsOn(j, s, p, attempt, x) ==>
      losing == Some(x) || Holds(registry, x, TaskId(k, s, p, attempt))
  }

  ghost predicate AllAgree(registry: Registry, losing: Option<ExecutorId>, jobs: map<string, Job>) {
    forall k :: k in jobs ==> Agrees(registry, losing, k, jobs[k])
  }

  ghost predicate RegistryOk(g: Setting, registry: Registry) {
    WithinSlots(registry) && forall x :: x in registry ==> registry[x].slots == g.slots(x)
  }

  /** The free slots noted for an executor are still there. */
  ghost predicate Fits(registry: Registry, s: Slot) {
    s.executor in registry && |registry[s.executor].running| + s.free <= registry[s.executor].slots
  }

  ghost predicate AllFit(registry: Registry, free: seq<Slot>) {
    forall k :: 0 <= k < |free| ==> Fits(registry, free[k])
  }

  ghost predicate PhaseOk(c: Cluster) {
    c.phase.Looking? ==> c.losing.None? && DistinctSlots(c.phase.free) && AllFit(c.books.registry, c.phase.free)
  }

  /** Ids are not reused. */
  ghost predicate OrderOk(c: Cluster) {
    && DistinctIds(c.books.order)
    && (forall i :: 0 <= i < |c.books.order| ==> c.books.order[i] in c.plans)
    && forall id :: id in c.launched ==> id.job in c.plans
  }

  ghost predicate ClusterInv(g: Setting, c: Cluster) {
    && RegistryOk(g, c.books.registry)
    && JobsOk(g.engine, c.plans, c.launched, c.books.jobs)
    && AllAgree(c.books.registry, c.losing, c.books.jobs)
    && PhaseOk(c)
    && OrderOk(c)
  }

  // ---------------------------------------------------------------- one job moves

  /** The job's running slots are old ones. */
  ghost predicate NothingStarts(j: Job, j': Job) {
    forall s: nat, p: nat, attempt: nat, x: ExecutorId :: RunsOn(j', s, p, attempt, x) ==> RunsOn(j, s, p, attempt, x)
  }

  ghost predicate Stopped(j: Job, id: TaskId) {
    forall x: ExecutorId :: !RunsOn(j, id.stage, id.partition, id.attempt, x)
  }

  /** Striking a key off agrees with a job that no longer runs the task. */
  lemma FinishedAgrees(registry: Registry, losing: Option<ExecutorId>, k: string, j: Job, j': Job, x: ExecutorId,
                       id: TaskId, ok: bool)
    requires Agrees(registry, losing, k, j) && NothingStarts(j, j') && (id.job == k ==> Stopped(j', id))
    ensures Agrees(Finished(registry, x, id, ok), losing, k, j')
  {
    forall s: nat, p: nat, attempt: nat, y: ExecutorId | RunsOn(j', s, p, attempt, y)
      ensures losing == Some(y) || Holds(Finished(registry, x, id, ok), y, TaskId(k, s, p, attempt))
    {
      assert RunsOn(j, s, p, attempt, y);
      FinishedHolds(registry, x, id, ok, y, TaskId(k, s, p, attempt));
    }
  }

  lemma RequeueStops(j: Job, id: TaskId)
    ensures var j' := MarkPending(j, id.stage, id.partition, id.attempt);
      NothingStarts(j, j') && Stopped(j', id)
  {
  }

  lemma FailureStops(j: Job, id: TaskId, error: string)
    ensures var j' := TaskFailed(j, id, error).0;
      NothingStarts(j, j') && Stopped(j', id)
  {
  }

  lemma ReportKeepsCounts(j: Job, id: TaskId, x: ExecutorId, outputs: seq<Location>)
    ensures var j' := TaskCompleted(j, id, x, outputs).job;
      && |j'.stages| == |j.stages| && (j'.Active() ==> j.Active())
      && forall i :: 0 <= i < |j.stages| ==> |j'.stages[i].tasks| == |j.stages[i].tasks|
  {
    if Accepts(j, id) {
      var closed := Closed(Recorded(j, id, x, outputs), id.stage).stages;
      PreparedKeepsTasks(closed, Candidates(closed, id.stage, |closed|));
    }
  }

  lemma ReportStops(j: Job, id: TaskId, x: ExecutorId, outputs: seq<Location>)
    ensures var j' := TaskCompleted(j, id, x, outputs).job;
      NothingStarts(j, j') && Stopped(j', id)
  {
    var j' := TaskCompleted(j, id, x, outputs).job;
    ReportKeepsCounts(j, id, x, outputs);
    if Accepts(j, id) {
      ReportRecords(j, id, x, outputs);
    }
    forall s: nat, p: nat, attempt: nat, y: ExecutorId | RunsOn(j', s, p, attempt, y)
      ensures RunsOn(j, s, p, attempt, y)
    {
      if !(s == id.stage && p == id.partition && Accepts(j, id)) {
        ReportTouchesOne(j, id, x, outputs, s, p);
      }
    }
  }

  lemma CancelStops(j: Job)
    ensures NothingStarts(j, Cancel(j).0)
  {
  }

  /** Nothing runs on a lost executor any more, as far as an active job knows. */
  lemma LossStops(j: Job, x: ExecutorId)
    ensures var j' := ExecutorLost(j, x).0;
      && NothingStarts(j, j')
      && forall s: nat, p: nat, attempt: nat :: !RunsOn(j', s, p, attempt, x)
  {
    forall s: nat, p: nat, attempt: nat, y: ExecutorId | RunsOn(ExecutorLost(j, x).0, s, p, attempt, y)
      ensures RunsOn(j, s, p, attempt, y) && y != x
    {
      assert ExecutorLost(j, x).0.Task(s, p) == LoseTask(j.Task(s, p), x);
    }
  }

  lemma KeepsId(s: System, ev: Event)
    ensures Apply(s, ev).job.jobId == s.job.jobId
  {
  }

  /** Any protocol event but a launch keeps a job in order. */
  lemma EventOk(e: Engine, plans: map<string, Plan>, launched: Launched, k: string, j: Job, ev: Event)
    requires ValidEngine(e) && JobOk(e, plans, launched, k, j) && !ev.Launch?
    requires Enabled(e, System(j, LaunchedOf(launched, k)), ev)
    ensures JobOk(e, plans, launched, k, Apply(System(j, LaunchedOf(launched, k)), ev).job)
  {
    var s := System(j, LaunchedOf(launched, k));
    StepKeeps(e, plans[k], s, ev);
    KeepsId(s, ev);
  }

  // ---------------------------------------------------------------- statuses

  lemma ReportOk(e: Engine, plans: map<string, Plan>, launched: Launched, k: string, j: Job, id: TaskId,
                 x: ExecutorId, outputs: seq<Location>)
    requires ValidEngine(e) && JobOk(e, plans, launched, k, j)
    requires Enabled(e, System(j, LaunchedOf(launched, k)), Report(id, x, outputs))
    ensures Reported(j, id, x, outputs) == TaskCompleted(j, id, x, outputs).job
    ensures JobOk(e, plans, launched, k, Reported(j, id, x, outputs))
  {
    var s := System(j, LaunchedOf(launched, k));
    EventOk(e, plans, launched, k, j, Report(id, x, outputs));
    ReportKeeps(e, plans[k], s, id, x, outputs);
  }

  lemma FailedOk(e: Engine, plans: map<string, Plan>, launched: Launched, k: string, j: Job, id: TaskId, error: string)
    requires ValidEngine(e) && JobOk(e, plans, launched, k, j)
    requires Enabled(e, System(j, LaunchedOf(launched, k)), Failure(id, error))
    ensures JobOk(e, plans, launched, k, TaskFailed(j, id, error).0)
  {
    EventOk(e, plans, launched, k, j, Failure(id, error));
  }

  lemma OneJobAgrees(b: Books, losing: Option<ExecutorId>, k: string, j: Job, x: ExecutorId, id: TaskId, ok: bool)
    requires AllAgree(b.registry, losing, b.jobs) && k in b.jobs && id.job == k
    requires NothingStarts(b.jobs[k], j) && Stopped(j, id)
    ensures AllAgree(Finished(b.registry, x, id, ok), losing, b.jobs[k := j])
  {
    var jobs := b.jobs[k := j];
    forall l | l in jobs
      ensures Agrees(Finished(b.registry, x, id, ok), losing, l, jobs[l])
    {
      assert Agrees(b.registry, losing, l, b.jobs[l]);
      FinishedAgrees(b.registry, losing, l, b.jobs[l], jobs[l], x, id, ok);
    }
  }

  lemma OneJobJobs(e: Engine, plans: map<string, Plan>, launched: Launched, jobs: map<string, Job>, k: string, j': Job)
    requires JobsOk(e, plans, launched, jobs) && JobOk(e, plans, launched, k, j')
    ensures JobsOk(e, plans, launched, jobs[k := j'])
  {
  }

  /** One job changes, one key is struck off. */
  lemma OneJobOk(g: Setting, c: Cluster, c': Cluster, k: string, x: ExecutorId, id: TaskId, ok: bool)
    requires ClusterInv(g, c) && k in c.books.jobs && k in c'.books.jobs && id.job == k
    requires c'.books ==
      Books(Finished(c.books.registry, x, id, ok), c.books.jobs[k := c'.books.jobs[k]], c.books.order)
    requires c'.plans == c.plans && c'.launched == c.launched && c'.losing == c.losing
    requires JobOk(g.engine, c.plans, c.launched, k, c'.books.jobs[k])
    requires NothingStarts(c.books.jobs[k], c'.books.jobs[k]) && Stopped(c'.books.jobs[k], id)
    ensures RegistryOk(g, c'.books.registry)
    ensures JobsOk(g.engine, c'.plans, c'.launched, c'.books.jobs)
    ensures AllAgree(c'.books.registry, c'.losing, c'.books.jobs)
  {
    FinishedWithin(c.books.registry, x, id, ok);
    OneJobAgrees(c.books, c.losing, k, c'.books.jobs[k], x, id, ok);
    OneJobJobs(g.engine, c.plans, c.launched, c.books.jobs, k, c'.books.jobs[k]);
  }

  lemma FinishedFits(registry: Registry, free: seq<Slot>, x: ExecutorId, id: TaskId, ok: bool)
    requires AllFit(registry, free)
    ensures AllFit(Finished(registry, x, id, ok), free)
  {
    forall k | 0 <= k < |free|
      ensures Fits(Finished(registry, x, id, ok), free[k])
    {
      assert Fits(registry, free[k]);
      SetShrinks(registry[free[k].executor].running, Print(id));
    }
  }

  lemma FinishedPhase(c: Cluster, c': Cluster, x: ExecutorId, id: TaskId, ok: bool)
    requires PhaseOk(c) && c'.phase == c.phase && c'.losing == c.losing
    requires c'.books.registry == Finished(c.books.registry, x, id, ok)
    ensures PhaseOk(c')
  {
    if c.phase.Looking? {
      FinishedFits(c.books.registry, c.phase.free, x, id, ok);
    }
  }

  /** A status about a job nobody knows only strikes off a key. */
  lemma StrayStatusKeeps(g: Setting, c: Cluster, c': Cluster, x: ExecutorId, id: TaskId, ok: bool)
    requires ClusterInv(g, c) && id.job !in c.books.jobs
    requires c' == c.(books := c.books.(registry := Finished(c.books.registry, x, id, ok)))
    ensures ClusterInv(g, c')
  {
    FinishedWithin(c.books.registry, x, id, ok);
    FinishedPhase(c, c', x, id, ok);
    forall l | l in c'.books.jobs
      ensures Agrees(c'.books.registry, c'.losing, l, c'.books.jobs[l])
    {
      assert Agrees(c.books.registry, c.losing, l, c.books.jobs[l]);
      FinishedAgrees(c.books.registry, c.losing, l, c.books.jobs[l], c.books.jobs[l], x, id, ok);
    }
  }

  lemma DoneKeeps(g: Setting, c: Cluster, s: TaskStatus)
    requires ValidEngine(g.engine) && ClusterInv(g, c) && Truthful(g.engine, c, s)
    requires s.id.job in c.books.jobs && s.report.Done?
    ensures ClusterInv(g, c.(books := Updated(c.books, s)))
  {
    var c' := c.(books := Updated(c.books, s));
    var k := s.id.job;
    ReportOk(g.engine, c.plans, c.launched, k, c.books.jobs[k], s.id, s.executor, s.report.outputs);
    ReportStops(c.books.jobs[k], s.id, s.executor, s.report.outputs);
    OneJobOk(g, c, c', k, s.executor, s.id, true);
    FinishedPhase(c, c', s.executor, s.id, true);
  }

  lemma BrokeKeeps(g: Setting, c: Cluster, s: TaskStatus)
    requires ValidEngine(g.engine) && ClusterInv(g, c) && Truthful(g.engine, c, s)
    requires s.id.job in c.books.jobs && s.report.Broke?
    ensures ClusterInv(g, c.(books := Updated(c.books, s)))
  {
    var c' := c.(books := Updated(c.books, s));
    var k := s.id.job;
    FailedOk(g.engine, c.plans, c.launched, k, c.books.jobs[k], s.id, s.report.error);
    FailureStops(c.books.jobs[k], s.id, s.report.error);
    OneJobOk(g, c, c', k, s.executor, s.id, false);
    FinishedPhase(c, c', s.executor, s.id, false);
  }

  lemma StatusKeeps(g: Setting, c: Cluster, s: TaskStatus)
    requires ValidEngine(g.engine) && ClusterInv(g, c) && Truthful(g.engine, c, s)
    ensures ClusterInv(g, c.(books := Updated(c.books, s)))
  {
    if s.id.job !in c.books.jobs {
      StrayStatusKeeps(g, c, c.(books := Updated(c.books, s)), s.executor, s.id, true);
    } else if s.report.Done? {
      DoneKeeps(g, c, s);
    } else if s.report.Broke? {
      BrokeKeeps(g, c, s);
    }
  }

  // ---------------------------------------------------------------- answers

  lemma RequeueOneKeeps(g: Setting, c: Cluster, x: ExecutorId, id: TaskId)
    requires ValidEngine(g.engine) && ClusterInv(g, c)
    ensures ClusterInv(g, c.(books := RequeuedOne(c.books, x, id)))
  {
    var c' := c.(books := RequeuedOne(c.books, x, id));
    var k := id.job;
    if k !in c.books.jobs {
      StrayStatusKeeps(g, c, c', x, id, false);
    } else {
      EventOk(g.engine, c.plans, c.launched, k, c.books.jobs[k], Requeue(id));
      RequeueStops(c.books.jobs[k], id);
      OneJobOk(g, c, c', k, x, id, false);
      FinishedPhase(c, c', x, id, false);
    }
  }

  /** Whatever ids an executor sends back. */
  lemma {:induction false} RequeueKeepsAll(g: Setting, c: Cluster, x: ExecutorId, ids: seq<TaskId>, n: nat)
    requires ValidEngine(g.engine) && ClusterInv(g, c) && n <= |ids|
    ensures ClusterInv(g, c.(books := Requeued(c.books, x, ids, n)))
  {
    if n > 0 {
      RequeueKeepsAll(g, c, x, ids, n - 1);
      RequeueOneKeeps(g, c.(books := Requeued(c.books, x, ids, n - 1)), x, ids[n - 1]);
    }
  }

  lemma AnswerKeeps(g: Setting, c: Cluster, x: ExecutorId, ids: seq<TaskId>, handed: seq<Handout>)
    requires ValidEngine(g.engine) && ClusterInv(g, c)
    ensures ClusterInv(g, c.(books := Requeued(c.books, x, ids, |ids|), phase := Sending(handed)))
  {
    RequeueKeepsAll(g, c, x, ids, |ids|);
  }

  // ---------------------------------------------------------------- executors come and go

  lemma RegisterAgrees(registry: Registry, losing: Option<ExecutorId>, jobs: map<string, Job>, x: ExecutorId,
                       slots: nat)
    requires AllAgree(registry, losing, jobs) && x !in registry
    ensures AllAgree(Registered(registry, x, slots), losing, jobs)
  {
    forall k | k in jobs
      ensures Agrees(Registered(registry, x, slots), losing, k, jobs[k])
    {
      assert Agrees(registry, losing, k, jobs[k]);
    }
  }

  lemma RegisterFits(registry: Registry, free: seq<Slot>, x: ExecutorId, slots: nat)
    requires AllFit(registry, free) && x !in registry
    ensures AllFit(Registered(registry, x, slots), free)
  {
    forall i | 0 <= i < |free|
      ensures Fits(Registered(registry, x, slots), free[i])
    {
      assert Fits(registry, free[i]);
    }
  }

  lemma RegisterKeeps(g: Setting, c: Cluster, x: ExecutorId)
    requires ClusterInv(g, c) && x !in c.books.registry
    ensures ClusterInv(g, c.(books := c.books.(registry := Registered(c.books.registry, x, g.slots(x)))))
  {
    RegisterAgrees(c.books.registry, c.losing, c.books.jobs, x, g.slots(x));
    if c.phase.Looking? {
      RegisterFits(c.books.registry, c.phase.free, x, g.slots(x));
    }
  }

  lemma RemoveAgrees(registry: Registry, x: ExecutorId, k: string, j: Job)
    requires Agrees(registry, None, k, j)
    ensures Agrees(registry - {x}, Some(x), k, j)
  {
  }

  lemma RemoveKeeps(g: Setting, c: Cluster, x: ExecutorId)
    requires ClusterInv(g, c) && c.phase.Sending? && c.losing.None?
    ensures ClusterInv(g, c.(books := c.books.(registry := c.books.registry - {x}), losing := Some(x)))
  {
    forall k | k in c.books.jobs
      ensures Agrees(c.books.registry - {x}, Some(x), k, c.books.jobs[k])
    {
      RemoveAgrees(c.books.registry, x, k, c.books.jobs[k]);
    }
  }

  lemma TellKeeps(g: Setting, c: Cluster)
    requires ValidEngine(g.engine) && ClusterInv(g, c) && c.losing.Some?
    ensures ClusterInv(g, c.(books := c.books.(jobs := Told(c.books.jobs, c.losing.value)), losing := None))
  {
    var x := c.losing.value;
    var jobs := Told(c.books.jobs, x);
    forall k | k in jobs
      ensures JobOk(g.engine, c.plans, c.launched, k, jobs[k])
      ensures Agrees(c.books.registry, None, k, jobs[k])
    {
      EventOk(g.engine, c.plans, c.launched, k, c.books.jobs[k], Lost(x));
      LossStops(c.books.jobs[k], x);
      assert Agrees(c.books.registry, c.losing, k, c.books.jobs[k]);
    }
  }

  lemma LookKeeps(g: Setting, c: Cluster, x: ExecutorId)
    requires ClusterInv(g, c) && c.phase.Looking? && x in c.books.registry && !Seen(c.phase.free, x)
    ensures ClusterInv(g, c.(phase := Looking(Looked(c.phase.free, x, c.books.registry[x]))))
  {
    forall k | 0 <= k < |c.phase.free|
      ensures c.phase.free[k].executor != x
    {
    }
  }

  // ---------------------------------------------------------------- jobs come and go

  /** One job goes on without starting anything. */
  lemma OneJobKeeps(g: Setting, c: Cluster, k: string, j': Job)
    requires ClusterInv(g, c) && k in c.books.jobs
    requires JobOk(g.engine, c.plans, c.launched, k, j') && NothingStarts(c.books.jobs[k], j')
    ensures ClusterInv(g, c.(books := c.books.(jobs := c.books.jobs[k := j'])))
  {
    assert Agrees(c.books.registry, c.losing, k, c.books.jobs[k]);
  }

  lemma CancelQueryKeeps(g: Setting, c: Cluster, k: string)
    requires ValidEngine(g.engine) && ClusterInv(g, c)
    ensures ClusterInv(g, c.(books := Cancelled(c.books, k)))
  {
    if k in c.books.jobs {
      var j := c.books.jobs[k];
      EventOk(g.engine, c.plans, c.launched, k, j, CancelJob);
      CancelStops(j);
      OneJobKeeps(g, c, k, Cancel(j).0);
    }
  }

  lemma FreshIsPending(k: string, retries: nat, specs: seq<Stage>)
    requires NewJob(k, retries, specs).Some?
    ensures forall s: nat, p: nat, attempt: nat, x: ExecutorId ::
      !RunsOn(NewJob(k, retries, specs).value, s, p, attempt, x)
  {
    var start := FreshStages(specs);
    PreparedKeepsTasks(start, RunnableIds(start, |start|));
    var j := NewJob(k, retries, specs).value;
    forall s: nat, p: nat | j.HasTask(s, p)
      ensures j.Task(s, p).state.Pending?
    {
      assert j.stages[s - 1].tasks == start[s - 1].tasks;
    }
  }

  lemma FreshJobOk(g: Setting, c: Cluster, k: string, plan: Plan, retries: nat)
    requires ValidEngine(g.engine) && OrderOk(c) && k !in c.plans && Original(plan)
    ensures var j := NewJob(k, retries, PlanStages(g.engine, plan));
      j.Some? && JobOk(g.engine, c.plans[k := plan], c.launched, k, j.value)
  {
    NewJobInv(g.engine, plan, k, retries);
    assert LaunchedOf(c.launched, k) == map[];
  }

  lemma SubmittedOrder(c: Cluster, k: string, plan: Plan, j: Job, retained: nat)
    requires OrderOk(c) && k !in c.plans
    ensures OrderOk(c.(books := Submitted(c.books, k, j, retained), plans := c.plans[k := plan]))
  {
    var order := c.books.order + [k];
    var evict := Excess(order, retained);
    assert forall i :: 0 <= i < |order| - |evict| ==> order[|evict|..][i] == order[|evict| + i];
  }

  lemma SubmittedKeeps(g: Setting, c: Cluster, k: string, plan: Plan, j: Job)
    requires ClusterInv(g, c) && k !in c.plans && JobOk(g.engine, c.plans[k := plan], c.launched, k, j)
    requires forall s: nat, p: nat, attempt: nat, x: ExecutorId :: !RunsOn(j, s, p, attempt, x)
    ensures ClusterInv(g, c.(books := Submitted(c.books, k, j, g.retained), plans := c.plans[k := plan]))
  {
    var c' := c.(books := Submitted(c.books, k, j, g.retained), plans := c.plans[k := plan]);
    forall l | l in c'.books.jobs
      ensures JobOk(g.engine, c'.plans, c'.launched, l, c'.books.jobs[l])
    {
      if l != k {
        assert JobOk(g.engine, c.plans, c.launched, l, c.books.jobs[l]);
      }
    }
    forall l | l in c'.books.jobs
      ensures Agrees(c'.books.registry, c'.losing, l, c'.books.jobs[l])
    {
      if l != k {
        assert Agrees(c.books.registry, c.losing, l, c.books.jobs[l]);
      }
    }
    SubmittedOrder(c, k, plan, j, g.retained);
  }

  /** Forgetting jobs does no harm. */
  lemma SubmitKeeps(g: Setting, c: Cluster, k: string, plan: Plan, retries: nat)
    requires ValidEngine(g.engine) && ClusterInv(g, c) && k !in c.plans && Original(plan)
    ensures ClusterInv(g, Next(g, c, Submit(k, plan, retries)))
  {
    var specs := PlanStages(g.engine, plan);
    FreshJobOk(g, c, k, plan, retries);
    FreshIsPending(k, retries, specs);
    SubmittedKeeps(g, c, k, plan, NewJob(k, retries, specs).value);
  }

  // ---------------------------------------------------------------- rounds

  /** What a round keeps while it hands out tasks. */
  ghost predicate RoundOk(g: Setting, plans: map<string, Plan>, launched: Launched, r: Round) {
    && RegistryOk(g, r.registry)
    && JobsOk(g.engine, plans, Noted(launched, r.handed), r.jobs)
    && AllAgree(r.registry, None, r.jobs)
    && DistinctSlots(r.free) && AllFit(r.registry, r.free)
    && (forall id :: id in Noted(launched, r.handed) ==> id.job in plans)
  }

  /** `t` is still pending in `j`, under the plan and attempt it names. */
  ghost predicate SlotPending(j: Job, t: PendingTask) {
    && j.Active() && j.HasTask(t.stage, t.partition)
    && j.stages[t.stage - 1].status.Runnable? && j.stages[t.stage - 1].encodedPlan == Some(t.plan)
    && j.Task(t.stage, t.partition).state.Pending? && j.Task(t.stage, t.partition).attempt == t.attempt
  }

  lemma LaunchedOfAdd(launched: Launched, id: TaskId, plan: TaskPlan, k: string)
    ensures LaunchedOf(launched[id := plan], k) ==
            if id.job == k then LaunchedOf(launched, k)[id := plan] else LaunchedOf(launched, k)
  {
  }

  lemma LaunchIs(s: System, t: PendingTask, id: TaskId, x: ExecutorId)
    requires SlotPending(s.job, t) && id == TaskId(id.job, t.stage, t.partition, t.attempt)
    ensures Apply(s, Launch(id, x)) ==
            System(MarkRunning(s.job, t.stage, t.partition, t.attempt, x), s.launched[id := t.plan])
  {
  }

  lemma LaunchOk(e: Engine, plans: map<string, Plan>, launched: Launched, k: string, j: Job, t: PendingTask,
                 x: ExecutorId)
    requires ValidEngine(e) && JobOk(e, plans, launched, k, j) && SlotPending(j, t)
    ensures JobOk(e, plans, launched[TaskId(k, t.stage, t.partition, t.attempt) := t.plan], k,
                  MarkRunning(j, t.stage, t.partition, t.attempt, x))
  {
    var id := TaskId(k, t.stage, t.partition, t.attempt);
    var s := System(j, LaunchedOf(launched, k));
    PendingSpec(e, plans[k], j, id);
    LaunchKeeps(e, plans[k], s, id, x);
    LaunchIs(s, t, id, x);
    LaunchedOfAdd(launched, id, t.plan, k);
  }

  lemma NotedOne(launched: Launched, handed: seq<Handout>, h: Handout)
    ensures Noted(launched, handed + [h]) == Noted(launched, handed)[h.id := h.plan]
  {
    assert (handed + [h])[..|handed|] == handed;
  }

  /** Starting a task where a slot was noted as free. */
  lemma StartedOk(g: Setting, registry: Registry, free: seq<Slot>, i: nat, id: TaskId)
    requires RegistryOk(g, registry) && DistinctSlots(free) && AllFit(registry, free) && i < |free| && free[i].free > 0
    ensures RegistryOk(g, Started(registry, free[i].executor, id))
    ensures AllFit(Started(registry, free[i].executor, id), free[i := Slot(free[i].executor, free[i].free - 1)])
  {
    var x := free[i].executor;
    var after := free[i := Slot(x, free[i].free - 1)];
    assert Fits(registry, free[i]);
    SetGrows(registry[x].running, Print(id));
    forall k | 0 <= k < |after|
      ensures Fits(Started(registry, x, id), after[k])
    {
      assert Fits(registry, free[k]);
    }
  }

  lemma StartedHolds(registry: Registry, x: ExecutorId, id: TaskId, y: ExecutorId, other: TaskId)
    requires x in registry
    ensures Holds(Started(registry, x, id), x, id)
    ensures Holds(registry, y, other) ==> Holds(Started(registry, x, id), y, other)
  {
  }

  lemma StartedAgrees(registry: Registry, k: string, j: Job, l: string, t: PendingTask, x: ExecutorId)
    requires Agrees(registry, None, l, j) && x in registry
    ensures var id := TaskId(k, t.stage, t.partition, t.attempt);
      Agrees(Started(registry, x, id), None, l,
             if l == k then MarkRunning(j, t.stage, t.partition, t.attempt, x) else j)
  {
    var id := TaskId(k, t.stage, t.partition, t.attempt);
    var j' := if l == k then MarkRunning(j, t.stage, t.partition, t.attempt, x) else j;
    forall s: nat, p: nat, attempt: nat, y: ExecutorId | RunsOn(j', s, p, attempt, y)
      ensures Holds(Started(registry, x, id), y, TaskId(l, s, p, attempt))
    {
      StartedHolds(registry, x, id, y, TaskId(l, s, p, attempt));
      if !RunsOn(j, s, p, attempt, y) {
        assert TaskId(l, s, p, attempt) == id && y == x;
      }
    }
  }

  lemma AssignTaskRegistry(g: Setting, r: Round, k: string, t: PendingTask)
    requires k in r.jobs && RegistryOk(g, r.registry) && DistinctSlots(r.free) && AllFit(r.registry, r.free)
    ensures var q := AssignTask(r, k, t);
      RegistryOk(g, q.registry) && DistinctSlots(q.free) && AllFit(q.registry, q.free)
  {
    if !NoneFree(r.free) {
      StartedOk(g, r.registry, r.free, LastMax(r.free), TaskId(k, t.stage, t.partition, t.attempt));
    }
  }

  lemma AssignTaskAgrees(r: Round, k: string, t: PendingTask)
    requires k in r.jobs && AllAgree(r.registry, None, r.jobs) && AllFit(r.registry, r.free)
    ensures var q := AssignTask(r, k, t); AllAgree(q.registry, None, q.jobs)
  {
    if !NoneFree(r.free) {
      var q := AssignTask(r, k, t);
      assert Fits(r.registry, r.free[LastMax(r.free)]);
      forall l | l in q.jobs
        ensures Agrees(q.registry, None, l, q.jobs[l])
      {
        StartedAgrees(r.registry, k, r.jobs[l], l, t, r.free[LastMax(r.free)].executor);
      }
    }
  }

  /** One job launches a task; the others do not notice. */
  lemma OneLaunchOk(e: Engine, plans: map<string, Plan>, launched: Launched, jobs: map<string, Job>, id: TaskId,
                    plan: TaskPlan, j': Job)
    requires JobsOk(e, plans, launched, jobs) && JobOk(e, plans, launched[id := plan], id.job, j')
    ensures JobsOk(e, plans, launched[id := plan], jobs[id.job := j'])
  {
    forall l | l in jobs && l != id.job
      ensures JobOk(e, plans, launched[id := plan], l, jobs[l])
    {
      assert JobOk(e, plans, launched, l, jobs[l]);
      LaunchedOfAdd(launched, id, plan, l);
    }
  }

  lemma AssignTaskJobs(g: Setting, plans: map<string, Plan>, launched: Launched, r: Round, k: string, t: PendingTask)
    requires ValidEngine(g.engine) && RoundOk(g, plans, launched, r) && k in r.jobs && SlotPending(r.jobs[k], t)
    requires !NoneFree(r.free)
    ensures var q := AssignTask(r, k, t);
      JobsOk(g.engine, plans, Noted(launched, r.handed)[TaskId(k, t.stage, t.partition, t.attempt) := t.plan], q.jobs)
  {
    var q := AssignTask(r, k, t);
    var before := Noted(launched, r.handed);
    var id := TaskId(k, t.stage, t.partition, t.attempt);
    assert JobOk(g.engine, plans, before, k, r.jobs[k]);
    LaunchOk(g.engine, plans, before, k, r.jobs[k], t, r.free[LastMax(r.free)].executor);
    OneLaunchOk(g.engine, plans, before, r.jobs, id, t.plan, q.jobs[k]);
  }

  lemma AssignTaskOk(g: Setting, plans: map<string, Plan>, launched: Launched, r: Round, k: string, t: PendingTask)
    requires ValidEngine(g.engine) && RoundOk(g, plans, launched, r) && k in r.jobs && SlotPending(r.jobs[k], t)
    ensures RoundOk(g, plans, launched, AssignTask(r, k, t))
  {
    AssignTaskRegistry(g, r, k, t);
    AssignTaskAgrees(r, k, t);
    if !NoneFree(r.free) {
      var x := r.free[LastMax(r.free)].executor;
      NotedOne(launched, r.handed, Handout(x, TaskId(k, t.stage, t.partition, t.attempt), t.plan));
      AssignTaskJobs(g, plans, launched, r, k, t);
    }
  }

  /** The tasks from number `n` on are pending. */
  ghost predicate PendingFrom(j: Job, tasks: seq<PendingTask>, n: nat) {
    forall m :: n <= m < |tasks| ==> SlotPending(j, tasks[m])
  }

  /** The tasks not yet reached stay pending. */
  lemma AssignLeaves(r: Round, k: string, tasks: seq<PendingTask>, n: nat)
    requires k in r.jobs && n < |tasks| && Ascending(tasks) && PendingFrom(r.jobs[k], tasks, n)
    ensures PendingFrom(AssignTask(r, k, tasks[n]).jobs[k], tasks, n + 1)
  {
    forall m | n < m < |tasks|
      ensures SlotPending(AssignTask(r, k, tasks[n]).jobs[k], tasks[m])
    {
      assert SlotPending(r.jobs[k], tasks[m]) && Before(tasks[n], tasks[m]);
    }
  }

  ghost predicate RoundAt(g: Setting, plans: map<string, Plan>, launched: Launched, r: Round, k: string,
                          tasks: seq<PendingTask>, n: nat) {
    RoundOk(g, plans, launched, r) && k in r.jobs && (r.full || PendingFrom(r.jobs[k], tasks, n))
  }

  lemma AssignNextOk(g: Setting, plans: map<string, Plan>, launched: Launched, r: Round, k: string,
                     tasks: seq<PendingTask>, n: nat)
    requires ValidEngine(g.engine) && Ascending(tasks) && n < |tasks|
    requires RoundAt(g, plans, launched, r, k, tasks, n)
    ensures RoundAt(g, plans, launched, AssignNext(r, k, tasks[n]), k, tasks, n + 1)
  {
    if !r.full {
      assert SlotPending(r.jobs[k], tasks[n]);
      AssignTaskOk(g, plans, launched, r, k, tasks[n]);
      AssignLeaves(r, k, tasks, n);
    }
  }

  lemma AssignTasksOk(g: Setting, plans: map<string, Plan>, launched: Launched, r: Round, k: string,
                      tasks: seq<PendingTask>)
    requires ValidEngine(g.engine) && Ascending(tasks) && RoundAt(g, plans, launched, r, k, tasks, 0)
    ensures RoundAt(g, plans, launched, AssignTasks(r, k, tasks, |tasks|), k, tasks, |tasks|)
  {
    var inv := (p: Round, m: nat) => RoundAt(g, plans, launched, p, k, tasks, m);
    forall p: Round, m: nat | m < |tasks| && k in p.jobs && inv(p, m)
      ensures inv(AssignNext(p, k, tasks[m]), m + 1)
    {
      AssignNextOk(g, plans, launched, p, k, tasks, m);
    }
    TasksKeep(inv, r, k, tasks, |tasks|);
  }

  lemma ArePending(j: Job, tasks: seq<PendingTask>)
    requires WellNumbered(j.stages) && j.Active() && tasks == PendingUpTo(j.stages, |j.stages|)
    ensures PendingFrom(j, tasks, 0)
  {
    forall m | 0 <= m < |tasks|
      ensures SlotPending(j, tasks[m])
    {
      PendingInStage(j.stages, tasks[m]);
    }
  }

  lemma PendingSlots(e: Engine, plan: Plan, j: Job)
    requires Original(plan) && JobInv(e, plan, j)
    ensures Ascending(PendingTasks(j)) && PendingFrom(j, PendingTasks(j), 0)
  {
    InvNumbered(e, plan, j);
    if j.Active() {
      PendingAscends(j.stages, |j.stages|);
      ArePending(j, PendingTasks(j));
    }
  }

  lemma AssignJobOk(g: Setting, plans: map<string, Plan>, launched: Launched, r: Round, k: string)
    requires ValidEngine(g.engine) && RoundOk(g, plans, launched, r)
    ensures RoundOk(g, plans, launched, AssignJob(r, k))
  {
    if !r.full && k in r.jobs {
      assert JobOk(g.engine, plans, Noted(launched, r.handed), k, r.jobs[k]);
      PendingSlots(g.engine, plans[k], r.jobs[k]);
      AssignTasksOk(g, plans, launched, r, k, PendingTasks(r.jobs[k]));
    }
  }

  lemma AssignJobsOk(g: Setting, plans: map<string, Plan>, launched: Launched, r: Round, order: seq<string>)
    requires ValidEngine(g.engine) && RoundOk(g, plans, launched, r)
    ensures RoundOk(g, plans, launched, AssignJobs(r, order, |order|))
  {
    var inv := (p: Round, m: nat) => RoundOk(g, plans, launched, p);
    forall p: Round, m: nat | m < |order| && inv(p, m)
      ensures inv(AssignJob(p, order[m]), m + 1)
    {
      AssignJobOk(g, plans, launched, p, order[m]);
    }
    JobsKeep(inv, r, order, |order|);
  }

  lemma TwoAlike(free: seq<Slot>, a: nat, b: nat)
    requires a < b < |free| && free[a] == free[b]
    ensures multiset(free)[free[a]] >= 2
  {
    assert free == free[..a] + [free[a]] + free[a + 1..b] + [free[b]] + free[b + 1..];
  }

  lemma {:induction false} CountDistinct(free: seq<Slot>, s: Slot)
    requires DistinctSlots(free)
    ensures multiset(free)[s] <= 1
  {
    if |free| > 0 {
      var front := free[..|free| - 1];
      assert free == front + [free[|free| - 1]];
      CountDistinct(front, s);
      if s == free[|free| - 1] {
        assert s !in front;
      }
    }
  }

  /** Sorting what was seen changes nothing that matters. */
  lemma SortedFits(registry: Registry, seen: seq<Slot>, free: seq<Slot>)
    requires multiset(free) == multiset(seen) && DistinctSlots(seen) && AllFit(registry, seen)
    ensures DistinctSlots(free) && AllFit(registry, free)
  {
    forall k | 0 <= k < |free|
      ensures Fits(registry, free[k])
    {
      assert free[k] in multiset(seen);
    }
    forall a: nat, b: nat | a < b < |free|
      ensures free[a].executor != free[b].executor
    {
      assert free[a] in multiset(seen) && free[b] in multiset(seen);
      if free[a] == free[b] {
        TwoAlike(free, a, b);
        CountDistinct(seen, free[a]);
      }
    }
  }

  lemma AssignKeeps(g: Setting, c: Cluster, free: seq<Slot>)
    requires ValidEngine(g.engine) && ClusterInv(g, c)
    requires c.phase.Looking? && multiset(free) == multiset(c.phase.free)
    ensures var r := Dispatched(c.books, free);
      ClusterInv(g, c.(books := Books(r.registry, r.jobs, c.books.order),
                       launched := Noted(c.launched, r.handed), phase := Sending(r.handed)))
  {
    SortedFits(c.books.registry, c.phase.free, free);
    var start := Round(free, c.books.jobs, c.books.registry, [], false);
    assert Noted(c.launched, []) == c.launched;
    AssignJobsOk(g, c.plans, c.launched, start, c.books.order);
  }

  /** Every step of the cluster keeps the books in order. */
  lemma ClusterStepKeeps(g: Setting, c: Cluster, step: Step)
    requires ValidEngine(g.engine) && ClusterInv(g, c) && May(g, c, step)
    ensures ClusterInv(g, Next(g, c, step))
  {
    match step
    case Submit(job, plan, retries) => SubmitKeeps(g, c, job, plan, retries);
    case CancelQuery(job) => CancelQueryKeeps(g, c, job);
    case Register(x) => RegisterKeeps(g, c, x);
    case StartRound =>
    case Look(x) => LookKeeps(g, c, x);
    case Assign(free) => AssignKeeps(g, c, free);
    case Answer(x, rejected) => AnswerKeeps(g, c, x, rejected, Without(c.phase.handed, x));
    case LaunchFails(x) => AnswerKeeps(g, c, x, BatchOf(c.phase.handed, x), Without(c.phase.handed, x));
    case Remove(x) => RemoveKeeps(g, c, x);
    case TellJobs => TellKeeps(g, c);
    case Status(s) => StatusKeeps(g, c, s);
  }
}
