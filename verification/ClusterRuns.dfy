/**
 What holds in every reachable state of the cluster: slots are never exceeded,
 the two books agree, and every job moves by the single-job protocol.
 */
module ClusterRuns {
  import opened Options
  import opened Plans
  import opened Planner
  import opened Jobs
  import opened JobInvariant
  import opened JobProtocol
  import opened JobTheorems
  import opened JobRuns
  import opened Attempts
  import opened Executors
  import opened Dispatching
  import opened SchedulerBooks
  import opened Clusters

  datatype History = History(states: seq<Cluster>, steps: seq<Step>)

  const START := Cluster(Books(map[], map[], []), map[], map[], Sending([]), None)

  ghost predicate StepsTo(g: Setting, c: Cluster, step: Step, c': Cluster) {
    May(g, c, step) && c' == Next(g, c, step)
  }

  ghost predicate IsHistory(g: Setting, h: History) {
    && ValidEngine(g.engine)
    && |h.states| == |h.steps| + 1
    && h.states[0] == START
    && forall i :: 0 <= i < |h.steps| ==> StepsTo(g, h.states[i], h.steps[i], h.states[i + 1])
  }

  /** Every reachable state satisfies the invariant. */
  lemma {:induction false} HistoryInv(g: Setting, h: History, i: nat)
    requires IsHistory(g, h) && i < |h.states|
    ensures ClusterInv(g, h.states[i])
  {
    if i > 0 {
      HistoryInv(g, h, i - 1);
      assert StepsTo(g, h.states[i - 1], h.steps[i - 1], h.states[i]);
      ClusterStepKeeps(g, h.states[i - 1], h.steps[i - 1]);
    }
  }

  /** No executor ever has more tasks than slots, although rounds work from what
      they saw earlier. */
  lemma SlotsNeverExceeded(g: Setting, h: History, i: nat, x: ExecutorId)
    requires IsHistory(g, h) && i < |h.states| && x in h.states[i].books.registry
    ensures var e := h.states[i].books.registry[x];
      e.slots == g.slots(x) && |e.running| + FreeSlots(e) == g.slots(x)
  {
    HistoryInv(g, h, i);
  }

  /** A task an active job runs on an executor is on that executor's list, unless
      the jobs are just about to hear that the executor is lost. */
  lemma BooksAgree(g: Setting, h: History, i: nat, k: string, s: nat, p: nat, attempt: nat, x: ExecutorId)
    requires IsHistory(g, h) && i < |h.states| && k in h.states[i].books.jobs
    requires RunsOn(h.states[i].books.jobs[k], s, p, attempt, x)
    ensures h.states[i].losing == Some(x) || Holds(h.states[i].books.registry, x, TaskId(k, s, p, attempt))
  {
    HistoryInv(g, h, i);
    assert Agrees(h.states[i].books.registry, h.states[i].losing, k, h.states[i].books.jobs[k]);
  }

  // ---------------------------------------------------------------- refinement

  /** A walk along a relation. */
  ghost predicate Walk<S(!new)>(rel: (S, S) -> bool, states: seq<S>, from: S, to: S) {
    && |states| >= 1 && states[0] == from && states[|states| - 1] == to
    && forall i :: 0 <= i < |states| - 1 ==> rel(states[i], states[i + 1])
  }

  lemma WalkAppend<S(!new)>(rel: (S, S) -> bool, a: seq<S>, b: seq<S>, s: S, t: S, u: S)
    requires Walk(rel, a, s, t) && Walk(rel, b, t, u)
    ensures Walk(rel, a + b[1..], s, u)
  {
    var c := a + b[1..];
    forall i | 0 <= i < |c| - 1
      ensures rel(c[i], c[i + 1])
    {
      if i >= |a| - 1 {
        assert c[i] == b[i - (|a| - 1)] && c[i + 1] == b[i + 1 - (|a| - 1)];
      }
    }
  }

  lemma WalkTail<S(!new)>(rel: (S, S) -> bool, states: seq<S>, s: S, t: S)
    requires Walk(rel, states, s, t) && |states| > 1
    ensures Walk(rel, states[1..], states[1], t)
  {
    var rest := states[1..];
    forall i | 0 <= i < |rest| - 1
      ensures rel(rest[i], rest[i + 1])
    {
      assert rest[i] == states[i + 1] && rest[i + 1] == states[i + 2];
    }
  }

  /** One step of the single-job protocol. */
  ghost function Protocol(e: Engine): (System, System) -> bool {
    (s: System, s': System) => exists ev :: Enabled(e, s, ev) && s' == Apply(s, ev)
  }

  ghost predicate Leads(e: Engine, s: System, s': System) {
    exists states :: Walk(Protocol(e), states, s, s')
  }

  lemma LeadsStays(e: Engine, s: System)
    ensures Leads(e, s, s)
  {
    assert Walk(Protocol(e), [s], s, s);
  }

  lemma LeadsThrough(e: Engine, s: System, t: System, u: System)
    requires Leads(e, s, t) && Leads(e, t, u)
    ensures Leads(e, s, u)
  {
    var a :| Walk(Protocol(e), a, s, t);
    var b :| Walk(Protocol(e), b, t, u);
    WalkAppend(Protocol(e), a, b, s, t, u);
  }

  lemma LeadsOne(e: Engine, s: System, ev: Event)
    requires Enabled(e, s, ev)
    ensures Leads(e, s, Apply(s, ev))
  {
    var s' := Apply(s, ev);
    assert Protocol(e)(s, s');
    assert Walk(Protocol(e), [s, s'], s, s');
  }

  /** The single-job view of job `k`. */
  ghost function View(jobs: map<string, Job>, launched: Launched, k: string): System
    requires k in jobs
  {
    System(jobs[k], LaunchedOf(launched, k))
  }

  /** Job `k` moves from one state of the books to the other by protocol events. */
  ghost predicate Moves(e: Engine, k: string, jobs: map<string, Job>, launched: Launched,
                        jobs': map<string, Job>, launched': Launched)
    requires k in jobs && k in jobs'
  {
    Leads(e, View(jobs, launched, k), View(jobs', launched', k))
  }

  lemma StatusMoves(g: Setting, c: Cluster, s: TaskStatus, k: string)
    requires ValidEngine(g.engine) && ClusterInv(g, c) && Truthful(g.engine, c, s) && k in c.books.jobs
    ensures k in Updated(c.books, s).jobs &&
      Moves(g.engine, k, c.books.jobs, c.launched, Updated(c.books, s).jobs, c.launched)
  {
    var v := View(c.books.jobs, c.launched, k);
    LeadsStays(g.engine, v);
    if k == s.id.job {
      if s.report.Done? {
        ReportOk(g.engine, c.plans, c.launched, k, c.books.jobs[k], s.id, s.executor, s.report.outputs);
        LeadsOne(g.engine, v, Report(s.id, s.executor, s.report.outputs));
      } else if s.report.Broke? {
        LeadsOne(g.engine, v, Failure(s.id, s.report.error));
      }
    }
  }

  lemma {:induction false} RequeueMoves(e: Engine, b: Books, launched: Launched, x: ExecutorId, ids: seq<TaskId>,
                                        n: nat, k: string)
    requires n <= |ids| && k in b.jobs
    ensures k in Requeued(b, x, ids, n).jobs && Moves(e, k, b.jobs, launched, Requeued(b, x, ids, n).jobs, launched)
  {
    var v := View(b.jobs, launched, k);
    LeadsStays(e, v);
    if n > 0 {
      RequeueMoves(e, b, launched, x, ids, n - 1, k);
      if k == ids[n - 1].job {
        var u := View(Requeued(b, x, ids, n - 1).jobs, launched, k);
        LeadsOne(e, u, Requeue(ids[n - 1]));
        LeadsThrough(e, v, u, Apply(u, Requeue(ids[n - 1])));
      }
    }
  }

  lemma LaunchLeads(e: Engine, plans: map<string, Plan>, launched: Launched, k: string, j: Job, t: PendingTask,
                    x: ExecutorId)
    requires ValidEngine(e) && JobOk(e, plans, launched, k, j) && SlotPending(j, t)
    ensures var launched' := launched[TaskId(k, t.stage, t.partition, t.attempt) := t.plan];
      Leads(e, System(j, LaunchedOf(launched, k)),
            System(MarkRunning(j, t.stage, t.partition, t.attempt, x), LaunchedOf(launched', k)))
  {
    var id := TaskId(k, t.stage, t.partition, t.attempt);
    PendingSpec(e, plans[k], j, id);
    LeadsOne(e, System(j, LaunchedOf(launched, k)), Launch(id, x));
    LaunchedOfAdd(launched, id, t.plan, k);
  }

  /** Handing out a task of one job leaves the view of another as it is. */
  lemma OtherLaunchMoves(e: Engine, jobs: map<string, Job>, launched: Launched, job: string, j': Job, id: TaskId,
                         plan: TaskPlan, k: string)
    requires k in jobs && k != job && id.job == job
    ensures Moves(e, k, jobs, launched, jobs[job := j'], launched[id := plan])
  {
    LaunchedOfAdd(launched, id, plan, k);
    LeadsStays(e, View(jobs, launched, k));
  }

  lemma OwnLaunchMoves(e: Engine, plans: map<string, Plan>, jobs: map<string, Job>, launched: Launched, k: string,
                       t: PendingTask, x: ExecutorId)
    requires ValidEngine(e) && JobsOk(e, plans, launched, jobs) && k in jobs && SlotPending(jobs[k], t)
    ensures Moves(e, k, jobs, launched, jobs[k := MarkRunning(jobs[k], t.stage, t.partition, t.attempt, x)],
                  launched[TaskId(k, t.stage, t.partition, t.attempt) := t.plan])
  {
    assert JobOk(e, plans, launched, k, jobs[k]);
    LaunchLeads(e, plans, launched, k, jobs[k], t, x);
  }

  lemma LaunchMoves(g: Setting, plans: map<string, Plan>, launched: Launched, r: Round, job: string, t: PendingTask,
                    k: string)
    requires ValidEngine(g.engine) && RoundOk(g, plans, launched, r) && job in r.jobs && SlotPending(r.jobs[job], t)
    requires k in r.jobs && !NoneFree(r.free)
    ensures var q := AssignTask(r, job, t);
      Moves(g.engine, k, r.jobs, Noted(launched, r.handed), q.jobs, Noted(launched, q.handed))
  {
    var before := Noted(launched, r.handed);
    var x := r.free[LastMax(r.free)].executor;
    var id := TaskId(job, t.stage, t.partition, t.attempt);
    NotedOne(launched, r.handed, Handout(x, id, t.plan));
    if k == job {
      OwnLaunchMoves(g.engine, plans, r.jobs, before, k, t, x);
    } else {
      OtherLaunchMoves(g.engine, r.jobs, before, job, AssignTask(r, job, t).jobs[job], id, t.plan, k);
    }
  }

  /** Job `k` as it came to be in the course of a round. */
  ghost predicate RoundMoves(g: Setting, c: Cluster, k: string, r: Round) {
    && RoundOk(g, c.plans, c.launched, r)
    && k in c.books.jobs && k in r.jobs
    && Moves(g.engine, k, c.books.jobs, c.launched, r.jobs, Noted(c.launched, r.handed))
  }

  lemma NextMoves(g: Setting, c: Cluster, k: string, r: Round, job: string, tasks: seq<PendingTask>, n: nat)
    requires ValidEngine(g.engine) && Ascending(tasks) && n < |tasks|
    requires RoundMoves(g, c, k, r) && RoundAt(g, c.plans, c.launched, r, job, tasks, n)
    ensures RoundMoves(g, c, k, AssignNext(r, job, tasks[n]))
  {
    if !r.full {
      assert SlotPending(r.jobs[job], tasks[n]);
      var q := AssignTask(r, job, tasks[n]);
      AssignTaskOk(g, c.plans, c.launched, r, job, tasks[n]);
      if NoneFree(r.free) {
        LeadsStays(g.engine, View(r.jobs, Noted(c.launched, r.handed), k));
      } else {
        LaunchMoves(g, c.plans, c.launched, r, job, tasks[n], k);
      }
      LeadsThrough(g.engine, View(c.books.jobs, c.launched, k), View(r.jobs, Noted(c.launched, r.handed), k),
                   View(q.jobs, Noted(c.launched, q.handed), k));
    }
  }

  lemma JobRoundMoves(g: Setting, c: Cluster, k: string, r: Round, job: string)
    requires ValidEngine(g.engine) && RoundMoves(g, c, k, r)
    ensures RoundMoves(g, c, k, AssignJob(r, job))
  {
    if !r.full && job in r.jobs {
      assert JobOk(g.engine, c.plans, Noted(c.launched, r.handed), job, r.jobs[job]);
      var tasks := PendingTasks(r.jobs[job]);
      PendingSlots(g.engine, c.plans[job], r.jobs[job]);
      var inv := (p: Round, m: nat) => RoundMoves(g, c, k, p) && RoundAt(g, c.plans, c.launched, p, job, tasks, m);
      forall p: Round, m: nat | m < |tasks| && job in p.jobs && inv(p, m)
        ensures inv(AssignNext(p, job, tasks[m]), m + 1)
      {
        NextMoves(g, c, k, p, job, tasks, m);
        AssignNextOk(g, c.plans, c.launched, p, job, tasks, m);
      }
      TasksKeep(inv, r, job, tasks, |tasks|);
    }
  }

  lemma AssignMoves(g: Setting, c: Cluster, free: seq<Slot>, k: string)
    requires ValidEngine(g.engine) && ClusterInv(g, c) && k in c.books.jobs
    requires c.phase.Looking? && multiset(free) == multiset(c.phase.free)
    ensures RoundMoves(g, c, k, Dispatched(c.books, free))
  {
    SortedFits(c.books.registry, c.phase.free, free);
    var start := Round(free, c.books.jobs, c.books.registry, [], false);
    assert Noted(c.launched, []) == c.launched;
    LeadsStays(g.engine, View(c.books.jobs, c.launched, k));
    var inv := (p: Round, m: nat) => RoundMoves(g, c, k, p);
    forall p: Round, m: nat | m < |c.books.order| && inv(p, m)
      ensures inv(AssignJob(p, c.books.order[m]), m + 1)
    {
      JobRoundMoves(g, c, k, p, c.books.order[m]);
    }
    JobsKeep(inv, start, c.books.order, |c.books.order|);
  }

  lemma CancelMoves(g: Setting, c: Cluster, id: string, k: string)
    requires k in c.books.jobs
    ensures k in Cancelled(c.books, id).jobs
    ensures Moves(g.engine, k, c.books.jobs, c.launched, Cancelled(c.books, id).jobs, c.launched)
  {
    var v := View(c.books.jobs, c.launched, k);
    LeadsStays(g.engine, v);
    LeadsOne(g.engine, v, CancelJob);
  }

  lemma TellMoves(g: Setting, c: Cluster, x: ExecutorId, k: string)
    requires k in c.books.jobs
    ensures k in Told(c.books.jobs, x)
    ensures Moves(g.engine, k, c.books.jobs, c.launched, Told(c.books.jobs, x), c.launched)
  {
    LeadsOne(g.engine, View(c.books.jobs, c.launched, k), Lost(x));
  }

  lemma SubmittedLeaves(b: Books, id: string, job: Job, retained: nat, k: string)
    requires k != id && k in Submitted(b, id, job, retained).jobs
    ensures k in b.jobs && Submitted(b, id, job, retained).jobs[k] == b.jobs[k]
  {
  }

  lemma SubmitMoves(g: Setting, c: Cluster, id: string, plan: Plan, retries: nat, k: string)
    requires ClusterInv(g, c) && May(g, c, Submit(id, plan, retries))
    requires k in c.books.jobs && k in Next(g, c, Submit(id, plan, retries)).books.jobs
    ensures Moves(g.engine, k, c.books.jobs, c.launched,
                  Next(g, c, Submit(id, plan, retries)).books.jobs, c.launched)
  {
    assert JobOk(g.engine, c.plans, c.launched, k, c.books.jobs[k]);
    LeadsStays(g.engine, View(c.books.jobs, c.launched, k));
    var j := NewJob(id, retries, PlanStages(g.engine, plan));
    if j.Some? {
      SubmittedLeaves(c.books, id, j.value, g.retained, k);
    }
  }

  lemma ClientMoves(g: Setting, c: Cluster, step: Step, k: string)
    requires ClusterInv(g, c) && May(g, c, step)
    requires k in c.books.jobs && k in Next(g, c, step).books.jobs
    requires step.Submit? || step.CancelQuery? || step.TellJobs?
    ensures Moves(g.engine, k, c.books.jobs, c.launched, Next(g, c, step).books.jobs, Next(g, c, step).launched)
  {
    match step
    case Submit(id, plan, retries) => SubmitMoves(g, c, id, plan, retries, k);
    case CancelQuery(id) => CancelMoves(g, c, id, k);
    case TellJobs => TellMoves(g, c, c.losing.value, k);
  }

  lemma AnswerMoves(g: Setting, c: Cluster, step: Step, k: string)
    requires May(g, c, step) && k in c.books.jobs && (step.Answer? || step.LaunchFails?)
    ensures k in Next(g, c, step).books.jobs
    ensures Moves(g.engine, k, c.books.jobs, c.launched, Next(g, c, step).books.jobs, c.launched)
  {
    var ids := if step.Answer? then step.rejected else BatchOf(c.phase.handed, step.executor);
    RequeueMoves(g.engine, c.books, c.launched, step.executor, ids, |ids|, k);
  }

  /** Whatever the cluster does, each job it keeps takes steps of the single-job
      protocol and no others: all that is proved there holds here. */
  lemma StepRefines(g: Setting, c: Cluster, step: Step, k: string)
    requires ValidEngine(g.engine) && ClusterInv(g, c) && May(g, c, step)
    requires k in c.books.jobs && k in Next(g, c, step).books.jobs
    ensures Moves(g.engine, k, c.books.jobs, c.launched, Next(g, c, step).books.jobs, Next(g, c, step).launched)
  {
    if step.Submit? || step.CancelQuery? || step.TellJobs? {
      ClientMoves(g, c, step, k);
    } else if step.Assign? {
      AssignMoves(g, c, step.free, k);
    } else if step.Answer? || step.LaunchFails? {
      AnswerMoves(g, c, step, k);
    } else if step.Status? {
      StatusMoves(g, c, step.status, k);
    } else {
      LeadsStays(g.engine, View(c.books.jobs, c.launched, k));
    }
  }

  /** What the step is to job `k`, where it is one event. */
  ghost function Heard(c: Cluster, step: Step, k: string): Option<Event> {
    match step
    case CancelQuery(id) => if id == k then Some(CancelJob) else None
    case TellJobs => if c.losing.Some? then Some(Lost(c.losing.value)) else None
    case Status(s) =>
      if s.id.job != k then None
      else
        (match s.report
         case Done(outputs) => Some(Report(s.id, s.executor, outputs))
         case Broke(error) => Some(Failure(s.id, error))
         case StillRunning => None)
    case _ => None
  }

  ghost predicate Hears(c: Cluster, step: Step, k: string, j': Job)
    requires k in c.books.jobs
  {
    match Heard(c, step, k)
    case Some(ev) => j' == Apply(View(c.books.jobs, c.launched, k), ev).job
    case None => j' == c.books.jobs[k]
  }

  lemma DoneIsCompletion(g: Setting, c: Cluster, s: TaskStatus)
    requires ValidEngine(g.engine) && ClusterInv(g, c) && Truthful(g.engine, c, s)
    requires s.report.Done? && s.id.job in c.books.jobs
    ensures var j := c.books.jobs[s.id.job];
      Reported(j, s.id, s.executor, s.report.outputs) == TaskCompleted(j, s.id, s.executor, s.report.outputs).job
  {
    var k := s.id.job;
    ReportOk(g.engine, c.plans, c.launched, k, c.books.jobs[k], s.id, s.executor, s.report.outputs);
  }

  lemma DoneIsHeard(c: Cluster, s: TaskStatus)
    requires s.report.Done? && s.id.job in c.books.jobs
    requires var j := c.books.jobs[s.id.job];
      Reported(j, s.id, s.executor, s.report.outputs) == TaskCompleted(j, s.id, s.executor, s.report.outputs).job
    ensures Hears(c, Status(s), s.id.job, Updated(c.books, s).jobs[s.id.job])
  {
  }

  lemma StatusIsHeard(c: Cluster, s: TaskStatus, k: string)
    requires k in c.books.jobs && !(s.report.Done? && s.id.job == k)
    ensures k in Updated(c.books, s).jobs && Hears(c, Status(s), k, Updated(c.books, s).jobs[k])
  {
  }

  lemma ClientIsHeard(c: Cluster, step: Step, k: string)
    requires k in c.books.jobs
    ensures step.CancelQuery? ==>
      k in Cancelled(c.books, step.job).jobs && Hears(c, step, k, Cancelled(c.books, step.job).jobs[k])
    ensures step.TellJobs? && c.losing.Some? ==>
      var jobs := Told(c.books.jobs, c.losing.value);
      k in jobs && Hears(c, step, k, jobs[k])
  {
  }

  lemma SubmitIsNotHeard(g: Setting, c: Cluster, id: string, plan: Plan, retries: nat, k: string)
    requires ClusterInv(g, c) && May(g, c, Submit(id, plan, retries))
    requires k in c.books.jobs && k in Next(g, c, Submit(id, plan, retries)).books.jobs
    ensures Next(g, c, Submit(id, plan, retries)).books.jobs[k] == c.books.jobs[k]
  {
    assert JobOk(g.engine, c.plans, c.launched, k, c.books.jobs[k]);
    var j := NewJob(id, retries, PlanStages(g.engine, plan));
    if j.Some? {
      SubmittedLeaves(c.books, id, j.value, g.retained, k);
    }
  }

  /** Outside rounds and their answers, a job hears exactly its own events: a completion
      counts as a completion, a failure as a failure, a loss reaches every
      job, and what concerns others changes nothing. */
  lemma StepIsHeard(g: Setting, c: Cluster, step: Step, k: string)
    requires ValidEngine(g.engine) && ClusterInv(g, c) && May(g, c, step)
    requires k in c.books.jobs && k in Next(g, c, step).books.jobs
    requires !step.Assign? && !step.Answer? && !step.LaunchFails?
    ensures Hears(c, step, k, Next(g, c, step).books.jobs[k])
  {
    if step.Submit? {
      SubmitIsNotHeard(g, c, step.job, step.plan, step.retries, k);
    } else if step.Status? {
      if step.status.report.Done? && step.status.id.job == k {
        DoneIsCompletion(g, c, step.status);
        DoneIsHeard(c, step.status);
      } else {
        StatusIsHeard(c, step.status, k);
      }
    } else {
      ClientIsHeard(c, step, k);
    }
  }

  lemma HistoryStep(g: Setting, h: History, i: nat, k: string)
    requires IsHistory(g, h) && i + 1 < |h.states|
    requires k in h.states[i].books.jobs && k in h.states[i + 1].books.jobs
    ensures Moves(g.engine, k, h.states[i].books.jobs, h.states[i].launched,
                  h.states[i + 1].books.jobs, h.states[i + 1].launched)
  {
    HistoryInv(g, h, i);
    assert StepsTo(g, h.states[i], h.steps[i], h.states[i + 1]);
    StepRefines(g, h.states[i], h.steps[i], k);
  }

  /** Along a history: the job's state at any later time is reached by protocol steps. */
  lemma {:induction false} HistoryRefines(g: Setting, h: History, i: nat, n: nat, k: string)
    requires IsHistory(g, h) && i <= n < |h.states|
    requires forall m :: i <= m <= n ==> k in h.states[m].books.jobs
    ensures Moves(g.engine, k, h.states[i].books.jobs, h.states[i].launched, h.states[n].books.jobs,
      h.states[n].launched)
  {
    if i == n {
      LeadsStays(g.engine, View(h.states[i].books.jobs, h.states[i].launched, k));
    } else {
      HistoryRefines(g, h, i, n - 1, k);
      HistoryStep(g, h, n - 1, k);
      LeadsThrough(g.engine, View(h.states[i].books.jobs, h.states[i].launched, k),
                   View(h.states[n - 1].books.jobs, h.states[n - 1].launched, k),
                   View(h.states[n].books.jobs, h.states[n].launched, k));
    }
  }

  lemma {:induction false} FrozenAlong(e: Engine, states: seq<System>, from: System, to: System, s: nat, p: nat)
    requires Walk(Protocol(e), states, from, to)
    requires from.job.HasTask(s, p) && from.job.Task(s, p).state.Completed?
    ensures SameSlot(from.job, to.job, s, p)
    decreases |states|
  {
    if |states| > 1 {
      var next := states[1];
      assert Protocol(e)(states[0], states[1]);
      var ev :| Enabled(e, from, ev) && next == Apply(from, ev);
      CompletedFrozen(from, ev, s, p);
      WalkTail(Protocol(e), states, from, to);
      FrozenAlong(e, states[1..], next, to, s, p);
    }
  }

  /** In the cluster too, a completed task keeps the executor and the outputs it
      was first accepted with, through retries elsewhere, losses and late reports. */
  lemma CompletedStays(g: Setting, h: History, i: nat, n: nat, k: string, s: nat, p: nat)
    requires IsHistory(g, h) && i <= n < |h.states|
    requires forall m :: i <= m <= n ==> k in h.states[m].books.jobs
    requires h.states[i].books.jobs[k].HasTask(s, p) && h.states[i].books.jobs[k].Task(s, p).state.Completed?
    ensures SameSlot(h.states[i].books.jobs[k], h.states[n].books.jobs[k], s, p)
  {
    HistoryRefines(g, h, i, n, k);
    var v := View(h.states[i].books.jobs, h.states[i].launched, k);
    var v' := View(h.states[n].books.jobs, h.states[n].launched, k);
    var states :| Walk(Protocol(g.engine), states, v, v');
    FrozenAlong(g.engine, states, v, v', s, p);
  }

  /** Whoever else shares the cluster: a completed query has sent one answer, and
      it reads back as the submitted plan's output. */
  lemma AnswerIsMeaning(g: Setting, h: History, i: nat, k: string)
    requires IsHistory(g, h) && i < |h.states| && k in h.states[i].books.jobs
    requires h.states[i].books.jobs[k].status.JobCompleted?
    ensures k in h.states[i].plans && Executable(h.states[i].plans[k])
    ensures var j := h.states[i].books.jobs[k];
      && |j.sent| == 1 && j.sent[0].Result?
      && ReadAll(j.sent[0].partitions) == CompactAll(Eval(g.engine, true, h.states[i].plans[k]))
  {
    HistoryInv(g, h, i);
    var c := h.states[i];
    assert JobOk(g.engine, c.plans, c.launched, k, c.books.jobs[k]);
    OriginalIsExecutable(c.plans[k]);
    ResultIsMeaning(g.engine, c.plans[k], c.books.jobs[k]);
  }

  // ---------------------------------------------------------------- progress

  lemma InWaitingOf(jobs: map<string, Job>, job: string, t: PendingTask)
    requires job in jobs && t in PendingTasks(jobs[job])
    ensures TaskId(job, t.stage, t.partition, t.attempt) in WaitingOf(jobs, job)
  {
    var tasks := PendingTasks(jobs[job]);
    var m :| 0 <= m < |tasks| && tasks[m] == t;
    assert WaitingOf(jobs, job)[m] == TaskId(job, t.stage, t.partition, t.attempt);
  }

  lemma {:induction false} StaysWaiting(jobs: map<string, Job>, order: seq<string>, i: nat, n: nat, id: TaskId)
    requires i <= n <= |order| && id in Waiting(jobs, order, i)
    ensures id in Waiting(jobs, order, n)
    decreases n - i
  {
    if i < n {
      InAppend(Waiting(jobs, order, i), WaitingOf(jobs, order[i]), id);
      StaysWaiting(jobs, order, i + 1, n, id);
    }
  }

  lemma InWaiting(jobs: map<string, Job>, order: seq<string>, i: nat, id: TaskId)
    requires i < |order| && id in WaitingOf(jobs, order[i])
    ensures id in Waiting(jobs, order, |order|)
  {
    InAppend(Waiting(jobs, order, i), WaitingOf(jobs, order[i]), id);
    StaysWaiting(jobs, order, i + 1, |order|, id);
  }

  lemma WaitsInTurn(b: Books, k: string, t: PendingTask, id: TaskId)
    requires k in b.order && k in b.jobs && t in PendingTasks(b.jobs[k])
    requires id == TaskId(k, t.stage, t.partition, t.attempt)
    ensures id in Waiting(b.jobs, b.order, |b.order|)
  {
    InWaitingOf(b.jobs, k, t);
    var n :| 0 <= n < |b.order| && b.order[n] == k;
    InWaiting(b.jobs, b.order, n, id);
  }

  lemma TaskToDo(g: Setting, c: Cluster, k: string) returns (id: TaskId)
    requires ValidEngine(g.engine) && ClusterInv(g, c) && k in c.books.jobs && c.books.jobs[k].Active()
    ensures id.job == k
    ensures var j := c.books.jobs[k];
      || (exists x :: RunsOn(j, id.stage, id.partition, id.attempt, x))
      || (exists t :: t in PendingTasks(j) && id == TaskId(k, t.stage, t.partition, t.attempt))
  {
    var j := c.books.jobs[k];
    assert JobOk(g.engine, c.plans, c.launched, k, j);
    id := NotStuck(g.engine, c.plans[k], j);
    var t := j.Task(id.stage, id.partition);
    if t.state.Running? {
      id := TaskId(k, id.stage, id.partition, t.attempt);
      assert RunsOn(j, id.stage, id.partition, id.attempt, t.state.executor);
    } else {
      assert PendingTask(id.stage, id.partition, id.attempt, j.stages[id.stage - 1].encodedPlan.value)
             in PendingTasks(j);
    }
  }

  /** No active job in the submission order is forgotten: some task of it waits
      where the next round will look, or runs on an executor that has it on its
      list or is just being given up. */
  lemma NothingForgotten(g: Setting, h: History, i: nat, k: string) returns (id: TaskId, x: ExecutorId)
    requires IsHistory(g, h) && i < |h.states|
    requires var b := h.states[i].books; k in b.order && k in b.jobs && b.jobs[k].Active()
    ensures id.job == k
    ensures var c := h.states[i];
      || id in Waiting(c.books.jobs, c.books.order, |c.books.order|)
      || (RunsOn(c.books.jobs[k], id.stage, id.partition, id.attempt, x) &&
          (c.losing == Some(x) || Holds(c.books.registry, x, id)))
  {
    HistoryInv(g, h, i);
    var b := h.states[i].books;
    id := TaskToDo(g, h.states[i], k);
    x := "";
    if y :| RunsOn(b.jobs[k], id.stage, id.partition, id.attempt, y) {
      x := y;
      BooksAgree(g, h, i, k, id.stage, id.partition, id.attempt, x);
    } else {
      var t :| t in PendingTasks(b.jobs[k]) && id == TaskId(k, t.stage, t.partition, t.attempt);
      WaitsInTurn(b, k, t, id);
    }
  }

  // ---------------------------------------------------------------- where the code relies on its callers

  ghost predicate AllListed(b: Books) {
    forall k :: k in b.jobs && b.jobs[k].Active() ==> k in b.order
  }

  ghost predicate OldestDone(b: Books, id: string, job: Job, retained: nat) {
    forall k :: k in Excess(b.order + [id], retained) && k in b.jobs[id := job] ==> !b.jobs[id := job][k].Active()
  }

  /** Retention: active jobs stay where rounds look for them exactly if the
      oldest ones beyond the limit are all finished. */
  lemma RetentionExact(b: Books, id: string, job: Job, retained: nat)
    requires AllListed(b) && id !in b.order && DistinctIds(b.order)
    ensures AllListed(Submitted(b, id, job, retained)) <==> OldestDone(b, id, job, retained)
  {
    var order, jobs := b.order + [id], b.jobs[id := job];
    var evict := Excess(order, retained);
    var b' := Submitted(b, id, job, retained);
    assert order == evict + order[|evict|..];
    forall k
      ensures k in order <==> k in evict || k in b'.order
    {
      InAppend(evict, order[|evict|..], k);
    }
    forall k | k in evict
      ensures k !in b'.order
    {
      var i :| 0 <= i < |evict| && evict[i] == k;
      assert order[i] == k;
      assert forall m :: 0 <= m < |b'.order| ==> b'.order[m] == order[|evict| + m];
    }
    if !OldestDone(b, id, job, retained) {
      var k :| k in evict && k in jobs && jobs[k].Active();
      assert k in b'.jobs && b'.jobs[k].Active() && k !in b'.order;
    }
    forall k | k in b'.jobs && b'.jobs[k].Active()
      ensures k in order
    {
      assert id in [id];
    }
  }

  /** Submission: the order keeps the newest ids, up to the limit, the new job last; the
      books lose exactly the finished jobs among those that fall off its front. */
  lemma NewestStay(b: Books, id: string, job: Job, retained: nat)
    ensures var all, jobs, b' := b.order + [id], b.jobs[id := job], Submitted(b, id, job, retained);
      var cut := if |all| <= retained then 0 else |all| - retained;
      && b'.order == all[cut..] && (retained > 0 ==> |b'.order| > 0 && b'.order[|b'.order| - 1] == id)
      && (forall k :: k in b'.jobs <==> k in jobs && (jobs[k].Active() || k !in all[..cut]))
      && (forall k :: k in b'.jobs ==> b'.jobs[k] == jobs[k])
      && b'.registry == b.registry
  {
  }

  /** Every plan can be submitted: the job is listed with the plan and the retries asked for,
      all its tasks waiting for their first attempt. */
  lemma SubmitStarts(g: Setting, c: Cluster, id: string, plan: Plan, retries: nat, s: nat, p: nat)
    requires ValidEngine(g.engine) && May(g, c, Submit(id, plan, retries))
    ensures var c' := Next(g, c, Submit(id, plan, retries));
      && c'.plans == c.plans[id := plan] && id in c'.books.jobs
      && (g.retained > 0 ==> id in c'.books.order)
      && var j := c'.books.jobs[id];
         && j.jobId == id && j.maxRetries == retries && j.Active()
         && (j.HasTask(s, p) ==> j.Task(s, p) == TaskSlot(p, 0, Pending, []))
  {
    NewJobInv(g.engine, plan, id, retries);
    var job := NewJob(id, retries, PlanStages(g.engine, plan)).value;
    StartsFresh(id, retries, PlanStages(g.engine, plan), s, p);
    NewestStay(c.books, id, job, g.retained);
  }

  ghost predicate Busy(jobs: map<string, Job>, x: ExecutorId) {
    exists k, s: nat, p: nat, attempt: nat :: k in jobs && RunsOn(jobs[k], s, p, attempt, x)
  }

  /** Registering an executor wipes its list of running tasks: the books still
      agree exactly if no active job runs anything there. */
  lemma RegisterExact(registry: Registry, losing: Option<ExecutorId>, jobs: map<string, Job>, x: ExecutorId, slots: nat)
    requires AllAgree(registry, losing, jobs)
    ensures AllAgree(Registered(registry, x, slots), losing, jobs) <==> losing == Some(x) || !Busy(jobs, x)
  {
    var r := Registered(registry, x, slots);
    if losing != Some(x) && Busy(jobs, x) {
      var k, s: nat, p: nat, attempt: nat :| k in jobs && RunsOn(jobs[k], s, p, attempt, x);
      assert !Holds(r, x, TaskId(k, s, p, attempt));
      assert !Agrees(r, losing, k, jobs[k]);
    } else {
      forall k | k in jobs
        ensures Agrees(r, losing, k, jobs[k])
      {
        assert Agrees(registry, losing, k, jobs[k]);
        forall s: nat, p: nat, attempt: nat, y: ExecutorId | RunsOn(jobs[k], s, p, attempt, y)
          ensures losing == Some(y) || Holds(r, y, TaskId(k, s, p, attempt))
        {
          assert losing == Some(y) || Holds(registry, y, TaskId(k, s, p, attempt));
        }
      }
    }
  }
}
