/** The scheduler's books, the registry and the jobs, and what each handler makes of them. */
module SchedulerBooks {
  import opened Plans
  import opened Jobs
  import opened Executors
  import opened Dispatching

  datatype Books = Books(registry: Registry, jobs: map<string, Job>, order: seq<string>)

  /** What an executor says about a task. */
  datatype Report = Done(outputs: seq<Location>) | Broke(error: string) | StillRunning

  datatype TaskStatus = TaskStatus(id: TaskId, executor: ExecutorId, report: Report)

  /** The ids at the front that no longer fit. */
  function Excess(order: seq<string>, retained: nat): seq<string> {
    if |order| > retained then order[..|order| - retained] else []
  }

  predicate Evictable(jobs: map<string, Job>, evict: seq<string>, id: string) {
    id in evict && id in jobs && !jobs[id].Active()
  }

  function Evicted(jobs: map<string, Job>, evict: seq<string>): map<string, Job> {
    map id | id in jobs && !Evictable(jobs, evict, id) :: jobs[id]
  }

  /** A new job joins; of the oldest beyond the limit only finished ones are
      forgotten, but all of them leave the submission order. */
  function Submitted(b: Books, id: string, job: Job, retained: nat): Books {
    var order := b.order + [id];
    var evict := Excess(order, retained);
    Books(b.registry, Evicted(b.jobs[id := job], evict), order[|evict|..])
  }

  function Cancelled(b: Books, id: string): Books {
    if id in b.jobs then b.(jobs := b.jobs[id := Cancel(b.jobs[id]).0]) else b
  }

  /** A completion whose dependents do not resolve counts as a failure. */
  function Reported(j: Job, id: TaskId, x: ExecutorId, outputs: seq<Location>): Job {
    var o := TaskCompleted(j, id, x, outputs);
    if o.ok then o.job else TaskFailed(o.job, id, "resolve failed").0
  }

  function Updated(b: Books, s: TaskStatus): Books {
    if s.id.job !in b.jobs then b.(registry := Finished(b.registry, s.executor, s.id, true))
    else
      var j := b.jobs[s.id.job];
      match s.report
      case Done(outputs) =>
        Books(Finished(b.registry, s.executor, s.id, true),
              b.jobs[s.id.job := Reported(j, s.id, s.executor, outputs)], b.order)
      case Broke(error) =>
        Books(Finished(b.registry, s.executor, s.id, false),
              b.jobs[s.id.job := TaskFailed(j, s.id, error).0], b.order)
      case StillRunning => b
  }

  /** The first `n` statuses of a report, one after the other. */
  function UpdatedAll(b: Books, statuses: seq<TaskStatus>, n: nat): Books
    requires n <= |statuses|
  {
    if n == 0 then b else Updated(UpdatedAll(b, statuses, n - 1), statuses[n - 1])
  }

  function RequeuedOne(b: Books, x: ExecutorId, id: TaskId): Books {
    Books(Finished(b.registry, x, id, false),
          if id.job in b.jobs
          then b.jobs[id.job := MarkPending(b.jobs[id.job], id.stage, id.partition, id.attempt)]
          else b.jobs,
          b.order)
  }

  /** The first `n` of `ids` go back to the pool. */
  function Requeued(b: Books, x: ExecutorId, ids: seq<TaskId>, n: nat): Books
    requires n <= |ids|
  {
    if n == 0 then b else RequeuedOne(Requeued(b, x, ids, n - 1), x, ids[n - 1])
  }

  /** All jobs learn that an executor is gone. */
  function Told(jobs: map<string, Job>, x: ExecutorId): map<string, Job> {
    map id | id in jobs :: ExecutorLost(jobs[id], x).0
  }

  /** A round over the executors seen, in the order given. */
  function Dispatched(b: Books, free: seq<Slot>): Round {
    AssignJobs(Round(free, b.jobs, b.registry, [], false), b.order, |b.order|)
  }
}
