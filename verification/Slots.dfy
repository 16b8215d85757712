/**
 Whose slot is taken, and for how long: an executor's list holds a task from the
 round that hands it out until it is reported, given back, or the executor goes.
 */
module Slots {
  import opened Options
  import opened Plans
  import opened Jobs
  import opened TaskKeys
  import opened Executors
  import opened Dispatching
  import opened SchedulerBooks
  import opened Clusters
  import opened ClusterRuns
  import Schedulers

  // ---------------------------------------------------------------- reports

  /** The report says that the executor is done with the task, or the job is not known any more. */
  predicate Settles(known: set<string>, s: TaskStatus) {
    !s.report.StillRunning? || s.id.job !in known
  }

  /** A settling report takes its own task off its executor's list, and nothing else comes
      or goes. */
  lemma ReportFrees(b: Books, s: TaskStatus, x: ExecutorId, id: TaskId)
    ensures Holds(Updated(b, s).registry, x, id) <==>
      Holds(b.registry, x, id) && !(Settles(b.jobs.Keys, s) && s.executor == x && s.id == id)
  {
    FinishedHolds(b.registry, s.executor, s.id, true, x, id);
    FinishedHolds(b.registry, s.executor, s.id, false, x, id);
  }

  lemma {:induction false} ReportsKeepJobs(b: Books, statuses: seq<TaskStatus>, n: nat)
    requires n <= |statuses|
    ensures UpdatedAll(b, statuses, n).jobs.Keys == b.jobs.Keys
  {
    if n > 0 {
      ReportsKeepJobs(b, statuses, n - 1);
    }
  }

  /** One of the first `n` statuses settles the task. */
  ghost predicate Settled(known: set<string>, statuses: seq<TaskStatus>, n: nat, x: ExecutorId, id: TaskId)
    requires n <= |statuses|
  {
    exists i :: 0 <= i < n && Settles(known, statuses[i]) && statuses[i].executor == x && statuses[i].id == id
  }

  lemma SettledNext(known: set<string>, statuses: seq<TaskStatus>, n: nat, x: ExecutorId, id: TaskId)
    requires n < |statuses|
    ensures Settled(known, statuses, n + 1, x, id) <==>
      || Settled(known, statuses, n, x, id)
      || (Settles(known, statuses[n]) && statuses[n].executor == x && statuses[n].id == id)
  {
  }

  lemma ReportFreesNext(b: Books, u: Books, statuses: seq<TaskStatus>, n: nat, x: ExecutorId, id: TaskId)
    requires n < |statuses| && u.jobs.Keys == b.jobs.Keys
    requires Holds(u.registry, x, id) <==> Holds(b.registry, x, id) && !Settled(b.jobs.Keys, statuses, n, x, id)
    ensures Holds(Updated(u, statuses[n]).registry, x, id) <==>
      Holds(b.registry, x, id) && !Settled(b.jobs.Keys, statuses, n + 1, x, id)
  {
    ReportFrees(u, statuses[n], x, id);
    SettledNext(b.jobs.Keys, statuses, n, x, id);
  }

  /** After a list of statuses exactly those tasks are off the lists that one of them settles. */
  lemma {:induction false} ReportsFree(b: Books, statuses: seq<TaskStatus>, n: nat, x: ExecutorId, id: TaskId)
    requires n <= |statuses|
    ensures Holds(UpdatedAll(b, statuses, n).registry, x, id) <==>
      Holds(b.registry, x, id) && !Settled(b.jobs.Keys, statuses, n, x, id)
  {
    if n > 0 {
      ReportsFree(b, statuses, n - 1, x, id);
      ReportsKeepJobs(b, statuses, n - 1);
      ReportFreesNext(b, UpdatedAll(b, statuses, n - 1), statuses, n - 1, x, id);
    }
  }

  /** A report about a job nobody knows counts as a success. */
  function Succeeds(known: set<string>, s: TaskStatus, x: ExecutorId): nat {
    if s.executor == x && (s.id.job !in known || s.report.Done?) then 1 else 0
  }

  function Fails(known: set<string>, s: TaskStatus, x: ExecutorId): nat {
    if s.executor == x && s.id.job in known && s.report.Broke? then 1 else 0
  }

  /** The successes of executor `x` among the first `n` reports. */
  function Successes(known: set<string>, statuses: seq<TaskStatus>, n: nat, x: ExecutorId): nat
    requires n <= |statuses|
  {
    if n == 0 then 0 else Successes(known, statuses, n - 1, x) + Succeeds(known, statuses[n - 1], x)
  }

  function Failures(known: set<string>, statuses: seq<TaskStatus>, n: nat, x: ExecutorId): nat
    requires n <= |statuses|
  {
    if n == 0 then 0 else Failures(known, statuses, n - 1, x) + Fails(known, statuses[n - 1], x)
  }

  /** The entry has grown by so many successes and failures. */
  ghost predicate Grown(r: Registry, r': Registry, x: ExecutorId, successes: nat, failures: nat) {
    && (x in r' <==> x in r)
    && (x in r ==>
      && r'[x].slots == r[x].slots
      && r'[x].completedTasks == r[x].completedTasks + successes
      && r'[x].failedTasks == r[x].failedTasks + failures)
  }

  lemma ReportCounted(b: Books, s: TaskStatus, x: ExecutorId)
    ensures Grown(b.registry, Updated(b, s).registry, x, Succeeds(b.jobs.Keys, s, x), Fails(b.jobs.Keys, s, x))
  {
  }

  /** The counters of an executor grow by its successes and its failures. */
  lemma {:induction false} ReportsCounted(b: Books, statuses: seq<TaskStatus>, n: nat, x: ExecutorId)
    requires n <= |statuses|
    ensures Grown(b.registry, UpdatedAll(b, statuses, n).registry, x,
                  Successes(b.jobs.Keys, statuses, n, x), Failures(b.jobs.Keys, statuses, n, x))
  {
    if n > 0 {
      ReportsCounted(b, statuses, n - 1, x);
      ReportsKeepJobs(b, statuses, n - 1);
      ReportCounted(UpdatedAll(b, statuses, n - 1), statuses[n - 1], x);
    }
  }

  // ---------------------------------------------------------------- giving back

  ghost predicate Names(ids: seq<TaskId>, n: nat, id: TaskId)
    requires n <= |ids|
  {
    exists i :: 0 <= i < n && ids[i] == id
  }

  /** Tasks given back are off the list of the executor that gives them back, and only those. */
  lemma {:induction false} RequeueFrees(b: Books, x: ExecutorId, ids: seq<TaskId>, n: nat, y: ExecutorId, id: TaskId)
    requires n <= |ids|
    ensures Holds(Requeued(b, x, ids, n).registry, y, id) <==>
      Holds(b.registry, y, id) && !(y == x && Names(ids, n, id))
  {
    if n > 0 {
      RequeueFrees(b, x, ids, n - 1, y, id);
      FinishedHolds(Requeued(b, x, ids, n - 1).registry, x, ids[n - 1], false, y, id);
    }
  }

  /** A task given back under its current attempt waits again; no other slot changes. */
  lemma {:induction false} RequeueWaits(b: Books, x: ExecutorId, ids: seq<TaskId>, n: nat, k: string, s: nat, p: nat)
    requires n <= |ids| && k in b.jobs && b.jobs[k].HasTask(s, p)
    ensures var jobs := Requeued(b, x, ids, n).jobs;
      && jobs.Keys == b.jobs.Keys && jobs[k].HasTask(s, p)
      && var t := b.jobs[k].Task(s, p);
         jobs[k].Task(s, p) ==
           if t.state.Running? && Names(ids, n, TaskId(k, s, p, t.attempt)) then t.(state := Pending) else t
  {
    if n > 0 {
      RequeueWaits(b, x, ids, n - 1, k, s, p);
    }
  }

  /** A freed key is one slot more for the next round. */
  lemma FreedSlot(r: Registry, x: ExecutorId, id: TaskId, ok: bool)
    requires WithinSlots(r) && Holds(r, x, id)
    ensures x in Finished(r, x, id, ok) && FreeSlots(Finished(r, x, id, ok)[x]) == FreeSlots(r[x]) + 1
  {
    var key := Print(id);
    assert r[x].running == (r[x].running - {key}) + {key};
  }

  /** The next round finds it: whatever order the executors are listed in. */
  lemma FreedIsListed(r: Registry, x: ExecutorId, id: TaskId, ok: bool, free: seq<Slot>)
    requires WithinSlots(r) && Holds(r, x, id) && Schedulers.Listed(Finished(r, x, id, ok), free)
    ensures Slot(x, FreeSlots(r[x]) + 1) in free
  {
    FreedSlot(r, x, id, ok);
  }

  // ---------------------------------------------------------------- handing out

  ghost predicate HandedTo(handed: seq<Handout>, x: ExecutorId, id: TaskId) {
    exists i :: 0 <= i < |handed| && handed[i].executor == x && handed[i].id == id
  }

  lemma HandedMore(handed: seq<Handout>, h: Handout, x: ExecutorId, id: TaskId)
    ensures HandedTo(handed + [h], x, id) <==> HandedTo(handed, x, id) || (h.executor == x && h.id == id)
  {
    if HandedTo(handed, x, id) {
      var i :| 0 <= i < |handed| && handed[i].executor == x && handed[i].id == id;
      assert (handed + [h])[i] == handed[i];
    }
    if h.executor == x && h.id == id {
      assert (handed + [h])[|handed|] == h;
    }
  }

  lemma StartHolds(r: Registry, x: ExecutorId, started: TaskId, y: ExecutorId, id: TaskId)
    requires x in r
    ensures Holds(Started(r, x, started), y, id) <==> Holds(r, y, id) || (x == y && started == id)
  {
    if Print(started) == Print(id) {
      PrintInjective(started, id);
    }
  }

  ghost predicate Listable(free: seq<Slot>, r: Registry) {
    forall k :: 0 <= k < |free| ==> free[k].executor in r
  }

  /** The lists hold what they held at the start of the round and what was handed out since. */
  ghost predicate HoldsHanded(start: Registry, p: Round, x: ExecutorId, id: TaskId) {
    && Listable(p.free, p.registry)
    && (Holds(p.registry, x, id) <==> Holds(start, x, id) || HandedTo(p.handed, x, id))
  }

  lemma HandOut(start: Registry, p: Round, job: string, t: PendingTask, x: ExecutorId, id: TaskId)
    requires job in p.jobs && HoldsHanded(start, p, x, id)
    ensures HoldsHanded(start, AssignNext(p, job, t), x, id)
  {
    if !p.full && !NoneFree(p.free) {
      var s := p.free[LastMax(p.free)];
      var given := TaskId(job, t.stage, t.partition, t.attempt);
      StartHolds(p.registry, s.executor, given, x, id);
      HandedMore(p.handed, Handout(s.executor, given, t.plan), x, id);
    }
  }

  lemma TurnHandsOut(start: Registry, p: Round, job: string, x: ExecutorId, id: TaskId)
    requires HoldsHanded(start, p, x, id)
    ensures HoldsHanded(start, AssignJob(p, job), x, id)
  {
    if !p.full && job in p.jobs {
      var tasks := PendingTasks(p.jobs[job]);
      var inv := (q: Round, m: nat) => HoldsHanded(start, q, x, id);
      forall q: Round, m: nat | m < |tasks| && job in q.jobs && inv(q, m)
        ensures inv(AssignNext(q, job, tasks[m]), m + 1)
      {
        HandOut(start, q, job, tasks[m], x, id);
      }
      TasksKeep(inv, p, job, tasks, |tasks|);
    }
  }

  /** A round puts exactly what it hands out on the lists. */
  lemma RoundHandsOut(b: Books, free: seq<Slot>, x: ExecutorId, id: TaskId)
    requires Listable(free, b.registry)
    ensures var q := Dispatched(b, free);
      Holds(q.registry, x, id) <==> Holds(b.registry, x, id) || HandedTo(q.handed, x, id)
  {
    var start := Round(free, b.jobs, b.registry, [], false);
    var inv := (q: Round, m: nat) => HoldsHanded(b.registry, q, x, id);
    forall q: Round, m: nat | m < |b.order| && inv(q, m)
      ensures inv(AssignJob(q, b.order[m]), m + 1)
    {
      TurnHandsOut(b.registry, q, b.order[m], x, id);
    }
    JobsKeep(inv, start, b.order, |b.order|);
  }

  ghost predicate About(id: TaskId, k: string, s: nat, p: nat) {
    id.job == k && id.stage == s && id.partition == p
  }

  /** Slot (s, p) of job `k`: handed out, it runs where it was handed, under the attempt named;
      not handed out, it is as before the round. */
  ghost predicate SlotHanded(jobs: map<string, Job>, r: Round, k: string, s: nat, p: nat) {
    && k in jobs && k in r.jobs && jobs[k].HasTask(s, p) && r.jobs[k].HasTask(s, p)
    && var t, t' := jobs[k].Task(s, p), r.jobs[k].Task(s, p);
       && (forall i :: 0 <= i < |r.handed| && About(r.handed[i].id, k, s, p) ==>
            && t.state.Pending? && r.handed[i].id.attempt == t.attempt
            && t' == t.(state := Running(r.handed[i].executor)))
       && ((forall i :: 0 <= i < |r.handed| ==> !About(r.handed[i].id, k, s, p)) ==> t' == t)
  }

  lemma TaskSlotHanded(jobs: map<string, Job>, r: Round, job: string, t: PendingTask, k: string, s: nat, p: nat)
    requires job in r.jobs && SlotPending(r.jobs[job], t) && SlotHanded(jobs, r, k, s, p)
    ensures SlotHanded(jobs, AssignTask(r, job, t), k, s, p)
  {
    if !NoneFree(r.free) {
      var q := AssignTask(r, job, t);
      var h := q.handed[|r.handed|];
      assert forall i :: 0 <= i < |r.handed| ==> q.handed[i] == r.handed[i];
      if About(h.id, k, s, p) {
        assert forall i :: 0 <= i < |r.handed| ==> !About(r.handed[i].id, k, s, p);
      }
    }
  }

  lemma JobSlotHanded(g: Setting, c: Cluster, r: Round, job: string, k: string, s: nat, p: nat)
    requires ValidEngine(g.engine) && RoundOk(g, c.plans, c.launched, r) && SlotHanded(c.books.jobs, r, k, s, p)
    ensures RoundOk(g, c.plans, c.launched, AssignJob(r, job))
    ensures SlotHanded(c.books.jobs, AssignJob(r, job), k, s, p)
  {
    if !r.full && job in r.jobs {
      assert JobOk(g.engine, c.plans, Noted(c.launched, r.handed), job, r.jobs[job]);
      var tasks := PendingTasks(r.jobs[job]);
      PendingSlots(g.engine, c.plans[job], r.jobs[job]);
      var inv := (q: Round, m: nat) =>
        RoundAt(g, c.plans, c.launched, q, job, tasks, m) && SlotHanded(c.books.jobs, q, k, s, p);
      forall q: Round, m: nat | m < |tasks| && job in q.jobs && inv(q, m)
        ensures inv(AssignNext(q, job, tasks[m]), m + 1)
      {
        AssignNextOk(g, c.plans, c.launched, q, job, tasks, m);
        if !q.full {
          assert SlotPending(q.jobs[job], tasks[m]);
          TaskSlotHanded(c.books.jobs, q, job, tasks[m], k, s, p);
        }
      }
      TasksKeep(inv, r, job, tasks, |tasks|);
    }
  }

  /** A round starts exactly the tasks it hands out, each where and as it says, and
      changes no other slot of any job. */
  lemma RoundStarts(g: Setting, c: Cluster, free: seq<Slot>, k: string, s: nat, p: nat)
    requires ValidEngine(g.engine) && ClusterInv(g, c)
    requires c.phase.Looking? && multiset(free) == multiset(c.phase.free)
    requires k in c.books.jobs && c.books.jobs[k].HasTask(s, p)
    ensures SlotHanded(c.books.jobs, Dispatched(c.books, free), k, s, p)
  {
    SortedFits(c.books.registry, c.phase.free, free);
    var start := Round(free, c.books.jobs, c.books.registry, [], false);
    assert Noted(c.launched, []) == c.launched;
    var inv := (q: Round, m: nat) => RoundOk(g, c.plans, c.launched, q) && SlotHanded(c.books.jobs, q, k, s, p);
    forall q: Round, m: nat | m < |c.books.order| && inv(q, m)
      ensures inv(AssignJob(q, c.books.order[m]), m + 1)
    {
      JobSlotHanded(g, c, q, c.books.order[m], k, s, p);
    }
    JobsKeep(inv, start, c.books.order, |c.books.order|);
  }

  // ---------------------------------------------------------------- along a history

  /** The step hands the task to the executor. */
  ghost predicate Hands(c: Cluster, step: Step, x: ExecutorId, id: TaskId) {
    step.Assign? && HandedTo(Dispatched(c.books, step.free).handed, x, id)
  }

  /** The step ends the executor's hold on the task. */
  ghost predicate Releases(c: Cluster, step: Step, x: ExecutorId, id: TaskId) {
    match step
    case Status(s) => Settles(c.books.jobs.Keys, s) && s.executor == x && s.id == id
    case Answer(y, rejected) => y == x && id in rejected
    case LaunchFails(y) => y == x && c.phase.Sending? && HandedTo(c.phase.handed, x, id)
    case Remove(y) => y == x
    case _ => false
  }

  lemma {:induction false} BatchIsHanded(handed: seq<Handout>, x: ExecutorId, id: TaskId)
    ensures id in BatchOf(handed, x) <==> HandedTo(handed, x, id)
  {
    if |handed| > 0 {
      var front, last := handed[..|handed| - 1], handed[|handed| - 1];
      BatchIsHanded(front, x, id);
      assert handed == front + [last];
      HandedMore(front, last, x, id);
    }
  }

  /** Once an executor has answered, nothing of the round waits for it, and the others' tasks still do. */
  lemma {:induction false} AnsweredOnce(handed: seq<Handout>, x: ExecutorId, y: ExecutorId, id: TaskId)
    ensures HandedTo(Without(handed, x), y, id) <==> y != x && HandedTo(handed, y, id)
  {
    if |handed| > 0 {
      var front, last := handed[..|handed| - 1], handed[|handed| - 1];
      AnsweredOnce(front, x, y, id);
      assert handed == front + [last];
      HandedMore(front, last, y, id);
      HandedMore(Without(front, x), last, y, id);
      assert Without(handed, x) == if last.executor == x then Without(front, x) else Without(front, x) + [last];
    }
  }

  lemma GivenBack(b: Books, y: ExecutorId, ids: seq<TaskId>, x: ExecutorId, id: TaskId)
    ensures Holds(Requeued(b, y, ids, |ids|).registry, x, id) <==> Holds(b.registry, x, id) && !(y == x && id in ids)
  {
    RequeueFrees(b, y, ids, |ids|, x, id);
  }

  lemma SeenAreListable(g: Setting, c: Cluster, free: seq<Slot>)
    requires ClusterInv(g, c) && c.phase.Looking? && multiset(free) == multiset(c.phase.free)
    ensures Listable(free, c.books.registry)
  {
    SortedFits(c.books.registry, c.phase.free, free);
    forall k | 0 <= k < |free|
      ensures free[k].executor in c.books.registry
    {
      assert Fits(c.books.registry, free[k]);
    }
  }

  lemma StepHolds(g: Setting, c: Cluster, step: Step, x: ExecutorId, id: TaskId)
    requires ClusterInv(g, c) && May(g, c, step)
    ensures Holds(Next(g, c, step).books.registry, x, id) <==>
      Hands(c, step, x, id) || (Holds(c.books.registry, x, id) && !Releases(c, step, x, id))
  {
    match step
    case Assign(free) =>
      SeenAreListable(g, c, free);
      RoundHandsOut(c.books, free, x, id);
    case Answer(y, rejected) => GivenBack(c.books, y, rejected, x, id);
    case LaunchFails(y) =>
      BatchIsHanded(c.phase.handed, x, id);
      GivenBack(c.books, y, BatchOf(c.phase.handed, y), x, id);
    case Status(s) => ReportFrees(c.books, s, x, id);
    case _ =>
  }

  /** Step `i` handed the task to the executor, and no later one before `n` ended that. */
  ghost predicate HandedAt(h: History, i: nat, n: nat, x: ExecutorId, id: TaskId)
    requires |h.states| == |h.steps| + 1 && n < |h.states|
  {
    && i < n && Hands(h.states[i], h.steps[i], x, id)
    && forall k :: i < k < n ==> !Releases(h.states[k], h.steps[k], x, id)
  }

  ghost predicate HeldSince(h: History, n: nat, x: ExecutorId, id: TaskId)
    requires |h.states| == |h.steps| + 1 && n < |h.states|
  {
    exists i: nat :: HandedAt(h, i, n, x, id)
  }

  lemma HeldNext(h: History, n: nat, x: ExecutorId, id: TaskId)
    requires |h.states| == |h.steps| + 1 && n < |h.steps|
    ensures HeldSince(h, n + 1, x, id) <==>
      || Hands(h.states[n], h.steps[n], x, id)
      || (HeldSince(h, n, x, id) && !Releases(h.states[n], h.steps[n], x, id))
  {
    var m := n + 1;
    if i: nat :| HandedAt(h, i, m, x, id) && i < n {
      assert HandedAt(h, i, n, x, id);
    }
    if Hands(h.states[n], h.steps[n], x, id) {
      assert HandedAt(h, n, m, x, id);
    }
    if i: nat :| HandedAt(h, i, n, x, id) && !Releases(h.states[n], h.steps[n], x, id) {
      assert HandedAt(h, i, m, x, id);
    }
  }

  lemma HistoryHolds(g: Setting, h: History, n: nat, x: ExecutorId, id: TaskId)
    requires IsHistory(g, h) && n < |h.steps|
    requires Holds(h.states[n].books.registry, x, id) <==> HeldSince(h, n, x, id)
    ensures Holds(h.states[n + 1].books.registry, x, id) <==> HeldSince(h, n + 1, x, id)
  {
    HistoryInv(g, h, n);
    assert StepsTo(g, h.states[n], h.steps[n], h.states[n + 1]);
    StepHolds(g, h.states[n], h.steps[n], x, id);
    HeldNext(h, n, x, id);
  }

  /** In every reachable state an executor's list holds exactly the tasks that a round
      handed to it and that it has neither reported on nor given back since:
      no slot leaks, and none is freed early. */
  lemma {:induction false} ListIsHandouts(g: Setting, h: History, n: nat, x: ExecutorId, id: TaskId)
    requires IsHistory(g, h) && n < |h.states|
    ensures Holds(h.states[n].books.registry, x, id) <==> HeldSince(h, n, x, id)
  {
    if n > 0 {
      ListIsHandouts(g, h, n - 1, x, id);
      HistoryHolds(g, h, n - 1, x, id);
    }
  }
}
