/**
 One dispatch round: handing pending tasks to executors by their free slots, as
 last seen.
 */
module Dispatching {
  import opened Jobs
  import opened JobInvariant
  import opened JobProtocol
  import opened Executors

  /** An executor with the free slots it had when it was looked at. */
  datatype Slot = Slot(executor: ExecutorId, free: nat)

  /** A task handed to an executor with the plan of its stage. */
  datatype Handout = Handout(executor: ExecutorId, id: TaskId, plan: TaskPlan)

  /** The state of a round; `full` once a task found no free slot. */
  datatype Round = Round(free: seq<Slot>, jobs: map<string, Job>, registry: Registry, handed: seq<Handout>, full: bool)

  /** Position of the last of the largest entries. */
  function LastMax(free: seq<Slot>): (i: nat)
    requires |free| > 0
    ensures i < |free|
    ensures forall k :: 0 <= k < |free| ==> free[k].free <= free[i].free
    ensures forall k :: i < k < |free| ==> free[k].free < free[i].free
  {
    if |free| == 1 then 0
    else
      var i := LastMax(free[..|free| - 1]);
      if free[|free| - 1].free >= free[i].free then |free| - 1 else i
  }

  predicate NoneFree(free: seq<Slot>) {
    |free| == 0 || free[LastMax(free)].free == 0
  }

  function AssignTask(r: Round, job: string, t: PendingTask): (q: Round)
    requires job in r.jobs
    ensures q.jobs.Keys == r.jobs.Keys
  {
    if NoneFree(r.free) then r.(full := true)
    else
      var i := LastMax(r.free);
      var s := r.free[i];
      var id := TaskId(job, t.stage, t.partition, t.attempt);
      Round(r.free[i := Slot(s.executor, s.free - 1)],
            r.jobs[job := MarkRunning(r.jobs[job], t.stage, t.partition, t.attempt, s.executor)],
            Started(r.registry, s.executor, id),
            r.handed + [Handout(s.executor, id, t.plan)], false)
  }

  function AssignNext(r: Round, job: string, t: PendingTask): (q: Round)
    requires job in r.jobs
    ensures q.jobs.Keys == r.jobs.Keys
  {
    if r.full then r else AssignTask(r, job, t)
  }

  /** The first `n` tasks of a job. */
  function AssignTasks(r: Round, job: string, tasks: seq<PendingTask>, n: nat): (q: Round)
    requires job in r.jobs && n <= |tasks|
    ensures q.jobs.Keys == r.jobs.Keys
  {
    if n == 0 then r else AssignNext(AssignTasks(r, job, tasks, n - 1), job, tasks[n - 1])
  }

  function AssignJob(r: Round, job: string): (q: Round)
    ensures q.jobs.Keys == r.jobs.Keys
  {
    if r.full || job !in r.jobs then r
    else
      var tasks := PendingTasks(r.jobs[job]);
      AssignTasks(r, job, tasks, |tasks|)
  }

  /** The first `n` jobs in submission order. */
  function AssignJobs(r: Round, order: seq<string>, n: nat): (q: Round)
    requires n <= |order|
    ensures q.jobs.Keys == r.jobs.Keys
  {
    if n == 0 then r else AssignJob(AssignJobs(r, order, n - 1), order[n - 1])
  }

  /** A property every hand-out keeps holds after the first `n` tasks. */
  lemma {:induction false} TasksKeep(inv: (Round, nat) -> bool, r: Round, job: string, tasks: seq<PendingTask>, n: nat)
    requires job in r.jobs && n <= |tasks| && inv(r, 0)
    requires forall p: Round, m: nat :: m < |tasks| && job in p.jobs && inv(p, m) ==>
      inv(AssignNext(p, job, tasks[m]), m + 1)
    ensures inv(AssignTasks(r, job, tasks, n), n)
  {
    if n > 0 {
      TasksKeep(inv, r, job, tasks, n - 1);
    }
  }

  /** A property every job's turn keeps holds after the first `n` jobs. */
  lemma {:induction false} JobsKeep(inv: (Round, nat) -> bool, r: Round, order: seq<string>, n: nat)
    requires n <= |order| && inv(r, 0)
    requires forall p: Round, m: nat :: m < |order| && inv(p, m) ==> inv(AssignJob(p, order[m]), m + 1)
    ensures inv(AssignJobs(r, order, n), n)
  {
    if n > 0 {
      JobsKeep(inv, r, order, n - 1);
    }
  }

  // ---------------------------------------------------------------- work conserving and first come, first served

  function Ids(job: string, tasks: seq<PendingTask>, n: nat): (ids: seq<TaskId>)
    requires n <= |tasks|
    ensures |ids| == n
  {
    seq(n, i requires 0 <= i < n => TaskId(job, tasks[i].stage, tasks[i].partition, tasks[i].attempt))
  }

  function WaitingOf(jobs: map<string, Job>, job: string): seq<TaskId> {
    if job !in jobs then []
    else
      var tasks := PendingTasks(jobs[job]);
      Ids(job, tasks, |tasks|)
  }

  /** All pending tasks of the first `n` jobs, earlier jobs first. */
  function Waiting(jobs: map<string, Job>, order: seq<string>, n: nat): seq<TaskId>
    requires n <= |order|
  {
    if n == 0 then [] else Waiting(jobs, order, n - 1) + WaitingOf(jobs, order[n - 1])
  }

  function Total(free: seq<Slot>): nat {
    if |free| == 0 then 0 else Total(free[..|free| - 1]) + free[|free| - 1].free
  }

  lemma {:induction false} TotalTakes(free: seq<Slot>, i: nat)
    requires i < |free| && free[i].free > 0
    ensures Total(free) == Total(free[i := Slot(free[i].executor, free[i].free - 1)]) + 1
  {
    var m := |free| - 1;
    var after := free[i := Slot(free[i].executor, free[i].free - 1)];
    if i == m {
      assert after[..m] == free[..m];
    } else {
      TotalTakes(free[..m], i);
      assert after[..m] == free[..m][i := Slot(free[i].executor, free[i].free - 1)];
    }
  }

  lemma {:induction false} TotalZero(free: seq<Slot>)
    requires forall k :: 0 <= k < |free| ==> free[k].free == 0
    ensures Total(free) == 0
  {
    if |free| > 0 {
      TotalZero(free[..|free| - 1]);
    }
  }

  /** Tasks handed out, in order. */
  function HandedIds(handed: seq<Handout>): (ids: seq<TaskId>)
    ensures |ids| == |handed|
  {
    seq(|handed|, i requires 0 <= i < |handed| => handed[i].id)
  }

  /** After looking at the tasks of `seen` with `total` free slots at the start:
      the first ones are handed out, and either all of them or every slot. */
  ghost predicate Served(r: Round, seen: seq<TaskId>, total: nat) {
    && |r.handed| <= |seen|
    && HandedIds(r.handed) == seen[..|r.handed|]
    && |r.handed| + Total(r.free) == total
    && if r.full then Total(r.free) == 0 else |r.handed| == |seen|
  }

  lemma ServedMore(r: Round, seen: seq<TaskId>, more: seq<TaskId>, total: nat)
    requires Served(r, seen, total) && (r.full || more == [])
    ensures Served(r, seen + more, total)
  {
    if r.full {
      assert (seen + more)[..|r.handed|] == seen[..|r.handed|];
    } else {
      assert seen + more == seen;
    }
  }

  lemma TaskServed(r: Round, job: string, t: PendingTask, seen: seq<TaskId>, total: nat)
    requires job in r.jobs && Served(r, seen, total)
    ensures Served(AssignNext(r, job, t), seen + [TaskId(job, t.stage, t.partition, t.attempt)], total)
  {
    var id := TaskId(job, t.stage, t.partition, t.attempt);
    if r.full {
      ServedMore(r, seen, [id], total);
    } else {
      assert seen[..|seen|] == seen;
      if NoneFree(r.free) {
        TotalZero(r.free);
        assert (seen + [id])[..|seen|] == seen;
      } else {
        TotalTakes(r.free, LastMax(r.free));
        assert HandedIds(AssignTask(r, job, t).handed) == HandedIds(r.handed) + [id];
        assert (seen + [id])[..|seen| + 1] == seen + [id];
      }
    }
  }

  lemma TasksServed(r: Round, job: string, tasks: seq<PendingTask>, seen: seq<TaskId>, total: nat)
    requires job in r.jobs && Served(r, seen, total)
    ensures Served(AssignTasks(r, job, tasks, |tasks|), seen + Ids(job, tasks, |tasks|), total)
  {
    var inv := (p: Round, m: nat) => m <= |tasks| && Served(p, seen + Ids(job, tasks, m), total);
    assert seen + Ids(job, tasks, 0) == seen;
    forall p: Round, m: nat | m < |tasks| && job in p.jobs && inv(p, m)
      ensures inv(AssignNext(p, job, tasks[m]), m + 1)
    {
      TaskServed(p, job, tasks[m], seen + Ids(job, tasks, m), total);
      assert seen + Ids(job, tasks, m + 1) ==
             seen + Ids(job, tasks, m) + [TaskId(job, tasks[m].stage, tasks[m].partition, tasks[m].attempt)];
    }
    TasksKeep(inv, r, job, tasks, |tasks|);
  }

  ghost predicate DistinctIds(order: seq<string>) {
    forall a, b :: 0 <= a < b < |order| ==> order[a] != order[b]
  }

  lemma JobTouchesOne(r: Round, job: string, other: string)
    requires other in r.jobs && other != job
    ensures AssignJob(r, job).jobs[other] == r.jobs[other]
  {
    if !r.full && job in r.jobs {
      var tasks := PendingTasks(r.jobs[job]);
      TasksKeep((p: Round, m: nat) => other in p.jobs && p.jobs[other] == r.jobs[other], r, job, tasks, |tasks|);
    }
  }

  /** The jobs from number `n` on have not had their turn. */
  ghost predicate Unvisited(r: Round, jobs: map<string, Job>, order: seq<string>, n: nat) {
    && r.jobs.Keys == jobs.Keys
    && forall i :: n <= i < |order| && order[i] in jobs ==> r.jobs[order[i]] == jobs[order[i]]
  }

  lemma JobServed(r: Round, jobs: map<string, Job>, order: seq<string>, n: nat, total: nat)
    requires n < |order| && DistinctIds(order) && Unvisited(r, jobs, order, n)
    requires Served(r, Waiting(jobs, order, n), total)
    ensures Unvisited(AssignJob(r, order[n]), jobs, order, n + 1)
    ensures Served(AssignJob(r, order[n]), Waiting(jobs, order, n + 1), total)
  {
    var job, before := order[n], Waiting(jobs, order, n);
    forall i | n < i < |order| && order[i] in jobs
      ensures AssignJob(r, job).jobs[order[i]] == jobs[order[i]]
    {
      JobTouchesOne(r, job, order[i]);
    }
    if job !in jobs {
      ServedMore(r, before, [], total);
    } else {
      var tasks := PendingTasks(jobs[job]);
      if r.full {
        ServedMore(r, before, Ids(job, tasks, |tasks|), total);
      } else {
        TasksServed(r, job, tasks, before, total);
      }
    }
  }

  /** The round `p` has served the first `m` jobs. */
  ghost predicate ServedTo(start: Round, order: seq<string>, p: Round, m: nat) {
    && m <= |order| && Unvisited(p, start.jobs, order, m)
    && Served(p, Waiting(start.jobs, order, m), Total(start.free))
  }

  lemma ServedNext(start: Round, order: seq<string>, p: Round, m: nat)
    requires DistinctIds(order) && m < |order| && ServedTo(start, order, p, m)
    ensures ServedTo(start, order, AssignJob(p, order[m]), m + 1)
  {
    JobServed(p, start.jobs, order, m, Total(start.free));
  }

  lemma ServedFirst(start: Round, order: seq<string>)
    requires !start.full && start.handed == []
    ensures ServedTo(start, order, start, 0)
  {
    assert Waiting(start.jobs, order, 0) == [];
  }

  lemma JobsServed(start: Round, order: seq<string>)
    requires DistinctIds(order) && !start.full && start.handed == []
    ensures ServedTo(start, order, AssignJobs(start, order, |order|), |order|)
  {
    ServedFirst(start, order);
    forall p: Round, m: nat | m < |order| && ServedTo(start, order, p, m)
      ensures ServedTo(start, order, AssignJob(p, order[m]), m + 1)
    {
      ServedNext(start, order, p, m);
    }
    JobsKeep((p: Round, m: nat) => ServedTo(start, order, p, m), start, order, |order|);
  }

  /** A round hands out as many tasks as there are free slots and pending tasks,
      and exactly the first ones in submission order: a task of a later job goes
      out only after every pending task of all earlier jobs. */
  lemma FirstComeFirstServed(free: seq<Slot>, jobs: map<string, Job>, registry: Registry, order: seq<string>)
    requires DistinctIds(order)
    ensures var q := AssignJobs(Round(free, jobs, registry, [], false), order, |order|);
      var waiting := Waiting(jobs, order, |order|);
      && |q.handed| == (if Total(free) < |waiting| then Total(free) else |waiting|)
      && HandedIds(q.handed) == waiting[..|q.handed|]
  {
    JobsServed(Round(free, jobs, registry, [], false), order);
  }

  // ---------------------------------------------------------------- balance

  ghost predicate Received(handed: seq<Handout>, e: ExecutorId) {
    exists i :: 0 <= i < |handed| && handed[i].executor == e
  }

  ghost predicate DistinctSlots(free: seq<Slot>) {
    forall a, b :: 0 <= a < b < |free| ==> free[a].executor != free[b].executor
  }

  /** Nobody who received a task has two free slots less than anybody else. */
  ghost predicate Balanced(r: Round) {
    forall k, m :: 0 <= k < |r.free| && 0 <= m < |r.free| && Received(r.handed, r.free[k].executor) ==>
      r.free[m].free <= r.free[k].free + 1
  }

  ghost predicate SameExecutors(a: seq<Slot>, b: seq<Slot>) {
    |a| == |b| && forall k :: 0 <= k < |a| ==> a[k].executor == b[k].executor
  }

  lemma TaskBalanced(r: Round, job: string, t: PendingTask)
    requires job in r.jobs && Balanced(r) && DistinctSlots(r.free)
    ensures Balanced(AssignTask(r, job, t)) && SameExecutors(r.free, AssignTask(r, job, t).free)
  {
    if !NoneFree(r.free) {
      var q := AssignTask(r, job, t);
      var i := LastMax(r.free);
      forall k, m | 0 <= k < |q.free| && 0 <= m < |q.free| && Received(q.handed, q.free[k].executor)
        ensures q.free[m].free <= q.free[k].free + 1
      {
        if k != i {
          var n :| 0 <= n < |q.handed| && q.handed[n].executor == q.free[k].executor;
          assert r.handed[n].executor == r.free[k].executor;
          assert Received(r.handed, r.free[k].executor);
          assert r.free[m].free <= r.free[k].free + 1;
        }
      }
    }
  }

  /** Balanced, over the executors of `free`. */
  ghost predicate Spread(r: Round, free: seq<Slot>) {
    Balanced(r) && SameExecutors(free, r.free)
  }

  lemma JobSpread(r: Round, job: string, free: seq<Slot>)
    requires DistinctSlots(free) && Spread(r, free)
    ensures Spread(AssignJob(r, job), free)
  {
    if !r.full && job in r.jobs {
      var tasks := PendingTasks(r.jobs[job]);
      forall p: Round, m: nat | m < |tasks| && job in p.jobs && Spread(p, free)
        ensures Spread(AssignNext(p, job, tasks[m]), free)
      {
        if !p.full {
          TaskBalanced(p, job, tasks[m]);
        }
      }
      TasksKeep((p: Round, m: nat) => Spread(p, free), r, job, tasks, |tasks|);
    }
  }

  /** A round spreads the load: every executor that received a task keeps at
      least one less than the most free slots anybody keeps. */
  lemma RoundBalanced(free: seq<Slot>, jobs: map<string, Job>, registry: Registry, order: seq<string>)
    requires DistinctSlots(free)
    ensures Balanced(AssignJobs(Round(free, jobs, registry, [], false), order, |order|))
  {
    var inv := (p: Round, m: nat) => Spread(p, free);
    forall p: Round, m: nat | m < |order| && inv(p, m)
      ensures inv(AssignJob(p, order[m]), m + 1)
    {
      JobSpread(p, order[m], free);
    }
    JobsKeep(inv, Round(free, jobs, registry, [], false), order, |order|);
  }

  // ---------------------------------------------------------------- no task twice

  predicate Before(x: PendingTask, y: PendingTask) {
    x.stage < y.stage || (x.stage == y.stage && x.partition < y.partition)
  }

  ghost predicate Ascending(tasks: seq<PendingTask>) {
    forall a, b :: 0 <= a < b < |tasks| ==> Before(tasks[a], tasks[b])
  }

  lemma AscendingAppend(a: seq<PendingTask>, b: seq<PendingTask>)
    requires Ascending(a) && Ascending(b)
    requires forall x, y :: x in a && y in b ==> Before(x, y)
    ensures Ascending(a + b)
  {
  }

  lemma {:induction false} PendingOfAscends(st: StageState, n: nat)
    requires n <= |st.tasks| && InOrder(st)
    ensures Ascending(PendingOf(st, n))
  {
    if n > 0 && st.status.Runnable? && st.encodedPlan.Some? {
      PendingOfAscends(st, n - 1);
      var front, t := PendingOf(st, n - 1), st.tasks[n - 1];
      if t.state.Pending? {
        var last := PendingTask(st.stage.id, t.partition, t.attempt, st.encodedPlan.value);
        forall x | x in front
          ensures Before(x, last)
        {
          InPendingOf(st, n - 1, x);
        }
        AscendingAppend(front, [last]);
      }
    }
  }

  lemma {:induction false} PendingAscends(stages: seq<StageState>, n: nat)
    requires n <= |stages| && WellNumbered(stages)
    ensures Ascending(PendingUpTo(stages, n))
  {
    if n > 0 {
      var st := stages[n - 1];
      var front, back := PendingUpTo(stages, n - 1), PendingOf(st, |st.tasks|);
      PendingAscends(stages, n - 1);
      PendingOfAscends(st, |st.tasks|);
      forall x, y | x in front && y in back
        ensures Before(x, y)
      {
        InPendingUpTo(stages, n - 1, x);
        InPendingOf(st, |st.tasks|, y);
      }
      AscendingAppend(front, back);
    }
  }

  ghost predicate NoneTwice(ids: seq<TaskId>) {
    forall a, b :: 0 <= a < b < |ids| ==> ids[a] != ids[b]
  }

  ghost predicate AllNumbered(jobs: map<string, Job>) {
    forall k :: k in jobs ==> WellNumbered(jobs[k].stages)
  }

  ghost predicate OfJobs(ids: seq<TaskId>, order: seq<string>) {
    forall i :: 0 <= i < |ids| ==> ids[i].job in order
  }

  lemma OnceAppend(a: seq<TaskId>, order: seq<string>, b: seq<TaskId>, job: string)
    requires NoneTwice(a) && OfJobs(a, order) && job !in order
    requires NoneTwice(b) && OfJobs(b, [job])
    ensures NoneTwice(a + b) && OfJobs(a + b, order + [job])
  {
    forall i | 0 <= i < |a|
      ensures a[i].job in order + [job] && a[i].job != job
    {
    }
  }

  lemma WaitingOfOnce(jobs: map<string, Job>, job: string)
    requires AllNumbered(jobs)
    ensures NoneTwice(WaitingOf(jobs, job)) && OfJobs(WaitingOf(jobs, job), [job])
  {
    if job in jobs {
      PendingAscends(jobs[job].stages, |jobs[job].stages|);
      var tasks := PendingTasks(jobs[job]);
      forall a, b | 0 <= a < b < |tasks|
        ensures WaitingOf(jobs, job)[a] != WaitingOf(jobs, job)[b]
      {
        assert Before(tasks[a], tasks[b]);
      }
    }
  }

  lemma {:induction false} WaitingOnce(jobs: map<string, Job>, order: seq<string>, n: nat)
    requires n <= |order| && DistinctIds(order) && AllNumbered(jobs)
    ensures NoneTwice(Waiting(jobs, order, n)) && OfJobs(Waiting(jobs, order, n), order[..n])
  {
    if n > 0 {
      WaitingOnce(jobs, order, n - 1);
      WaitingOfOnce(jobs, order[n - 1]);
      assert order[..n] == order[..n - 1] + [order[n - 1]] && order[n - 1] !in order[..n - 1];
      OnceAppend(Waiting(jobs, order, n - 1), order[..n - 1], WaitingOf(jobs, order[n - 1]), order[n - 1]);
    }
  }

  /** No task is handed out twice in a round. */
  lemma HandedOnce(free: seq<Slot>, jobs: map<string, Job>, registry: Registry, order: seq<string>)
    requires DistinctIds(order) && AllNumbered(jobs)
    ensures NoneTwice(HandedIds(AssignJobs(Round(free, jobs, registry, [], false), order, |order|).handed))
  {
    FirstComeFirstServed(free, jobs, registry, order);
    WaitingOnce(jobs, order, |order|);
  }
}
