/** The registry of live executors and its slot accounting. */
module Executors {
  import opened Options
  import opened Jobs
  import opened TaskKeys

  /** `running` holds the printed ids of the tasks started here. */
  datatype Entry = Entry(slots: nat, running: set<string>, completedTasks: nat, failedTasks: nat)

  type Registry = map<ExecutorId, Entry>

  /** Slots left, never below zero. */
  function FreeSlots(e: Entry): nat {
    if |e.running| >= e.slots then 0 else e.slots - |e.running|
  }

  /** A registration replaces whatever was there. */
  function Registered(r: Registry, id: ExecutorId, slots: nat): Registry {
    r[id := Entry(slots, {}, 0, 0)]
  }

  function Started(r: Registry, id: ExecutorId, task: TaskId): Registry {
    if id in r then r[id := r[id].(running := r[id].running + {Print(task)})] else r
  }

  function Finished(r: Registry, id: ExecutorId, task: TaskId, ok: bool): Registry {
    if id !in r then r
    else
      var e := r[id];
      r[id := Entry(e.slots, e.running - {Print(task)},
                    e.completedTasks + (if ok then 1 else 0), e.failedTasks + (if ok then 0 else 1))]
  }

  class ExecutorRegistry {
    var executors: Registry

    constructor ()
      ensures executors == map[]
    {
      executors := map[];
    }

    method Register(id: ExecutorId, slots: nat)
      modifies this
      ensures executors == Registered(old(executors), id, slots)
    {
      executors := executors[id := Entry(slots, {}, 0, 0)];
    }

    method Remove(id: ExecutorId) returns (e: Option<Entry>)
      modifies this
      ensures executors == old(executors) - {id}
      ensures e == if id in old(executors) then Some(old(executors)[id]) else None
    {
      e := if id in executors then Some(executors[id]) else None;
      executors := executors - {id};
    }

    method TaskStarted(id: ExecutorId, task: TaskId)
      modifies this
      ensures executors == Started(old(executors), id, task)
    {
      if id in executors {
        var e := executors[id];
        executors := executors[id := e.(running := e.running + {Print(task)})];
      }
    }

    method TaskFinished(id: ExecutorId, task: TaskId, ok: bool)
      modifies this
      ensures executors == Finished(old(executors), id, task, ok)
    {
      if id in executors {
        var e := executors[id];
        e := e.(running := e.running - {Print(task)});
        if ok {
          e := e.(completedTasks := e.completedTasks + 1);
        } else {
          e := e.(failedTasks := e.failedTasks + 1);
        }
        executors := executors[id := e];
      }
    }
  }

  // ---------------------------------------------------------------- what the accounting keeps

  ghost predicate WithinSlots(r: Registry) {
    forall id :: id in r ==> |r[id].running| <= r[id].slots
  }

  ghost predicate Holds(r: Registry, id: ExecutorId, task: TaskId) {
    id in r && Print(task) in r[id].running
  }

  /** Finishing a task frees its own key and no other. */
  lemma FinishedHolds(r: Registry, x: ExecutorId, done: TaskId, ok: bool, id: ExecutorId, task: TaskId)
    ensures Holds(Finished(r, x, done, ok), id, task) <==> Holds(r, id, task) && !(x == id && done == task)
  {
    if Print(done) == Print(task) {
      PrintInjective(done, task);
    }
  }

  lemma SetShrinks<T>(s: set<T>, x: T)
    ensures |s - {x}| <= |s|
  {
    if x in s {
      assert s == (s - {x}) + {x};
    } else {
      assert s - {x} == s;
    }
  }

  lemma FinishedWithin(r: Registry, x: ExecutorId, task: TaskId, ok: bool)
    requires WithinSlots(r)
    ensures WithinSlots(Finished(r, x, task, ok))
  {
    if x in r {
      SetShrinks(r[x].running, Print(task));
    }
  }

  lemma SetGrows<T>(s: set<T>, x: T)
    ensures |s + {x}| <= |s| + 1
  {
    if x in s {
      assert s + {x} == s;
    }
  }
}
