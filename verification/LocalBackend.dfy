/**
 The local cluster backend: which child handles it keeps, and when it may say that
 processes are gone.
 */
module LocalBackends {
  import opened Options

  type Pid = nat

  /** What querying a child answers. */
  datatype Wait = Exited | StillRuns | Unqueryable

  /** What one poll of a pid list would see, by position: the child query for
      a pid with a handle, the probe for one without. */
  datatype Poll = Poll(wait: nat -> Wait, alive: nat -> bool)

  // ---------------------------------------------------------------- one poll

  predicate Lingers(children: set<Pid>, pids: seq<Pid>, poll: Poll, i: nat)
    requires i < |pids|
  {
    if pids[i] in children then !poll.wait(i).Exited? else pids[i] != 0 && poll.alive(i)
  }

  /** Which of the first `n` pids are still there, or cannot be told. */
  function Survivors(children: set<Pid>, pids: seq<Pid>, poll: Poll, n: nat): seq<Pid>
    requires n <= |pids|
  {
    if n == 0 then []
    else Survivors(children, pids, poll, n - 1) + (if Lingers(children, pids, poll, n - 1) then [pids[n - 1]] else [])
  }

  ghost predicate SeenExited(children: set<Pid>, pids: seq<Pid>, poll: Poll, n: nat, pid: Pid)
    requires n <= |pids|
  {
    exists i :: 0 <= i < n && pids[i] == pid && pid in children && poll.wait(i).Exited?
  }

  /** The handles left: a child seen exited is reaped. */
  ghost function Reaped(children: set<Pid>, pids: seq<Pid>, poll: Poll): set<Pid> {
    set pid | pid in children && !SeenExited(children, pids, poll, |pids|, pid)
  }

  ghost predicate AllGone(children: set<Pid>, pids: seq<Pid>, poll: Poll) {
    forall i :: 0 <= i < |pids| ==> !Lingers(children, pids, poll, i)
  }

  lemma {:induction false} NoSurvivors(children: set<Pid>, pids: seq<Pid>, poll: Poll, n: nat)
    requires n <= |pids|
    ensures Survivors(children, pids, poll, n) == [] <==> forall i :: 0 <= i < n ==> !Lingers(children, pids, poll, i)
  {
    if n > 0 {
      NoSurvivors(children, pids, poll, n - 1);
    }
  }

  // ---------------------------------------------------------------- many polls

  /** What others do to the registry while a reaper sleeps: sweeps and status queries
      take handles, launches add some. */
  datatype Meanwhile = Meanwhile(taken: set<Pid>, added: set<Pid>)

  /** The handles held at poll number `r`, with the others at work between polls. */
  ghost function HandlesAt(start: set<Pid>, pids: seq<Pid>, polls: nat -> Poll, others: nat -> Meanwhile,
                           r: nat): set<Pid> {
    if r == 0 then start
    else
      Reaped(HandlesAt(start, pids, polls, others, r - 1), pids, polls(r - 1))
      - others(r - 1).taken + others(r - 1).added
  }

  /** And right after it. */
  ghost function HandlesAfter(start: set<Pid>, pids: seq<Pid>, polls: nat -> Poll, others: nat -> Meanwhile,
                              r: nat): set<Pid> {
    Reaped(HandlesAt(start, pids, polls, others, r), pids, polls(r))
  }

  /** Poll number `r` finds nothing left. */
  ghost predicate ClearAt(start: set<Pid>, pids: seq<Pid>, polls: nat -> Poll, others: nat -> Meanwhile, r: nat) {
    AllGone(HandlesAt(start, pids, polls, others, r), pids, polls(r))
  }

  ghost predicate NeverClear(start: set<Pid>, pids: seq<Pid>, polls: nat -> Poll, others: nat -> Meanwhile, r: nat) {
    forall q: nat :: q < r ==> !ClearAt(start, pids, polls, others, q)
  }

  /** Poll number `r` has been made: `held` are the handles left, none of the
      earlier polls found nothing left, and this one did if `clear`. */
  ghost predicate Ran(start: set<Pid>, pids: seq<Pid>, polls: nat -> Poll, others: nat -> Meanwhile,
                      r: nat, held: set<Pid>, clear: bool) {
    && held == HandlesAfter(start, pids, polls, others, r)
    && NeverClear(start, pids, polls, others, r)
    && (clear <==> ClearAt(start, pids, polls, others, r))
  }

  lemma FirstPoll(start: set<Pid>, pids: seq<Pid>, polls: nat -> Poll, others: nat -> Meanwhile)
    ensures Ran(start, pids, polls, others, 0, Reaped(start, pids, polls(0)), Survivors(start, pids, polls(0),
      |pids|) == [])
  {
    NoSurvivors(start, pids, polls(0), |pids|);
    assert HandlesAt(start, pids, polls, others, 0) == start;
  }

  /** One poll more after one that found somebody left. */
  lemma NextPoll(start: set<Pid>, pids: seq<Pid>, polls: nat -> Poll, others: nat -> Meanwhile, r: nat, held: set<Pid>)
    requires Ran(start, pids, polls, others, r, held, false)
    ensures var now := held - others(r).taken + others(r).added;
      && now == HandlesAt(start, pids, polls, others, r + 1)
      && Ran(start, pids, polls, others, r + 1, Reaped(now, pids, polls(r + 1)),
             Survivors(now, pids, polls(r + 1), |pids|) == [])
  {
    var now := HandlesAt(start, pids, polls, others, r + 1);
    NoSurvivors(now, pids, polls(r + 1), |pids|);
  }

  /** Taken off the end down to `keep`, last first. */
  function Popped(pids: seq<Pid>, keep: nat): (r: seq<Pid>)
    requires keep <= |pids|
    ensures |r| == |pids| - keep
    ensures forall i :: 0 <= i < |r| ==> r[i] == pids[|pids| - 1 - i]
  {
    seq(|pids| - keep, i requires 0 <= i < |pids| - keep => pids[|pids| - 1 - i])
  }

  class LocalBackend {
    /** Pids of the children whose handles are retained. */
    var children: set<Pid>

    /** Pids sent the uncatchable signal, in order. */
    var killed: seq<Pid>

    /** Polls in the polite and in the forced phase. */
    const gracePolls: nat

    const forcePolls: nat

    predicate Valid() {
      gracePolls == 20 && forcePolls == 20
    }

    constructor ()
      ensures Valid() && children == {} && killed == []
    {
      children, killed, gracePolls, forcePolls := {}, [], 20, 20;
    }

    /** Poll `pids` once. */
    method ReapRound(pids: seq<Pid>, poll: Poll) returns (still: seq<Pid>)
      modifies this`children
      ensures still == Survivors(old(children), pids, poll, |pids|)
      ensures children == Reaped(old(children), pids, poll)
    {
      still := [];
      var done: set<Pid> := {};
      for i := 0 to |pids|
        invariant children == old(children)
        invariant still == Survivors(children, pids, poll, i)
        invariant forall pid :: pid in done <==> SeenExited(children, pids, poll, i, pid)
      {
        if pids[i] in children {
          if poll.wait(i).Exited? {
            done := done + {pids[i]};
          } else {
            still := still + [pids[i]];
          }
        } else if pids[i] != 0 && poll.alive(i) {
          still := still + [pids[i]];
        }
      }
      children := children - done;
    }

    method ForceKill(pids: seq<Pid>)
      modifies this`killed
      ensures killed == old(killed) + pids
    {
      killed := killed + pids;
    }

    /** Others at work after poll `r`, then poll `r + 1`. */
    method SleepAndPoll(pids: seq<Pid>, polls: nat -> Poll, others: nat -> Meanwhile, r: nat, ghost start: set<Pid>)
      returns (still: seq<Pid>)
      requires Ran(start, pids, polls, others, r, children, false)
      modifies this`children
      ensures Ran(start, pids, polls, others, r + 1, children, still == [])
      ensures still == Survivors(HandlesAt(start, pids, polls, others, r + 1), pids, polls(r + 1), |pids|)
    {
      NextPoll(start, pids, polls, others, r, children);
      children := children - others(r).taken + others(r).added;
      still := ReapRound(pids, polls(r + 1));
    }

    method Grace(pids: seq<Pid>, polls: nat -> Poll, others: nat -> Meanwhile)
      returns (still: seq<Pid>, ghost last: nat)
      modifies this`children
      ensures Ran(old(children), pids, polls, others, last, children, still == [])
      ensures last <= gracePolls && (still != [] ==> last == gracePolls)
      ensures still == Survivors(HandlesAt(old(children), pids, polls, others, last), pids, polls(last), |pids|)
    {
      ghost var start := children;
      FirstPoll(start, pids, polls, others);
      still := ReapRound(pids, polls(0));
      last := 0;
      for g := 0 to gracePolls
        invariant last == g && Ran(start, pids, polls, others, g, children, still == [])
        invariant still == Survivors(HandlesAt(start, pids, polls, others, g), pids, polls(g), |pids|)
      {
        if still == [] {
          return;
        }
        still := SleepAndPoll(pids, polls, others, g, start);
        last := last + 1;
      }
    }

    method Force(pids: seq<Pid>, polls: nat -> Poll, others: nat -> Meanwhile, ghost start: set<Pid>)
      returns (ok: bool, ghost last: nat)
      requires Ran(start, pids, polls, others, gracePolls, children, false)
      modifies this`children
      ensures Ran(start, pids, polls, others, last, children, ok)
      ensures gracePolls <= last <= gracePolls + forcePolls && (ok ==> last > gracePolls)
      ensures !ok ==> last == gracePolls + forcePolls
    {
      var polled := gracePolls;
      while polled < gracePolls + forcePolls
        invariant gracePolls <= polled <= gracePolls + forcePolls
        invariant Ran(start, pids, polls, others, polled, children, false)
      {
        var still := SleepAndPoll(pids, polls, others, polled, start);
        polled := polled + 1;
        if still == [] {
          return true, polled;
        }
      }
      return false, polled;
    }

    /** Poll until nothing is left, with force after the grace period.  Others may
        use the registry between polls.  There are at most 41 polls, and success
        comes only from one that finds every pid gone. */
    method ReapPids(pids: seq<Pid>, polls: nat -> Poll, others: nat -> Meanwhile) returns (ok: bool, ghost last: nat)
      requires Valid()
      modifies this
      ensures Ran(old(children), pids, polls, others, last, children, ok)
      ensures last <= 40 && (!ok ==> last == 40)
      ensures killed == old(killed) + (if ok && last <= gracePolls then []
        else Survivors(HandlesAt(old(children), pids, polls, others, gracePolls), pids, polls(gracePolls), |pids|))
    {
      ghost var start := children;
      var still;
      still, last := Grace(pids, polls, others);
      if still == [] {
        return true, last;
      }
      ForceKill(still);
      ok, last := Force(pids, polls, others, start);
    }

    /** Reap the exited children no cluster refers to. */
    method SweepExited(referenced: set<Pid>, wait: Pid -> Wait) returns (reaped: nat)
      modifies this`children
      ensures children == set pid | pid in old(children) && (pid in referenced || !wait(pid).Exited?)
      ensures reaped == |old(children) - children|
    {
      reaped := 0;
      var done: set<Pid> := {};
      var todo := children;
      while todo != {}
        invariant todo <= children == old(children) && reaped == |done|
        invariant done == set pid | pid in children && pid !in todo && pid !in referenced && wait(pid).Exited?
        decreases |todo|
      {
        var pid :| pid in todo;
        todo := todo - {pid};
        if pid !in referenced && wait(pid).Exited? {
          done := done + {pid};
          reaped := reaped + 1;
        }
      }
      children := children - done;
      assert old(children) - children == done;
    }

    /** Whether a process runs; an exit is consumed, a failed query is an error. */
    method PidLive(pid: Pid, wait: Wait, alive: bool) returns (live: Option<bool>)
      modifies this`children
      ensures pid == 0 ==> live == Some(false) && children == old(children)
      ensures pid != 0 && pid in old(children) ==>
        live == match wait case Exited => Some(false) case StillRuns => Some(true) case Unqueryable => None
      ensures pid != 0 && pid !in old(children) ==> live == Some(alive)
      ensures children == if pid != 0 && wait.Exited? then old(children) - {pid} else old(children)
    {
      if pid == 0 {
        return Some(false);
      }
      if pid !in children {
        return Some(alive);
      }
      match wait {
        case StillRuns => live := Some(true);
        case Unqueryable => live := None;
        case Exited =>
          children := children - {pid};
          live := Some(false);
      }
    }

    // ---------------------------------------------------------------- clusters

    /** Stop a cluster: success means its processes are gone. */
    method Terminate(executors: seq<Pid>, driver: Pid, polls: nat -> Poll, others: nat -> Meanwhile)
      returns (ok: bool, ghost last: nat)
      requires Valid()
      modifies this
      ensures Ran(old(children), executors + [driver], polls, others, last, children, ok)
      ensures last <= 40 && (!ok ==> last == 40)
    {
      ok, last := ReapPids(executors + [driver], polls, others);
    }

    method Spawn(pids: seq<Pid>, ports: seq<nat>, target: nat, spawned: nat -> Option<(Pid, nat)>)
      returns (r: Option<(seq<Pid>, seq<nat>)>)
      requires |pids| == |ports| <= target
      modifies this`children
      ensures old(children) <= children
      ensures r.Some? ==> |r.value.0| == |r.value.1| == target
      ensures r.Some? ==> r.value.0[..|pids|] == pids && r.value.1[..|pids|] == ports
      ensures r.Some? ==> forall i :: |pids| <= i < target ==>
        spawned(i - |pids|) == Some((r.value.0[i], r.value.1[i])) && r.value.0[i] in children
    {
      var state, statePorts := pids, ports;
      while |state| < target
        invariant |pids| <= |state| == |statePorts| <= target
        invariant old(children) <= children
        invariant state[..|pids|] == pids && statePorts[..|pids|] == ports
        invariant forall i :: |pids| <= i < |state| ==>
          spawned(i - |pids|) == Some((state[i], statePorts[i])) && state[i] in children
      {
        var next := spawned(|state| - |pids|);
        if next.None? {
          return None;
        }
        children := children + {next.value.0};
        state, statePorts := state + [next.value.0], statePorts + [next.value.1];
      }
      r := Some((state, statePorts));
    }

    /** Grow or shrink a cluster to `target` executors.  `spawned` are the pids and
        ports the operating system would give new ones, until spawning fails. */
    method Resize(pids: seq<Pid>, ports: seq<nat>, target: nat, polls: nat -> Poll, others: nat -> Meanwhile,
                  spawned: nat -> Option<(Pid, nat)>)
      returns (r: Option<(seq<Pid>, seq<nat>)>, ghost last: nat)
      requires Valid() && |pids| == |ports|
      modifies this
      ensures last <= 40
      ensures r.Some? ==> |r.value.0| == |r.value.1| == target
      ensures r.Some? ==> var keep := if |pids| < target then |pids| else target;
        && r.value.0[..keep] == pids[..keep] && r.value.1[..keep] == ports[..keep]
        && (forall i :: keep <= i < target ==>
             spawned(i - keep) == Some((r.value.0[i], r.value.1[i])) && r.value.0[i] in children)
        && ClearAt(old(children), Popped(pids, keep), polls, others, last)
    {
      var state, statePorts, removed := pids, ports, [];
      while |state| > target
        invariant |state| == |statePorts| && state == pids[..|state|] && statePorts == ports[..|state|]
        invariant |state| >= (if |pids| < target then |pids| else target)
        invariant removed == Popped(pids, |state|)
      {
        removed := removed + [state[|state| - 1]];
        state, statePorts := state[..|state| - 1], statePorts[..|state| - 1];
      }
      var ok;
      ok, last := ReapPids(removed, polls, others);
      if !ok {
        return None, last;
      }
      r := Spawn(state, statePorts, target, spawned);
    }
  }

  // ---------------------------------------------------------------- no false success

  /** Time passes from poll to poll; a process that is gone stays gone. */
  ghost predicate Monotone(gone: (nat, Pid) -> bool) {
    forall t: nat, u: nat, pid :: t <= u && gone(t, pid) ==> gone(u, pid)
  }

  /** An answer that a process is over is true: the child query's always, the
      probe's as far as it goes. */
  ghost predicate Truthful(gone: (nat, Pid) -> bool, pids: seq<Pid>, polls: nat -> Poll) {
    forall t: nat, i: nat :: i < |pids| ==>
      && (polls(t).wait(i).Exited? ==> gone(t, pids[i]))
      && (pids[i] == 0 || !polls(t).alive(i) ==> gone(t, pids[i]))
  }

  /** Success is never false: once reaping reports it, every listed process is
      gone, whether or not a handle was held and whatever others did to the
      registry meanwhile, and no handle of theirs is kept. */
  lemma ClearMeansGone(start: set<Pid>, pids: seq<Pid>, polls: nat -> Poll, others: nat -> Meanwhile, r: nat,
                       gone: (nat, Pid) -> bool, u: nat)
    requires Monotone(gone) && Truthful(gone, pids, polls) && ClearAt(start, pids, polls, others, r) && r <= u
    ensures forall i :: 0 <= i < |pids| ==> gone(u, pids[i]) && pids[i] !in HandlesAfter(start, pids, polls, others, r)
  {
    var held := HandlesAt(start, pids, polls, others, r);
    forall i | 0 <= i < |pids|
      ensures gone(u, pids[i]) && pids[i] !in Reaped(held, pids, polls(r))
    {
      assert !Lingers(held, pids, polls(r), i);
      assert gone(r, pids[i]);
      if pids[i] in held {
        assert SeenExited(held, pids, polls(r), |pids|, pids[i]);
      }
    }
  }

  /** A process that is gone answers so, to whoever asks. */
  ghost predicate Responsive(gone: (nat, Pid) -> bool, pids: seq<Pid>, polls: nat -> Poll) {
    forall t: nat, i: nat :: i < |pids| && gone(t, pids[i]) ==> polls(t).wait(i).Exited? && !polls(t).alive(i)
  }

  /** Failure is never false either: if reaping gives up after poll `r`, then at each of its
      polls some listed process was still there, or did not answer. */
  lemma StuckMeansThere(start: set<Pid>, pids: seq<Pid>, polls: nat -> Poll, others: nat -> Meanwhile, r: nat,
                        held: set<Pid>, gone: (nat, Pid) -> bool, q: nat) returns (i: nat)
    requires Ran(start, pids, polls, others, r, held, false) && q <= r
    ensures i < |pids|
    ensures if pids[i] in HandlesAt(start, pids, polls, others, q) then !polls(q).wait(i).Exited?
            else pids[i] != 0 && polls(q).alive(i)
    ensures Responsive(gone, pids, polls) ==> !gone(q, pids[i])
  {
    assert !ClearAt(start, pids, polls, others, q);
    i :| i < |pids| && Lingers(HandlesAt(start, pids, polls, others, q), pids, polls(q), i);
  }

  /** The poll succeeds exactly if every listed pid answers that it is over: the child query
      where a handle is held, the probe where none is. */
  lemma ClearExact(start: set<Pid>, pids: seq<Pid>, polls: nat -> Poll, others: nat -> Meanwhile, r: nat)
    ensures ClearAt(start, pids, polls, others, r) <==>
      forall i :: 0 <= i < |pids| ==>
        if pids[i] in HandlesAt(start, pids, polls, others, r) then polls(r).wait(i).Exited?
        else pids[i] == 0 || !polls(r).alive(i)
  {
    var held := HandlesAt(start, pids, polls, others, r);
    if !ClearAt(start, pids, polls, others, r) {
      var i :| 0 <= i < |pids| && Lingers(held, pids, polls(r), i);
    }
    forall i | 0 <= i < |pids|
      ensures !Lingers(held, pids, polls(r), i) <==>
        if pids[i] in held then polls(r).wait(i).Exited? else pids[i] == 0 || !polls(r).alive(i)
    {
    }
  }

  /** One of the first `r` polls could have seen the child's exit. */
  ghost predicate EverExited(pids: seq<Pid>, polls: nat -> Poll, r: nat, pid: Pid) {
    exists q: nat, i: nat :: q < r && i < |pids| && pids[i] == pid && polls(q).wait(i).Exited?
  }

  ghost predicate EverTaken(others: nat -> Meanwhile, r: nat, pid: Pid) {
    exists q: nat :: q < r && pid in others(q).taken
  }

  ghost predicate NeverAdded(others: nat -> Meanwhile, r: nat, pid: Pid) {
    forall q: nat :: q < r ==> pid !in others(q).added
  }

  lemma ExitedNext(pids: seq<Pid>, polls: nat -> Poll, r: nat, pid: Pid, held: set<Pid>)
    requires pid in held
    ensures EverExited(pids, polls, r + 1, pid) <==>
            EverExited(pids, polls, r, pid) || SeenExited(held, pids, polls(r), |pids|, pid)
  {
    if EverExited(pids, polls, r + 1, pid) && !EverExited(pids, polls, r, pid) {
      var q: nat, i: nat :| q < r + 1 && i < |pids| && pids[i] == pid && polls(q).wait(i).Exited?;
      assert q == r;
    }
  }

  /** Handles are given up only for children seen exited; those of survivors stay
      for a later sweep, unless somebody else took them. */
  lemma {:induction false} HandlesKept(start: set<Pid>, pids: seq<Pid>, polls: nat -> Poll, others: nat -> Meanwhile,
                                       r: nat, pid: Pid)
    requires NeverAdded(others, r, pid)
    ensures pid in HandlesAt(start, pids, polls, others, r) <==>
      pid in start && !EverExited(pids, polls, r, pid) && !EverTaken(others, r, pid)
  {
    if r > 0 {
      HandlesKept(start, pids, polls, others, r - 1, pid);
      var held := HandlesAt(start, pids, polls, others, r - 1);
      assert EverTaken(others, r, pid) <==> EverTaken(others, r - 1, pid) || pid in others(r - 1).taken;
      if pid in held {
        ExitedNext(pids, polls, r - 1, pid, held);
      } else if EverExited(pids, polls, r - 1, pid) {
        var q: nat, i: nat :| q < r - 1 && i < |pids| && pids[i] == pid && polls(q).wait(i).Exited?;
        assert EverExited(pids, polls, r, pid);
      }
    }
  }

  // ---------------------------------------------------------------- several clusters

  /** What happens to the registry: a sweep with everybody's references, a status
      query, one poll of a reaper, a launch. */
  datatype Operation =
    | Sweep(referenced: set<Pid>, answer: Pid -> Wait)
    | Query(pid: Pid, wait: Wait)
    | ReapPoll(pids: seq<Pid>, poll: Poll)
    | Spawned(pid: Pid)

  ghost function Performed(children: set<Pid>, op: Operation): set<Pid> {
    match op
    case Sweep(referenced, answer) => set pid | pid in children && (pid in referenced || !answer(pid).Exited?)
    case Query(pid, wait) => if pid != 0 && wait.Exited? then children - {pid} else children
    case ReapPoll(pids, poll) => Reaped(children, pids, poll)
    case Spawned(pid) => children + {pid}
  }

  ghost function PerformedAll(children: set<Pid>, ops: seq<Operation>, n: nat): set<Pid>
    requires n <= |ops|
  {
    if n == 0 then children else Performed(PerformedAll(children, ops, n - 1), ops[n - 1])
  }

  /** The operation observes the exit on behalf of the cluster that owns the pid. */
  ghost predicate Observes(op: Operation, pid: Pid) {
    || (op.Query? && op.pid == pid && op.wait.Exited?)
    || (op.ReapPoll? && exists i :: 0 <= i < |op.pids| && op.pids[i] == pid && op.poll.wait(i).Exited?)
  }

  /** Over any interleaving, poll by poll, a referenced child stays in the registry
      until its own cluster observes the exit: sweeps given the complete
      reference set never take that answer away. */
  lemma {:induction false} ReferencedStays(children: set<Pid>, ops: seq<Operation>, n: nat, pid: Pid)
    requires n <= |ops| && pid in children && pid != 0
    requires forall i :: 0 <= i < n && ops[i].Sweep? ==> pid in ops[i].referenced
    requires forall i :: 0 <= i < n ==> !Observes(ops[i], pid)
    ensures pid in PerformedAll(children, ops, n)
  {
    if n > 0 {
      ReferencedStays(children, ops, n - 1, pid);
      assert !Observes(ops[n - 1], pid);
    }
  }
}
