/**
 Splitting a physical plan into shuffle stages, and swapping shuffle leaves for
 readers once the producing stages are done.
 */
module Planner {
  import opened Options
  import opened Plans
  import opened Exchanges

  /** One schedulable unit: a writer over `input`. */
  datatype Stage = Stage(
    id: nat, input: Plan, partitioning: Option<Partitioning>,
    dependsOn: seq<nat>, numTasks: pos, outputPartitions: pos)
  {
    /** Partitions a consumer of this stage sees. */
    function ConsumerPartitions(): pos {
      if partitioning.Some? then outputPartitions else numTasks
    }
  }

  function AtLeastOne(n: nat): pos {
    if n == 0 then 1 else n
  }

  // ---------------------------------------------------------------- split as a function

  /** A rewritten node, the stages it reads directly, and the stages cut off below it. */
  datatype Split<T> = Split(plan: T, deps: seq<nat>, stages: seq<Stage>)

  function NewStage(e: Engine, id: nat, input: Plan, part: Option<Partitioning>, deps: seq<nat>): Stage {
    Stage(id, input, part, deps, AtLeastOne(Width(e, input)), OutputCount(part))
  }

  /** Cut the plan above `r`, whose stages follow `base` earlier ones. */
  function Cut(e: Engine, r: Split<Plan>, base: nat, part: Option<Partitioning>): Split<Plan> {
    var st := NewStage(e, base + |r.stages| + 1, r.plan, part, r.deps);
    Split(Unresolved(st.id, st.ConsumerPartitions()), [st.id], r.stages + [st])
  }

  function SplitPlan(e: Engine, plan: Plan, base: nat): Split<Plan>
    decreases plan, 1
  {
    match plan
    case Operator(op, children) =>
      var r := SplitAll(e, children, base);
      Split(Operator(op, r.plan), r.deps, r.stages)
    case Repartition(part, input) =>
      var r := SplitPlan(e, input, base);
      if part.Unknown? then Split(Repartition(part, r.plan), r.deps, r.stages)
      else Cut(e, r, base, Some(part))
    case Coalesce(input) =>
      var r := SplitPlan(e, input, base);
      if Width(e, r.plan) <= 1 then Split(Coalesce(r.plan), r.deps, r.stages)
      else
        var c := Cut(e, r, base, None);
        Split(Coalesce(c.plan), c.deps, c.stages)
    case SortMerge(ordering, input) =>
      var r := SplitPlan(e, input, base);
      if Width(e, r.plan) <= 1 then Split(SortMerge(ordering, r.plan), r.deps, r.stages)
      else
        var c := Cut(e, r, base, None);
        Split(SortMerge(ordering, c.plan), c.deps, c.stages)
    case _ => Split(plan, [], [])
  }

  function Join(h: Split<seq<Plan>>, t: Split<Plan>): Split<seq<Plan>> {
    Split(h.plan + [t.plan], h.deps + t.deps, h.stages + t.stages)
  }

  function SplitAll(e: Engine, plans: seq<Plan>, base: nat): (r: Split<seq<Plan>>)
    ensures |r.plan| == |plans|
    decreases plans, 0
  {
    if |plans| == 0 then Split([], [], [])
    else
      var h := SplitAll(e, plans[..|plans| - 1], base);
      Join(h, SplitPlan(e, plans[|plans| - 1], base + |h.stages|))
  }

  lemma SplitAllJoin(e: Engine, plans: seq<Plan>, base: nat, h: Split<seq<Plan>>, t: Split<Plan>)
    returns (r: Split<seq<Plan>>)
    requires |plans| > 0 && h == SplitAll(e, plans[..|plans| - 1], base)
    requires t == SplitPlan(e, plans[|plans| - 1], base + |h.stages|)
    ensures r == SplitAll(e, plans, base) == Join(h, t)
  {
    r := SplitAll(e, plans, base);
  }

  lemma SplitOneMore(e: Engine, plans: seq<Plan>, i: nat, base: nat, h: Split<seq<Plan>>)
    returns (r: Split<seq<Plan>>)
    requires i < |plans| && h == SplitAll(e, plans[..i], base)
    ensures r == SplitAll(e, plans[..i + 1], base) == Join(h, SplitPlan(e, plans[i], base + |h.stages|))
  {
    assert plans[..i + 1][..i] == plans[..i];
    r := SplitAllJoin(e, plans[..i + 1], base, h, SplitPlan(e, plans[i], base + |h.stages|));
  }

  /** All stages of a query; the last one is the result stage. */
  function PlanStages(e: Engine, plan: Plan): (stages: seq<Stage>)
    ensures |stages| >= 1
  {
    Cut(e, SplitPlan(e, plan, 0), 0, None).stages
  }

  // ---------------------------------------------------------------- the planner itself

  function Children(plan: Plan): seq<Plan> {
    match plan
    case Operator(_, children) => children
    case Repartition(_, input) => [input]
    case Coalesce(input) => [input]
    case SortMerge(_, input) => [input]
    case _ => []
  }

  function WithChildren(plan: Plan, children: seq<Plan>): Plan
    requires |children| == |Children(plan)|
  {
    match plan
    case Operator(op, _) => Operator(op, children)
    case Repartition(part, _) => Repartition(part, children[0])
    case Coalesce(_) => Coalesce(children[0])
    case SortMerge(ordering, _) => SortMerge(ordering, children[0])
    case _ => plan
  }

  lemma SplitOne(e: Engine, plan: Plan, base: nat)
    ensures !plan.Operator? && |Children(plan)| == 1 ==>
      var r, s := SplitPlan(e, Children(plan)[0], base), SplitAll(e, Children(plan), base);
      s == Split([r.plan], r.deps, r.stages)
  {
    if !plan.Operator? && |Children(plan)| == 1 {
      var cs := Children(plan);
      assert SplitAll(e, cs[..0], base) == Split([], [], []);
      var t := SplitPlan(e, cs[0], base);
      assert [] + [t.plan] == [t.plan] && [] + t.deps == t.deps && [] + t.stages == t.stages;
    }
  }

  class DistributedPlanner {
    const engine: Engine
    var nextStage: nat
    var stages: seq<Stage>

    ghost predicate Valid()
      reads this
    {
      nextStage == |stages| + 1
    }

    constructor (e: Engine)
      ensures Valid() && stages == [] && engine == e
    {
      engine, nextStage, stages := e, 1, [];
    }

    method PushStage(input: Plan, part: Option<Partitioning>, deps: seq<nat>) returns (leaf: Plan)
      requires Valid()
      modifies this
      ensures Valid()
      ensures forall base: nat, before: seq<Stage> :: base + |before| == |old(stages)| ==>
        var c := Cut(engine, Split(input, deps, before), base, part);
        leaf == c.plan && stages == old(stages) + c.stages[|before|..]
      ensures leaf.Unresolved? && leaf.stage == |old(stages)| + 1
    {
      var id := nextStage;
      nextStage := nextStage + 1;
      var st := NewStage(engine, id, input, part, deps);
      stages := stages + [st];
      leaf := Unresolved(id, st.ConsumerPartitions());
    }

    method SplitNode(plan: Plan) returns (r: Plan, deps: seq<nat>)
      requires Valid()
      modifies this
      ensures Valid()
      ensures var s := SplitPlan(engine, plan, |old(stages)|);
        r == s.plan && deps == s.deps && stages == old(stages) + s.stages
      decreases plan, 1
    {
      var newChildren;
      newChildren, deps := SplitChildren(plan);
      ghost var below := SplitAll(engine, Children(plan), |old(stages)|);
      SplitOne(engine, plan, |old(stages)|);
      r := WithChildren(plan, newChildren);
      match r {
        case Repartition(part, input) =>
          if !part.Unknown? {
            r := PushStage(input, Some(part), deps);
            deps := [r.stage];
          }
        case Coalesce(input) =>
          if Width(engine, input) > 1 {
            var leaf := PushStage(input, None, deps);
            r, deps := Coalesce(leaf), [leaf.stage];
          }
        case SortMerge(ordering, input) =>
          if Width(engine, input) > 1 {
            var leaf := PushStage(input, None, deps);
            r, deps := SortMerge(ordering, leaf), [leaf.stage];
          }
        case _ =>
      }
    }

    method SplitChildren(plan: Plan) returns (plans: seq<Plan>, deps: seq<nat>)
      requires Valid()
      modifies this
      ensures Valid()
      ensures var s := SplitAll(engine, Children(plan), |old(stages)|);
        plans == s.plan && deps == s.deps && stages == old(stages) + s.stages
      decreases plan, 0
    {
      plans, deps := [], [];
      var children := Children(plan);
      var i := 0;
      ghost var s := SplitAll(engine, children[..i], |stages|);
      while i < |children|
        invariant i <= |children| && Valid()
        invariant s == SplitAll(engine, children[..i], |old(stages)|)
        invariant plans == s.plan && deps == s.deps && stages == old(stages) + s.stages
      {
        var c, d := SplitNode(children[i]);
        plans, deps := plans + [c], deps + d;
        s := SplitOneMore(engine, children, i, |old(stages)|, s);
        i := i + 1;
      }
      assert children[..i] == children;
    }

    /** Split the whole query; the planner is spent afterwards. */
    method Plan(plan: Plan) returns (result: seq<Stage>)
      requires Valid() && stages == []
      modifies this
      ensures result == PlanStages(engine, plan)
    {
      var root, deps := SplitNode(plan);
      ghost var r := SplitPlan(engine, plan, 0);
      assert r == Split(root, deps, stages);
      var _ := PushStage(root, None, deps);
      return stages;
    }
  }

  // ---------------------------------------------------------------- shape of the stage list

  /** An unresolved leaf: the stage it reads and the partitions it expects. */
  datatype Leaf = Leaf(stage: nat, partitions: pos)

  function Leaves(plan: Plan): seq<Leaf>
    decreases plan, 1
  {
    match plan
    case Operator(_, children) => LeavesAll(children)
    case Repartition(_, input) => Leaves(input)
    case Coalesce(input) => Leaves(input)
    case SortMerge(_, input) => Leaves(input)
    case Unresolved(stage, n) => [Leaf(stage, n)]
    case Reader(_, _) => []
  }

  function LeavesAll(plans: seq<Plan>): seq<Leaf>
    decreases plans, 0
  {
    if |plans| == 0 then []
    else LeavesAll(plans[..|plans| - 1]) + Leaves(plans[|plans| - 1])
  }

  function StageIds(leaves: seq<Leaf>): (ids: seq<nat>)
    ensures |ids| == |leaves|
    ensures forall i :: 0 <= i < |leaves| ==> ids[i] == leaves[i].stage
  {
    seq(|leaves|, i requires 0 <= i < |leaves| => leaves[i].stage)
  }

  lemma StageIdsAppend(a: seq<Leaf>, b: seq<Leaf>)
    ensures StageIds(a + b) == StageIds(a) + StageIds(b)
  {
  }

  lemma LeavesOfChildren(plan: Plan)
    ensures StageIds(Leaves(plan)) ==
            (if plan.Unresolved? then [plan.stage] else []) + StageIds(LeavesAll(Children(plan)))
  {
    var children := Children(plan);
    if !plan.Operator? && |children| == 1 {
      assert LeavesAll(children[..0]) == [];
      assert LeavesAll(children) == [] + Leaves(children[0]);
    }
  }

  lemma JoinedOrder(a: seq<nat>, b: seq<nat>, c: seq<nat>)
    ensures a + b + c == a + (b + c)
  {
  }

  /** The stage ids of all unresolved shuffles below `plan`, left to right. */
  method UnresolvedStages(plan: Plan, before: seq<nat>) returns (out: seq<nat>)
    ensures out == before + StageIds(Leaves(plan))
    decreases plan, 1
  {
    var head := if plan.Unresolved? then [plan.stage] else [];
    out := before + head;
    var children := Children(plan);
    var i := 0;
    while i < |children|
      invariant i <= |children|
      invariant out == before + head + StageIds(LeavesAll(children[..i]))
    {
      assert children[..i + 1][..i] == children[..i];
      StageIdsAppend(LeavesAll(children[..i]), Leaves(children[i]));
      JoinedOrder(before + head, StageIds(LeavesAll(children[..i])), StageIds(Leaves(children[i])));
      out := UnresolvedStages(children[i], out);
      i := i + 1;
    }
    assert children[..i] == children;
    JoinedOrder(before, head, StageIds(LeavesAll(children)));
    LeavesOfChildren(plan);
  }

  /** Some stage of `stages` with an id below `bound` feeds the leaf and has the
      partition count the leaf expects. */
  ghost predicate Fed(l: Leaf, stages: seq<Stage>, bound: nat) {
    exists t :: t in stages && t.id == l.stage && t.id < bound && t.ConsumerPartitions() == l.partitions
  }

  ghost predicate AllFed(leaves: seq<Leaf>, stages: seq<Stage>, bound: nat) {
    forall l :: l in leaves ==> Fed(l, stages, bound)
  }

  /** A stage reads exactly the stages named by its leaves, all of them earlier ones. */
  ghost predicate StageShape(e: Engine, s: Stage, stages: seq<Stage>) {
    && s.dependsOn == StageIds(Leaves(s.input))
    && AllFed(Leaves(s.input), stages, s.id)
    && s.numTasks == Width(e, s.input)
    && s.outputPartitions == OutputCount(s.partitioning)
  }

  ghost predicate Numbered(stages: seq<Stage>, base: nat) {
    forall i :: 0 <= i < |stages| ==> stages[i].id == base + i + 1
  }

  ghost predicate Shape(e: Engine, stages: seq<Stage>, base: nat) {
    && Numbered(stages, base)
    && forall s :: s in stages ==> StageShape(e, s, stages)
  }

  lemma FedMonotone(leaves: seq<Leaf>, some: seq<Stage>, all: seq<Stage>, low: nat, high: nat)
    requires AllFed(leaves, some, low) && low <= high
    requires forall s :: s in some ==> s in all
    ensures AllFed(leaves, all, high)
  {
    forall l | l in leaves
      ensures Fed(l, all, high)
    {
      assert Fed(l, some, low);
    }
  }

  lemma ShapeMonotone(e: Engine, some: seq<Stage>, all: seq<Stage>)
    requires forall s :: s in some ==> s in all && StageShape(e, s, some)
    ensures forall s :: s in some ==> StageShape(e, s, all)
  {
    forall s | s in some
      ensures StageShape(e, s, all)
    {
      FedMonotone(Leaves(s.input), some, all, s.id, s.id);
    }
  }

  /** The split of a subplan is well shaped, its direct dependencies are the
      leaves left in the rewritten node, and partition counts survive. */
  ghost predicate SplitShape(e: Engine, plan: Plan, r: Split<Plan>, base: nat) {
    && Shape(e, r.stages, base)
    && r.deps == StageIds(Leaves(r.plan))
    && AllFed(Leaves(r.plan), r.stages, base + |r.stages| + 1)
    && Width(e, r.plan) == Width(e, plan)
  }

  lemma CutShape(e: Engine, input: Plan, r: Split<Plan>, base: nat, part: Option<Partitioning>)
    requires Original(input) && SplitShape(e, input, r, base)
    ensures var c := Cut(e, r, base, part);
      && Shape(e, c.stages, base)
      && c.deps == StageIds(Leaves(c.plan))
      && AllFed(Leaves(c.plan), c.stages, base + |c.stages| + 1)
      && Width(e, c.plan) == if part.Some? then OutputCount(part) else Width(e, input)
  {
    var c := Cut(e, r, base, part);
    OriginalWidth(e, input);
    var st := c.stages[|r.stages|];
    ShapeMonotone(e, r.stages, c.stages);
    FedMonotone(Leaves(r.plan), r.stages, c.stages, st.id, st.id);
    assert st in c.stages && Fed(Leaf(st.id, st.ConsumerPartitions()), c.stages, st.id + 1);
  }

  lemma {:induction false} SplitPlanShape(e: Engine, plan: Plan, base: nat)
    requires Original(plan)
    ensures SplitShape(e, plan, SplitPlan(e, plan, base), base)
    decreases plan, 1
  {
    match plan
    case Operator(_, children) => SplitAllShape(e, children, base);
    case Repartition(part, input) =>
      SplitPlanShape(e, input, base);
      CutShape(e, input, SplitPlan(e, input, base), base, Some(part));
    case Coalesce(input) =>
      SplitPlanShape(e, input, base);
      CutShape(e, input, SplitPlan(e, input, base), base, None);
    case SortMerge(_, input) =>
      SplitPlanShape(e, input, base);
      CutShape(e, input, SplitPlan(e, input, base), base, None);
  }

  lemma {:induction false} SplitAllShape(e: Engine, plans: seq<Plan>, base: nat)
    requires AllOriginal(plans)
    ensures var r := SplitAll(e, plans, base);
      && Shape(e, r.stages, base)
      && r.deps == StageIds(LeavesAll(r.plan))
      && AllFed(LeavesAll(r.plan), r.stages, base + |r.stages| + 1)
      && WidthAll(e, r.plan) == WidthAll(e, plans)
    decreases plans, 0
  {
    if |plans| > 0 {
      var front, last := plans[..|plans| - 1], plans[|plans| - 1];
      var h := SplitAll(e, front, base);
      var t := SplitPlan(e, last, base + |h.stages|);
      var r := SplitAll(e, plans, base);
      SplitAllShape(e, front, base);
      SplitPlanShape(e, last, base + |h.stages|);
      assert r.plan[..|plans| - 1] == h.plan;
      StageIdsAppend(LeavesAll(h.plan), Leaves(t.plan));
      ShapeMonotone(e, h.stages, r.stages);
      ShapeMonotone(e, t.stages, r.stages);
      FedMonotone(LeavesAll(h.plan), h.stages, r.stages, base + |h.stages| + 1, base + |r.stages| + 1);
      FedMonotone(Leaves(t.plan), t.stages, r.stages, base + |r.stages| + 1, base + |r.stages| + 1);
    }
  }

  // ---------------------------------------------------------------- who consumes a stage

  /** How often the first `n` stages read stage `d`. */
  ghost function Reads(stages: seq<Stage>, n: nat, d: nat): nat
    requires n <= |stages|
  {
    if n == 0 then 0 else Reads(stages, n - 1, d) + multiset(stages[n - 1].dependsOn)[d]
  }

  lemma {:induction false} ReadsPrefix(a: seq<Stage>, b: seq<Stage>, n: nat, d: nat)
    requires n <= |a|
    ensures Reads(a + b, n, d) == Reads(a, n, d)
  {
    if n > 0 {
      ReadsPrefix(a, b, n - 1, d);
    }
  }

  lemma {:induction false} ReadsAppend(a: seq<Stage>, b: seq<Stage>, n: nat, d: nat)
    requires n <= |b|
    ensures Reads(a + b, |a| + n, d) == Reads(a, |a|, d) + Reads(b, n, d)
  {
    if n == 0 {
      ReadsPrefix(a, b, |a|, d);
    } else {
      ReadsAppend(a, b, n - 1, d);
    }
  }

  /** Stage `d` is read once, by another of `stages` or by a node that reads
      `deps`, if it is one of these stages; otherwise never. */
  ghost predicate ReadOnce(deps: seq<nat>, stages: seq<Stage>, base: nat, d: nat) {
    multiset(deps)[d] + Reads(stages, |stages|, d) == if base < d <= base + |stages| then 1 else 0
  }

  lemma CutReadOnce(e: Engine, r: Split<Plan>, base: nat, part: Option<Partitioning>, d: nat)
    requires ReadOnce(r.deps, r.stages, base, d)
    ensures var c := Cut(e, r, base, part);
      && ReadOnce(c.deps, c.stages, base, d)
      && Reads(c.stages, |c.stages|, d) == if base < d <= base + |r.stages| then 1 else 0
  {
    var c := Cut(e, r, base, part);
    ReadsPrefix(r.stages, c.stages[|r.stages|..], |r.stages|, d);
    assert c.stages == r.stages + c.stages[|r.stages|..];
  }

  lemma {:induction false} SplitPlanReadOnce(e: Engine, plan: Plan, base: nat, d: nat) returns (r: Split<Plan>)
    requires Original(plan)
    ensures r == SplitPlan(e, plan, base) && ReadOnce(r.deps, r.stages, base, d)
    decreases plan, 1
  {
    match plan
    case Operator(op, children) =>
      var s := SplitAllReadOnce(e, children, base, d);
      r := Split(Operator(op, s.plan), s.deps, s.stages);
    case Repartition(part, input) =>
      var s := SplitPlanReadOnce(e, input, base, d);
      CutReadOnce(e, s, base, Some(part), d);
      r := SplitPlan(e, plan, base);
    case Coalesce(input) =>
      var s := SplitPlanReadOnce(e, input, base, d);
      CutReadOnce(e, s, base, None, d);
      r := SplitPlan(e, plan, base);
    case SortMerge(_, input) =>
      var s := SplitPlanReadOnce(e, input, base, d);
      CutReadOnce(e, s, base, None, d);
      r := SplitPlan(e, plan, base);
  }

  lemma JoinReadOnce(h: Split<seq<Plan>>, t: Split<Plan>, base: nat, d: nat)
    requires ReadOnce(h.deps, h.stages, base, d) && ReadOnce(t.deps, t.stages, base + |h.stages|, d)
    ensures ReadOnce(Join(h, t).deps, Join(h, t).stages, base, d)
  {
    ReadsAppend(h.stages, t.stages, |t.stages|, d);
    assert multiset(h.deps + t.deps)[d] == multiset(h.deps)[d] + multiset(t.deps)[d];
  }

  lemma {:induction false} SplitAllReadOnce(e: Engine, plans: seq<Plan>, base: nat, d: nat)
    returns (r: Split<seq<Plan>>)
    requires AllOriginal(plans)
    ensures r == SplitAll(e, plans, base) && ReadOnce(r.deps, r.stages, base, d)
    decreases plans, 0
  {
    if |plans| == 0 {
      r := Split([], [], []);
    } else {
      var h := SplitAllReadOnce(e, plans[..|plans| - 1], base, d);
      var t := SplitPlanReadOnce(e, plans[|plans| - 1], base + |h.stages|, d);
      JoinReadOnce(h, t, base, d);
      r := SplitAllJoin(e, plans, base, h, t);
    }
  }

  /** Stage number `i` is the one consumer of stage `d`, and reads it once. */
  ghost predicate ConsumedBy(stages: seq<Stage>, d: nat, i: nat) {
    && i < |stages|
    && multiset(stages[i].dependsOn)[d] == 1
    && forall j: nat :: j < |stages| && j != i ==> d !in stages[j].dependsOn
  }

  ghost predicate Consumed(stages: seq<Stage>, d: nat) {
    exists i: nat :: ConsumedBy(stages, d, i)
  }

  lemma {:induction false} NoConsumer(stages: seq<Stage>, n: nat, d: nat)
    requires n <= |stages| && Reads(stages, n, d) == 0
    ensures forall j: nat :: j < n ==> d !in stages[j].dependsOn
  {
    if n > 0 {
      NoConsumer(stages, n - 1, d);
      assert d !in multiset(stages[n - 1].dependsOn);
    }
  }

  lemma {:induction false} OneConsumer(stages: seq<Stage>, n: nat, d: nat) returns (i: nat)
    requires n <= |stages| && Reads(stages, n, d) == 1
    ensures i < n && multiset(stages[i].dependsOn)[d] == 1
    ensures forall j: nat :: j < n && j != i ==> d !in stages[j].dependsOn
  {
    if d in multiset(stages[n - 1].dependsOn) {
      i := n - 1;
      NoConsumer(stages, n - 1, d);
    } else {
      i := OneConsumer(stages, n - 1, d);
    }
  }

  /** The stages of a query form a tree whose root is the result stage: ids
      count up from 1, a stage names its leaves' stages in order and all are
      earlier ones with matching partition counts, and every other stage has
      exactly one consumer, which reads it exactly once. */
  lemma StagesFormTree(e: Engine, plan: Plan)
    requires Original(plan)
    ensures var stages := PlanStages(e, plan);
      && Shape(e, stages, 0)
      && stages[|stages| - 1].partitioning.None?
      && (forall d: nat :: 1 <= d < |stages| ==> Consumed(stages, d))
  {
    var r := SplitPlan(e, plan, 0);
    SplitPlanShape(e, plan, 0);
    CutShape(e, plan, r, 0, None);
    var stages := PlanStages(e, plan);
    forall d: nat | 1 <= d < |stages|
      ensures Consumed(stages, d)
    {
      var r' := SplitPlanReadOnce(e, plan, 0, d);
      CutReadOnce(e, r', 0, None, d);
      var i := OneConsumer(stages, |stages|, d);
      assert ConsumedBy(stages, d, i);
    }
  }

  // ---------------------------------------------------------------- resolution

  datatype Resolution<+T> = Resolved(value: T) | NotComplete(stage: nat) | BadPartition(stage: nat)

  /** Locations of the completed stages. */
  type Outputs = map<nat, seq<Location>>

  function Rebuild(r: Resolution<Plan>, f: Plan -> Plan): Resolution<Plan> {
    match r
    case Resolved(c) => Resolved(f(c))
    case _ => r
  }

  /** Replace every unresolved leaf by a reader of its stage's locations. */
  function Resolve(plan: Plan, outs: Outputs): Resolution<Plan>
    decreases plan, 1
  {
    match plan
    case Unresolved(stage, n) =>
      if stage !in outs then NotComplete(stage)
      else if !InRange(outs[stage], n) then BadPartition(stage)
      else Resolved(Reader(stage, Buckets(outs[stage], n)))
    case Reader(_, _) => Resolved(plan)
    case Operator(op, children) =>
      (match ResolveAll(children, outs)
       case Resolved(cs) => Resolved(Operator(op, cs))
       case NotComplete(s) => NotComplete(s)
       case BadPartition(s) => BadPartition(s))
    case Repartition(part, input) => Rebuild(Resolve(input, outs), c => Repartition(part, c))
    case Coalesce(input) => Rebuild(Resolve(input, outs), c => Coalesce(c))
    case SortMerge(ordering, input) => Rebuild(Resolve(input, outs), c => SortMerge(ordering, c))
  }

  function ResolveAll(plans: seq<Plan>, outs: Outputs): (r: Resolution<seq<Plan>>)
    ensures r.Resolved? ==> |r.value| == |plans|
    decreases plans, 0
  {
    if |plans| == 0 then Resolved([])
    else
      match ResolveAll(plans[..|plans| - 1], outs)
      case Resolved(cs) =>
        (match Resolve(plans[|plans| - 1], outs)
         case Resolved(c) => Resolved(cs + [c])
         case NotComplete(s) => NotComplete(s)
         case BadPartition(s) => BadPartition(s))
      case NotComplete(s) => NotComplete(s)
      case BadPartition(s) => BadPartition(s)
  }

  lemma ResolveStep(plans: seq<Plan>, outs: Outputs, i: nat)
    requires i < |plans|
    ensures ResolveAll(plans[..i + 1], outs) ==
      match ResolveAll(plans[..i], outs)
      case Resolved(cs) =>
        (match Resolve(plans[i], outs)
         case Resolved(c) => Resolved(cs + [c])
         case NotComplete(s) => NotComplete(s)
         case BadPartition(s) => BadPartition(s))
      case NotComplete(s) => NotComplete(s)
      case BadPartition(s) => BadPartition(s)
  {
    assert plans[..i + 1][..i] == plans[..i];
  }

  /** The first failure stands, whatever follows. */
  lemma {:induction false} ResolveFails(plans: seq<Plan>, outs: Outputs, i: nat)
    requires i <= |plans| && !ResolveAll(plans[..i], outs).Resolved?
    ensures ResolveAll(plans, outs) == ResolveAll(plans[..i], outs)
  {
    if i == |plans| {
      assert plans[..i] == plans;
    } else {
      var front := plans[..|plans| - 1];
      assert front[..i] == plans[..i];
      ResolveFails(front, outs, i);
    }
  }

  lemma ResolveOne(plan: Plan, outs: Outputs)
    requires !plan.Operator? && |Children(plan)| == 1
    ensures ResolveAll(Children(plan), outs) ==
      match Resolve(Children(plan)[0], outs)
      case Resolved(c) => Resolved([c])
      case NotComplete(s) => NotComplete(s)
      case BadPartition(s) => BadPartition(s)
  {
    var children := Children(plan);
    assert children[..1] == children && children[..0] == [];
    ResolveStep(children, outs, 0);
    assert forall c: Plan :: [] + [c] == [c];
  }

  /** Rebuild the plan bottom up; the leftmost leaf that does not resolve decides the error. */
  method ResolveStage(plan: Plan, outs: Outputs) returns (r: Resolution<Plan>)
    ensures r == Resolve(plan, outs)
    decreases plan, 1
  {
    match plan {
      case Unresolved(stage, n) =>
        if stage !in outs {
          return NotComplete(stage);
        }
        var parts := GroupLocations(outs[stage], n);
        r := if parts.Some? then Resolved(Reader(stage, parts.value)) else BadPartition(stage);
      case Reader(_, _) => r := Resolved(plan);
      case _ =>
        var cs := ResolveChildren(plan, outs);
        if !plan.Operator? {
          ResolveOne(plan, outs);
        }
        match cs {
          case Resolved(children) => r := Resolved(WithChildren(plan, children));
          case NotComplete(s) => r := NotComplete(s);
          case BadPartition(s) => r := BadPartition(s);
        }
    }
  }

  method ResolveChildren(plan: Plan, outs: Outputs) returns (r: Resolution<seq<Plan>>)
    ensures r == ResolveAll(Children(plan), outs)
    decreases plan, 0
  {
    var plans, cs := Children(plan), [];
    var i := 0;
    while i < |plans|
      invariant i <= |plans| && ResolveAll(plans[..i], outs) == Resolved(cs)
    {
      ResolveStep(plans, outs, i);
      var c := ResolveStage(plans[i], outs);
      match c {
        case Resolved(child) => cs := cs + [child];
        case NotComplete(s) =>
          ResolveFails(plans, outs, i + 1);
          return NotComplete(s);
        case BadPartition(s) =>
          ResolveFails(plans, outs, i + 1);
          return BadPartition(s);
      }
      i := i + 1;
    }
    assert plans[..i] == plans;
    return Resolved(cs);
  }

  predicate Ready(l: Leaf, outs: Outputs) {
    l.stage in outs && InRange(outs[l.stage], l.partitions)
  }

  predicate AllReady(leaves: seq<Leaf>, outs: Outputs) {
    forall l :: l in leaves ==> Ready(l, outs)
  }

  lemma AllReadyAppend(a: seq<Leaf>, b: seq<Leaf>, outs: Outputs)
    ensures AllReady(a + b, outs) <==> AllReady(a, outs) && AllReady(b, outs)
  {
    forall l | l in a || l in b
      ensures l in a + b
    {
    }
  }

  /** Resolution succeeds exactly when every leaf's stage is complete and all
      its labels are in range; then no unresolved leaf is left and the
      partition count is unchanged. */
  lemma {:induction false} ResolveTotal(e: Engine, plan: Plan, outs: Outputs)
    ensures var r := Resolve(plan, outs);
      && (r.Resolved? <==> AllReady(Leaves(plan), outs))
      && (r.Resolved? ==> Executable(r.value) && Leaves(r.value) == [] && Width(e, r.value) == Width(e, plan))
    decreases plan, 1
  {
    match plan
    case Operator(op, children) => ResolveAllTotal(e, children, outs);
    case Repartition(_, input) => ResolveTotal(e, input, outs);
    case Coalesce(input) => ResolveTotal(e, input, outs);
    case SortMerge(_, input) => ResolveTotal(e, input, outs);
    case Unresolved(stage, n) => assert Leaf(stage, n) in Leaves(plan);
    case Reader(_, _) =>
  }

  lemma {:induction false} ResolveAllTotal(e: Engine, plans: seq<Plan>, outs: Outputs)
    ensures var r := ResolveAll(plans, outs);
      && (r.Resolved? <==> AllReady(LeavesAll(plans), outs))
      && (r.Resolved? ==>
        AllExecutable(r.value) && LeavesAll(r.value) == [] && WidthAll(e, r.value) == WidthAll(e, plans))
    decreases plans, 0
  {
    if |plans| > 0 {
      var front, last := plans[..|plans| - 1], plans[|plans| - 1];
      ResolveAllTotal(e, front, outs);
      ResolveTotal(e, last, outs);
      AllReadyAppend(LeavesAll(front), Leaves(last), outs);
      assert LeavesAll(plans) == LeavesAll(front) + Leaves(last);
      var r := ResolveAll(plans, outs);
      if r.Resolved? {
        assert r.value[..|plans| - 1] == ResolveAll(front, outs).value;
      }
    }
  }

  /** Leaf number `i` is the first that is not ready, and `r` says why. */
  ghost predicate FailsAt<T>(leaves: seq<Leaf>, outs: Outputs, i: nat, r: Resolution<T>) {
    && i < |leaves| && !Ready(leaves[i], outs)
    && (forall k :: 0 <= k < i ==> Ready(leaves[k], outs))
    && r == if leaves[i].stage in outs then BadPartition(leaves[i].stage) else NotComplete(leaves[i].stage)
  }

  lemma FailsBehind<T>(a: seq<Leaf>, b: seq<Leaf>, outs: Outputs, k: nat, r: Resolution<T>)
    requires AllReady(a, outs) && FailsAt(b, outs, k, r)
    ensures FailsAt(a + b, outs, |a| + k, r)
  {
    forall m | 0 <= m < |a| + k
      ensures Ready((a + b)[m], outs)
    {
      if m < |a| {
        assert a[m] in a;
      } else {
        assert (a + b)[m] == b[m - |a|];
      }
    }
  }

  /** A failing resolution reports the leftmost leaf that is not ready. */
  lemma {:induction false} ResolveError(e: Engine, plan: Plan, outs: Outputs) returns (i: nat)
    requires !Resolve(plan, outs).Resolved?
    ensures FailsAt(Leaves(plan), outs, i, Resolve(plan, outs))
    decreases plan, 1
  {
    match plan
    case Operator(op, children) => i := ResolveAllError(e, children, outs);
    case Repartition(_, input) => i := ResolveError(e, input, outs);
    case Coalesce(input) => i := ResolveError(e, input, outs);
    case SortMerge(_, input) => i := ResolveError(e, input, outs);
    case Unresolved(stage, n) => i := 0;
  }

  lemma {:induction false} ResolveAllError(e: Engine, plans: seq<Plan>, outs: Outputs) returns (i: nat)
    requires !ResolveAll(plans, outs).Resolved?
    ensures FailsAt(LeavesAll(plans), outs, i, ResolveAll(plans, outs))
    decreases plans, 0
  {
    var front, last := plans[..|plans| - 1], plans[|plans| - 1];
    var a, b := LeavesAll(front), Leaves(last);
    if ResolveAll(front, outs).Resolved? {
      ResolveAllTotal(e, front, outs);
      var k := ResolveError(e, last, outs);
      FailsBehind(a, b, outs, k, Resolve(last, outs));
      i := |a| + k;
    } else {
      i := ResolveAllError(e, front, outs);
    }
  }

  /** Only the outputs of the stages named by the leaves matter. */
  lemma {:induction false} ResolveAgree(plan: Plan, outs: Outputs, outs': Outputs)
    requires forall l :: l in Leaves(plan) ==> l.stage in outs && l.stage in outs' && outs[l.stage] == outs'[l.stage]
    ensures Resolve(plan, outs) == Resolve(plan, outs')
    decreases plan, 1
  {
    match plan
    case Operator(op, children) => ResolveAllAgree(children, outs, outs');
    case Repartition(_, input) => ResolveAgree(input, outs, outs');
    case Coalesce(input) => ResolveAgree(input, outs, outs');
    case SortMerge(_, input) => ResolveAgree(input, outs, outs');
    case Unresolved(stage, n) => assert Leaf(stage, n) in Leaves(plan);
    case Reader(_, _) =>
  }

  lemma {:induction false} ResolveAllAgree(plans: seq<Plan>, outs: Outputs, outs': Outputs)
    requires forall l :: l in LeavesAll(plans) ==>
      l.stage in outs && l.stage in outs' && outs[l.stage] == outs'[l.stage]
    ensures ResolveAll(plans, outs) == ResolveAll(plans, outs')
    decreases plans, 0
  {
    if |plans| > 0 {
      ResolveAllAgree(plans[..|plans| - 1], outs, outs');
      ResolveAgree(plans[|plans| - 1], outs, outs');
    }
  }
}
