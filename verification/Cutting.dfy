/**
 Where the planner cuts: at every hash and round-robin repartition, below every
 node that gathers several partitions, and nowhere else.
 */
module Cutting {
  import opened Options
  import opened Plans
  import opened Exchanges
  import opened Planner

  /** A node that gathers receives one partition, or reads a stage. */
  ghost predicate Gathers(e: Engine, input: Plan) {
    input.Unresolved? || Width(e, input) <= 1
  }

  /** The node runs inside one stage: no exchange is left in it. */
  ghost predicate OneStage(e: Engine, plan: Plan)
    decreases plan, 1
  {
    match plan
    case Operator(_, children) => AllOneStage(e, children)
    case Repartition(part, input) => part.Unknown? && OneStage(e, input)
    case Coalesce(input) => Gathers(e, input) && OneStage(e, input)
    case SortMerge(_, input) => Gathers(e, input) && OneStage(e, input)
    case _ => true
  }

  ghost predicate AllOneStage(e: Engine, plans: seq<Plan>)
    decreases plans, 0
  {
    |plans| == 0 || (AllOneStage(e, plans[..|plans| - 1]) && OneStage(e, plans[|plans| - 1]))
  }

  /** The exchanges of a plan: hash and round-robin repartitions, and gatherings of
      several partitions. */
  function ExchangesIn(e: Engine, plan: Plan): nat
    decreases plan, 1
  {
    match plan
    case Operator(_, children) => ExchangesInAll(e, children)
    case Repartition(part, input) => ExchangesIn(e, input) + if part.Hash? || part.RoundRobin? then 1 else 0
    case Coalesce(input) => ExchangesIn(e, input) + if Width(e, input) > 1 then 1 else 0
    case SortMerge(_, input) => ExchangesIn(e, input) + if Width(e, input) > 1 then 1 else 0
    case _ => 0
  }

  function ExchangesInAll(e: Engine, plans: seq<Plan>): nat
    decreases plans, 0
  {
    if |plans| == 0 then 0 else ExchangesInAll(e, plans[..|plans| - 1]) + ExchangesIn(e, plans[|plans| - 1])
  }

  /** The partitionings of the repartitions, inner ones first, `None` for a gathering. */
  function Partitionings(e: Engine, plan: Plan): seq<Option<Partitioning>>
    decreases plan, 1
  {
    match plan
    case Operator(_, children) => PartitioningsAll(e, children)
    case Repartition(part, input) =>
      Partitionings(e, input) + if part.Hash? || part.RoundRobin? then [Some(part)] else []
    case Coalesce(input) => Partitionings(e, input) + if Width(e, input) > 1 then [None] else []
    case SortMerge(_, input) => Partitionings(e, input) + if Width(e, input) > 1 then [None] else []
    case _ => []
  }

  function PartitioningsAll(e: Engine, plans: seq<Plan>): seq<Option<Partitioning>>
    decreases plans, 0
  {
    if |plans| == 0 then []
    else PartitioningsAll(e, plans[..|plans| - 1]) + Partitionings(e, plans[|plans| - 1])
  }

  function Writers(stages: seq<Stage>): (ps: seq<Option<Partitioning>>)
    ensures |ps| == |stages|
  {
    seq(|stages|, i requires 0 <= i < |stages| => stages[i].partitioning)
  }

  ghost predicate EachOneStage(e: Engine, stages: seq<Stage>) {
    forall i :: 0 <= i < |stages| ==> OneStage(e, stages[i].input)
  }

  lemma CutIsOneStage(e: Engine, r: Split<Plan>, base: nat, part: Option<Partitioning>)
    requires EachOneStage(e, r.stages) && OneStage(e, r.plan)
    ensures var c := Cut(e, r, base, part);
      EachOneStage(e, c.stages) && OneStage(e, c.plan) && Writers(c.stages) == Writers(r.stages) + [part]
  {
  }

  lemma JoinCuts(e: Engine, h: Split<seq<Plan>>, t: Split<Plan>)
    requires EachOneStage(e, h.stages) && AllOneStage(e, h.plan)
    requires EachOneStage(e, t.stages) && OneStage(e, t.plan)
    ensures var r := Join(h, t);
      EachOneStage(e, r.stages) && AllOneStage(e, r.plan) && Writers(r.stages) == Writers(h.stages) + Writers(t.stages)
  {
    var r := Join(h, t);
    assert r.plan[..|r.plan| - 1] == h.plan;
  }

  /** What is cut off a node, and what is left of it. */
  lemma {:induction false} SplitCuts(e: Engine, plan: Plan, base: nat)
    requires Original(plan)
    ensures var r := SplitPlan(e, plan, base);
      EachOneStage(e, r.stages) && OneStage(e, r.plan) && Writers(r.stages) == Partitionings(e, plan)
    decreases plan, 1
  {
    match plan
    case Operator(_, children) => SplitAllCuts(e, children, base);
    case Repartition(part, input) =>
      SplitCuts(e, input, base);
      CutIsOneStage(e, SplitPlan(e, input, base), base, Some(part));
    case Coalesce(input) =>
      SplitCuts(e, input, base);
      SplitPlanShape(e, input, base);
      CutIsOneStage(e, SplitPlan(e, input, base), base, None);
    case SortMerge(_, input) =>
      SplitCuts(e, input, base);
      SplitPlanShape(e, input, base);
      CutIsOneStage(e, SplitPlan(e, input, base), base, None);
  }

  lemma {:induction false} SplitAllCuts(e: Engine, plans: seq<Plan>, base: nat)
    requires AllOriginal(plans)
    ensures var r := SplitAll(e, plans, base);
      EachOneStage(e, r.stages) && AllOneStage(e, r.plan) && Writers(r.stages) == PartitioningsAll(e, plans)
    decreases plans, 0
  {
    if |plans| > 0 {
      var h := SplitAll(e, plans[..|plans| - 1], base);
      var t := SplitPlan(e, plans[|plans| - 1], base + |h.stages|);
      SplitAllCuts(e, plans[..|plans| - 1], base);
      SplitCuts(e, plans[|plans| - 1], base + |h.stages|);
      JoinCuts(e, h, t);
      var _ := SplitAllJoin(e, plans, base, h, t);
    }
  }

  lemma {:induction false} OnePerExchange(e: Engine, plan: Plan)
    ensures |Partitionings(e, plan)| == ExchangesIn(e, plan)
    decreases plan, 1
  {
    match plan
    case Operator(_, children) => OnePerExchangeAll(e, children);
    case Repartition(_, input) => OnePerExchange(e, input);
    case Coalesce(input) => OnePerExchange(e, input);
    case SortMerge(_, input) => OnePerExchange(e, input);
    case _ =>
  }

  lemma {:induction false} OnePerExchangeAll(e: Engine, plans: seq<Plan>)
    ensures |PartitioningsAll(e, plans)| == ExchangesInAll(e, plans)
    decreases plans, 0
  {
    if |plans| > 0 {
      OnePerExchangeAll(e, plans[..|plans| - 1]);
      OnePerExchange(e, plans[|plans| - 1]);
    }
  }

  /** A query has one stage per exchange and one for the result; inner exchanges
      come first, each stage writes for its exchange, and none has an exchange
      left inside. */
  lemma StagesAreExchanges(e: Engine, plan: Plan)
    requires Original(plan)
    ensures var stages := PlanStages(e, plan);
      && EachOneStage(e, stages)
      && |stages| == ExchangesIn(e, plan) + 1
      && Writers(stages) == Partitionings(e, plan) + [None]
  {
    SplitCuts(e, plan, 0);
    CutIsOneStage(e, SplitPlan(e, plan, 0), 0, None);
    OnePerExchange(e, plan);
  }
}
