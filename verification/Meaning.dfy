/**
 Splitting preserves meaning: running the stages and reading them back yields,
 partition by partition, what the original plan evaluates to.
 */
module Meaning {
  import opened Options
  import opened Plans
  import opened Exchanges
  import opened Planner

  ghost predicate Wrote(locs: seq<Location>, e: Engine, part: Option<Partitioning>, ins: seq<Stream>,
                        executors: seq<string>) {
    |executors| == |ins| && locs == Concat(StageOutput(e, part, ins, executors))
  }

  /** Stage `s` has run: its recorded locations are those its map tasks write
      when they evaluate the resolved plan, on whatever executors. */
  ghost predicate Executed(e: Engine, s: Stage, outs: Outputs) {
    && s.id in outs
    && var r := Resolve(s.input, outs);
       r.Resolved? && Executable(r.value) ==>
         exists executors: seq<string> :: Wrote(outs[s.id], e, s.partitioning, Eval(e, false, r.value), executors)
  }

  /** A resolved node evaluates to what the original node does. */
  ghost predicate Faithful(e: Engine, plan: Plan, split: Plan, outs: Outputs)
    requires Executable(plan)
  {
    var r := Resolve(split, outs);
    r.Resolved? && Executable(r.value) && Eval(e, false, r.value) == Eval(e, true, plan)
  }

  /** A reader placed on a cut sees the exchange's output. */
  lemma CutMeaning(e: Engine, plan: Plan, r: Split<Plan>, base: nat, part: Option<Partitioning>, outs: Outputs)
    requires ValidEngine(e) && Original(plan) && Executable(plan)
    requires Faithful(e, plan, r.plan, outs)
    requires Width(e, r.plan) == Width(e, plan)
    requires part.Some? ==> !part.value.Unknown?
    requires forall s :: s in Cut(e, r, base, part).stages ==> Executed(e, s, outs)
    ensures var c := Resolve(Cut(e, r, base, part).plan, outs);
      && c.Resolved? && Executable(c.value)
      && Eval(e, false, c.value) ==
         if part.Some? then Exchange(e, part.value, Eval(e, true, plan)) else CompactAll(Eval(e, true, plan))
  {
    var cut := Cut(e, r, base, part);
    var st := cut.stages[|r.stages|];
    assert st in cut.stages;
    var ins := Eval(e, true, plan);
    EvalWidth(e, true, plan);
    OriginalWidth(e, plan);
    var executors :| Wrote(outs[st.id], e, part, ins, executors);
    ReadGroups(e, part, ins, executors);
  }

  /** For every plan: if all stages cut off below it have run, the rewritten
      plan resolves, and evaluates to the original plan. */
  lemma {:induction false} SplitMeaning(e: Engine, plan: Plan, base: nat, outs: Outputs)
    requires ValidEngine(e) && Original(plan) && Executable(plan)
    requires forall s :: s in SplitPlan(e, plan, base).stages ==> Executed(e, s, outs)
    ensures Faithful(e, plan, SplitPlan(e, plan, base).plan, outs)
    decreases plan, 1
  {
    match plan
    case Operator(_, children) => SplitAllMeaning(e, children, base, outs);
    case Repartition(part, input) =>
      var r := SplitPlan(e, input, base);
      SplitPlanShape(e, input, base);
      if part.Unknown? {
        SplitMeaning(e, input, base, outs);
      } else {
        assert forall s :: s in r.stages ==> s in Cut(e, r, base, Some(part)).stages;
        SplitMeaning(e, input, base, outs);
        CutMeaning(e, input, r, base, Some(part), outs);
      }
    case Coalesce(input) => GatherMeaning(e, input, base, outs, SplitPlan(e, plan, base).stages);
    case SortMerge(_, input) => GatherMeaning(e, input, base, outs, SplitPlan(e, plan, base).stages);
  }

  /** The part shared by the two gathering nodes. */
  lemma {:induction false} GatherMeaning(e: Engine, input: Plan, base: nat, outs: Outputs, stages: seq<Stage>)
    requires ValidEngine(e) && Original(input) && Executable(input)
    requires var r := SplitPlan(e, input, base);
      stages == if Width(e, r.plan) <= 1 then r.stages else Cut(e, r, base, None).stages
    requires forall s :: s in stages ==> Executed(e, s, outs)
    ensures var r := SplitPlan(e, input, base);
      var c := Resolve(if Width(e, r.plan) <= 1 then r.plan else Cut(e, r, base, None).plan, outs);
      c.Resolved? && Executable(c.value) && Eval(e, false, c.value) == Feed(true, Eval(e, true, input))
    decreases input, 2
  {
    var r := SplitPlan(e, input, base);
    SplitPlanShape(e, input, base);
    assert forall s :: s in r.stages ==> s in stages;
    SplitMeaning(e, input, base, outs);
    EvalWidth(e, true, input);
    if Width(e, r.plan) > 1 {
      CutMeaning(e, input, r, base, None, outs);
    }
  }

  lemma {:induction false} SplitAllMeaning(e: Engine, plans: seq<Plan>, base: nat, outs: Outputs)
    requires ValidEngine(e) && AllOriginal(plans) && AllExecutable(plans)
    requires forall s :: s in SplitAll(e, plans, base).stages ==> Executed(e, s, outs)
    ensures var r := ResolveAll(SplitAll(e, plans, base).plan, outs);
      r.Resolved? && AllExecutable(r.value) && EvalAll(e, false, r.value) == EvalAll(e, true, plans)
    decreases plans, 0
  {
    if |plans| > 0 {
      var front, last := plans[..|plans| - 1], plans[|plans| - 1];
      var h := SplitAll(e, front, base);
      SplitAllMeaning(e, front, base, outs);
      SplitMeaning(e, last, base + |h.stages|, outs);
      var r := SplitAll(e, plans, base);
      assert r.plan[..|plans| - 1] == h.plan;
      var v := ResolveAll(r.plan, outs).value;
      assert v[..|plans| - 1] == ResolveAll(h.plan, outs).value;
    }
  }
}
