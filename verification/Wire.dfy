/**
 Distributed against in-process evaluation.  Moving a stream between tasks
 drops its empty batches; this module says when that can be observed.
 */
module Wire {
  import opened Options
  import opened Plans
  import opened Routing
  import opened Exchanges

  // ---------------------------------------------------------------- batch for batch

  ghost predicate AllDense(ins: seq<Stream>) {
    forall p :: 0 <= p < |ins| ==> NoEmptyBatch(ins[p])
  }

  /** No gathering of several partitions is handed an empty batch. */
  ghost predicate Dense(e: Engine, plan: Plan)
    requires Executable(plan)
    decreases plan, 1
  {
    match plan
    case Operator(_, children) => DenseAll(e, children)
    case Repartition(_, input) => Dense(e, input)
    case Coalesce(input) => Dense(e, input) && (Width(e, input) > 1 ==> AllDense(Eval(e, false, input)))
    case SortMerge(_, input) => Dense(e, input) && (Width(e, input) > 1 ==> AllDense(Eval(e, false, input)))
    case Reader(_, _) => true
  }

  ghost predicate DenseAll(e: Engine, plans: seq<Plan>)
    requires AllExecutable(plans)
    decreases plans, 0
  {
    |plans| == 0 || (DenseAll(e, plans[..|plans| - 1]) && Dense(e, plans[|plans| - 1]))
  }

  lemma AppendEqual<T>(a: seq<T>, b: seq<T>, a': seq<T>, b': seq<T>)
    requires |a| <= |a'| && |b| <= |b'|
    ensures a + b == a' + b' <==> a == a' && b == b'
  {
    if a + b == a' + b' {
      assert |a| == |a'|;
      assert a == (a + b)[..|a|] && b == (a + b)[|a|..];
      assert a' == (a' + b')[..|a'|] && b' == (a' + b')[|a'|..];
    }
  }

  lemma AllDenseLast(ins: seq<Stream>)
    requires |ins| > 0
    ensures AllDense(ins) <==> AllDense(ins[..|ins| - 1]) && NoEmptyBatch(ins[|ins| - 1])
  {
    assert ins == ins[..|ins| - 1] + [ins[|ins| - 1]];
  }

  lemma {:induction false} ConcatCompact(ins: seq<Stream>)
    ensures Concat(CompactAll(ins)) == Concat(ins) <==> AllDense(ins)
    ensures |Concat(CompactAll(ins))| <= |Concat(ins)|
  {
    if |ins| > 0 {
      var m := |ins| - 1;
      var front := ins[..m];
      ConcatCompact(front);
      IdentityExact(ins[m]);
      assert CompactAll(ins)[..m] == CompactAll(front);
      AppendEqual(Concat(CompactAll(front)), Compact(ins[m]), Concat(front), ins[m]);
      AllDenseLast(ins);
    }
  }

  lemma AllDenseCompact(ins: seq<Stream>)
    requires AllDense(ins)
    ensures CompactAll(ins) == ins
  {
    forall p | 0 <= p < |ins|
      ensures CompactAll(ins)[p] == ins[p]
    {
      IdentityExact(ins[p]);
    }
  }

  /** One coalesced exchange is batch-for-batch exact precisely when no
      incoming batch is empty. */
  lemma CoalesceExact(ins: seq<Stream>)
    requires |ins| > 1
    ensures Concat(Feed(true, ins)) == Concat(Feed(false, ins)) <==> AllDense(ins)
  {
    ConcatCompact(ins);
  }

  /** A dense plan means the same on the wire and in one process, for every engine. */
  lemma {:induction false} DenseMeaning(e: Engine, plan: Plan)
    requires ValidEngine(e) && Executable(plan) && Dense(e, plan)
    ensures Eval(e, true, plan) == Eval(e, false, plan)
    decreases plan, 1
  {
    match plan
    case Operator(_, children) => DenseAllMeaning(e, children);
    case Repartition(_, input) => DenseMeaning(e, input);
    case Coalesce(input) => DenseFeed(e, input);
    case SortMerge(_, input) => DenseFeed(e, input);
    case Reader(_, _) =>
  }

  lemma {:induction false} DenseFeed(e: Engine, input: Plan)
    requires ValidEngine(e) && Executable(input) && Dense(e, input)
    requires Width(e, input) > 1 ==> AllDense(Eval(e, false, input))
    ensures Feed(true, Eval(e, true, input)) == Eval(e, false, input)
    decreases input, 2
  {
    DenseMeaning(e, input);
    EvalWidth(e, true, input);
    if Width(e, input) > 1 {
      AllDenseCompact(Eval(e, false, input));
    }
  }

  lemma {:induction false} DenseAllMeaning(e: Engine, plans: seq<Plan>)
    requires ValidEngine(e) && AllExecutable(plans) && DenseAll(e, plans)
    ensures EvalAll(e, true, plans) == EvalAll(e, false, plans)
    decreases plans, 0
  {
    if |plans| > 0 {
      DenseAllMeaning(e, plans[..|plans| - 1]);
      DenseMeaning(e, plans[|plans| - 1]);
    }
  }

  // ---------------------------------------------------------------- row for row

  /** The same rows in the same order, however cut into batches. */
  ghost predicate SameRows(a: Stream, b: Stream) {
    Concat(a) == Concat(b)
  }

  ghost predicate SameRowsAll(a: seq<Stream>, b: seq<Stream>) {
    |a| == |b| && forall p :: 0 <= p < |a| ==> SameRows(a[p], b[p])
  }

  ghost predicate SameInputs(a: seq<seq<Stream>>, b: seq<seq<Stream>>) {
    |a| == |b| && forall i :: 0 <= i < |a| ==> SameRowsAll(a[i], b[i])
  }

  /** Operators and merges look at rows, not at batch boundaries. */
  ghost predicate RowEngine(e: Engine) {
    && (forall op, a, b :: SameInputs(a, b) ==> SameRowsAll(e.run(op, a), e.run(op, b)))
    && (forall o, a, b :: SameRowsAll(a, b) ==> SameRows(e.merge(o, a), e.merge(o, b)))
    && (forall n, a, b :: SameRowsAll(a, b) ==> SameRowsAll(e.shuffle(n, a), e.shuffle(n, b)))
  }

  /** No round robin deals a stream that the wire may have thinned out. */
  ghost predicate Steady(e: Engine, plan: Plan)
    requires Executable(plan)
    decreases plan, 1
  {
    match plan
    case Operator(_, children) => SteadyAll(e, children)
    case Repartition(part, input) => Steady(e, input) && (part.RoundRobin? ==> Dense(e, input))
    case Coalesce(input) => Steady(e, input)
    case SortMerge(_, input) => Steady(e, input)
    case Reader(_, _) => true
  }

  ghost predicate SteadyAll(e: Engine, plans: seq<Plan>)
    requires AllExecutable(plans)
    decreases plans, 0
  {
    |plans| == 0 || (SteadyAll(e, plans[..|plans| - 1]) && Steady(e, plans[|plans| - 1]))
  }

  lemma {:induction false} CompactKeepsRows(s: Stream)
    ensures Concat(Compact(s)) == Concat(s)
  {
    if |s| > 0 {
      var b := s[|s| - 1];
      CompactKeepsRows(s[..|s| - 1]);
      ConcatAppend(Compact(s[..|s| - 1]), NonEmpty(b));
      RowsOfNonEmpty(b);
    }
  }

  function RowsOf(ins: seq<Stream>): (rows: seq<Batch>)
    ensures |rows| == |ins|
  {
    seq(|ins|, p requires 0 <= p < |ins| => Concat(ins[p]))
  }

  lemma {:induction false} RowsOfConcat(ins: seq<Stream>)
    ensures Concat(Concat(ins)) == Concat(RowsOf(ins))
  {
    if |ins| > 0 {
      var m := |ins| - 1;
      RowsOfConcat(ins[..m]);
      assert RowsOf(ins)[..m] == RowsOf(ins[..m]);
      ConcatAppend(Concat(ins[..m]), ins[m]);
    }
  }

  lemma ConcatSameRows(a: seq<Stream>, b: seq<Stream>)
    requires SameRowsAll(a, b)
    ensures SameRows(Concat(a), Concat(b))
  {
    RowsOfConcat(a);
    RowsOfConcat(b);
    forall p | 0 <= p < |a|
      ensures RowsOf(a)[p] == RowsOf(b)[p]
    {
      assert SameRows(a[p], b[p]);
    }
    assert RowsOf(a) == RowsOf(b);
  }

  lemma ExchangeSameRows(e: Engine, key: int, n: pos, a: seq<Stream>, b: seq<Stream>)
    requires SameRowsAll(a, b)
    ensures SameRowsAll(Exchange(e, Hash(key, n), a), Exchange(e, Hash(key, n), b))
  {
    var part := Some(Hash(key, n));
    forall j: nat | j < n
      ensures SameRows(Exchange(e, Hash(key, n), a)[j], Exchange(e, Hash(key, n), b)[j])
    {
      forall p | 0 <= p < |a|
        ensures SameRows(RoutedAll(e, part, a, j)[p], RoutedAll(e, part, b, j)[p])
      {
        assert SameRows(a[p], b[p]);
        HashRoutesRows(e, key, n, p, |a|, a[p], j);
        HashRoutesRows(e, key, n, p, |a|, b[p], j);
      }
      ConcatSameRows(RoutedAll(e, part, a, j), RoutedAll(e, part, b, j));
    }
  }

  lemma FeedSameRows(a: seq<Stream>, b: seq<Stream>)
    requires SameRowsAll(a, b)
    ensures SameRowsAll(Feed(true, a), b)
  {
    forall p | 0 <= p < |a|
      ensures SameRows(Feed(true, a)[p], b[p])
    {
      CompactKeepsRows(a[p]);
      assert SameRows(a[p], b[p]);
    }
  }

  /** With operators that look only at rows, distribution never changes a row
      or its place, if every round robin deals what one process would deal. */
  lemma {:induction false} SteadyMeaning(e: Engine, plan: Plan)
    requires ValidEngine(e) && RowEngine(e) && Executable(plan) && Steady(e, plan)
    ensures SameRowsAll(Eval(e, true, plan), Eval(e, false, plan))
    decreases plan, 1
  {
    match plan
    case Operator(_, children) => SteadyAllMeaning(e, children);
    case Repartition(part, input) =>
      SteadyMeaning(e, input);
      var a, b := Eval(e, true, input), Eval(e, false, input);
      if part.Hash? {
        ExchangeSameRows(e, part.key, part.count, a, b);
      } else if part.RoundRobin? {
        DenseMeaning(e, input);
      }
    case Coalesce(input) =>
      SteadyMeaning(e, input);
      var a, b := Eval(e, true, input), Eval(e, false, input);
      FeedSameRows(a, b);
      ConcatSameRows(Feed(true, a), b);
    case SortMerge(_, input) =>
      SteadyMeaning(e, input);
      FeedSameRows(Eval(e, true, input), Eval(e, false, input));
    case Reader(_, _) =>
  }

  lemma {:induction false} SteadyAllMeaning(e: Engine, plans: seq<Plan>)
    requires ValidEngine(e) && RowEngine(e) && AllExecutable(plans) && SteadyAll(e, plans)
    ensures SameInputs(EvalAll(e, true, plans), EvalAll(e, false, plans))
    decreases plans, 0
  {
    if |plans| > 0 {
      SteadyAllMeaning(e, plans[..|plans| - 1]);
      SteadyMeaning(e, plans[|plans| - 1]);
    }
  }

  // ---------------------------------------------------------------- plans that are steady by their shape

  /** No node of the plan gathers partitions. */
  predicate NoGather(plan: Plan)
    decreases plan, 1
  {
    match plan
    case Operator(_, children) => NoneGathers(children)
    case Repartition(_, input) => NoGather(input)
    case Coalesce(_) => false
    case SortMerge(_, _) => false
    case _ => true
  }

  predicate NoneGathers(plans: seq<Plan>)
    decreases plans, 0
  {
    |plans| == 0 || (NoneGathers(plans[..|plans| - 1]) && NoGather(plans[|plans| - 1]))
  }

  /** No node gathers partitions below a round robin. */
  predicate Sheltered(plan: Plan)
    decreases plan, 1
  {
    match plan
    case Operator(_, children) => AllSheltered(children)
    case Repartition(part, input) => Sheltered(input) && (part.RoundRobin? ==> NoGather(input))
    case Coalesce(input) => Sheltered(input)
    case SortMerge(_, input) => Sheltered(input)
    case _ => true
  }

  predicate AllSheltered(plans: seq<Plan>)
    decreases plans, 0
  {
    |plans| == 0 || (AllSheltered(plans[..|plans| - 1]) && Sheltered(plans[|plans| - 1]))
  }

  /** Without a gathering there is nothing the wire could drop. */
  lemma {:induction false} NoGatherIsDense(e: Engine, plan: Plan)
    requires Executable(plan) && NoGather(plan)
    ensures Dense(e, plan)
    decreases plan, 1
  {
    match plan
    case Operator(_, children) => NoneGathersIsDense(e, children);
    case Repartition(_, input) => NoGatherIsDense(e, input);
    case Reader(_, _) =>
  }

  lemma {:induction false} NoneGathersIsDense(e: Engine, plans: seq<Plan>)
    requires AllExecutable(plans) && NoneGathers(plans)
    ensures DenseAll(e, plans)
    decreases plans, 0
  {
    if |plans| > 0 {
      NoneGathersIsDense(e, plans[..|plans| - 1]);
      NoGatherIsDense(e, plans[|plans| - 1]);
    }
  }

  /** A plan without a gathering below a round robin is steady on every engine:
      this can be read off the plan before it runs. */
  lemma {:induction false} ShelteredIsSteady(e: Engine, plan: Plan)
    requires Executable(plan) && Sheltered(plan)
    ensures Steady(e, plan)
    decreases plan, 1
  {
    match plan
    case Operator(_, children) => AllShelteredAreSteady(e, children);
    case Repartition(part, input) =>
      ShelteredIsSteady(e, input);
      if part.RoundRobin? {
        NoGatherIsDense(e, input);
      }
    case Coalesce(input) => ShelteredIsSteady(e, input);
    case SortMerge(_, input) => ShelteredIsSteady(e, input);
    case Reader(_, _) =>
  }

  lemma {:induction false} AllShelteredAreSteady(e: Engine, plans: seq<Plan>)
    requires AllExecutable(plans) && AllSheltered(plans)
    ensures SteadyAll(e, plans)
    decreases plans, 0
  {
    if |plans| > 0 {
      AllShelteredAreSteady(e, plans[..|plans| - 1]);
      ShelteredIsSteady(e, plans[|plans| - 1]);
    }
  }

  predicate TurnFree(plan: Plan)
    decreases plan, 1
  {
    match plan
    case Operator(_, children) => TurnFreeAll(children)
    case Repartition(part, input) => !part.RoundRobin? && TurnFree(input)
    case Coalesce(input) => TurnFree(input)
    case SortMerge(_, input) => TurnFree(input)
    case _ => true
  }

  predicate TurnFreeAll(plans: seq<Plan>)
    decreases plans, 0
  {
    |plans| == 0 || (TurnFreeAll(plans[..|plans| - 1]) && TurnFree(plans[|plans| - 1]))
  }

  lemma {:induction false} TurnFreeIsSheltered(plan: Plan)
    requires TurnFree(plan)
    ensures Sheltered(plan)
    decreases plan, 1
  {
    match plan
    case Operator(_, children) => TurnFreeAllAreSheltered(children);
    case Repartition(_, input) => TurnFreeIsSheltered(input);
    case Coalesce(input) => TurnFreeIsSheltered(input);
    case SortMerge(_, input) => TurnFreeIsSheltered(input);
    case _ =>
  }

  lemma {:induction false} TurnFreeAllAreSheltered(plans: seq<Plan>)
    requires TurnFreeAll(plans)
    ensures AllSheltered(plans)
    decreases plans, 0
  {
    if |plans| > 0 {
      TurnFreeAllAreSheltered(plans[..|plans| - 1]);
      TurnFreeIsSheltered(plans[|plans| - 1]);
    }
  }

  /** In particular, any plan without round robin keeps its rows. */
  lemma TurnFreeMeaning(e: Engine, plan: Plan)
    requires ValidEngine(e) && RowEngine(e) && Executable(plan) && TurnFree(plan)
    ensures SameRowsAll(Eval(e, true, plan), Eval(e, false, plan))
  {
    TurnFreeIsSheltered(plan);
    ShelteredIsSteady(e, plan);
    SteadyMeaning(e, plan);
  }

  // ---------------------------------------------------------------- when round robin shifts

  ghost predicate TurnAgrees(e: Engine, n: pos, p: nat, inputs: nat, s: Stream, k: nat)
    requires k < |s|
  {
    |s[k]| > 0 ==> e.turn(p, inputs, |Compact(s[..k])|) % n == e.turn(p, inputs, k) % n
  }

  /** Every batch with rows keeps its turn when the empty ones are dropped. */
  ghost predicate TurnsAgree(e: Engine, n: pos, p: nat, inputs: nat, s: Stream) {
    forall k :: 0 <= k < |s| ==> TurnAgrees(e, n, p, inputs, s, k)
  }

  ghost predicate DealsSame(e: Engine, n: pos, p: nat, inputs: nat, s: Stream, j: nat) {
    Routed(e, Some(RoundRobin(n)), p, inputs, Compact(s), j) == Routed(e, Some(RoundRobin(n)), p, inputs, s, j)
  }

  ghost predicate SameDeal(e: Engine, n: pos, p: nat, inputs: nat, s: Stream) {
    forall j: nat :: j < n ==> DealsSame(e, n, p, inputs, s, j)
  }

  /** The batches with rows are pairwise different. */
  ghost predicate ApartBatches(s: Stream) {
    forall a, b :: 0 <= a < b < |s| && |s[a]| > 0 && |s[b]| > 0 ==> s[a] != s[b]
  }

  lemma {:induction false} RoutedIsIn(e: Engine, n: pos, p: nat, inputs: nat, s: Stream, j: nat, b: Batch)
    requires b in Routed(e, Some(RoundRobin(n)), p, inputs, s, j)
    ensures b in s && |b| > 0
  {
    var front := s[..|s| - 1];
    if b in Routed(e, Some(RoundRobin(n)), p, inputs, front, j) {
      RoutedIsIn(e, n, p, inputs, front, j, b);
    }
  }

  lemma {:induction false} CompactIsIn(s: Stream, b: Batch)
    requires b in Compact(s)
    ensures b in s
  {
    var front := s[..|s| - 1];
    if b in Compact(front) {
      CompactIsIn(front, b);
    }
  }

  lemma TurnsAgreeLast(e: Engine, n: pos, p: nat, inputs: nat, front: Stream, b: Batch)
    ensures TurnsAgree(e, n, p, inputs, front + [b]) <==>
      TurnsAgree(e, n, p, inputs, front) &&
      (|b| > 0 ==> e.turn(p, inputs, |Compact(front)|) % n == e.turn(p, inputs, |front|) % n)
  {
    var s := front + [b];
    forall k | 0 <= k < |front|
      ensures TurnAgrees(e, n, p, inputs, s, k) <==> TurnAgrees(e, n, p, inputs, front, k)
    {
      assert s[..k] == front[..k];
    }
    assert s[..|front|] == front;
    assert TurnAgrees(e, n, p, inputs, s, |front|) <==>
      (|b| > 0 ==> e.turn(p, inputs, |Compact(front)|) % n == e.turn(p, inputs, |front|) % n);
  }

  /** The last batch of a stream, dealt before and after compaction. */
  lemma DealLast(e: Engine, n: pos, p: nat, inputs: nat, front: Stream, b: Batch, j: nat)
    ensures var part := Some(RoundRobin(n));
      && Routed(e, part, p, inputs, front + [b], j) ==
         Routed(e, part, p, inputs, front, j) + (if e.turn(p, inputs, |front|) % n == j then NonEmpty(b) else [])
      && Routed(e, part, p, inputs, Compact(front + [b]), j) ==
         Routed(e, part, p, inputs, Compact(front), j) +
         (if e.turn(p, inputs, |Compact(front)|) % n == j then NonEmpty(b) else [])
  {
    assert (front + [b])[..|front|] == front;
    if |b| == 0 {
      assert Compact(front + [b]) == Compact(front);
    } else {
      assert Compact(front + [b]) == Compact(front) + [b];
      assert (Compact(front) + [b])[..|Compact(front)|] == Compact(front);
    }
  }

  /** A batch not seen before shows where it was dealt to. */
  lemma SameDealLast(e: Engine, n: pos, p: nat, inputs: nat, front: Stream, b: Batch)
    requires |b| > 0 && b !in front && SameDeal(e, n, p, inputs, front + [b])
    ensures e.turn(p, inputs, |Compact(front)|) % n == e.turn(p, inputs, |front|) % n
  {
    var part, d := Some(RoundRobin(n)), e.turn(p, inputs, |front|) % n;
    assert DealsSame(e, n, p, inputs, front + [b], d);
    DealLast(e, n, p, inputs, front, b, d);
    assert b in Routed(e, part, p, inputs, front + [b], d);
    if b in Routed(e, part, p, inputs, Compact(front), d) {
      RoutedIsIn(e, n, p, inputs, Compact(front), d, b);
      CompactIsIn(front, b);
    }
  }

  lemma SameTail<T>(a: seq<T>, b: seq<T>, tail: seq<T>)
    ensures a + tail == b + tail <==> a == b
  {
    if a + tail == b + tail {
      assert |a| == |b|;
      assert a == (a + tail)[..|a|] && b == (b + tail)[..|b|];
    }
  }

  lemma DealsSameFront(e: Engine, n: pos, p: nat, inputs: nat, front: Stream, b: Batch, j: nat)
    requires |b| > 0 ==> e.turn(p, inputs, |Compact(front)|) % n == e.turn(p, inputs, |front|) % n
    ensures DealsSame(e, n, p, inputs, front + [b], j) <==> DealsSame(e, n, p, inputs, front, j)
  {
    var part := Some(RoundRobin(n));
    DealLast(e, n, p, inputs, front, b, j);
    SameTail(Routed(e, part, p, inputs, Compact(front), j), Routed(e, part, p, inputs, front, j),
             if e.turn(p, inputs, |front|) % n == j then NonEmpty(b) else []);
  }

  lemma SameDealFront(e: Engine, n: pos, p: nat, inputs: nat, front: Stream, b: Batch)
    requires |b| > 0 ==> e.turn(p, inputs, |Compact(front)|) % n == e.turn(p, inputs, |front|) % n
    ensures SameDeal(e, n, p, inputs, front + [b]) <==> SameDeal(e, n, p, inputs, front)
  {
    forall j: nat | j < n
      ensures DealsSame(e, n, p, inputs, front + [b], j) <==> DealsSame(e, n, p, inputs, front, j)
    {
      DealsSameFront(e, n, p, inputs, front, b, j);
    }
  }

  /** Dropping the empty batches of a stream leaves every round-robin output as it
      was exactly if every batch with rows keeps its turn. */
  lemma {:induction false} RoundRobinExact(e: Engine, n: pos, p: nat, inputs: nat, s: Stream)
    requires ApartBatches(s)
    ensures SameDeal(e, n, p, inputs, s) <==> TurnsAgree(e, n, p, inputs, s)
  {
    if |s| > 0 {
      var front, b := s[..|s| - 1], s[|s| - 1];
      assert s == front + [b];
      RoundRobinExact(e, n, p, inputs, front);
      TurnsAgreeLast(e, n, p, inputs, front, b);
      if |b| > 0 && SameDeal(e, n, p, inputs, s) {
        SameDealLast(e, n, p, inputs, front, b);
      }
      if |b| > 0 ==> e.turn(p, inputs, |Compact(front)|) % n == e.turn(p, inputs, |front|) % n {
        SameDealFront(e, n, p, inputs, front, b);
      }
    }
  }

  lemma {:induction false} CompactAppend(a: Stream, b: Stream)
    ensures Compact(a + b) == Compact(a) + Compact(b)
  {
    if |b| == 0 {
      assert a + b == a;
    } else {
      assert (a + b)[..|a + b| - 1] == a + b[..|b| - 1];
      CompactAppend(a, b[..|b| - 1]);
    }
  }

  lemma {:induction false} CompactConcat(ins: seq<Stream>)
    ensures Concat(CompactAll(ins)) == Compact(Concat(ins))
  {
    if |ins| > 0 {
      var m := |ins| - 1;
      CompactConcat(ins[..m]);
      assert CompactAll(ins)[..m] == CompactAll(ins[..m]);
      CompactAppend(Concat(ins[..m]), ins[m]);
    }
  }

  lemma OneStreamDealt(e: Engine, n: pos, s: Stream, j: nat)
    requires j < n
    ensures Exchange(e, RoundRobin(n), [s])[j] == Routed(e, Some(RoundRobin(n)), 0, 1, s, j)
  {
    assert RoutedAll(e, Some(RoundRobin(n)), [s], j) == [Routed(e, Some(RoundRobin(n)), 0, 1, s, j)];
    ConcatOne(Routed(e, Some(RoundRobin(n)), 0, 1, s, j));
  }

  lemma ExchangeSameDeal(e: Engine, n: pos, s: Stream)
    ensures Exchange(e, RoundRobin(n), [Compact(s)]) == Exchange(e, RoundRobin(n), [s]) <==> SameDeal(e, n, 0, 1, s)
  {
    var a, b := Exchange(e, RoundRobin(n), [Compact(s)]), Exchange(e, RoundRobin(n), [s]);
    forall j: nat | j < n
      ensures a[j] == b[j] <==> DealsSame(e, n, 0, 1, s, j)
    {
      OneStreamDealt(e, n, Compact(s), j);
      OneStreamDealt(e, n, s, j);
    }
    assert a == b <==> forall j: nat :: j < n ==> a[j] == b[j];
  }

  /** The smallest plan that can shift: a round robin over several gathered
      partitions.  Distributed and local execution agree exactly if every batch
      with rows keeps its turn. */
  lemma GatheredRoundRobinExact(e: Engine, n: pos, input: Plan)
    requires ValidEngine(e) && Executable(input) && Dense(e, input) && Width(e, input) > 1
    requires ApartBatches(Concat(Eval(e, false, input)))
    ensures var plan := Repartition(RoundRobin(n), Coalesce(input));
      Eval(e, true, plan) == Eval(e, false, plan) <==> TurnsAgree(e, n, 0, 1, Concat(Eval(e, false, input)))
  {
    DenseMeaning(e, input);
    EvalWidth(e, false, input);
    var ins := Eval(e, false, input);
    CompactConcat(ins);
    ExchangeSameDeal(e, n, Concat(ins));
    RoundRobinExact(e, n, 0, 1, Concat(ins));
  }

  function ShiftedSource(): seq<Stream> {
    [[[], [1]], [[2]]]
  }

  function ShiftEngine(): Engine {
    Engine((op, ins) => ShiftedSource(), (op, ws) => 2, (o, ins) => [], (n: pos, ins) => seq(n as nat, _ => []),
           (key, row) => 0, (p, inputs, k) => k)
  }

  function ShiftPlan(): Plan {
    Repartition(RoundRobin(2), Coalesce(Operator(0, [])))
  }

  lemma TurnStep(s: Stream, b: Batch, j: nat)
    ensures var e, part := ShiftEngine(), Some(RoundRobin(2));
      Routed(e, part, 0, 1, s + [b], j) == Routed(e, part, 0, 1, s, j) + (if |s| % 2 == j then NonEmpty(b) else [])
  {
    assert (s + [b])[..|s|] == s;
  }

  lemma ExchangeOne(s: Stream)
    ensures var e, part := ShiftEngine(), Some(RoundRobin(2));
      Exchange(e, RoundRobin(2), [s]) == [Routed(e, part, 0, 1, s, 0), Routed(e, part, 0, 1, s, 1)]
  {
    var e, part := ShiftEngine(), Some(RoundRobin(2));
    forall j: nat | j < 2
      ensures Exchange(e, RoundRobin(2), [s])[j] == Routed(e, part, 0, 1, s, j)
    {
      assert RoutedAll(e, part, [s], j) == [Routed(e, part, 0, 1, s, j)];
      ConcatOne(Routed(e, part, 0, 1, s, j));
    }
  }

  /** How two and three batches are dealt. */
  lemma DealtTo(a: Batch, b: Batch, c: Batch, j: nat)
    requires |a| == 0 && |b| > 0 && |c| > 0 && j < 2
    ensures Routed(ShiftEngine(), Some(RoundRobin(2)), 0, 1, [b, c], j) == [[b], [c]][j]
    ensures Routed(ShiftEngine(), Some(RoundRobin(2)), 0, 1, [a, b, c], j) == [[c], [b]][j]
  {
    TurnStep([], b, j);
    TurnStep([b], c, j);
    TurnStep([], a, j);
    TurnStep([a], b, j);
    TurnStep([a, b], c, j);
    assert [] + [b] == [b] && [b] + [c] == [b, c] && [] + [a] == [a] && [a] + [b] == [a, b] &&
      [a, b] + [c] == [a, b, c];
  }

  lemma Dealt(a: Batch, b: Batch, c: Batch)
    requires |a| == 0 && |b| > 0 && |c| > 0
    ensures Exchange(ShiftEngine(), RoundRobin(2), [[b, c]]) == [[b], [c]]
    ensures Exchange(ShiftEngine(), RoundRobin(2), [[a, b, c]]) == [[c], [b]]
  {
    ExchangeOne([b, c]);
    ExchangeOne([a, b, c]);
    DealtTo(a, b, c, 0);
    DealtTo(a, b, c, 1);
  }

  lemma ConcatTwo<T>(a: seq<T>, b: seq<T>)
    ensures Concat([a, b]) == a + b
  {
    assert [a, b] == [a] + [b];
    ConcatAppend([a], [b]);
    ConcatOne(a);
    ConcatOne(b);
  }

  lemma CompactTwo(a: Batch, b: Batch)
    ensures Compact([a]) == NonEmpty(a)
    ensures Compact([a, b]) == NonEmpty(a) + NonEmpty(b)
  {
    assert [a][..0] == [] && [a, b][..1] == [a];
    assert Compact([]) == [];
  }

  lemma Coalesced()
    ensures var e, input := ShiftEngine(), Coalesce(Operator(0, []));
      && Executable(Operator(0, []))
      && Eval(e, true, input) == [[[1], [2]]]
      && Eval(e, false, input) == [[[], [1], [2]]]
  {
    var a, b, c: Batch := [], [1], [2];
    var ins := ShiftedSource();
    assert ins == [[a, b], [c]];
    CompactTwo(a, b);
    CompactTwo(c, c);
    assert NonEmpty(a) == [] && NonEmpty(b) == [b] && NonEmpty(c) == [c] && [] + [b] == [b];
    assert CompactAll(ins)[0] == [b] && CompactAll(ins)[1] == [c];
    assert CompactAll(ins) == [[b], [c]];
    ConcatTwo([b], [c]);
    ConcatTwo([a, b], [c]);
    assert [b] + [c] == [b, c] && [a, b] + [c] == [a, b, c];
  }

  /** The writer counts every batch it is handed, and coalescing on the wire has
      already dropped the empty one: round robin then deals the rows to
      other partitions than one process would. */
  lemma RoundRobinShifts()
    ensures var e, plan := ShiftEngine(), ShiftPlan();
      && ValidEngine(e) && Executable(plan)
      && Eval(e, true, plan) == [[[1]], [[2]]]
      && Eval(e, false, plan) == [[[2]], [[1]]]
  {
    Coalesced();
    Dealt([], [1], [2]);
  }
}
