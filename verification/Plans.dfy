/**
 Physical plans and what they mean.

 A plan node produces a fixed number of output partitions, and each partition
 is an ordered stream of record batches.  What an operator does to its inputs,
 how a row hashes and which turn a batch takes in round-robin order belong to
 the query engine and stay uninterpreted: an `Engine` value supplies them.
 */
module Plans {
  import opened Options

  type pos = n: nat | 0 < n witness 1

  type Row = int

  type Batch = seq<Row>

  type Stream = seq<Batch>

  datatype Partitioning =
    | Hash(key: int, count: pos)
    | RoundRobin(count: pos)
    | Unknown(count: pos)

  /** One file written by a map task, as its statistics row describes it.
      `data` is what the file holds. */
  datatype Location = Location(
    mapPartition: nat, outputPartition: nat, executor: string,
    numRows: nat, numBatches: nat, data: Stream)

  datatype Plan =
    | Operator(op: int, children: seq<Plan>)
    | Repartition(partitioning: Partitioning, input: Plan)
    | Coalesce(input: Plan)
    | SortMerge(ordering: int, input: Plan)
    | Unresolved(stage: nat, partitions: pos)
    | Reader(stage: nat, locations: seq<seq<Location>>)

  datatype Engine = Engine(
    /** Output partitions of an operator, from those of its children. */
    run: (int, seq<seq<Stream>>) -> seq<Stream>,
    /** Number of output partitions, from those of its children. */
    width: (int, seq<nat>) -> pos,
    /** Order-preserving merge of sorted streams. */
    merge: (int, seq<Stream>) -> Stream,
    /** In-process repartitioning of unknown kind. */
    shuffle: (pos, seq<Stream>) -> seq<Stream>,
    hash: (int, Row) -> nat,
    /** Turn of batch number k of input partition p out of `inputs`. */
    turn: (nat, nat, nat) -> nat)

  function Widths(ins: seq<seq<Stream>>): (ws: seq<nat>)
    ensures |ws| == |ins|
  {
    if |ins| == 0 then [] else Widths(ins[..|ins| - 1]) + [|ins[|ins| - 1]|]
  }

  /** The engine delivers as many partitions as it announces. */
  ghost predicate ValidEngine(e: Engine) {
    && (forall op, ins :: |e.run(op, ins)| == e.width(op, Widths(ins)))
    && (forall n, ins :: |e.shuffle(n, ins)| == n)
  }

  // ---------------------------------------------------------------- streams

  function NonEmpty(b: Batch): Stream {
    if |b| == 0 then [] else [b]
  }

  /** The stream without its empty batches. */
  function Compact(s: Stream): Stream {
    if |s| == 0 then [] else Compact(s[..|s| - 1]) + NonEmpty(s[|s| - 1])
  }

  function CompactAll(ins: seq<Stream>): (outs: seq<Stream>)
    ensures |outs| == |ins|
  {
    seq(|ins|, p requires 0 <= p < |ins| => Compact(ins[p]))
  }

  function Rows(s: Stream): nat {
    if |s| == 0 then 0 else Rows(s[..|s| - 1]) + |s[|s| - 1]|
  }

  // ---------------------------------------------------------------- routing

  function Selected(e: Engine, key: int, n: pos, b: Batch, j: nat): Batch {
    if |b| == 0 then []
    else
      var rest := Selected(e, key, n, b[..|b| - 1], j);
      if e.hash(key, b[|b| - 1]) % n == j then rest + [b[|b| - 1]] else rest
  }

  /** Outputs of a map task; without a partitioning there is a single one. */
  function OutputCount(part: Option<Partitioning>): pos {
    match part
    case Some(Hash(_, n)) => n
    case Some(RoundRobin(n)) => n
    case _ => 1
  }

  /** The rows of batch number `k` of input partition `p` that go to output `j`.
      Without a partitioning everything goes to the one output. */
  function Piece(e: Engine, part: Option<Partitioning>, p: nat, inputs: nat, k: nat, b: Batch, j: nat): Batch {
    match part
    case Some(Hash(key, n)) => Selected(e, key, n, b, j)
    case Some(RoundRobin(n)) => if e.turn(p, inputs, k) % n == j then b else []
    case _ => b
  }

  /** What input partition `p` contributes to output `j`. */
  function Routed(e: Engine, part: Option<Partitioning>, p: nat, inputs: nat, s: Stream, j: nat): Stream {
    if |s| == 0 then []
    else
      var k := |s| - 1;
      Routed(e, part, p, inputs, s[..k], j) + NonEmpty(Piece(e, part, p, inputs, k, s[k], j))
  }

  /** What each input partition contributes to output `j`. */
  function RoutedAll(e: Engine, part: Option<Partitioning>, ins: seq<Stream>, j: nat): (outs: seq<Stream>)
    ensures |outs| == |ins|
  {
    seq(|ins|, p requires 0 <= p < |ins| => Routed(e, part, p, |ins|, ins[p], j))
  }

  /** Output `j` of an exchange is the concatenation of the contributions, in input order. */
  function Exchange(e: Engine, part: Partitioning, ins: seq<Stream>): (outs: seq<Stream>)
    ensures |outs| == part.count
  {
    seq(part.count, j requires 0 <= j => Concat(RoutedAll(e, Some(part), ins, j)))
  }

  // ---------------------------------------------------------------- plans

  function ReadPartition(locs: seq<Location>): Stream {
    if |locs| == 0 then []
    else
      var l := locs[|locs| - 1];
      ReadPartition(locs[..|locs| - 1]) + (if l.numRows > 0 then l.data else [])
  }

  function ReadAll(parts: seq<seq<Location>>): (outs: seq<Stream>)
    ensures |outs| == |parts|
  {
    seq(|parts|, j requires 0 <= j < |parts| => ReadPartition(parts[j]))
  }

  /** No unresolved leaf: such a leaf refuses to execute. */
  predicate Executable(plan: Plan)
    decreases plan, 1
  {
    match plan
    case Operator(_, children) => AllExecutable(children)
    case Repartition(_, input) => Executable(input)
    case Coalesce(input) => Executable(input)
    case SortMerge(_, input) => Executable(input)
    case Unresolved(_, _) => false
    case Reader(_, _) => true
  }

  predicate AllExecutable(plans: seq<Plan>)
    decreases plans, 0
  {
    |plans| == 0 || (AllExecutable(plans[..|plans| - 1]) && Executable(plans[|plans| - 1]))
  }

  /** A plan as the query planner hands it over: no shuffle leaves yet. */
  predicate Original(plan: Plan)
    decreases plan, 1
  {
    match plan
    case Operator(_, children) => AllOriginal(children)
    case Repartition(_, input) => Original(input)
    case Coalesce(input) => Original(input)
    case SortMerge(_, input) => Original(input)
    case _ => false
  }

  predicate AllOriginal(plans: seq<Plan>)
    decreases plans, 0
  {
    |plans| == 0 || (AllOriginal(plans[..|plans| - 1]) && Original(plans[|plans| - 1]))
  }

  lemma OriginalIsExecutable(plan: Plan)
    requires Original(plan)
    ensures Executable(plan)
    decreases plan, 1
  {
    match plan
    case Operator(_, children) => AllOriginalAreExecutable(children);
    case Repartition(_, input) => OriginalIsExecutable(input);
    case Coalesce(input) => OriginalIsExecutable(input);
    case SortMerge(_, input) => OriginalIsExecutable(input);
  }

  lemma AllOriginalAreExecutable(plans: seq<Plan>)
    requires AllOriginal(plans)
    ensures AllExecutable(plans)
    decreases plans, 0
  {
    if |plans| > 0 {
      AllOriginalAreExecutable(plans[..|plans| - 1]);
      OriginalIsExecutable(plans[|plans| - 1]);
    }
  }

  /** Static partition count of a node. */
  function Width(e: Engine, plan: Plan): nat
    decreases plan, 1
  {
    match plan
    case Operator(op, children) => e.width(op, WidthAll(e, children))
    case Repartition(part, _) => part.count
    case Coalesce(_) => 1
    case SortMerge(_, _) => 1
    case Unresolved(_, n) => n
    case Reader(_, locs) => |locs|
  }

  function WidthAll(e: Engine, plans: seq<Plan>): (ws: seq<nat>)
    ensures |ws| == |plans|
    decreases plans, 0
  {
    if |plans| == 0 then []
    else WidthAll(e, plans[..|plans| - 1]) + [Width(e, plans[|plans| - 1])]
  }

  /** What a node that gathers several partitions receives.  On the wire an
      empty batch is dropped; one partition is passed on in place. */
  function Feed(wire: bool, ins: seq<Stream>): seq<Stream> {
    if wire && |ins| > 1 then CompactAll(ins) else ins
  }

  /** The output partitions of `plan`.  With `wire` false this is execution
      inside one process; with `wire` true every gathering of several partitions
      drops the empty batches, as moving them between tasks does. */
  function Eval(e: Engine, wire: bool, plan: Plan): seq<Stream>
    requires Executable(plan)
    decreases plan, 1
  {
    match plan
    case Operator(op, children) => e.run(op, EvalAll(e, wire, children))
    case Repartition(part, input) =>
      var ins := Eval(e, wire, input);
      if part.Unknown? then e.shuffle(part.count, ins) else Exchange(e, part, ins)
    case Coalesce(input) => [Concat(Feed(wire, Eval(e, wire, input)))]
    case SortMerge(ordering, input) => [e.merge(ordering, Feed(wire, Eval(e, wire, input)))]
    case Reader(_, locs) => ReadAll(locs)
  }

  function EvalAll(e: Engine, wire: bool, plans: seq<Plan>): (outs: seq<seq<Stream>>)
    requires AllExecutable(plans)
    ensures |outs| == |plans|
    decreases plans, 0
  {
    if |plans| == 0 then []
    else EvalAll(e, wire, plans[..|plans| - 1]) + [Eval(e, wire, plans[|plans| - 1])]
  }

  /** A plan yields exactly the partitions it announces. */
  lemma {:induction false} EvalWidth(e: Engine, wire: bool, plan: Plan)
    requires ValidEngine(e) && Executable(plan)
    ensures |Eval(e, wire, plan)| == Width(e, plan)
    decreases plan, 1
  {
    match plan
    case Operator(op, children) => EvalAllWidths(e, wire, children);
    case Repartition(_, input) => EvalWidth(e, wire, input);
    case Coalesce(_) =>
    case SortMerge(_, _) =>
    case Reader(_, _) =>
  }

  lemma {:induction false} EvalAllWidths(e: Engine, wire: bool, plans: seq<Plan>)
    requires ValidEngine(e) && AllExecutable(plans)
    ensures Widths(EvalAll(e, wire, plans)) == WidthAll(e, plans)
    decreases plans, 0
  {
    if |plans| > 0 {
      var front := plans[..|plans| - 1];
      EvalAllWidths(e, wire, front);
      EvalWidth(e, wire, plans[|plans| - 1]);
      assert EvalAll(e, wire, plans)[..|plans| - 1] == EvalAll(e, wire, front);
    }
  }

  lemma OriginalWidth(e: Engine, plan: Plan)
    requires Original(plan)
    ensures Width(e, plan) >= 1
  {
  }
}
