/**
 One exchange: what a map task writes, and what a reader of output partition j
 gets back from the files of all map tasks.
 */
module Exchanges {
  import opened Options
  import opened Plans
  import opened Routing

  // ---------------------------------------------------------------- map side

  /** An identity writer labels its file with the map partition. */
  function OutIndex(part: Option<Partitioning>, p: nat, o: nat): nat {
    if part.None? then p else o
  }

  function FileOf(e: Engine, part: Option<Partitioning>, p: nat, inputs: nat, s: Stream, o: nat,
                  executor: string): Location {
    var data := Routed(e, part, p, inputs, s, o);
    Location(p, OutIndex(part, p, o), executor, Rows(data), |data|, data)
  }

  /** The locations map task `p` reports. */
  function TaskOutput(e: Engine, part: Option<Partitioning>, p: nat, inputs: nat, s: Stream,
                      executor: string): (locs: seq<Location>)
    ensures |locs| == OutputCount(part)
  {
    seq(OutputCount(part), o requires 0 <= o => FileOf(e, part, p, inputs, s, o, executor))
  }

  /** The outputs of the first |executors| map tasks, in task order. */
  function StageOutput(e: Engine, part: Option<Partitioning>, ins: seq<Stream>,
                       executors: seq<string>): seq<seq<Location>>
    requires |executors| <= |ins|
  {
    seq(|executors|, p requires 0 <= p < |executors| => TaskOutput(e, part, p, |ins|, ins[p], executors[p]))
  }

  ghost predicate NoEmptyBatch(s: Stream) {
    forall k :: 0 <= k < |s| ==> |s[k]| > 0
  }

  /** The file of one output partition while a task writes it. */
  class PartitionWriter {
    var file: Stream
    var created: bool
    var numRows: nat
    var numBatches: nat

    ghost predicate Valid()
      reads this
    {
      && numRows == Rows(file)
      && numBatches == |file|
      && created == (file != [])
    }

    constructor ()
      ensures Valid() && file == []
    {
      file, created, numRows, numBatches := [], false, 0, 0;
    }

    /** Skips an empty batch; the first other batch creates the file. */
    method Write(batch: Batch)
      requires Valid()
      modifies this
      ensures Valid() && file == old(file) + NonEmpty(batch)
    {
      if |batch| == 0 {
        return;
      }
      if !created {
        created := true;
      }
      assert (file + [batch])[..|file|] == file;
      file := file + [batch];
      numRows := numRows + |batch|;
      numBatches := numBatches + 1;
    }
  }

  ghost predicate Distinct(writers: seq<PartitionWriter>) {
    forall a, b :: 0 <= a < b < |writers| ==> writers[a] != writers[b]
  }

  /** The writers' files are `files`. */
  ghost predicate Hold(writers: seq<PartitionWriter>, files: seq<Stream>)
    reads writers
  {
    && |files| == |writers|
    && forall o :: 0 <= o < |writers| ==> writers[o].Valid() && writers[o].file == files[o]
  }

  ghost function Files(e: Engine, part: Option<Partitioning>, p: nat, inputs: nat, s: Stream): (files: seq<Stream>)
    ensures |files| == OutputCount(part)
  {
    seq(OutputCount(part), o requires 0 <= o => Routed(e, part, p, inputs, s, o))
  }

  ghost function Appended(files: seq<Stream>, pieces: seq<Batch>): (r: seq<Stream>)
    requires |files| == |pieces|
    ensures |r| == |files|
  {
    seq(|files|, o requires 0 <= o < |files| => files[o] + NonEmpty(pieces[o]))
  }

  function Pieces(e: Engine, part: Option<Partitioning>, p: nat, inputs: nat, k: nat, b: Batch): (pieces: seq<Batch>)
    ensures |pieces| == OutputCount(part)
  {
    seq(OutputCount(part), o requires 0 <= o => Piece(e, part, p, inputs, k, b, o))
  }

  lemma FilesStep(e: Engine, part: Option<Partitioning>, p: nat, inputs: nat, s: Stream, k: nat)
    returns (files: seq<Stream>)
    requires k < |s|
    ensures files == Files(e, part, p, inputs, s[..k + 1]) ==
            Appended(Files(e, part, p, inputs, s[..k]), Pieces(e, part, p, inputs, k, s[k]))
  {
    files := Files(e, part, p, inputs, s[..k + 1]);
    assert s[..k + 1][..k] == s[..k];
  }

  lemma FilesStart(e: Engine, part: Option<Partitioning>, p: nat, inputs: nat, s: Stream) returns (files: seq<Stream>)
    ensures files == Files(e, part, p, inputs, s[..0]) == seq(OutputCount(part), _ => [])
  {
    files := Files(e, part, p, inputs, s[..0]);
  }

  /** Hand each writer its piece of a batch. */
  method WriteBatch(pieces: seq<Batch>, writers: seq<PartitionWriter>, ghost files: seq<Stream>)
    requires |writers| == |pieces| && Distinct(writers)
    requires Hold(writers, files)
    modifies writers
    ensures Hold(writers, Appended(files, pieces))
  {
    for idx := 0 to |writers|
      invariant forall o :: 0 <= o < idx ==> writers[o].Valid() && writers[o].file == files[o] + NonEmpty(pieces[o])
      invariant forall o :: idx <= o < |writers| ==> writers[o].Valid() && writers[o].file == files[o]
    {
      var w := writers[idx];
      assert forall o :: 0 <= o < |writers| && o != idx ==> writers[o] != w;
      w.Write(pieces[idx]);
    }
  }

  method OpenWriters(n: nat) returns (writers: seq<PartitionWriter>)
    ensures |writers| == n && Distinct(writers) && fresh(writers)
    ensures Hold(writers, seq(n, _ => []))
  {
    writers := [];
    while |writers| < n
      invariant |writers| <= n && Distinct(writers) && fresh(writers)
      invariant forall o :: 0 <= o < |writers| ==> writers[o].Valid() && writers[o].file == []
    {
      var w := new PartitionWriter();
      writers := writers + [w];
    }
  }

  /** One statistics row per writer. */
  method Statistics(writers: seq<PartitionWriter>, part: Option<Partitioning>, p: nat, executor: string,
                    ghost files: seq<Stream>)
    returns (locs: seq<Location>)
    requires Hold(writers, files)
    ensures |locs| == |files|
    ensures forall o :: 0 <= o < |files| ==>
      locs[o] == Location(p, OutIndex(part, p, o), executor, Rows(files[o]), |files[o]|, files[o])
  {
    locs := [];
    for o := 0 to |writers|
      invariant |locs| == o
      invariant forall i :: 0 <= i < o ==>
        locs[i] == Location(p, OutIndex(part, p, i), executor, Rows(files[i]), |files[i]|, files[i])
    {
      var w := writers[o];
      locs := locs + [Location(p, OutIndex(part, p, o), executor, w.numRows, w.numBatches, w.file)];
    }
  }

  // ---------------------------------------------------------------- rows in files

  lemma {:induction false} RowsCounted(s: Stream)
    ensures Rows(s) == |Concat(s)|
  {
    if |s| > 0 {
      RowsCounted(s[..|s| - 1]);
    }
  }

  /** The rows of each file. */
  ghost function FileRows(locs: seq<Location>): (ms: seq<multiset<Row>>)
    ensures |ms| == |locs|
  {
    seq(|locs|, o requires 0 <= o < |locs| => multiset(Concat(locs[o].data)))
  }

  /** The row counts reported, added up. */
  function Counted(locs: seq<Location>): nat {
    if |locs| == 0 then 0 else Counted(locs[..|locs| - 1]) + locs[|locs| - 1].numRows
  }

  lemma {:induction false} CountsAddUp(locs: seq<Location>)
    requires forall o :: 0 <= o < |locs| ==> locs[o].numRows == |Concat(locs[o].data)|
    ensures Counted(locs) == |Total(FileRows(locs))|
  {
    if |locs| > 0 {
      CountsAddUp(locs[..|locs| - 1]);
      assert FileRows(locs)[..|locs| - 1] == FileRows(locs[..|locs| - 1]);
    }
  }

  ghost predicate Placed(e: Engine, part: Partitioning, file: Stream, o: nat)
    requires part.Hash?
  {
    forall row :: row in Concat(file) ==> e.hash(part.key, row) % part.count == o
  }

  /** The files of a map task: its input's rows, each in one file, truly counted,
      and with hashing in the file of their hash. */
  ghost predicate Complete(e: Engine, part: Option<Partitioning>, s: Stream, locs: seq<Location>) {
    && Total(FileRows(locs)) == multiset(Concat(s))
    && Counted(locs) == |Concat(s)|
    && (forall o :: 0 <= o < |locs| ==> locs[o].numRows == |Concat(locs[o].data)|)
    && (part.Some? && part.value.Hash? ==> forall o :: 0 <= o < |locs| ==> Placed(e, part.value, locs[o].data, o))
  }

  lemma TaskPlaces(e: Engine, part: Partitioning, p: nat, inputs: nat, s: Stream, o: nat)
    requires part.Hash?
    ensures Placed(e, part, Routed(e, Some(part), p, inputs, s, o), o)
  {
    var file := Routed(e, Some(part), p, inputs, s, o);
    var at := HashOutput(e, part.key, part.count, p, inputs, s, o);
    forall row | row in Concat(file)
      ensures e.hash(part.key, row) % part.count == o
    {
      var i :| 0 <= i < |Concat(file)| && Concat(file)[i] == row;
      assert HashesTo(e, part.key, part.count, o)(at[i], Concat(s)[at[i]]);
    }
  }

  lemma FilesCounted(e: Engine, part: Option<Partitioning>, p: nat, inputs: nat, s: Stream, executor: string)
    ensures var locs := TaskOutput(e, part, p, inputs, s, executor);
      && (forall o :: 0 <= o < |locs| ==> locs[o].numRows == |Concat(locs[o].data)|)
      && FileRows(locs) == Shares(e, part, p, inputs, s)
  {
    var locs := TaskOutput(e, part, p, inputs, s, executor);
    forall o | 0 <= o < |locs|
      ensures locs[o].numRows == |Concat(locs[o].data)|
    {
      RowsCounted(locs[o].data);
    }
  }

  lemma TaskIsComplete(e: Engine, part: Option<Partitioning>, p: nat, inputs: nat, s: Stream, executor: string)
    ensures Complete(e, part, s, TaskOutput(e, part, p, inputs, s, executor))
  {
    var locs := TaskOutput(e, part, p, inputs, s, executor);
    FilesCounted(e, part, p, inputs, s, executor);
    CountsAddUp(locs);
    StreamKept(e, part, p, inputs, s);
    if part.Some? && part.value.Hash? {
      forall o | 0 <= o < |locs|
        ensures Placed(e, part.value, locs[o].data, o)
      {
        TaskPlaces(e, part.value, p, inputs, s, o);
      }
    }
  }

  lemma StatisticsAreOutput(e: Engine, part: Option<Partitioning>, p: nat, inputs: nat, s: Stream, executor: string,
                            locs: seq<Location>)
    requires |locs| == OutputCount(part)
    requires forall o :: 0 <= o < |locs| ==>
      var f := Files(e, part, p, inputs, s)[o];
      locs[o] == Location(p, OutIndex(part, p, o), executor, Rows(f), |f|, f)
    ensures locs == TaskOutput(e, part, p, inputs, s, executor) && Complete(e, part, s, locs)
  {
    assert locs == TaskOutput(e, part, p, inputs, s, executor);
    TaskIsComplete(e, part, p, inputs, s, executor);
  }

  method WriteStream(e: Engine, part: Option<Partitioning>, p: nat, inputs: nat, input: Stream,
                     writers: seq<PartitionWriter>)
    requires |writers| == OutputCount(part) && Distinct(writers) && Hold(writers, seq(OutputCount(part), _ => []))
    modifies writers
    ensures Hold(writers, Files(e, part, p, inputs, input))
  {
    var k := 0;
    ghost var files := FilesStart(e, part, p, inputs, input);
    while k < |input|
      invariant k <= |input|
      invariant files == Files(e, part, p, inputs, input[..k]) && Hold(writers, files)
    {
      WriteBatch(Pieces(e, part, p, inputs, k, input[k]), writers, files);
      files := FilesStep(e, part, p, inputs, input, k);
      k := k + 1;
    }
    assert input[..k] == input;
  }

  /** Run one map task over its input stream. */
  method WritePartition(e: Engine, part: Option<Partitioning>, p: nat, inputs: nat, input: Stream, executor: string)
    returns (locs: seq<Location>)
    ensures locs == TaskOutput(e, part, p, inputs, input, executor)
    ensures Complete(e, part, input, locs)
    ensures forall o :: 0 <= o < |locs| ==> locs[o].mapPartition == p && locs[o].executor == executor
  {
    var writers := OpenWriters(OutputCount(part));
    WriteStream(e, part, p, inputs, input, writers);
    locs := Statistics(writers, part, p, executor, Files(e, part, p, inputs, input));
    StatisticsAreOutput(e, part, p, inputs, input, executor, locs);
  }

  // ---------------------------------------------------------------- grouping

  /** The locations labelled `j`, in order. */
  function Bucket(locs: seq<Location>, j: nat): seq<Location> {
    if |locs| == 0 then []
    else
      var l := locs[|locs| - 1];
      Bucket(locs[..|locs| - 1], j) + (if l.outputPartition == j then [l] else [])
  }

  function Buckets(locs: seq<Location>, n: nat): (parts: seq<seq<Location>>)
    ensures |parts| == n
  {
    seq(n, j requires 0 <= j => Bucket(locs, j))
  }

  predicate InRange(locs: seq<Location>, n: nat) {
    forall l :: l in locs ==> l.outputPartition < n
  }

  lemma BucketsStep(front: seq<Location>, l: Location, n: nat)
    requires l.outputPartition < n
    ensures Buckets(front + [l], n) ==
      Buckets(front, n)[l.outputPartition := Buckets(front, n)[l.outputPartition] + [l]]
  {
    assert (front + [l])[..|front|] == front;
    var b, j := Buckets(front, n), l.outputPartition;
    forall i | 0 <= i < n
      ensures Buckets(front + [l], n)[i] == b[j := b[j] + [l]][i]
    {
      assert Bucket(front + [l], i) == Bucket(front, i) + (if j == i then [l] else []);
    }
  }

  /** Distribute locations over `n` reduce partitions; fails at the first one out of range. */
  method GroupLocations(locs: seq<Location>, n: nat) returns (r: Option<seq<seq<Location>>>)
    ensures r == if InRange(locs, n) then Some(Buckets(locs, n)) else None
  {
    var parts: seq<seq<Location>> := seq(n, _ => []);
    var i := 0;
    while i < |locs|
      invariant i <= |locs|
      invariant InRange(locs[..i], n)
      invariant parts == Buckets(locs[..i], n)
    {
      var idx := locs[i].outputPartition;
      assert locs[..i + 1][..i] == locs[..i];
      if idx < n {
        assert locs[..i + 1] == locs[..i] + [locs[i]];
        BucketsStep(locs[..i], locs[i], n);
        parts := parts[idx := parts[idx] + [locs[i]]];
      } else {
        assert locs[i] in locs;
        return None;
      }
      i := i + 1;
    }
    assert locs[..i] == locs;
    return Some(parts);
  }

  lemma {:induction false} ConcatInsert<T>(ss: seq<seq<T>>, j: nat, x: T)
    requires j < |ss|
    ensures multiset(Concat(ss[..j] + [ss[j] + [x]] + ss[j + 1..])) == multiset(Concat(ss)) + multiset{x}
  {
    var a, b := ss[..j], ss[j + 1..];
    assert ss == a + [ss[j]] + b;
    ConcatAppend(a + [ss[j]], b);
    ConcatAppend(a, [ss[j]]);
    ConcatAppend(a + [ss[j] + [x]], b);
    ConcatAppend(a, [ss[j] + [x]]);
    assert Concat([ss[j]]) == ss[j] by { assert [ss[j]][..0] == []; }
    assert Concat([ss[j] + [x]]) == ss[j] + [x] by { assert [ss[j] + [x]][..0] == []; }
  }

  /** Grouping places every location exactly once. */
  lemma {:induction false} BucketsPlaceOnce(locs: seq<Location>, n: nat)
    requires InRange(locs, n)
    ensures multiset(Concat(Buckets(locs, n))) == multiset(locs)
  {
    if |locs| == 0 {
      ConcatNothing<Location>(Buckets(locs, n));
    } else {
      var front, l := locs[..|locs| - 1], locs[|locs| - 1];
      var j := l.outputPartition;
      assert l in locs;
      BucketsPlaceOnce(front, n);
      var b := Buckets(front, n);
      assert locs == front + [l];
      BucketsStep(front, l, n);
      assert Buckets(locs, n) == b[..j] + [b[j] + [l]] + b[j + 1..];
      ConcatInsert(b, j, l);
    }
  }

  lemma {:induction false} BucketAppend(a: seq<Location>, b: seq<Location>, j: nat)
    ensures Bucket(a + b, j) == Bucket(a, j) + Bucket(b, j)
  {
    if |b| == 0 {
      assert a + b == a;
    } else {
      assert (a + b)[..|a + b| - 1] == a + b[..|b| - 1];
      BucketAppend(a, b[..|b| - 1], j);
    }
  }

  // ---------------------------------------------------------------- reduce side

  lemma {:induction false} ReadAppend(a: seq<Location>, b: seq<Location>)
    ensures ReadPartition(a + b) == ReadPartition(a) + ReadPartition(b)
  {
    if |b| == 0 {
      assert a + b == a;
    } else {
      assert (a + b)[..|a + b| - 1] == a + b[..|b| - 1];
      ReadAppend(a, b[..|b| - 1]);
    }
  }

  /** Files never hold an empty batch, so no rows means no file. */
  lemma {:induction false} RoutedNoEmpty(e: Engine, part: Option<Partitioning>, p: nat, inputs: nat, s: Stream, j: nat)
    ensures NoEmptyBatch(Routed(e, part, p, inputs, s, j))
  {
    if |s| > 0 {
      RoutedNoEmpty(e, part, p, inputs, s[..|s| - 1], j);
    }
  }

  lemma NoRowsNoBatches(s: Stream)
    requires NoEmptyBatch(s) && Rows(s) == 0
    ensures s == []
  {
  }

  /** The identity writer copies its input without the empty batches. */
  lemma {:induction false} RoutedIdentity(e: Engine, p: nat, inputs: nat, s: Stream)
    ensures Routed(e, None, p, inputs, s, 0) == Compact(s)
  {
    if |s| > 0 {
      RoutedIdentity(e, p, inputs, s[..|s| - 1]);
    }
  }

  lemma {:induction false} BucketOfIndexed(locs: seq<Location>, j: nat)
    requires forall o :: 0 <= o < |locs| ==> locs[o].outputPartition == o
    ensures Bucket(locs, j) == if j < |locs| then [locs[j]] else []
  {
    if |locs| > 0 {
      BucketOfIndexed(locs[..|locs| - 1], j);
    }
  }

  /** Reading one file back gives what the task routed there. */
  lemma ReadFile(e: Engine, part: Option<Partitioning>, p: nat, inputs: nat, s: Stream, o: nat, executor: string)
    ensures ReadPartition([FileOf(e, part, p, inputs, s, o, executor)]) == Routed(e, part, p, inputs, s, o)
  {
    var l := FileOf(e, part, p, inputs, s, o, executor);
    assert [l][..0] == [];
    RoutedNoEmpty(e, part, p, inputs, s, o);
    if l.numRows == 0 { NoRowsNoBatches(l.data); }
  }

  /** What a map task leaves for a reader of partition `j`. */
  lemma ReadTask(e: Engine, part: Option<Partitioning>, p: nat, inputs: nat, s: Stream, executor: string, j: nat)
    requires part.Some? ==> j < OutputCount(part)
    ensures part.Some? ==>
      ReadPartition(Bucket(TaskOutput(e, part, p, inputs, s, executor), j)) == Routed(e, part, p, inputs, s, j)
    ensures part.None? ==>
      ReadPartition(Bucket(TaskOutput(e, part, p, inputs, s, executor), j)) == if j == p then Compact(s) else []
  {
    var out := TaskOutput(e, part, p, inputs, s, executor);
    if part.Some? {
      BucketOfIndexed(out, j);
      ReadFile(e, part, p, inputs, s, j, executor);
    } else {
      assert out == [FileOf(e, part, p, inputs, s, 0, executor)];
      assert out[..0] == [];
      ReadFile(e, part, p, inputs, s, 0, executor);
      RoutedIdentity(e, p, inputs, s);
    }
  }

  /** What each task leaves for a reader of partition `j`. */
  function ReadEach(outputs: seq<seq<Location>>, j: nat): (streams: seq<Stream>)
    ensures |streams| == |outputs|
  {
    seq(|outputs|, p requires 0 <= p < |outputs| => ReadPartition(Bucket(outputs[p], j)))
  }

  /** Reading follows task order. */
  lemma {:induction false} ReadInOrder(outputs: seq<seq<Location>>, j: nat)
    ensures ReadPartition(Bucket(Concat(outputs), j)) == Concat(ReadEach(outputs, j))
  {
    if |outputs| > 0 {
      var m := |outputs| - 1;
      ReadInOrder(outputs[..m], j);
      assert ReadEach(outputs, j)[..m] == ReadEach(outputs[..m], j);
      BucketAppend(Concat(outputs[..m]), outputs[m], j);
      ReadAppend(Bucket(Concat(outputs[..m]), j), Bucket(outputs[m], j));
    }
  }

  lemma ReadRouted(e: Engine, part: Option<Partitioning>, ins: seq<Stream>, executors: seq<string>, j: nat)
    requires |executors| == |ins| && part.Some? && j < OutputCount(part)
    ensures ReadEach(StageOutput(e, part, ins, executors), j) == RoutedAll(e, part, ins, j)
  {
    var outs := StageOutput(e, part, ins, executors);
    forall p | 0 <= p < |ins|
      ensures ReadEach(outs, j)[p] == RoutedAll(e, part, ins, j)[p]
    {
      ReadTask(e, part, p, |ins|, ins[p], executors[p], j);
    }
  }

  lemma ReadIdentity(e: Engine, ins: seq<Stream>, executors: seq<string>, j: nat)
    requires |executors| == |ins| && j < |ins|
    ensures Concat(ReadEach(StageOutput(e, None, ins, executors), j)) == Compact(ins[j])
  {
    var outs := StageOutput(e, None, ins, executors);
    forall p | 0 <= p < |ins|
      ensures ReadEach(outs, j)[p] == if p == j then Compact(ins[p]) else []
    {
      ReadTask(e, None, p, |ins|, ins[p], executors[p], j);
    }
    ConcatOnly(ReadEach(outs, j), j);
  }

  /** A reader of partition `j` gets the contributions of all map tasks, in task
      order; an identity stage keeps each stream in its own partition. */
  lemma ReadStage(e: Engine, part: Option<Partitioning>, ins: seq<Stream>, executors: seq<string>, j: nat)
    requires |executors| == |ins|
    requires if part.Some? then j < OutputCount(part) else j < |ins|
    ensures ReadPartition(Bucket(Concat(StageOutput(e, part, ins, executors)), j)) ==
            if part.Some? then Concat(RoutedAll(e, part, ins, j)) else Compact(ins[j])
  {
    ReadInOrder(StageOutput(e, part, ins, executors), j);
    if part.Some? {
      ReadRouted(e, part, ins, executors, j);
    } else {
      ReadIdentity(e, ins, executors, j);
    }
  }

  /** Every label a task reports is below the partition count its readers expect. */
  lemma {:induction false} StageOutputInRange(e: Engine, part: Option<Partitioning>, ins: seq<Stream>,
                                              executors: seq<string>, n: nat)
    requires |executors| <= |ins|
    requires n == if part.Some? then OutputCount(part) else |ins|
    ensures InRange(Concat(StageOutput(e, part, ins, executors)), n)
  {
    if |executors| > 0 {
      var m := |executors| - 1;
      var outs := StageOutput(e, part, ins, executors);
      assert outs[..m] == StageOutput(e, part, ins, executors[..m]);
      StageOutputInRange(e, part, ins, executors[..m], n);
    }
  }

  /** Grouping a stage's locations and reading the groups restores the exchange's output. */
  lemma ReadGroups(e: Engine, part: Option<Partitioning>, ins: seq<Stream>, executors: seq<string>)
    requires |executors| == |ins| && (part.Some? ==> !part.value.Unknown?)
    ensures var locs := Concat(StageOutput(e, part, ins, executors));
      if part.Some?
      then InRange(locs, OutputCount(part)) && ReadAll(Buckets(locs, OutputCount(part))) == Exchange(e, part.value, ins)
      else InRange(locs, |ins|) && ReadAll(Buckets(locs, |ins|)) == CompactAll(ins)
  {
    var locs := Concat(StageOutput(e, part, ins, executors));
    var n := if part.Some? then OutputCount(part) else |ins|;
    StageOutputInRange(e, part, ins, executors, n);
    forall j: nat | j < n
      ensures ReadAll(Buckets(locs, n))[j] == (if part.Some? then Exchange(e, part.value, ins) else CompactAll(ins))[j]
    {
      ReadStage(e, part, ins, executors, j);
    }
  }

  /** Across a hash or round-robin stage no row is lost, doubled or made up. */
  lemma StageKeepsRows(e: Engine, part: Partitioning, ins: seq<Stream>, executors: seq<string>)
    requires |executors| == |ins| && !part.Unknown?
    ensures var outs := ReadAll(Buckets(Concat(StageOutput(e, Some(part), ins, executors)), part.count));
      && multiset(Concat(Concat(outs))) == multiset(Concat(Concat(ins)))
      && (part.Hash? ==> forall j :: 0 <= j < part.count ==> Placed(e, part, outs[j], j))
  {
    ReadGroups(e, Some(part), ins, executors);
    ExchangeKeepsRows(e, part, ins);
    if part.Hash? {
      forall j, row | 0 <= j < part.count && row in Concat(Exchange(e, part, ins)[j])
        ensures e.hash(part.key, row) % part.count == j
      {
        HashPlaces(e, part.key, part.count, ins, j, row);
      }
    }
  }

  lemma {:induction false} CompactSolid(s: Stream)
    ensures |Compact(s)| <= |s| && NoEmptyBatch(Compact(s))
  {
    if |s| > 0 {
      CompactSolid(s[..|s| - 1]);
    }
  }

  lemma {:induction false} SolidStays(s: Stream)
    requires NoEmptyBatch(s)
    ensures Compact(s) == s
  {
    if |s| > 0 {
      var front, b := s[..|s| - 1], s[|s| - 1];
      SolidStays(front);
      assert s == front + [b];
    }
  }

  /** An identity exchange returns its input unchanged exactly when no batch is empty. */
  lemma {:induction false} IdentityExact(s: Stream)
    ensures Compact(s) == s <==> NoEmptyBatch(s)
    ensures |Compact(s)| <= |s| && NoEmptyBatch(Compact(s))
  {
    CompactSolid(s);
    if NoEmptyBatch(s) {
      SolidStays(s);
    }
  }
}
