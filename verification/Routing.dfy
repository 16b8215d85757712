/**
 What an exchange does to rows, said without the functions that do it: nothing
 is lost, nothing is doubled, rows go where their hash or their turn sends them,
 and what comes from one input stays in order.
 */
module Routing {
  import opened Options
  import opened Plans

  lemma RowsOfNonEmpty(b: Batch)
    ensures Concat(NonEmpty(b)) == b
  {
    assert [b][..0] == [];
    assert Concat<Row>([]) == [];
  }

  lemma {:induction false} SelectedAppend(e: Engine, key: int, n: pos, a: Batch, b: Batch, j: nat)
    ensures Selected(e, key, n, a + b, j) == Selected(e, key, n, a, j) + Selected(e, key, n, b, j)
  {
    if |b| == 0 {
      assert a + b == a;
    } else {
      assert (a + b)[..|a + b| - 1] == a + b[..|b| - 1];
      SelectedAppend(e, key, n, a, b[..|b| - 1], j);
    }
  }

  /** Hash routing selects rows, whatever the batches. */
  lemma {:induction false} HashRoutesRows(e: Engine, key: int, n: pos, p: nat, inputs: nat, s: Stream, j: nat)
    ensures Concat(Routed(e, Some(Hash(key, n)), p, inputs, s, j)) == Selected(e, key, n, Concat(s), j)
  {
    if |s| > 0 {
      var part := Some(Hash(key, n));
      var front, b := s[..|s| - 1], s[|s| - 1];
      HashRoutesRows(e, key, n, p, inputs, front, j);
      var piece := Piece(e, part, p, inputs, |s| - 1, b, j);
      ConcatAppend(Routed(e, part, p, inputs, front, j), NonEmpty(piece));
      RowsOfNonEmpty(piece);
      SelectedAppend(e, key, n, Concat(front), b, j);
    }
  }

  // ---------------------------------------------------------------- which rows, and in which order

  /** `out` are the elements of `s` that are chosen, in order; `at` says where they stood. */
  ghost predicate Picks<T>(s: seq<T>, chosen: (nat, T) -> bool, out: seq<T>, at: seq<nat>) {
    && |at| == |out|
    && (forall a, b :: 0 <= a < b < |at| ==> at[a] < at[b])
    && (forall i :: 0 <= i < |at| ==> at[i] < |s| && chosen(at[i], s[at[i]]) && out[i] == s[at[i]])
    && (forall k: nat :: k < |s| && chosen(k, s[k]) ==> k in at)
  }

  lemma PicksNext<T>(s: seq<T>, chosen: (nat, T) -> bool, out: seq<T>, at: seq<nat>, x: T)
    requires Picks(s, chosen, out, at)
    ensures if chosen(|s|, x) then Picks(s + [x], chosen, out + [x], at + [|s|]) else Picks(s + [x], chosen, out, at)
  {
    var s', at' := s + [x], if chosen(|s|, x) then at + [|s|] else at;
    forall k: nat | k < |s'| && chosen(k, s'[k])
      ensures k in at'
    {
      if k < |s| {
        assert chosen(k, s[k]) && k in at;
        var i :| 0 <= i < |at| && at[i] == k;
        assert at'[i] == k;
      } else {
        assert at'[|at|] == k;
      }
    }
  }

  lemma PicksLast<T>(s: seq<T>, chosen: (nat, T) -> bool, out: seq<T>, at: seq<nat>) returns (at': seq<nat>)
    requires |s| > 0 && Picks(s[..|s| - 1], chosen, out, at)
    ensures var k := |s| - 1;
      Picks(s, chosen, if chosen(k, s[k]) then out + [s[k]] else out, at')
  {
    var front, x := s[..|s| - 1], s[|s| - 1];
    PicksNext(front, chosen, out, at, x);
    at' := if chosen(|front|, x) then at + [|front|] else at;
    assert s == front + [x];
  }

  ghost function HashesTo(e: Engine, key: int, n: pos, j: nat): (nat, Row) -> bool {
    (k: nat, row: Row) => e.hash(key, row) % n == j
  }

  ghost function TurnsTo(e: Engine, n: pos, p: nat, inputs: nat, j: nat): (nat, Batch) -> bool {
    (k: nat, b: Batch) => |b| > 0 && e.turn(p, inputs, k) % n == j
  }

  lemma {:induction false} SelectedPicks(e: Engine, key: int, n: pos, rows: seq<Row>, j: nat) returns (at: seq<nat>)
    ensures Picks(rows, HashesTo(e, key, n, j), Selected(e, key, n, rows, j), at)
  {
    if |rows| == 0 {
      at := [];
    } else {
      at := SelectedPicks(e, key, n, rows[..|rows| - 1], j);
      at := PicksLast(rows, HashesTo(e, key, n, j), Selected(e, key, n, rows[..|rows| - 1], j), at);
    }
  }

  /** From each input a hash output gets exactly the rows whose hash is its own,
      in the order they came in. */
  lemma HashOutput(e: Engine, key: int, n: pos, p: nat, inputs: nat, s: Stream, j: nat) returns (at: seq<nat>)
    ensures Picks(Concat(s), HashesTo(e, key, n, j), Concat(Routed(e, Some(Hash(key, n)), p, inputs, s, j)), at)
  {
    HashRoutesRows(e, key, n, p, inputs, s, j);
    at := SelectedPicks(e, key, n, Concat(s), j);
  }

  lemma LastTurn(e: Engine, n: pos, p: nat, inputs: nat, s: Stream, j: nat)
    requires |s| > 0
    ensures var k, part := |s| - 1, Some(RoundRobin(n));
      Routed(e, part, p, inputs, s, j) ==
      Routed(e, part, p, inputs, s[..k], j) + if TurnsTo(e, n, p, inputs, j)(k, s[k]) then [s[k]] else []
  {
  }

  /** From each input a round-robin output gets exactly the batches with rows
      whose turn is its own, whole and in order. */
  lemma {:induction false} RoundRobinOutput(e: Engine, n: pos, p: nat, inputs: nat, s: Stream, j: nat)
    returns (at: seq<nat>)
    ensures Picks(s, TurnsTo(e, n, p, inputs, j), Routed(e, Some(RoundRobin(n)), p, inputs, s, j), at)
  {
    if |s| == 0 {
      at := [];
    } else {
      var front := s[..|s| - 1];
      at := RoundRobinOutput(e, n, p, inputs, front, j);
      var out := Routed(e, Some(RoundRobin(n)), p, inputs, front, j);
      at := PicksLast(s, TurnsTo(e, n, p, inputs, j), out, at);
      LastTurn(e, n, p, inputs, s, j);
    }
  }

  // ---------------------------------------------------------------- nothing lost, nothing doubled

  ghost function Total<T>(ms: seq<multiset<T>>): multiset<T> {
    if |ms| == 0 then multiset{} else Total(ms[..|ms| - 1]) + ms[|ms| - 1]
  }

  lemma {:induction false} TotalSum<T>(a: seq<multiset<T>>, b: seq<multiset<T>>, c: seq<multiset<T>>)
    requires |a| == |b| == |c| && forall i :: 0 <= i < |c| ==> c[i] == a[i] + b[i]
    ensures Total(c) == Total(a) + Total(b)
  {
    if |c| > 0 {
      TotalSum(a[..|a| - 1], b[..|b| - 1], c[..|c| - 1]);
    }
  }

  lemma {:induction false} TotalNothing<T>(ms: seq<multiset<T>>)
    requires forall i :: 0 <= i < |ms| ==> ms[i] == multiset{}
    ensures Total(ms) == multiset{}
  {
    if |ms| > 0 {
      TotalNothing(ms[..|ms| - 1]);
    }
  }

  lemma {:induction false} TotalOnly<T>(ms: seq<multiset<T>>, j: nat)
    requires j < |ms| && forall i :: 0 <= i < |ms| && i != j ==> ms[i] == multiset{}
    ensures Total(ms) == ms[j]
  {
    if j == |ms| - 1 {
      TotalNothing(ms[..j]);
    } else {
      TotalOnly(ms[..|ms| - 1], j);
    }
  }

  ghost function Contents(ins: seq<Stream>): (ms: seq<multiset<Row>>)
    ensures |ms| == |ins|
  {
    seq(|ins|, j requires 0 <= j < |ins| => multiset(Concat(ins[j])))
  }

  /** The rows of several streams are the rows of each. */
  lemma {:induction false} ConcatContents(ins: seq<Stream>)
    ensures multiset(Concat(Concat(ins))) == Total(Contents(ins))
  {
    if |ins| > 0 {
      var front, last := ins[..|ins| - 1], ins[|ins| - 1];
      ConcatContents(front);
      ConcatAppend(Concat(front), last);
      assert Contents(ins)[..|ins| - 1] == Contents(front);
    }
  }

  ghost function PieceRows(e: Engine, part: Option<Partitioning>, p: nat, inputs: nat, k: nat,
                           b: Batch): (ms: seq<multiset<Row>>)
    ensures |ms| == OutputCount(part)
  {
    seq(OutputCount(part), j requires 0 <= j => multiset(Piece(e, part, p, inputs, k, b, j)))
  }

  ghost function Hashed(e: Engine, key: int, n: pos, b: Batch): (ms: seq<multiset<Row>>)
    ensures |ms| == n
  {
    seq(n, j requires 0 <= j => multiset(Selected(e, key, n, b, j)))
  }

  ghost function Lone(n: pos, j: nat, row: Row): (ms: seq<multiset<Row>>)
    ensures |ms| == n
  {
    seq(n, i requires 0 <= i => if i == j then multiset{row} else multiset{})
  }

  lemma OneMoreRow(e: Engine, key: int, n: pos, b: Batch)
    requires |b| > 0
    ensures Total(Hashed(e, key, n, b)) == Total(Hashed(e, key, n, b[..|b| - 1])) + multiset{b[|b| - 1]}
  {
    var row := b[|b| - 1];
    var lone := Lone(n, e.hash(key, row) % n, row);
    TotalSum(Hashed(e, key, n, b[..|b| - 1]), lone, Hashed(e, key, n, b));
    TotalOnly(lone, e.hash(key, row) % n);
  }

  lemma {:induction false} HashKeeps(e: Engine, key: int, n: pos, b: Batch)
    ensures Total(Hashed(e, key, n, b)) == multiset(b)
  {
    if |b| == 0 {
      TotalNothing(Hashed(e, key, n, b));
    } else {
      HashKeeps(e, key, n, b[..|b| - 1]);
      OneMoreRow(e, key, n, b);
      assert b == b[..|b| - 1] + [b[|b| - 1]];
    }
  }

  /** Every batch is dealt out whole. */
  lemma BatchKept(e: Engine, part: Option<Partitioning>, p: nat, inputs: nat, k: nat, b: Batch)
    ensures Total(PieceRows(e, part, p, inputs, k, b)) == multiset(b)
  {
    var ms := PieceRows(e, part, p, inputs, k, b);
    if part.Some? && part.value.Hash? {
      assert ms == Hashed(e, part.value.key, part.value.count, b);
      HashKeeps(e, part.value.key, part.value.count, b);
    } else {
      TotalOnly(ms, if part.Some? && part.value.RoundRobin? then e.turn(p, inputs, k) % part.value.count else 0);
    }
  }

  /** The rows one input leaves in every output. */
  ghost function Shares(e: Engine, part: Option<Partitioning>, p: nat, inputs: nat,
                        s: Stream): (ms: seq<multiset<Row>>)
    ensures |ms| == OutputCount(part)
  {
    seq(OutputCount(part), j requires 0 <= j => multiset(Concat(Routed(e, part, p, inputs, s, j))))
  }

  lemma OneMoreBatch(e: Engine, part: Option<Partitioning>, p: nat, inputs: nat, s: Stream, k: nat, j: nat)
    requires k + 1 == |s| && j < OutputCount(part)
    ensures Shares(e, part, p, inputs, s)[j] ==
            Shares(e, part, p, inputs, s[..k])[j] + PieceRows(e, part, p, inputs, k, s[k])[j]
  {
    var piece := Piece(e, part, p, inputs, k, s[k], j);
    ConcatAppend(Routed(e, part, p, inputs, s[..k], j), NonEmpty(piece));
    RowsOfNonEmpty(piece);
  }

  /** Every row of a stream goes to exactly one output. */
  lemma {:induction false} StreamKept(e: Engine, part: Option<Partitioning>, p: nat, inputs: nat, s: Stream)
    ensures Total(Shares(e, part, p, inputs, s)) == multiset(Concat(s))
  {
    if |s| == 0 {
      TotalNothing(Shares(e, part, p, inputs, s));
    } else {
      var k := |s| - 1;
      var front, pieces := Shares(e, part, p, inputs, s[..k]), PieceRows(e, part, p, inputs, k, s[k]);
      forall j | 0 <= j < |front|
        ensures Shares(e, part, p, inputs, s)[j] == front[j] + pieces[j]
      {
        OneMoreBatch(e, part, p, inputs, s, k, j);
      }
      TotalSum(front, pieces, Shares(e, part, p, inputs, s));
      StreamKept(e, part, p, inputs, s[..k]);
      BatchKept(e, part, p, inputs, k, s[k]);
    }
  }

  /** The rows in every output of an exchange so far, from its first `m` inputs. */
  ghost function Gathered(e: Engine, part: Option<Partitioning>, ins: seq<Stream>, m: nat): (ms: seq<multiset<Row>>)
    requires m <= |ins|
    ensures |ms| == OutputCount(part)
  {
    seq(OutputCount(part), j requires 0 <= j => multiset(Concat(Concat(RoutedAll(e, part, ins, j)[..m]))))
  }

  lemma OneMoreStream(ins: seq<Stream>, m: nat)
    requires m < |ins|
    ensures multiset(Concat(Concat(ins[..m + 1]))) == multiset(Concat(Concat(ins[..m]))) + multiset(Concat(ins[m]))
  {
    assert ins[..m + 1][..m] == ins[..m];
    ConcatAppend(Concat(ins[..m]), ins[m]);
  }

  lemma OneMoreInput(e: Engine, part: Option<Partitioning>, ins: seq<Stream>, m: nat)
    requires m < |ins|
    ensures Total(Gathered(e, part, ins, m + 1)) ==
            Total(Gathered(e, part, ins, m)) + Total(Shares(e, part, m, |ins|, ins[m]))
  {
    var front, last := Gathered(e, part, ins, m), Shares(e, part, m, |ins|, ins[m]);
    forall j | 0 <= j < |front|
      ensures Gathered(e, part, ins, m + 1)[j] == front[j] + last[j]
    {
      OneMoreStream(RoutedAll(e, part, ins, j), m);
    }
    TotalSum(front, last, Gathered(e, part, ins, m + 1));
  }

  ghost predicate Kept(e: Engine, part: Option<Partitioning>, ins: seq<Stream>, m: nat)
    requires m <= |ins|
  {
    Total(Gathered(e, part, ins, m)) == multiset(Concat(Concat(ins[..m])))
  }

  lemma KeptNext(e: Engine, part: Option<Partitioning>, ins: seq<Stream>, m: nat)
    requires m < |ins| && Kept(e, part, ins, m)
    ensures Kept(e, part, ins, m + 1)
  {
    OneMoreInput(e, part, ins, m);
    StreamKept(e, part, m, |ins|, ins[m]);
    OneMoreStream(ins, m);
  }

  lemma KeptFirst(e: Engine, part: Option<Partitioning>, ins: seq<Stream>)
    ensures Kept(e, part, ins, 0)
  {
    TotalNothing(Gathered(e, part, ins, 0));
  }

  lemma {:induction false} KeptOn(e: Engine, part: Option<Partitioning>, ins: seq<Stream>, k: nat, m: nat)
    requires k <= m <= |ins| && Kept(e, part, ins, k)
    ensures Kept(e, part, ins, m)
    decreases m - k
  {
    if k < m {
      KeptNext(e, part, ins, k);
      KeptOn(e, part, ins, k + 1, m);
    }
  }

  lemma OutputsGathered(e: Engine, part: Partitioning, ins: seq<Stream>)
    requires !part.Unknown?
    ensures Contents(Exchange(e, part, ins)) == Gathered(e, Some(part), ins, |ins|)
  {
    forall j | 0 <= j < part.count
      ensures Contents(Exchange(e, part, ins))[j] == Gathered(e, Some(part), ins, |ins|)[j]
    {
      var routed := RoutedAll(e, Some(part), ins, j);
      assert routed[..|ins|] == routed;
    }
  }

  /** An exchange loses no row, doubles none and makes none up. */
  lemma ExchangeKeepsRows(e: Engine, part: Partitioning, ins: seq<Stream>)
    requires !part.Unknown?
    ensures multiset(Concat(Concat(Exchange(e, part, ins)))) == multiset(Concat(Concat(ins)))
  {
    ConcatContents(Exchange(e, part, ins));
    OutputsGathered(e, part, ins);
    KeptFirst(e, Some(part), ins);
    KeptOn(e, Some(part), ins, 0, |ins|);
    assert ins[..|ins|] == ins;
  }

  lemma {:induction false} InSome<T>(ss: seq<seq<T>>, x: T) returns (i: nat)
    requires x in Concat(ss)
    ensures i < |ss| && x in ss[i]
  {
    if x in ss[|ss| - 1] {
      i := |ss| - 1;
    } else {
      i := InSome(ss[..|ss| - 1], x);
    }
  }

  lemma {:induction false} InConcat<T>(ss: seq<seq<T>>, s: seq<T>, x: T)
    requires s in ss && x in s
    ensures x in Concat(ss)
  {
    if s != ss[|ss| - 1] {
      InConcat(ss[..|ss| - 1], s, x);
    }
  }

  /** A row comes out of a hash exchange only where its hash says. */
  lemma HashPlaces(e: Engine, key: int, n: pos, ins: seq<Stream>, j: nat, row: Row)
    requires j < n && row in Concat(Exchange(e, Hash(key, n), ins)[j])
    ensures e.hash(key, row) % n == j
  {
    var routed := RoutedAll(e, Some(Hash(key, n)), ins, j);
    var k := InSome(Concat(routed), row);
    var p := InSome(routed, Concat(routed)[k]);
    var rows := Concat(routed[p]);
    InConcat(routed[p], Concat(routed)[k], row);
    var at := HashOutput(e, key, n, p, |ins|, ins[p], j);
    var i :| 0 <= i < |rows| && rows[i] == row;
    assert HashesTo(e, key, n, j)(at[i], Concat(ins[p])[at[i]]);
  }
}
