/** The usual optional value, and the few facts about sequences every module needs. */
module Options {
  datatype Option<+T> = None | Some(value: T)

  function Concat<T>(ss: seq<seq<T>>): seq<T> {
    if |ss| == 0 then [] else Concat(ss[..|ss| - 1]) + ss[|ss| - 1]
  }

  /** Concatenation distributes over appending. */
  lemma {:induction false} ConcatAppend<T>(a: seq<seq<T>>, b: seq<seq<T>>)
    ensures Concat(a + b) == Concat(a) + Concat(b)
  {
    if |b| == 0 {
      assert a + b == a;
    } else {
      var ab := a + b;
      assert ab[..|ab| - 1] == a + b[..|b| - 1];
      ConcatAppend(a, b[..|b| - 1]);
    }
  }

  lemma ConcatOne<T>(s: seq<T>)
    ensures Concat([s]) == s
  {
    assert [s][..0] == [];
    assert Concat([s]) == Concat<T>([]) + s;
  }

  lemma {:induction false} ConcatNothing<T>(ss: seq<seq<T>>)
    requires forall i :: 0 <= i < |ss| ==> ss[i] == []
    ensures Concat(ss) == []
  {
    if |ss| > 0 {
      ConcatNothing(ss[..|ss| - 1]);
    }
  }

  lemma {:induction false} ConcatOnly<T>(ss: seq<seq<T>>, j: nat)
    requires j < |ss| && forall i :: 0 <= i < |ss| && i != j ==> ss[i] == []
    ensures Concat(ss) == ss[j]
  {
    if j == |ss| - 1 {
      ConcatNothing(ss[..j]);
    } else {
      ConcatOnly(ss[..|ss| - 1], j);
    }
  }
}
