/**
 The wildcard matcher of the catalog: a greedy leftmost search, against what
 matching a pattern means.
 */
module Glob {
  import opened Options

  predicate Wildcard(c: char) {
    c == '*' || c == '%'
  }

  /** ASCII letters only. */
  function Lower(c: char): char {
    if 'A' <= c <= 'Z' then (c as int + 32) as char else c
  }

  predicate SameLetter(a: char, b: char) {
    Lower(a) == Lower(b)
  }

  /** What a pattern means: it matches `s[from..to]` if a wildcard stands for any
      run of characters and everything else for itself, whatever the case. */
  predicate Matches(p: string, s: string, from: nat, to: nat)
    requires to <= |s|
    decreases |p|, to - from
  {
    if |p| == 0 then from == to
    else if Wildcard(p[0]) then
      from <= to && (Matches(p[1..], s, from, to) || (from < to && Matches(p, s, from + 1, to)))
    else from < to && SameLetter(p[0], s[from]) && Matches(p[1..], s, from + 1, to)
  }

  /** An upper-case ASCII letter and its lower-case one. */
  predicate Cases(upper: char, lower: char) {
    'A' <= upper <= 'Z' && 'a' <= lower <= 'z' && upper as int - 'A' as int == lower as int - 'a' as int
  }

  /** Ignoring case: every character matches itself, the two cases of an ASCII letter match
      each other, and nothing else does. */
  lemma CasesMatch(a: char, b: char)
    ensures SameLetter(a, b) <==> a == b || Cases(a, b) || Cases(b, a)
  {
  }

  /** The rest of the pattern matches after some run of characters. */
  predicate AfterSomeRun(p: string, s: string, from: nat, to: nat)
    requires to <= |s|
  {
    exists k: nat :: from <= k <= to && Matches(p, s, k, to)
  }

  lemma LongerRun(p: string, s: string, from: nat, to: nat)
    requires from < to <= |s|
    ensures AfterSomeRun(p, s, from, to) <==> Matches(p, s, from, to) || AfterSomeRun(p, s, from + 1, to)
  {
  }

  /** Both '*' and '%' stand for any run of characters; any other character stands for itself. */
  lemma {:induction false} PatternFirst(c: char, p: string, s: string, from: nat, to: nat)
    requires from <= to <= |s|
    ensures c == '*' || c == '%' ==> (Matches([c] + p, s, from, to) <==> AfterSomeRun(p, s, from, to))
    ensures c != '*' && c != '%' ==>
      (Matches([c] + p, s, from, to) <==>
       from < to && (s[from] == c || Cases(s[from], c) || Cases(c, s[from])) && Matches(p, s, from + 1, to))
    decreases |s| - from
  {
    assert ([c] + p)[1..] == p;
    if from < to {
      LongerRun(p, s, from, to);
      PatternFirst(c, p, s, from + 1, to);
      CasesMatch(c, s[from]);
    }
  }

  // ---------------------------------------------------------------- the matcher

  /** The pieces between wildcards. */
  function Split(p: string): (parts: seq<string>)
    ensures |parts| >= 1
  {
    if |p| == 0 then [""]
    else
      var rest := Split(p[1..]);
      if Wildcard(p[0]) then [""] + rest else [[p[0]] + rest[0]] + rest[1..]
  }

  predicate HasWildcard(p: string) {
    exists i :: 0 <= i < |p| && Wildcard(p[i])
  }

  predicate EndsInWildcard(p: string) {
    |p| > 0 && Wildcard(p[|p| - 1])
  }

  /** `part` stands at position `k`, ignoring case. */
  predicate StandsAt(part: string, s: string, k: nat) {
    k + |part| <= |s| && forall i :: 0 <= i < |part| ==> SameLetter(part[i], s[k + i])
  }

  /** The leftmost place of `part` from `pos` on. */
  function Find(part: string, s: string, pos: nat): (k: Option<nat>)
    requires pos <= |s|
    ensures k.Some? ==> pos <= k.value && StandsAt(part, s, k.value)
    ensures k.Some? ==> forall m :: pos <= m < k.value ==> !StandsAt(part, s, m)
    ensures k.None? ==> forall m :: pos <= m ==> !StandsAt(part, s, m)
    decreases |s| - pos
  {
    if StandsAt(part, s, pos) then Some(pos)
    else if pos == |s| then None
    else Find(part, s, pos + 1)
  }

  /** Place the pieces from number `i` on, each at its leftmost place; the first
      one has to stand at the very start. */
  function Greedy(parts: seq<string>, i: nat, s: string, pos: nat): (end: Option<nat>)
    requires i <= |parts| && pos <= |s|
    ensures end.Some? ==> pos <= end.value <= |s|
    decreases |parts| - i
  {
    if i == |parts| then Some(pos)
    else if |parts[i]| == 0 then Greedy(parts, i + 1, s, pos)
    else
      match Find(parts[i], s, pos)
      case None => None
      case Some(k) => if i == 0 && k != 0 then None else Greedy(parts, i + 1, s, k + |parts[i]|)
  }

  function GreedyMatch(p: string, s: string): bool {
    if !HasWildcard(p) then |p| == |s| && StandsAt(p, s, 0)
    else
      var parts := Split(p);
      match Greedy(parts, 0, s, 0)
      case None => false
      case Some(pos) => |parts[|parts| - 1]| == 0 || pos == |s|
  }

  /** Some proper prefix of `s` matches already. */
  predicate MatchesEarlier(p: string, s: string) {
    exists k: nat :: k < |s| && Matches(p, s, 0, k)
  }

  /** The pieces from number `i` on match `s[from..to]`: the first one right at
      the start, each of the others anywhere behind. */
  ghost predicate Laid(parts: seq<string>, i: nat, s: string, from: nat, to: nat)
    requires i < |parts| && to <= |s|
    decreases |parts| - i, 0
  {
    StandsAt(parts[i], s, from) && LaidAfter(parts, i + 1, s, from + |parts[i]|, to)
  }

  ghost predicate LaidAfter(parts: seq<string>, i: nat, s: string, from: nat, to: nat)
    requires i <= |parts| && to <= |s|
    decreases |parts| - i, 1
  {
    if i == |parts| then from == to
    else exists k :: from <= k && Laid(parts, i, s, k, to)
  }

  lemma {:induction false} LaidFits(parts: seq<string>, i: nat, s: string, from: nat, to: nat)
    requires i < |parts| && to <= |s| && Laid(parts, i, s, from, to)
    ensures from + |parts[i]| <= to
    decreases |parts| - i
  {
    if i + 1 < |parts| {
      var k :| from + |parts[i]| <= k && Laid(parts, i + 1, s, k, to);
      LaidFits(parts, i + 1, s, k, to);
    }
  }

  lemma HeadStands(c: char, part: string, s: string, from: nat)
    ensures StandsAt([c] + part, s, from) <==> from < |s| && SameLetter(c, s[from]) && StandsAt(part, s, from + 1)
  {
    var whole := [c] + part;
    assert forall i :: 0 <= i < |part| ==> whole[i + 1] == part[i];
    if from < |s| && SameLetter(c, s[from]) && StandsAt(part, s, from + 1) {
      forall i | 0 <= i < |whole|
        ensures SameLetter(whole[i], s[from + i])
      {
        if i > 0 {
          assert SameLetter(part[i - 1], s[from + 1 + (i - 1)]);
        }
      }
    }
    if StandsAt(whole, s, from) {
      assert SameLetter(whole[0], s[from]);
      forall i | 0 <= i < |part|
        ensures SameLetter(part[i], s[from + 1 + i])
      {
        assert SameLetter(whole[i + 1], s[from + (i + 1)]);
      }
    }
  }

  lemma {:induction false} TailLaid(a: seq<string>, b: seq<string>, i: nat, s: string, from: nat, to: nat)
    requires 1 <= i <= |a| == |b| && to <= |s| && a[1..] == b[1..]
    ensures LaidAfter(a, i, s, from, to) <==> LaidAfter(b, i, s, from, to)
    decreases |a| - i
  {
    if i < |a| {
      assert a[i] == a[1..][i - 1] == b[i];
      forall k: nat
        ensures Laid(a, i, s, k, to) <==> Laid(b, i, s, k, to)
      {
        TailLaid(a, b, i + 1, s, k + |a[i]|, to);
      }
    }
  }

  lemma {:induction false} LaidHead(c: char, parts: seq<string>, s: string, from: nat, to: nat)
    requires |parts| > 0 && to <= |s|
    ensures Laid([[c] + parts[0]] + parts[1..], 0, s, from, to) <==>
            from < to && SameLetter(c, s[from]) && Laid(parts, 0, s, from + 1, to)
  {
    var more := [[c] + parts[0]] + parts[1..];
    HeadStands(c, parts[0], s, from);
    TailLaid(parts, more, 1, s, from + 1 + |parts[0]|, to);
    if Laid(more, 0, s, from, to) {
      LaidFits(more, 0, s, from, to);
    }
  }

  /** A pattern means that its pieces can be laid out in order. */
  lemma {:induction false} MatchesIsLaid(p: string, s: string, from: nat, to: nat)
    requires to <= |s|
    ensures Matches(p, s, from, to) <==> Laid(Split(p), 0, s, from, to)
    decreases |p|, to - from
  {
    var parts := Split(p);
    if |p| == 0 {
      assert LaidAfter(parts, 1, s, from, to) <==> from == to;
    } else {
      var rest := Split(p[1..]);
      if Wildcard(p[0]) {
        WildcardIsLaid(p, s, from, to);
      } else {
        MatchesIsLaid(p[1..], s, from + 1, to);
        LaidHead(p[0], rest, s, from, to);
      }
    }
  }

  /** A layout whose last piece is empty extends to the end. */
  lemma {:induction false} OpenEnd(parts: seq<string>, i: nat, s: string, from: nat, to: nat)
    requires 1 <= i < |parts| && to <= |s| && |parts[|parts| - 1]| == 0
    requires LaidAfter(parts, i, s, from, to)
    ensures LaidAfter(parts, i, s, from, |s|)
    decreases |parts| - i
  {
    var k :| from <= k && Laid(parts, i, s, k, to);
    if i == |parts| - 1 {
      assert Laid(parts, i, s, |s|, |s|);
    } else {
      OpenEnd(parts, i + 1, s, k + |parts[i]|, to);
      assert Laid(parts, i, s, k, |s|);
    }
  }

  /** Whatever layout there is behind `from`, the greedy one behind an earlier
      position ends no later. */
  lemma {:induction false} GreedyMinimal(parts: seq<string>, i: nat, s: string, pos: nat, from: nat, to: nat)
    requires 1 <= i <= |parts| && pos <= from && to <= |s| && pos <= |s|
    requires LaidAfter(parts, i, s, from, to)
    ensures Greedy(parts, i, s, pos).Some? && Greedy(parts, i, s, pos).value <= to
    decreases |parts| - i
  {
    if i < |parts| {
      var k :| from <= k && Laid(parts, i, s, k, to);
      LaidFits(parts, i, s, k, to);
      if |parts[i]| == 0 {
        GreedyMinimal(parts, i + 1, s, pos, k, to);
      } else {
        var m := Find(parts[i], s, pos);
        assert StandsAt(parts[i], s, k);
        GreedyMinimal(parts, i + 1, s, m.value + |parts[i]|, k + |parts[i]|, to);
      }
    }
  }

  /** The greedy search finds a layout. */
  lemma {:induction false} GreedyLays(parts: seq<string>, i: nat, s: string, pos: nat)
    requires 1 <= i <= |parts| && pos <= |s| && Greedy(parts, i, s, pos).Some?
    ensures LaidAfter(parts, i, s, pos, Greedy(parts, i, s, pos).value)
    decreases |parts| - i
  {
    if i < |parts| {
      var to := Greedy(parts, i, s, pos).value;
      if |parts[i]| == 0 {
        GreedyLays(parts, i + 1, s, pos);
        assert Laid(parts, i, s, pos, to);
      } else {
        var k := Find(parts[i], s, pos).value;
        GreedyLays(parts, i + 1, s, k + |parts[i]|);
        assert Laid(parts, i, s, k, to);
      }
    }
  }

  lemma FirstPiece(part: string, s: string)
    ensures StandsAt(part, s, 0) <==> Find(part, s, 0) == Some(0)
  {
  }

  /** The greedy search from the start: it succeeds if any layout exists, and ends first. */
  lemma GreedyFromStart(parts: seq<string>, s: string, to: nat)
    requires |parts| >= 1 && to <= |s|
    ensures Laid(parts, 0, s, 0, to) ==> Greedy(parts, 0, s, 0).Some? && Greedy(parts, 0, s, 0).value <= to
    ensures Greedy(parts, 0, s, 0) == Some(to) ==> Laid(parts, 0, s, 0, to)
  {
    FirstPiece(parts[0], s);
    if Laid(parts, 0, s, 0, to) {
      GreedyMinimal(parts, 1, s, |parts[0]|, |parts[0]|, to);
    }
    if Greedy(parts, 0, s, 0) == Some(to) {
      GreedyLays(parts, 1, s, |parts[0]|);
    }
  }

  lemma {:induction false} SplitShape(p: string)
    ensures |Split(p)| == 1 <==> !HasWildcard(p)
    ensures !HasWildcard(p) ==> Split(p) == [p]
    ensures |Split(p)[|Split(p)| - 1]| == 0 <==> |p| == 0 || EndsInWildcard(p)
  {
    if |p| > 0 {
      var q := p[1..];
      SplitShape(q);
      if HasWildcard(q) {
        var i :| 0 <= i < |q| && Wildcard(q[i]);
        assert Wildcard(p[i + 1]);
      }
      if HasWildcard(p) {
        var i :| 0 <= i < |p| && Wildcard(p[i]);
        if i > 0 {
          assert Wildcard(q[i - 1]);
        }
      }
      assert HasWildcard(p) <==> Wildcard(p[0]) || HasWildcard(q);
      assert [p[0]] + q == p;
      assert |q| > 0 ==> q[|q| - 1] == p[|p| - 1];
    }
  }

  lemma LiteralMatches(p: string, s: string)
    requires !HasWildcard(p)
    ensures Matches(p, s, 0, |s|) <==> |p| == |s| && StandsAt(p, s, 0)
    ensures Matches(p, s, 0, |s|) ==> !MatchesEarlier(p, s)
  {
    SplitShape(p);
    forall k: nat | k <= |s|
      ensures Matches(p, s, 0, k) <==> k == |p| && StandsAt(p, s, 0)
    {
      MatchesIsLaid(p, s, 0, k);
      assert LaidAfter([p], 1, s, |p|, k) <==> |p| == k;
    }
  }

  /** The matcher accepts exactly the strings that match and, unless the pattern
      ends in a wildcard, of which no proper prefix matches.  So it is
      never wrong to say yes, and complete for patterns ending in a wildcard. */
  lemma GreedyMatchExact(p: string, s: string)
    ensures GreedyMatch(p, s) <==> Matches(p, s, 0, |s|) && (EndsInWildcard(p) || !MatchesEarlier(p, s))
  {
    if !HasWildcard(p) {
      LiteralMatches(p, s);
      assert EndsInWildcard(p) ==> HasWildcard(p);
    } else {
      var parts := Split(p);
      SplitShape(p);
      forall k: nat | k <= |s|
        ensures Matches(p, s, 0, k) <==> Laid(parts, 0, s, 0, k)
        ensures Laid(parts, 0, s, 0, k) ==> Greedy(parts, 0, s, 0).Some? && Greedy(parts, 0, s, 0).value <= k
      {
        MatchesIsLaid(p, s, 0, k);
        GreedyFromStart(parts, s, k);
      }
      if Greedy(parts, 0, s, 0).Some? {
        var to := Greedy(parts, 0, s, 0).value;
        GreedyFromStart(parts, s, to);
        if EndsInWildcard(p) {
          OpenEnd(parts, 1, s, |parts[0]|, to);
        }
      }
    }
  }

  method GlobLike(p: string, s: string) returns (r: bool)
    ensures r == GreedyMatch(p, s)
    ensures r <==> Matches(p, s, 0, |s|) && (EndsInWildcard(p) || !MatchesEarlier(p, s))
  {
    GreedyMatchExact(p, s);
    if !HasWildcard(p) {
      return |p| == |s| && StandsAt(p, s, 0);
    }
    var parts := Split(p);
    var pos: nat := 0;
    for i := 0 to |parts|
      invariant pos <= |s|
      invariant Greedy(parts, 0, s, 0) == Greedy(parts, i, s, pos)
    {
      var part := parts[i];
      if |part| == 0 {
        continue;
      }
      match Find(part, s, pos) {
        case Some(k) =>
          if i == 0 && k != 0 {
            return false;
          }
          pos := k + |part|;
        case None => return false;
      }
    }
    r := |parts[|parts| - 1]| == 0 || pos == |s|;
  }

  // ---------------------------------------------------------------- patterns as pieces

  lemma {:induction false} LaidShift(parts: seq<string>, more: seq<string>, i: nat, s: string, from: nat, to: nat)
    requires i < |parts| && to <= |s| && |more| == |parts| + 1 && more[1..] == parts
    ensures Laid(more, i + 1, s, from, to) <==> Laid(parts, i, s, from, to)
    decreases |parts| - i
  {
    assert more[i + 1] == more[1..][i] == parts[i];
    var a, b := i + 2, i + 1;
    if b < |parts| {
      forall k: nat
        ensures Laid(more, a, s, k, to) <==> Laid(parts, b, s, k, to)
      {
        LaidShift(parts, more, b, s, k, to);
      }
    }
    assert LaidAfter(more, a, s, from + |parts[i]|, to) <==> LaidAfter(parts, b, s, from + |parts[i]|, to);
  }

  lemma {:induction false} WildcardIsLaid(p: string, s: string, from: nat, to: nat)
    requires to <= |s| && |p| > 0 && Wildcard(p[0])
    ensures Matches(p, s, from, to) <==> Laid(Split(p), 0, s, from, to)
    decreases |p|, to - from, 0
  {
    var parts, rest := Split(p), Split(p[1..]);
    forall k: nat
      ensures Laid(parts, 1, s, k, to) <==> Laid(rest, 0, s, k, to)
    {
      LaidShift(rest, parts, 0, s, k, to);
    }
    if from <= to {
      MatchesIsLaid(p[1..], s, from, to);
      if from < to {
        MatchesIsLaid(p, s, from + 1, to);
      }
    }
    forall k: nat | Laid(rest, 0, s, k, to)
      ensures k <= to
    {
      LaidFits(rest, 0, s, k, to);
    }
    assert Laid(parts, 0, s, from, to) <==> LaidAfter(parts, 1, s, from, to);
    if LaidAfter(parts, 1, s, from, to) {
      var k :| from <= k && Laid(parts, 1, s, k, to);
      assert Laid(rest, 0, s, k, to);
      if k > from {
        assert LaidAfter(parts, 1, s, from + 1, to);
      }
    }
    if from <= to && Laid(rest, 0, s, from, to) {
      assert Laid(parts, 1, s, from, to);
    }
  }

  // ---------------------------------------------------------------- greedy is minimal

  /** A pattern ending in a letter can miss: "*a" matches "aa", but the search
      takes the first letter and stops short of the end. */
  lemma LiteralEndingMisses()
    ensures Matches("*a", "aa", 0, 2) && !GreedyMatch("*a", "aa")
  {
    var p, s := "*a", "aa";
    assert p[1..] == "a" && p[1..][1..] == "";
    assert Matches(p[1..], s, 1, 2);
    assert Matches(p, s, 1, 2);
    assert Matches(p[1..], s, 0, 1);
    assert Matches(p, s, 0, 1);
    assert MatchesEarlier(p, s);
    GreedyMatchExact(p, s);
  }
}
