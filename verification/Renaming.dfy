/**
 Renaming a catalog or schema in the document store: every document below the old
 name moves under the new one.
 */
module Renaming {
  import opened Options
  import opened TaskKeys

  datatype Kind = Catalog | Schema | Table | Volume | Routine | Model

  datatype Key = Key(kind: Kind, name: string)

  /** The fields a rename touches, and the rest. */
  datatype Doc = Doc(name: string, fullName: string, parent: Option<string>, catalog: string, schema: string, body: int)

  type Store = map<Key, Doc>

  const LIST_LIMIT: nat := 10_000
  const DEFAULT_CATALOG := "main"

  // ---------------------------------------------------------------- names

  /** The name starts with `root` and a dot. */
  predicate Under(x: string, root: string) {
    |root| < |x| && x[..|root|] == root && x[|root|] == '.'
  }

  function Moved(x: string, from: string, to: string): (y: string)
    requires Under(x, from)
    ensures Under(y, to) && y[|to|..] == x[|from|..]
  {
    to + x[|from|..]
  }

  /** Everything before the last dot. */
  function Parent(name: string): Option<string> {
    match CutLast(name, '.')
    case None => None
    case Some((front, _)) => Some(front)
  }

  /** Catalog and schema of a table-like name; short names fall back to defaults. */
  function SplitName(name: string): (string, string) {
    match CutLast(name, '.')
    case None => (DEFAULT_CATALOG, "default")
    case Some((front, _)) =>
      match CutLast(front, '.')
      case None => (DEFAULT_CATALOG, front)
      case Some((catalog, schema)) => if '.' in catalog then (DEFAULT_CATALOG, "default") else (catalog, schema)
  }

  ghost predicate Sibling(from: string, to: string, prefix: string, a: string, b: string) {
    from == prefix + a && to == prefix + b && a != b && '.' !in a && '.' !in b
  }

  /** `to` is `from` with its last component replaced. */
  ghost predicate Siblings(from: string, to: string) {
    exists prefix: string, a: string, b: string :: Sibling(from, to, prefix, a, b)
  }

  lemma FirstDot(x: string, prefix: string, a: string)
    requires Under(x, prefix + a) && '.' !in a
    ensures |prefix| + |a| < |x| && x[|prefix| + |a|] == '.'
    ensures forall i :: |prefix| <= i < |prefix| + |a| ==> x[i] != '.'
    ensures x[|prefix|..|prefix| + |a|] == a
  {
    var root := prefix + a;
    assert root[|prefix|..] == a;
    forall i | |prefix| <= i < |root|
      ensures x[i] == a[i - |prefix|]
    {
      assert x[i] == x[..|root|][i] == root[i];
    }
  }

  lemma SameSibling(x: string, prefix: string, a: string, b: string)
    requires Under(x, prefix + a) && Under(x, prefix + b) && '.' !in a && '.' !in b
    ensures a == b
  {
    FirstDot(x, prefix, a);
    FirstDot(x, prefix, b);
  }

  /** Nothing is under two different siblings. */
  lemma ApartUnder(x: string, from: string, to: string)
    requires Siblings(from, to) && Under(x, from)
    ensures !Under(x, to)
  {
    var prefix: string, a: string, b: string :| Sibling(from, to, prefix, a, b);
    if Under(x, to) {
      SameSibling(x, prefix, a, b);
    }
  }

  // ---------------------------------------------------------------- moving documents

  function Target(k: Key, from: string, to: string): Key
    requires Under(k.name, from)
  {
    Key(k.kind, Moved(k.name, from, to))
  }

  function Source(k: Key, from: string, to: string): Key
    requires Under(k.name, to)
  {
    Key(k.kind, Moved(k.name, to, from))
  }

  lemma SourceOfTarget(k: Key, from: string, to: string)
    requires Under(k.name, from)
    ensures Source(Target(k, from, to), from, to) == k
  {
    var y := Moved(k.name, from, to);
    assert from + k.name[|from|..] == k.name;
  }

  lemma TargetOfSource(k: Key, from: string, to: string)
    requires Under(k.name, to)
    ensures Target(Source(k, from, to), from, to) == k
  {
    assert to + k.name[|to|..] == k.name;
    assert Moved(k.name, to, from)[|from|..] == k.name[|to|..];
  }

  /** The document under its new full name. */
  function Rekeyed(kind: Kind, d: Doc, full: string, to: string): Doc {
    var moved := d.(fullName := full, parent := Parent(full));
    if kind.Schema? then moved.(catalog := to)
    else
      var (c, s) := SplitName(full);
      moved.(catalog := c, schema := s)
  }

  ghost predicate AllUnder(moved: set<Key>, from: string) {
    forall k :: k in moved ==> Under(k.name, from)
  }

  ghost predicate Comes(k: Key, moved: set<Key>, from: string, to: string) {
    Under(k.name, to) && Source(k, from, to) in moved
  }

  function Entry(docs: Store, k: Key): Option<Doc> {
    if k in docs then Some(docs[k]) else None
  }

  /** What is under a key once `moved` is under the new names and the rest as it was. */
  ghost function After(start: Store, moved: set<Key>, from: string, to: string, k: Key): Option<Doc>
    requires moved <= start.Keys
  {
    if Comes(k, moved, from, to) then Some(Rekeyed(k.kind, start[Source(k, from, to)], k.name, to))
    else if k in moved then None
    else Entry(start, k)
  }

  ghost predicate ImageAt(docs: Store, start: Store, moved: set<Key>, from: string, to: string, k: Key)
    requires moved <= start.Keys
  {
    Entry(docs, k) == After(start, moved, from, to, k)
  }

  ghost predicate Image(docs: Store, start: Store, moved: set<Key>, from: string, to: string)
    requires moved <= start.Keys
  {
    forall k :: ImageAt(docs, start, moved, from, to, k)
  }

  /** No document is yet where one of `keys` is to go. */
  ghost predicate Free(start: Store, keys: set<Key>, from: string, to: string) {
    forall k :: k in keys && Under(k.name, from) ==> Target(k, from, to) !in start
  }

  /** The documents of `moved` have been moved, and nothing else has changed. */
  ghost predicate MovedSoFar(docs: Store, start: Store, moved: set<Key>, from: string, to: string) {
    && Siblings(from, to)
    && AllUnder(moved, from) && moved <= start.Keys && Free(start, moved, from, to)
    && Image(docs, start, moved, from, to) && |docs| == |start|
  }

  /** The same, but the document `lost` was deleted and its new name found taken. */
  ghost predicate LostOne(docs: Store, start: Store, moved: set<Key>, from: string, to: string, lost: Key) {
    && lost in start && lost !in docs && lost !in moved && Under(lost.name, from) && Target(lost, from, to) in start
    && MovedSoFar(docs[lost := start[lost]], start, moved, from, to) && |docs| == |start| - 1
  }

  lemma NothingMoved(start: Store, from: string, to: string)
    requires Siblings(from, to)
    ensures MovedSoFar(start, start, {}, from, to)
  {
  }

  lemma ComesMore(x: Key, moved: set<Key>, from: string, to: string, k: Key)
    requires Under(k.name, from)
    ensures Comes(x, moved + {k}, from, to) <==> Comes(x, moved, from, to) || x == Target(k, from, to)
  {
    SourceOfTarget(k, from, to);
    if Under(x.name, to) {
      TargetOfSource(x, from, to);
    }
  }

  /** A document that has not moved is where it was, and its new name is taken
      exactly if it was at the start. */
  lemma StillThere(docs: Store, start: Store, moved: set<Key>, from: string, to: string, k: Key)
    requires MovedSoFar(docs, start, moved, from, to) && k in start && k !in moved && Under(k.name, from)
    ensures k in docs && docs[k] == start[k]
    ensures Target(k, from, to) != k
    ensures Target(k, from, to) in docs <==> Target(k, from, to) in start
  {
    var t := Target(k, from, to);
    SourceOfTarget(k, from, to);
    ApartUnder(k.name, from, to);
    assert !Comes(k, moved, from, to) && !Comes(t, moved, from, to);
    assert t !in moved by {
      if t in moved {
        ApartUnder(t.name, from, to);
      }
    }
    assert ImageAt(docs, start, moved, from, to, k) && ImageAt(docs, start, moved, from, to, t);
  }

  lemma ImageStepAt(docs: Store, start: Store, moved: set<Key>, from: string, to: string, k: Key, docs': Store, x: Key)
    requires moved <= start.Keys && k in start && k !in moved && Under(k.name, from)
    requires ImageAt(docs, start, moved, from, to, x)
    requires Target(k, from, to) != k && !Comes(k, moved, from, to)
    requires docs' == (docs - {k})[Target(k, from, to) := Rekeyed(k.kind, start[k], Moved(k.name, from, to), to)]
    ensures ImageAt(docs', start, moved + {k}, from, to, x)
  {
    var t := Target(k, from, to);
    ComesMore(x, moved, from, to, k);
    SourceOfTarget(k, from, to);
    if x != t && x != k {
      assert Entry(docs', x) == Entry(docs, x);
    }
  }

  lemma ImageStep(docs: Store, start: Store, moved: set<Key>, from: string, to: string, k: Key, docs': Store)
    requires MovedSoFar(docs, start, moved, from, to) && k in start && k !in moved && Under(k.name, from)
    requires docs' == (docs - {k})[Target(k, from, to) := Rekeyed(k.kind, start[k], Moved(k.name, from, to), to)]
    ensures Image(docs', start, moved + {k}, from, to)
  {
    StillThere(docs, start, moved, from, to, k);
    ApartUnder(k.name, from, to);
    forall x
      ensures ImageAt(docs', start, moved + {k}, from, to, x)
    {
      assert ImageAt(docs, start, moved, from, to, x);
      ImageStepAt(docs, start, moved, from, to, k, docs', x);
    }
  }

  /** A key replaced by another one: as many documents as before. */
  lemma Replaced(rest: Store, k: Key, d: Doc, t: Key, d': Doc)
    requires k !in rest && t !in rest
    ensures |rest[t := d']| == |rest[k := d]| == |rest| + 1
  {
    assert rest[t := d'].Keys == rest.Keys + {t} && rest[k := d].Keys == rest.Keys + {k};
  }

  lemma MovesOn(docs: Store, start: Store, moved: set<Key>, from: string, to: string, k: Key, docs': Store)
    requires MovedSoFar(docs, start, moved, from, to) && k in start && k !in moved && Under(k.name, from)
    requires Target(k, from, to) !in start
    requires docs' == (docs - {k})[Target(k, from, to) := Rekeyed(k.kind, start[k], Moved(k.name, from, to), to)]
    ensures MovedSoFar(docs', start, moved + {k}, from, to)
  {
    ImageStep(docs, start, moved, from, to, k, docs');
    StillThere(docs, start, moved, from, to, k);
    var rest, t := docs - {k}, Target(k, from, to);
    assert rest[k := docs[k]] == docs;
    Replaced(rest, k, docs[k], t, Rekeyed(k.kind, start[k], t.name, to));
  }

  lemma LosesOne(docs: Store, start: Store, moved: set<Key>, from: string, to: string, k: Key)
    requires MovedSoFar(docs, start, moved, from, to) && k in start && k !in moved && Under(k.name, from)
    requires Target(k, from, to) in start
    ensures LostOne(docs - {k}, start, moved, from, to, k)
  {
    StillThere(docs, start, moved, from, to, k);
    var rest := docs - {k};
    assert rest[k := start[k]] == docs && docs.Keys == rest.Keys + {k};
  }

  lemma MoveOne(docs: Store, start: Store, moved: set<Key>, from: string, to: string, k: Key)
    requires MovedSoFar(docs, start, moved, from, to) && k in start && k !in moved && Under(k.name, from)
    ensures k in docs && docs[k] == start[k]
    ensures var rest, t := docs - {k}, Target(k, from, to);
      if t in rest then LostOne(rest, start, moved, from, to, k)
      else MovedSoFar(rest[t := Rekeyed(k.kind, docs[k], t.name, to)], start, moved + {k}, from, to)
  {
    StillThere(docs, start, moved, from, to, k);
    var rest, t := docs - {k}, Target(k, from, to);
    if t in rest {
      LosesOne(docs, start, moved, from, to, k);
    } else {
      MovesOn(docs, start, moved, from, to, k, rest[t := Rekeyed(k.kind, docs[k], t.name, to)]);
    }
  }

  // ---------------------------------------------------------------- listings

  function Below(docs: Store, kind: Kind, from: string): set<Key> {
    set k | k in docs && k.kind == kind && Under(k.name, from)
  }

  const CHILD_KINDS: seq<Kind> := [Schema, Table, Volume, Routine, Model]

  function Children(docs: Store, from: string): set<Key> {
    set k | k in docs && k.kind in CHILD_KINDS && Under(k.name, from)
  }

  /** No kind has more children than one listing returns. */
  ghost predicate WithinLimit(docs: Store, from: string) {
    forall n :: 0 <= n < |CHILD_KINDS| ==> |Below(docs, CHILD_KINDS[n], from)| <= LIST_LIMIT
  }

  ghost predicate NoneOf(moved: set<Key>, kind: Kind) {
    forall k :: k in moved ==> k.kind != kind
  }

  /** Under the old name is what was there and has not moved. */
  lemma UnderOld(docs: Store, start: Store, moved: set<Key>, from: string, to: string, k: Key)
    requires MovedSoFar(docs, start, moved, from, to) && Under(k.name, from)
    ensures k in docs <==> k in start && k !in moved
  {
    ApartUnder(k.name, from, to);
    assert ImageAt(docs, start, moved, from, to, k);
  }

  lemma BelowStays(docs: Store, start: Store, moved: set<Key>, from: string, to: string, kind: Kind)
    requires MovedSoFar(docs, start, moved, from, to) && NoneOf(moved, kind)
    ensures Below(docs, kind, from) == Below(start, kind, from)
  {
    forall k: Key | k.kind == kind && Under(k.name, from)
      ensures k in docs <==> k in start
    {
      UnderOld(docs, start, moved, from, to, k);
    }
  }

  lemma SubsetSize<T>(a: set<T>, b: set<T>)
    requires a <= b
    ensures |a| <= |b| && (|a| == |b| ==> a == b)
  {
    assert b == a + (b - a);
  }

  lemma FoundAll(found: set<Key>, all: set<Key>)
    requires found <= all && |found| == if |all| <= LIST_LIMIT then |all| else LIST_LIMIT
    ensures all <= found <==> |all| <= LIST_LIMIT
  {
    SubsetSize(found, all);
    if all <= found {
      assert found == all;
    }
  }

  ghost predicate KindDone(start: Store, from: string, kind: Kind, moved: set<Key>) {
    Below(start, kind, from) <= moved <==> |Below(start, kind, from)| <= LIST_LIMIT
  }

  /** The first `i` kinds have been moved, as far as the listings went. */
  ghost predicate KindsDone(start: Store, from: string, kinds: seq<Kind>, i: nat, moved: set<Key>)
    requires i <= |kinds|
  {
    && (forall k :: k in moved ==> k.kind in kinds[..i])
    && forall n :: 0 <= n < i ==> KindDone(start, from, kinds[n], moved)
  }

  lemma NotYet(start: Store, from: string, kinds: seq<Kind>, i: nat, moved: set<Key>)
    requires kinds == CHILD_KINDS && i < |kinds| && KindsDone(start, from, kinds, i, moved)
    ensures NoneOf(moved, kinds[i])
  {
    forall k | k in moved
      ensures k.kind != kinds[i]
    {
      var n :| 0 <= n < i && kinds[..i][n] == k.kind;
    }
  }

  lemma KindSeen(kinds: seq<Kind>, i: nat, kind: Kind)
    requires i < |kinds| && (kind in kinds[..i] || kind == kinds[i])
    ensures kind in kinds[..i + 1]
  {
    assert kinds[..i + 1] == kinds[..i] + [kinds[i]];
  }

  lemma OtherKind(start: Store, from: string, a: Kind, b: Kind, before: set<Key>, moved: set<Key>)
    requires a != b && before <= moved <= before + Below(start, b, from) && KindDone(start, from, a, before)
    ensures KindDone(start, from, a, moved)
  {
  }

  lemma DistinctKinds(n: nat, i: nat)
    requires n < i < |CHILD_KINDS|
    ensures CHILD_KINDS[n] != CHILD_KINDS[i]
  {
  }

  lemma KindsApart(start: Store, from: string, kinds: seq<Kind>, i: nat, before: set<Key>, moved: set<Key>)
    requires kinds == CHILD_KINDS && i < |kinds| && KindsDone(start, from, kinds, i, before)
    requires before <= moved <= before + Below(start, kinds[i], from)
    requires KindDone(start, from, kinds[i], moved)
    ensures KindsDone(start, from, kinds, i + 1, moved)
  {
    forall k | k in moved
      ensures k.kind in kinds[..i + 1]
    {
      KindSeen(kinds, i, k.kind);
    }
    forall n: nat | n < i
      ensures KindDone(start, from, kinds[n], moved)
    {
      DistinctKinds(n, i);
      OtherKind(start, from, kinds[n], kinds[i], before, moved);
    }
  }

  lemma AllKinds(start: Store, from: string, moved: set<Key>)
    requires KindsDone(start, from, CHILD_KINDS, |CHILD_KINDS|, moved)
    ensures Children(start, from) <= moved <==> WithinLimit(start, from)
  {
    if Children(start, from) <= moved {
      forall n | 0 <= n < |CHILD_KINDS|
        ensures |Below(start, CHILD_KINDS[n], from)| <= LIST_LIMIT
      {
        assert Below(start, CHILD_KINDS[n], from) <= Children(start, from);
        assert KindDone(start, from, CHILD_KINDS[n], moved);
      }
    }
    if WithinLimit(start, from) {
      forall k | k in Children(start, from)
        ensures k in moved
      {
        var n :| 0 <= n < |CHILD_KINDS| && CHILD_KINDS[n] == k.kind;
        assert k in Below(start, CHILD_KINDS[n], from) && KindDone(start, from, CHILD_KINDS[n], moved);
      }
    }
  }

  function NewName(from: string, newName: string): string {
    match CutLast(from, '.')
    case None => newName
    case Some((prefix, _)) => prefix + "." + newName
  }

  lemma NewNameIsSibling(from: string, newName: string)
    requires '.' !in newName && NewName(from, newName) != from
    ensures Siblings(from, NewName(from, newName))
  {
    match CutLast(from, '.')
    case None => assert Sibling(from, newName, "", from, newName);
    case Some((prefix, last)) => assert Sibling(from, NewName(from, newName), prefix + ".", last, newName);
  }

  function RootRenamed(docs: Store, kind: Kind, from: string, to: string, newName: string): Store
    requires Key(kind, from) in docs
  {
    (docs - {Key(kind, from)})[Key(kind, to) :=
      docs[Key(kind, from)].(name := newName, fullName := to, parent := Parent(from))]
  }

  /** How a rename of everything below a name ends: all listed documents moved, or
      one lost on the way because its new name was taken. */
  datatype Ending = AllMoved(moved: set<Key>) | Stopped(moved: set<Key>, lost: Key)

  ghost predicate Ends(docs: Store, start: Store, from: string, to: string, end: Ending) {
    match end
    case AllMoved(moved) => MovedSoFar(docs, start, moved, from, to)
    case Stopped(moved, lost) => LostOne(docs, start, moved, from, to, lost)
  }

  // ---------------------------------------------------------------- the store

  class Catalogs {
    var docs: Store

    constructor (docs: Store)
      ensures this.docs == docs
    {
      this.docs := docs;
    }

    /** Delete and insert again; if the new name is taken the document is gone. */
    method RenameChild(k: Key, from: string, to: string) returns (ok: bool)
      requires k in docs && Under(k.name, from)
      modifies this
      ensures var rest, t := old(docs) - {k}, Target(k, from, to);
        && ok == (t !in rest)
        && docs == if ok then rest[t := Rekeyed(k.kind, old(docs)[k], t.name, to)] else rest
    {
      var d := docs[k];
      docs := docs - {k};
      var t := Target(k, from, to);
      if t in docs {
        return false;
      }
      docs := docs[t := Rekeyed(k.kind, d, t.name, to)];
      return true;
    }

    /** The documents of a kind below a name, up to the limit. */
    method List(kind: Kind, from: string) returns (found: set<Key>)
      ensures found <= Below(docs, kind, from)
      ensures |found| == if |Below(docs, kind, from)| <= LIST_LIMIT then |Below(docs, kind, from)| else LIST_LIMIT
    {
      found := {};
      var todo := Below(docs, kind, from);
      while todo != {} && |found| < LIST_LIMIT
        invariant found + todo == Below(docs, kind, from) && found !! todo && |found| <= LIST_LIMIT
        decreases |todo|
      {
        var k :| k in todo;
        found, todo := found + {k}, todo - {k};
      }
    }

    method RenameOne(k: Key, from: string, to: string, ghost start: Store, ghost moved: set<Key>) returns (ok: bool)
      requires MovedSoFar(docs, start, moved, from, to) && k in start && k !in moved && Under(k.name, from)
      modifies this
      ensures if ok then MovedSoFar(docs, start, moved + {k}, from, to) else LostOne(docs, start, moved, from, to, k)
    {
      MoveOne(docs, start, moved, from, to, k);
      ok := RenameChild(k, from, to);
    }

    /** Move the documents of one listing, stopping at the first name taken. */
    method MoveFound(found: set<Key>, from: string, to: string, ghost start: Store, ghost before: set<Key>)
      returns (ok: bool, ghost end: Ending)
      requires MovedSoFar(docs, start, before, from, to)
      requires found <= start.Keys && found !! before && AllUnder(found, from)
      modifies this
      ensures Ends(docs, start, from, to, end) && ok == end.AllMoved?
      ensures if ok then end.moved == before + found else end.lost in found
    {
      var todo := found;
      ghost var moved := before;
      while todo != {}
        invariant todo <= found && moved + todo == before + found && moved !! todo
        invariant MovedSoFar(docs, start, moved, from, to)
        decreases |todo|
      {
        var k :| k in todo;
        ok := RenameOne(k, from, to, start, moved);
        if !ok {
          end := Stopped(moved, k);
          return;
        }
        moved, todo := moved + {k}, todo - {k};
      }
      ok, end := true, AllMoved(moved);
    }

    /** Move the children of one kind. */
    method RenameKind(kind: Kind, from: string, to: string, ghost start: Store, ghost before: set<Key>)
      returns (ok: bool, ghost end: Ending)
      requires MovedSoFar(docs, start, before, from, to) && NoneOf(before, kind)
      modifies this
      ensures Ends(docs, start, from, to, end) && ok == end.AllMoved?
      ensures ok ==> before <= end.moved <= before + Below(start, kind, from) && KindDone(start, from, kind, end.moved)
      ensures !ok ==> end.lost in Below(start, kind, from)
    {
      var found := List(kind, from);
      BelowStays(docs, start, before, from, to, kind);
      FoundAll(found, Below(start, kind, from));
      ok, end := MoveFound(found, from, to, start, before);
    }

    /** Move the children of all kinds. */
    method RenameChildren(from: string, to: string) returns (ok: bool, ghost end: Ending)
      requires Siblings(from, to)
      modifies this
      ensures Ends(docs, old(docs), from, to, end) && ok == end.AllMoved?
      ensures ok ==> (Children(old(docs), from) <= end.moved <==> WithinLimit(old(docs), from))
      ensures !ok ==> end.lost in Children(old(docs), from)
    {
      ghost var start := docs;
      NothingMoved(start, from, to);
      var kinds := CHILD_KINDS;
      ghost var moved := {};
      var i := 0;
      while i < |kinds|
        invariant i <= |kinds|
        invariant MovedSoFar(docs, start, moved, from, to) && KindsDone(start, from, kinds, i, moved)
      {
        NotYet(start, from, kinds, i, moved);
        ok, end := RenameKind(kinds[i], from, to, start, moved);
        if !ok {
          return;
        }
        KindsApart(start, from, kinds, i, moved, end.moved);
        moved, i := end.moved, i + 1;
      }
      AllKinds(start, from, moved);
      ok, end := true, AllMoved(moved);
    }

    /** Rename a catalog or schema with everything below it; an error without
        effect if its new name is taken, and a document lost if a child's is. */
    method Rename(kind: Kind, from: string, newName: string) returns (ok: bool, ghost end: Ending)
      requires Key(kind, from) in docs && (kind.Catalog? || kind.Schema?)
      requires '.' !in newName && NewName(from, newName) != from
      modifies this
      ensures var to := NewName(from, newName);
        if Key(kind, to) in old(docs) then !ok && docs == old(docs)
        else
          var start := RootRenamed(old(docs), kind, from, to, newName);
          && Ends(docs, start, from, to, end) && ok == end.AllMoved?
          && |docs| == |old(docs)| - (if ok then 0 else 1)
          && (ok ==> (Children(start, from) <= end.moved <==> WithinLimit(start, from)))
          && (!ok ==> end.lost in Children(start, from))
    {
      var to := NewName(from, newName);
      end := AllMoved({});
      if Key(kind, to) in docs {
        return false, end;
      }
      var root := docs[Key(kind, from)];
      docs := docs - {Key(kind, from)};
      root := root.(name := newName, fullName := to, parent := Parent(from));
      Replaced(docs, Key(kind, from), old(docs)[Key(kind, from)], Key(kind, to), root);
      assert docs[Key(kind, from) := old(docs)[Key(kind, from)]] == old(docs);
      docs := docs[Key(kind, to) := root];
      NewNameIsSibling(from, newName);
      ok, end := RenameChildren(from, to);
    }
  }

  // ---------------------------------------------------------------- what a rename means

  /** If every kind fits one listing, a rename succeeds exactly if no child's new
      name was taken; otherwise exactly one document is lost, and everything
      else is either moved or untouched. */
  lemma RenameOutcome(docs: Store, start: Store, from: string, to: string, end: Ending)
    requires Ends(docs, start, from, to, end) && WithinLimit(start, from)
    requires end.AllMoved? ==> (Children(start, from) <= end.moved <==> WithinLimit(start, from))
    requires end.Stopped? ==> end.lost in Children(start, from)
    ensures end.AllMoved? <==> Free(start, Children(start, from), from, to)
    ensures |docs| == |start| - (if end.AllMoved? then 0 else 1)
    ensures end.Stopped? ==> end.lost !in docs && docs[end.lost := start[end.lost]].Keys == docs.Keys + {end.lost}
  {
    if end.Stopped? {
      assert Under(end.lost.name, from) && Target(end.lost, from, to) in start;
    } else {
      forall k | k in Children(start, from)
        ensures Target(k, from, to) !in start
      {
        assert k in end.moved;
      }
    }
  }

  /** No document is left under the old name exactly if every child was listed. */
  lemma NothingLeft(docs: Store, start: Store, moved: set<Key>, from: string, to: string)
    requires MovedSoFar(docs, start, moved, from, to)
    ensures Children(docs, from) == {} <==> Children(start, from) <= moved
  {
    forall k: Key | Under(k.name, from)
      ensures k in docs <==> k in start && k !in moved
    {
      UnderOld(docs, start, moved, from, to, k);
    }
    assert Children(docs, from) == Children(start, from) - moved;
    assert Children(start, from) <= moved + Children(docs, from);
  }

  lemma MovedFound(docs: Store, start: Store, moved: set<Key>, from: string, to: string, k: Key)
    requires MovedSoFar(docs, start, moved, from, to) && k in moved
    ensures k !in docs
    ensures Entry(docs, Target(k, from, to)) == Some(Rekeyed(k.kind, start[k], Moved(k.name, from, to), to))
  {
    SourceOfTarget(k, from, to);
    ApartUnder(k.name, from, to);
    assert Comes(Target(k, from, to), moved, from, to) && !Comes(k, moved, from, to);
    assert ImageAt(docs, start, moved, from, to, k);
    assert ImageAt(docs, start, moved, from, to, Target(k, from, to));
  }

  lemma OtherUntouched(docs: Store, start: Store, moved: set<Key>, from: string, to: string, k: Key)
    requires MovedSoFar(docs, start, moved, from, to) && k in start && k !in moved
    ensures k in docs && docs[k] == start[k]
  {
    if Under(k.name, to) {
      TargetOfSource(k, from, to);
    }
    assert ImageAt(docs, start, moved, from, to, k);
  }

  /** Every moved document is found under its new name, each exactly once, with the
      same contents; everything else is where and what it was. */
  lemma Bijective(docs: Store, start: Store, moved: set<Key>, from: string, to: string)
    requires MovedSoFar(docs, start, moved, from, to)
    ensures forall k :: k in moved ==>
      k !in docs && Entry(docs, Target(k, from, to)) == Some(Rekeyed(k.kind, start[k], Moved(k.name, from, to), to))
    ensures forall k, l :: k in moved && l in moved && Target(k, from, to) == Target(l, from, to) ==> k == l
    ensures forall k :: k in start && k !in moved ==> k in docs && docs[k] == start[k]
  {
    forall k | k in moved
      ensures k !in docs
      ensures Entry(docs, Target(k, from, to)) == Some(Rekeyed(k.kind, start[k], Moved(k.name, from, to), to))
    {
      MovedFound(docs, start, moved, from, to, k);
    }
    forall k: Key, l: Key | k in moved && l in moved && Target(k, from, to) == Target(l, from, to)
      ensures k == l
    {
      SourceOfTarget(k, from, to);
      SourceOfTarget(l, from, to);
    }
    forall k | k in start && k !in moved
      ensures k in docs && docs[k] == start[k]
    {
      OtherUntouched(docs, start, moved, from, to, k);
    }
  }

  lemma ThreeParts(c: string, s: string, t: string)
    requires '.' !in c && '.' !in s && '.' !in t
    ensures SplitName(c + "." + s + "." + t) == (c, s) && Parent(c + "." + s + "." + t) == Some(c + "." + s)
  {
    CutLastUnique(c + "." + s, t, '.');
    CutLastUnique(c, s, '.');
  }

  /** Tables, volumes, routines and models live in a schema. */
  predicate InSchema(kind: Kind) {
    kind.Table? || kind.Volume? || kind.Routine? || kind.Model?
  }

  /** Renaming a catalog: what is in its schema `s` belongs to the new catalog and the same schema. */
  lemma LeafOfRenamedCatalog(kind: Kind, from: string, to: string, s: string, t: string, d: Doc)
    requires InSchema(kind) && '.' !in from && '.' !in to && '.' !in s && '.' !in t
    ensures var was := from + "." + s + "." + t;
      && Under(was, from) && Moved(was, from, to) == to + "." + s + "." + t
      && Rekeyed(kind, d, Moved(was, from, to), to) ==
         d.(fullName := to + "." + s + "." + t, parent := Some(to + "." + s), catalog := to, schema := s)
  {
    var was := from + "." + s + "." + t;
    assert was == from + ("." + s + "." + t);
    assert was[|from|..] == "." + s + "." + t;
    assert to + ("." + s + "." + t) == to + "." + s + "." + t;
    ThreeParts(to, s, t);
  }

  /** Its schema `s` belongs to the new catalog and keeps its name. */
  lemma SchemaOfRenamedCatalog(from: string, to: string, s: string, d: Doc)
    requires '.' !in from && '.' !in to && '.' !in s
    ensures var was := from + "." + s;
      && Under(was, from) && Moved(was, from, to) == to + "." + s
      && Rekeyed(Schema, d, Moved(was, from, to), to) ==
         d.(fullName := to + "." + s, parent := Some(to), catalog := to)
  {
    var was := from + "." + s;
    assert was == from + ("." + s) && was[|from|..] == "." + s;
    assert to + ("." + s) == to + "." + s;
    CutLastUnique(to, s, '.');
  }

  /** Renaming a schema: what is in it stays in the catalog and belongs to the new schema. */
  lemma LeafOfRenamedSchema(kind: Kind, c: string, a: string, b: string, t: string, d: Doc)
    requires InSchema(kind) && '.' !in c && '.' !in a && '.' !in b && '.' !in t
    ensures var from, to := c + "." + a, c + "." + b;
      var was := from + "." + t;
      && NewName(from, b) == to && Under(was, from) && Moved(was, from, to) == to + "." + t
      && Rekeyed(kind, d, to + "." + t, to) ==
         d.(fullName := to + "." + t, parent := Some(to), catalog := c, schema := b)
  {
    var from, to := c + "." + a, c + "." + b;
    CutLastUnique(c, a, '.');
    assert from + "." + t == from + ("." + t) && to + "." + t == to + ("." + t);
    ThreeParts(c, b, t);
  }

  /** The renamed catalog or schema itself: found under its new name with the new name and
      full name, in the same parent, and no longer under the old one. */
  lemma RootOfRename(docs: Store, kind: Kind, parent: Option<string>, a: string, b: string, from: string, to: string)
    requires '.' !in a && '.' !in b && a != b
    requires from == match parent { case None => a case Some(c) => c + "." + a }
    requires to == match parent { case None => b case Some(c) => c + "." + b }
    requires Key(kind, from) in docs && Key(kind, to) !in docs
    ensures NewName(from, b) == to
    ensures var start, d := RootRenamed(docs, kind, from, to, b), docs[Key(kind, from)];
      && Entry(start, Key(kind, from)) == None
      && Entry(start, Key(kind, to)) == Some(d.(name := b, fullName := to, parent := parent))
      && forall k :: k != Key(kind, from) && k != Key(kind, to) ==> Entry(start, k) == Entry(docs, k)
  {
    match parent
    case None =>
      CutLastNone(a, '.');
    case Some(c) =>
      CutLastUnique(c, a, '.');
      assert from != to by {
        assert from[|c| + 1..] == a && to[|c| + 1..] == b;
      }
  }
}
