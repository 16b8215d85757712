/**
 Fetching a shuffle file: the executor cuts it into chunks as reads come in, the
 reader decodes the chunks back into batches.
 */
module Transport {
  import opened Options
  import opened Plans

  /** One byte of an encoded stream, seen by an incremental decoder: it goes on
      with a message, completes the schema, completes a batch, or makes no sense. */
  datatype Cell = Inner | SchemaEnds | BatchEnds(batch: Batch) | Garbled

  predicate Clean(cells: seq<Cell>) {
    forall i :: 0 <= i < |cells| ==> !cells[i].Garbled?
  }

  function BatchOf(c: Cell): seq<Batch> {
    if c.BatchEnds? then [c.batch] else []
  }

  /** The batches a run of bytes completes. */
  function Batches(cells: seq<Cell>): seq<Batch> {
    if |cells| == 0 then [] else Batches(cells[..|cells| - 1]) + BatchOf(cells[|cells| - 1])
  }

  /** Decoding does not depend on where the bytes are cut. */
  lemma {:induction false} BatchesAppend(a: seq<Cell>, b: seq<Cell>)
    ensures Batches(a + b) == Batches(a) + Batches(b)
  {
    if |b| == 0 {
      assert a + b == a;
    } else {
      assert (a + b)[..|a + b| - 1] == a + b[..|b| - 1];
      BatchesAppend(a, b[..|b| - 1]);
    }
  }

  /** Decode everything a buffer completes; nothing if it makes no sense. */
  method DecodeAll(buf: seq<Cell>) returns (r: Option<seq<Batch>>)
    ensures r == if Clean(buf) then Some(Batches(buf)) else None
  {
    var batches := [];
    for i := 0 to |buf|
      invariant Clean(buf[..i]) && batches == Batches(buf[..i])
    {
      assert buf[..i + 1][..i] == buf[..i];
      match buf[i] {
        case BatchEnds(b) => batches := batches + [b];
        case Garbled => return None;
        case _ =>
      }
    }
    assert buf[..|buf|] == buf;
    return Some(batches);
  }

  // ---------------------------------------------------------------- serving

  const CHUNK_BYTES: nat := 4 * 1024 * 1024

  type ReadSize = n: nat | 0 < n <= CHUNK_BYTES witness 1

  /** What the k-th read of the file does: return up to so many bytes, or fail. */
  datatype Read = Bytes(most: ReadSize) | Failed

  datatype Chunk = Data(ipc: seq<Cell>, last: bool) | Broken

  /** Bytes the k-th read returns; none at the end of the file. */
  function ReadLength(file: seq<Cell>, r: Read, sent: nat): (n: nat)
    requires sent <= |file| && r.Bytes?
    ensures sent + n <= |file| && (n == 0 <==> sent == |file|)
  {
    if r.most < |file| - sent then r.most else |file| - sent
  }

  /** The chunks sent for a file whose length was noted as `len`. */
  function Serve(file: seq<Cell>, len: nat, pattern: nat -> Read, k: nat, sent: nat): seq<Chunk>
    requires sent <= |file|
    decreases |file| - sent
  {
    match pattern(k)
    case Failed => [Broken]
    case Bytes(_) =>
      var n := ReadLength(file, pattern(k), sent);
      if n == 0 then (if sent == 0 then [Data([], true)] else [])
      else
        var last := sent + n >= len;
        [Data(file[sent..sent + n], last)] + (if last then [] else Serve(file, len, pattern, k + 1, sent + n))
  }

  lemma Assoc(a: seq<Chunk>, b: seq<Chunk>, c: seq<Chunk>)
    ensures a + (b + c) == (a + b) + c
  {
  }

  /** One read in the middle of a file. */
  lemma ServeStep(file: seq<Cell>, len: nat, pattern: nat -> Read, k: nat, sent: nat) returns (rest: seq<Chunk>)
    requires sent < |file| && pattern(k).Bytes?
    ensures var n := ReadLength(file, pattern(k), sent);
      && Serve(file, len, pattern, k, sent) == [Data(file[sent..sent + n], sent + n >= len)] + rest
      && rest == if sent + n >= len then [] else Serve(file, len, pattern, k + 1, sent + n)
  {
    var n := ReadLength(file, pattern(k), sent);
    rest := if sent + n >= len then [] else Serve(file, len, pattern, k + 1, sent + n);
  }

  lemma ServeParts(file: seq<Cell>, len: nat, pattern: nat -> Read, k: nat, sent: nat, next: nat)
    returns (all: seq<Chunk>, rest: seq<Chunk>)
    requires sent < |file| && pattern(k).Bytes? && next == sent + ReadLength(file, pattern(k), sent)
    ensures all == Serve(file, len, pattern, k, sent) == [Data(file[sent..next], next >= len)] + rest
    ensures next >= len ==> rest == []
    ensures next < len ==> rest == Serve(file, len, pattern, k + 1, next)
  {
    rest := ServeStep(file, len, pattern, k, sent);
    all := Serve(file, len, pattern, k, sent);
  }

  lemma ServeLast(file: seq<Cell>, len: nat, pattern: nat -> Read, k: nat, sent: nat)
    requires sent <= |file| && (pattern(k).Failed? || sent == |file|)
    ensures Serve(file, len, pattern, k, sent) ==
            if pattern(k).Failed? then [Broken] else if sent == 0 then [Data([], true)] else []
  {
  }

  /** One read: what it makes the server send, and whether the loop ends. */
  method ServeRead(file: seq<Cell>, len: nat, pattern: nat -> Read, k: nat, sent: nat)
    returns (out: seq<Chunk>, n: nat, stop: bool, ghost rest: seq<Chunk>)
    requires sent <= |file|
    ensures Serve(file, len, pattern, k, sent) == out + rest
    ensures stop ==> rest == []
    ensures !stop ==> 0 < n <= |file| - sent && rest == Serve(file, len, pattern, k + 1, sent + n)
  {
    rest := [];
    if pattern(k).Failed? {
      ServeLast(file, len, pattern, k, sent);
      return [Broken], 0, true, [];
    }
    n := ReadLength(file, pattern(k), sent);
    if n == 0 {
      ServeLast(file, len, pattern, k, sent);
      out, stop := if sent == 0 then [Data([], true)] else [], true;
    } else {
      var last := sent + n >= len;
      out, stop := [Data(file[sent..sent + n], last)], last;
      rest := ServeStep(file, len, pattern, k, sent);
    }
  }

  method FetchShuffle(file: seq<Cell>, len: nat, pattern: nat -> Read) returns (chunks: seq<Chunk>)
    ensures chunks == Serve(file, len, pattern, 0, 0)
  {
    chunks := [];
    var sent: nat, k: nat, stop := 0, 0, false;
    ghost var rest := Serve(file, len, pattern, k, sent);
    ghost var all := rest;
    while !stop
      invariant sent <= |file|
      invariant all == chunks + rest
      invariant if stop then rest == [] else rest == Serve(file, len, pattern, k, sent)
      decreases !stop, |file| - sent
    {
      var out, n;
      ghost var before := chunks;
      out, n, stop, rest := ServeRead(file, len, pattern, k, sent);
      Assoc(before, out, rest);
      chunks := chunks + out;
      if !stop {
        sent, k := sent + n, k + 1;
      }
    }
  }

  function Payload(chunks: seq<Chunk>): seq<Cell> {
    if |chunks| == 0 then []
    else (if chunks[0].Data? then chunks[0].ipc else []) + Payload(chunks[1..])
  }

  lemma PayloadPiece(file: seq<Cell>, sent: nat, next: nat, to: nat, last: bool, rest: seq<Chunk>)
    requires sent <= next <= to <= |file| && Payload(rest) == file[next..to]
    ensures Payload([Data(file[sent..next], last)] + rest) == file[sent..to]
  {
    assert ([Data(file[sent..next], last)] + rest)[1..] == rest;
    assert file[sent..to] == file[sent..next] + file[next..to];
  }

  ghost predicate NeverFails(pattern: nat -> Read) {
    forall k :: pattern(k).Bytes?
  }

  /** Only the final chunk says so. */
  ghost predicate LastAtEnd(chunks: seq<Chunk>) {
    |chunks| > 0 && forall i :: 0 <= i < |chunks| ==> chunks[i].Data? && (chunks[i].last <==> i == |chunks| - 1)
  }

  lemma LastAtEndFirst(c: Chunk, rest: seq<Chunk>)
    requires c.Data? && (if rest == [] then c.last else !c.last && LastAtEnd(rest))
    ensures LastAtEnd([c] + rest)
  {
    var chunks := [c] + rest;
    forall i | 0 < i < |chunks|
      ensures chunks[i].Data? && (chunks[i].last <==> i == |chunks| - 1)
    {
      assert chunks[i] == rest[i - 1];
    }
  }

  lemma ServeEmpty(file: seq<Cell>, pattern: nat -> Read, k: nat)
    requires pattern(k).Bytes? && |file| == 0
    ensures Serve(file, 0, pattern, k, 0) == [Data([], true)]
    ensures Payload([Data([], true)]) == file && LastAtEnd([Data([], true)])
  {
  }

  lemma ServesRead(file: seq<Cell>, pattern: nat -> Read, k: nat, sent: nat, next: nat)
    requires sent < |file| && pattern(k).Bytes? && next == sent + ReadLength(file, pattern(k), sent)
    requires next < |file| ==>
               Payload(Serve(file, |file|, pattern, k + 1, next)) == file[next..] &&
               LastAtEnd(Serve(file, |file|, pattern, k + 1, next))
    ensures Payload(Serve(file, |file|, pattern, k, sent)) == file[sent..]
    ensures LastAtEnd(Serve(file, |file|, pattern, k, sent))
  {
    var all, rest := ServeParts(file, |file|, pattern, k, sent, next);
    PayloadPiece(file, sent, next, |file|, next >= |file|, rest);
    LastAtEndFirst(Data(file[sent..next], next >= |file|), rest);
  }

  /** With the right length noted, the chunks are the file however short the
      reads, and exactly the final one is marked. */
  lemma {:induction false} ServesFile(file: seq<Cell>, pattern: nat -> Read, k: nat, sent: nat)
    requires NeverFails(pattern) && (sent < |file| || sent == 0 == |file|)
    ensures Payload(Serve(file, |file|, pattern, k, sent)) == file[sent..]
    ensures LastAtEnd(Serve(file, |file|, pattern, k, sent))
    decreases |file| - sent
  {
    if sent == |file| {
      ServeEmpty(file, pattern, k);
    } else {
      var next := sent + ReadLength(file, pattern(k), sent);
      if next < |file| {
        ServesFile(file, pattern, k + 1, next);
      }
      ServesRead(file, pattern, k, sent, next);
    }
  }

  // ---------------------------------------------------------------- fetching

  /** What the reader yields. */
  datatype Fetched = Got(batch: Batch) | Error

  function GotAll(batches: seq<Batch>): (r: seq<Fetched>)
    ensures |r| == |batches|
  {
    seq(|batches|, i requires 0 <= i < |batches| => Got(batches[i]))
  }

  lemma GotAllAppend(a: seq<Batch>, b: seq<Batch>)
    ensures GotAll(a + b) == GotAll(a) + GotAll(b)
  {
  }

  /** Everything a reader makes of the chunks still to come. */
  function Incoming(chunks: seq<Chunk>): seq<Fetched> {
    if |chunks| == 0 then []
    else
      match chunks[0]
      case Broken => [Error]
      case Data(ipc, last) =>
        if !Clean(ipc) then [Error]
        else GotAll(Batches(ipc)) + (if last then [] else Incoming(chunks[1..]))
  }

  function Reversed<T>(s: seq<T>): (r: seq<T>)
    ensures |r| == |s|
  {
    seq(|s|, i requires 0 <= i < |s| => s[|s| - 1 - i])
  }

  class ShuffleStream {
    var inbound: seq<Chunk>

    /** Decoded batches, the next one on top. */
    var pending: seq<Batch>

    var done: bool

    ghost function Rest(): seq<Fetched>
      reads this
    {
      GotAll(Reversed(pending)) + (if done then [] else Incoming(inbound))
    }

    constructor (chunks: seq<Chunk>)
      ensures Rest() == Incoming(chunks)
    {
      inbound, pending, done := chunks, [], false;
    }

    method Pop() returns (b: Batch)
      requires |pending| > 0
      modifies this`pending
      ensures old(Rest()) == [Got(b)] + Rest()
    {
      ghost var all := Reversed(pending);
      b := pending[|pending| - 1];
      pending := pending[..|pending| - 1];
      assert all == [b] + Reversed(pending);
      GotAllAppend([b], Reversed(pending));
      assert GotAll([b]) == [Got(b)];
    }

    /** Take one chunk in; yields an error if it brings or makes one. */
    method Absorb() returns (failed: bool)
      requires pending == [] && !done && |inbound| > 0
      modifies this
      ensures old(Rest()) == (if failed then [Error] else []) + Rest()
      ensures |inbound| < |old(inbound)| && (failed ==> pending == [] && done)
    {
      var chunk := inbound[0];
      inbound := inbound[1..];
      match chunk {
        case Broken =>
          done := true;
          return true;
        case Data(ipc, last) =>
          var batches := DecodeAll(ipc);
          if batches.None? {
            done := true;
            return true;
          }
          pending := Reversed(batches.value);
          assert Reversed(pending) == batches.value;
          done := last;
          return false;
      }
    }

    /** Yields the batches in order, one a call. */
    method Next() returns (r: Option<Fetched>)
      modifies this
      ensures old(Rest()) == (if r.Some? then [r.value] else []) + Rest()
      ensures r.None? ==> Rest() == []
    {
      while true
        invariant Rest() == old(Rest())
        decreases |inbound|, |pending|, !done
      {
        if |pending| > 0 {
          var b := Pop();
          return Some(Got(b));
        }
        if done || |inbound| == 0 {
          return None;
        }
        var failed := Absorb();
        if failed {
          return Some(Error);
        }
      }
    }
  }

  lemma CleanPiece(file: seq<Cell>, a: nat, b: nat)
    requires Clean(file) && a <= b <= |file|
    ensures Clean(file[a..b])
  {
    forall i | 0 <= i < b - a
      ensures !file[a..b][i].Garbled?
    {
      assert file[a..b][i] == file[a + i];
    }
  }

  lemma IncomingFirst(ipc: seq<Cell>, last: bool, rest: seq<Chunk>)
    requires Clean(ipc) && (last ==> rest == [])
    ensures Incoming([Data(ipc, last)] + rest) == GotAll(Batches(ipc)) + Incoming(rest)
  {
    var chunks := [Data(ipc, last)] + rest;
    assert chunks[1..] == rest;
  }

  /** Pieces of a file decode to pieces of its batches. */
  lemma GotPieces(file: seq<Cell>, a: nat, b: nat, c: nat)
    requires a <= b <= c <= |file|
    ensures GotAll(Batches(file[a..c])) == GotAll(Batches(file[a..b])) + GotAll(Batches(file[b..c]))
  {
    assert file[a..c] == file[a..b] + file[b..c];
    BatchesAppend(file[a..b], file[b..c]);
    GotAllAppend(Batches(file[a..b]), Batches(file[b..c]));
  }

  lemma ServeEnd(file: seq<Cell>, len: nat, pattern: nat -> Read, k: nat)
    requires pattern(k).Bytes?
    ensures Incoming(Serve(file, len, pattern, k, |file|)) == GotAll(Batches(file[|file|..|file|]))
  {
    assert file[|file|..|file|] == [];
    assert Serve(file, len, pattern, k, |file|) == if |file| == 0 then [Data([], true)] else [];
  }

  lemma FetchStep(file: seq<Cell>, sent: nat, next: nat, last: bool, rest: seq<Chunk>)
    requires sent <= next <= |file| && Clean(file)
    requires if last then rest == [] && next == |file| else Incoming(rest) == GotAll(Batches(file[next..|file|]))
    ensures Incoming([Data(file[sent..next], last)] + rest) == GotAll(Batches(file[sent..|file|]))
  {
    if last {
      assert file[next..|file|] == [];
    }
    CleanPiece(file, sent, next);
    IncomingFirst(file[sent..next], last, rest);
    GotPieces(file, sent, next, |file|);
  }

  lemma FetchRead(file: seq<Cell>, len: nat, pattern: nat -> Read, k: nat, sent: nat, next: nat)
    requires sent < |file| <= len && pattern(k).Bytes? && Clean(file)
    requires next == sent + ReadLength(file, pattern(k), sent)
    requires next < len ==>
               Incoming(Serve(file, len, pattern, k + 1, next)) == GotAll(Batches(file[next..|file|]))
    ensures Incoming(Serve(file, len, pattern, k, sent)) == GotAll(Batches(file[sent..|file|]))
  {
    var all, rest := ServeParts(file, len, pattern, k, sent, next);
    if next < len {
      FetchStep(file, sent, next, false, rest);
    } else {
      FetchStep(file, sent, next, true, rest);
    }
  }

  /** A fetch yields the file's batches, none lost, repeated or reordered, for
      every pattern of reads, if the length noted is not short of the file. */
  lemma {:induction false} FetchYieldsFile(file: seq<Cell>, len: nat, pattern: nat -> Read, k: nat, sent: nat)
    requires sent <= |file| <= len && NeverFails(pattern) && Clean(file)
    ensures Incoming(Serve(file, len, pattern, k, sent)) == GotAll(Batches(file[sent..|file|]))
    decreases |file| - sent
  {
    if sent == |file| {
      ServeEnd(file, len, pattern, k);
    } else {
      var next := sent + ReadLength(file, pattern(k), sent);
      if next < len {
        FetchYieldsFile(file, len, pattern, k + 1, next);
      }
      FetchRead(file, len, pattern, k, sent, next);
    }
  }

  /** The batches of `file[sent..upTo]`, and an error unless that is all. */
  ghost predicate Shown(file: seq<Cell>, sent: nat, upTo: nat, got: seq<Fetched>)
    requires sent <= upTo <= |file|
  {
    || (upTo == |file| && got == GotAll(Batches(file[sent..upTo])))
    || got == GotAll(Batches(file[sent..upTo])) + [Error]
  }

  lemma ShownFirst(file: seq<Cell>, sent: nat, next: nat, upTo: nat, last: bool, rest: seq<Chunk>)
    requires sent <= next <= upTo <= |file| && Clean(file)
    requires if last then rest == [] && next == |file| else Shown(file, next, upTo, Incoming(rest))
    ensures Shown(file, sent, upTo, Incoming([Data(file[sent..next], last)] + rest))
  {
    CleanPiece(file, sent, next);
    IncomingFirst(file[sent..next], last, rest);
    GotPieces(file, sent, next, upTo);
    if last {
      assert file[next..upTo] == [];
    }
  }

  lemma ShownAtOnce(file: seq<Cell>, pattern: nat -> Read, k: nat, sent: nat)
    requires sent <= |file| && (pattern(k).Failed? || sent == |file|)
    ensures Shown(file, sent, sent, Incoming(Serve(file, |file|, pattern, k, sent)))
  {
    assert file[sent..sent] == [];
    if pattern(k).Bytes? {
      ServeEnd(file, |file|, pattern, k);
    }
  }

  lemma ShownRead(file: seq<Cell>, pattern: nat -> Read, k: nat, sent: nat, next: nat, upTo: nat)
    requires sent < |file| && pattern(k).Bytes? && Clean(file)
    requires next == sent + ReadLength(file, pattern(k), sent) && next <= upTo <= |file|
    requires next < |file| ==> Shown(file, next, upTo, Incoming(Serve(file, |file|, pattern, k + 1, next)))
    ensures Shown(file, sent, upTo, Incoming(Serve(file, |file|, pattern, k, sent)))
  {
    var all, rest := ServeParts(file, |file|, pattern, k, sent, next);
    if next < |file| {
      ShownFirst(file, sent, next, upTo, false, rest);
    } else {
      ShownFirst(file, sent, next, upTo, true, rest);
    }
  }

  /** A read failure is never taken for the end: the batches before it come
      through and then an error. */
  lemma {:induction false} FailureShows(file: seq<Cell>, pattern: nat -> Read, k: nat, sent: nat)
    returns (upTo: nat)
    requires sent <= |file| && Clean(file)
    ensures sent <= upTo <= |file|
    ensures Shown(file, sent, upTo, Incoming(Serve(file, |file|, pattern, k, sent)))
    decreases |file| - sent
  {
    if pattern(k).Failed? || sent == |file| {
      upTo := sent;
      ShownAtOnce(file, pattern, k, sent);
    } else {
      var next := sent + ReadLength(file, pattern(k), sent);
      upTo := next;
      if next < |file| {
        upTo := FailureShows(file, pattern, k + 1, next);
      }
      ShownRead(file, pattern, k, sent, next, upTo);
    }
  }

  /** Reads of one byte. */
  function Slow(): nat -> Read {
    (k: nat) => Bytes(1)
  }

  function AtLeast(a: nat, b: nat): nat {
    if a < b then b else a
  }

  lemma {:induction false} SlowStops(file: seq<Cell>, len: nat, k: nat, sent: nat)
    requires sent < |file| && sent < AtLeast(len, 1) < |file|
    ensures Payload(Serve(file, len, Slow(), k, sent)) == file[sent..AtLeast(len, 1)]
    decreases |file| - sent
  {
    var first := Data(file[sent..sent + 1], sent + 1 >= len);
    var rest := ServeStep(file, len, Slow(), k, sent);
    if !first.last {
      SlowStops(file, len, k + 1, sent + 1);
    }
    PayloadPiece(file, sent, sent + 1, AtLeast(len, 1), first.last, rest);
  }

  lemma {:induction false} ServesAll(file: seq<Cell>, len: nat, pattern: nat -> Read, k: nat, sent: nat)
    requires sent <= |file| && NeverFails(pattern) && (|file| <= len || (|file| <= 1 && sent == 0))
    ensures Payload(Serve(file, len, pattern, k, sent)) == file[sent..]
    decreases |file| - sent
  {
    if sent == |file| {
    } else {
      var rest := ServeStep(file, len, pattern, k, sent);
      var next := sent + ReadLength(file, pattern(k), sent);
      if next < len && |file| <= len {
        ServesAll(file, len, pattern, k + 1, next);
      }
      PayloadPiece(file, sent, next, |file|, next >= len, rest);
    }
  }

  /** The whole file gets across under every pattern of reads exactly if the noted
      length is not short of it (or there is nothing to split).  When the
      length cannot be read it is noted as 0, and a file that takes a second
      read is cut off without an error. */
  lemma LengthMatters(file: seq<Cell>, len: nat)
    ensures (forall pattern: nat -> Read :: NeverFails(pattern) ==> Payload(Serve(file, len, pattern, 0, 0)) == file)
            <==> |file| <= AtLeast(len, 1)
  {
    if |file| <= AtLeast(len, 1) {
      forall pattern: nat -> Read | NeverFails(pattern)
        ensures Payload(Serve(file, len, pattern, 0, 0)) == file
      {
        ServesAll(file, len, pattern, 0, 0);
      }
    } else {
      assert NeverFails(Slow());
      SlowStops(file, len, 0, 0);
      assert Payload(Serve(file, len, Slow(), 0, 0)) != file;
    }
  }
}
