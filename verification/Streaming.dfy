/**
 Query results on their way to the client: the driver encodes batches up to a row
 limit, the client turns the messages back into events.
 */
module Streaming {
  import opened Options
  import opened Plans
  import opened Transport

  /** How a stream writer encodes: what it writes for the schema, for one batch and
      at the end. */
  datatype Writer = Writer(header: seq<Cell>, encode: Batch -> seq<Cell>, trailer: seq<Cell>)

  ghost predicate ValidWriter(w: Writer) {
    && Clean(w.header) && SchemaEnds in w.header && Batches(w.header) == []
    && Clean(w.trailer) && SchemaEnds !in w.trailer && Batches(w.trailer) == []
    && forall b :: Clean(w.encode(b)) && SchemaEnds !in w.encode(b) && Batches(w.encode(b)) == [b]
  }

  datatype Message = Nothing | Started | Progress | Finished(rows: nat) | Ipc(bytes: seq<Cell>) | TransportFails

  // ---------------------------------------------------------------- the driver

  /** The rows a limit lets through; 0 stands for no limit. */
  function FirstRows(rows: seq<Row>, limit: nat): seq<Row> {
    if limit == 0 || |rows| <= limit then rows else rows[..limit]
  }

  /** They are the first ones, as many as there are or as the limit allows. */
  lemma LimitExact(rows: seq<Row>, limit: nat)
    ensures FirstRows(rows, limit) <= rows
    ensures |FirstRows(rows, limit)| == if limit > 0 && limit < |rows| then limit else |rows|
  {
  }

  /** Batches as the executed plan delivers them; it may fail instead. */
  type Delivered = Option<Batch>

  /** How many batches come before the first failure. */
  function FirstFailure(input: seq<Delivered>, i: nat): (n: nat)
    requires i <= |input|
    ensures i <= n <= |input| && (n < |input| ==> input[n].None?)
    ensures forall k :: i <= k < n ==> input[k].Some?
    decreases |input| - i
  {
    if i == |input| || input[i].None? then i else FirstFailure(input, i + 1)
  }

  ghost predicate NoFailure(input: seq<Delivered>, n: nat)
    requires n <= |input|
  {
    forall k :: 0 <= k < n ==> input[k].Some?
  }

  /** The rows of the first `n` batches. */
  ghost function RowsOf(input: seq<Delivered>, n: nat): seq<Row>
    requires n <= |input| && NoFailure(input, n)
  {
    if n == 0 then [] else RowsOf(input, n - 1) + input[n - 1].value
  }

  /** All rows delivered before any failure. */
  ghost function AllRows(input: seq<Delivered>): seq<Row> {
    RowsOf(input, FirstFailure(input, 0))
  }

  lemma {:induction false} RowsGrow(input: seq<Delivered>, i: nat, n: nat) returns (more: seq<Row>)
    requires i <= n <= |input| && NoFailure(input, n)
    ensures RowsOf(input, n) == RowsOf(input, i) + more
    decreases n - i
  {
    if i == n {
      more := [];
    } else {
      var m := RowsGrow(input, i, n - 1);
      more := m + input[n - 1].value;
      assert RowsOf(input, i) + m + input[n - 1].value == RowsOf(input, i) + (m + input[n - 1].value);
    }
  }

  /** One message a batch, after the header and before the trailer. */
  function Encoded(w: Writer, kept: Stream): (r: seq<Message>)
    ensures |r| == |kept|
  {
    seq(|kept|, i requires 0 <= i < |kept| => Ipc(w.encode(kept[i])))
  }

  function Messages(w: Writer, kept: Stream): seq<Message> {
    [Ipc(w.header)] + Encoded(w, kept) + (if |w.trailer| == 0 then [] else [Ipc(w.trailer)])
  }

  lemma ConcatPush(s: Stream, b: Batch)
    ensures Concat(s + [b]) == Concat(s) + b
  {
    assert (s + [b])[..|s|] == s;
  }

  lemma EncodedPush(w: Writer, s: Stream, b: Batch)
    ensures Encoded(w, s + [b]) == Encoded(w, s) + [Ipc(w.encode(b))]
  {
  }

  /** One batch more, cut to what is left of the limit. */
  function Cut(b: Batch, count: nat, limit: nat): (cut: Batch)
    requires limit > 0 ==> count < limit
    ensures |b| > 0 ==> |cut| > 0
  {
    if limit > 0 && count + |b| > limit then b[..limit - count] else b
  }

  lemma FirstRowsMore(before: seq<Row>, b: Batch, limit: nat)
    requires limit > 0 ==> |before| < limit
    ensures FirstRows(before + b, limit) == before + Cut(b, |before|, limit)
  {
    if limit > 0 && |before| + |b| > limit {
      assert (before + b)[..limit] == before + b[..limit - |before|];
    }
  }

  /** What has been sent after looking at the first `i` batches. */
  ghost predicate SentUpTo(w: Writer, input: seq<Delivered>, limit: nat, i: nat, sent: seq<Message>, kept: Stream,
                           count: nat)
  {
    && i <= |input| && NoFailure(input, i)
    && (forall k :: 0 <= k < |kept| ==> |kept[k]| > 0)
    && Concat(kept) == FirstRows(RowsOf(input, i), limit) && count == |Concat(kept)|
    && sent == Encoded(w, kept)
  }

  lemma SentNext(w: Writer, input: seq<Delivered>, limit: nat, i: nat, sent: seq<Message>, kept: Stream, count: nat)
    requires SentUpTo(w, input, limit, i, sent, kept, count) && (limit > 0 ==> count < limit)
    requires i < |input| && input[i].Some?
    ensures var b := Cut(input[i].value, count, limit);
      if |b| == 0 then SentUpTo(w, input, limit, i + 1, sent, kept, count)
      else SentUpTo(w, input, limit, i + 1, sent + [Ipc(w.encode(b))], kept + [b], count + |b|)
  {
    var b := Cut(input[i].value, count, limit);
    FirstRowsMore(RowsOf(input, i), input[i].value, limit);
    ConcatPush(kept, b);
    EncodedPush(w, kept, b);
  }

  /** The rows sent are the first ones of all rows, if nothing is left or the limit is reached. */
  lemma SentEnough(w: Writer, input: seq<Delivered>, limit: nat, i: nat, sent: seq<Message>, kept: Stream, count: nat)
    requires SentUpTo(w, input, limit, i, sent, kept, count) && i <= FirstFailure(input, 0)
    requires i == FirstFailure(input, 0) || (limit > 0 && count >= limit)
    ensures Concat(kept) == FirstRows(AllRows(input), limit)
  {
    var more := RowsGrow(input, i, FirstFailure(input, 0));
    var before := RowsOf(input, i);
    if limit > 0 && count >= limit {
      assert (before + more)[..limit] == before[..limit];
    }
  }

  /** Send the batches one by one, up to `limit` rows. */
  method SendRows(w: Writer, input: seq<Delivered>, limit: nat)
    returns (sent: seq<Message>, count: nat, failed: bool, ghost kept: Stream)
    ensures sent == Encoded(w, kept) && count == |Concat(kept)|
    ensures forall k :: 0 <= k < |kept| ==> |kept[k]| > 0
    ensures Concat(kept) == FirstRows(AllRows(input), limit)
    ensures failed <==> FirstFailure(input, 0) < |input| && (limit == 0 || count < limit)
  {
    sent, count, failed, kept := [], 0, false, [];
    var i := 0;
    while i < |input|
      invariant SentUpTo(w, input, limit, i, sent, kept, count) && i <= FirstFailure(input, 0)
      invariant limit > 0 ==> count < limit
      decreases |input| - i
    {
      if input[i].None? {
        SentEnough(w, input, limit, i, sent, kept, count);
        failed := true;
        return;
      }
      var batch := Cut(input[i].value, count, limit);
      SentNext(w, input, limit, i, sent, kept, count);
      i := i + 1;
      if |batch| == 0 {
        continue;
      }
      count := count + |batch|;
      sent := sent + [Ipc(w.encode(batch))];
      kept := kept + [batch];
      if limit > 0 && count >= limit {
        SentEnough(w, input, limit, i, sent, kept, count);
        return;
      }
    }
    SentEnough(w, input, limit, i, sent, kept, count);
  }

  /** Send `input` as messages: exactly the first `limit` rows, in batches that are
      not empty.  A failure of the plan is an error unless the limit came first. */
  method StreamBatches(w: Writer, input: seq<Delivered>, limit: nat)
    returns (sent: seq<Message>, rows: Option<nat>, ghost kept: Stream)
    ensures forall k :: 0 <= k < |kept| ==> |kept[k]| > 0
    ensures Concat(kept) == FirstRows(AllRows(input), limit)
    ensures rows.Some? ==> rows.value == |Concat(kept)| && sent == Messages(w, kept)
    ensures rows.None? ==> sent == [Ipc(w.header)] + Encoded(w, kept)
    ensures rows.None? <==> FirstFailure(input, 0) < |input| && (limit == 0 || |AllRows(input)| < limit)
  {
    sent := [Ipc(w.header)];
    var body, count, failed;
    body, count, failed, kept := SendRows(w, input, limit);
    sent := sent + body;
    if failed {
      return sent, None, kept;
    }
    if |w.trailer| > 0 {
      sent := sent + [Ipc(w.trailer)];
    }
    rows := Some(count);
  }

  // ---------------------------------------------------------------- the client

  datatype Event = QueryStarted | SchemaKnown | BatchRead(batch: Batch) | InProgress | QueryFinished(rows: nat)
    | Failure

  function ReadAllOf(batches: Stream): (r: seq<Event>)
    ensures |r| == |batches|
  {
    seq(|batches|, i requires 0 <= i < |batches| => BatchRead(batches[i]))
  }

  lemma ReadAllOfAppend(a: Stream, b: Stream)
    ensures ReadAllOf(a + b) == ReadAllOf(a) + ReadAllOf(b)
  {
  }

  /** The events still to come; `known` once the schema has been reported. */
  function Events(inbound: seq<Message>, known: bool): seq<Event>
    decreases |inbound|
  {
    if |inbound| == 0 then []
    else
      var rest := inbound[1..];
      match inbound[0]
      case Nothing => Events(rest, known)
      case Started => [QueryStarted] + Events(rest, known)
      case Progress => [InProgress] + Events(rest, known)
      case Finished(rows) => [QueryFinished(rows)] + Events(rest, known)
      case TransportFails => [Failure] + Events(rest, known)
      case Ipc(bytes) =>
        if !Clean(bytes) then [Failure] + Events(rest, known)
        else
          var learns := !known && SchemaEnds in bytes;
          (if learns then [SchemaKnown] else []) + ReadAllOf(Batches(bytes)) + Events(rest, known || learns)
  }

  class QueryStream {
    var inbound: seq<Message>

    /** Decoded batches, the next one on top. */
    var pending: seq<Batch>

    var schema: bool

    ghost function Rest(): seq<Event>
      reads this
    {
      ReadAllOf(Reversed(pending)) + Events(inbound, schema)
    }

    constructor (messages: seq<Message>)
      ensures Rest() == Events(messages, false)
    {
      inbound, pending, schema := messages, [], false;
    }

    method Pop() returns (b: Batch)
      requires |pending| > 0
      modifies this`pending
      ensures old(Rest()) == [BatchRead(b)] + Rest()
    {
      ghost var all := Reversed(pending);
      b := pending[|pending| - 1];
      pending := pending[..|pending| - 1];
      assert all == [b] + Reversed(pending);
      ReadAllOfAppend([b], Reversed(pending));
      assert ReadAllOf([b]) == [BatchRead(b)];
    }

    /** Decoded batches wait their turn behind the schema, if this is its first sight. */
    method Decode(bytes: seq<Cell>) returns (r: Option<Event>)
      requires |pending| == 0
      modifies this`pending, this`schema
      ensures Events([Ipc(bytes)] + inbound, old(schema)) == (if r.Some? then [r.value] else []) + Rest()
    {
      assert ([Ipc(bytes)] + inbound)[1..] == inbound;
      var batches := DecodeAll(bytes);
      if batches.None? {
        return Some(Failure);
      }
      pending := Reversed(batches.value);
      assert Reversed(pending) == batches.value;
      r := None;
      if !schema && SchemaEnds in bytes {
        schema := true;
        r := Some(SchemaKnown);
      }
    }

    /** Handle one message; it may have an event of its own. */
    method Take() returns (r: Option<Event>)
      requires |pending| == 0 && |inbound| > 0
      modifies this
      ensures |inbound| < |old(inbound)|
      ensures old(Rest()) == (if r.Some? then [r.value] else []) + Rest()
    {
      var message := inbound[0];
      inbound := inbound[1..];
      assert old(inbound) == [message] + inbound;
      match message {
        case Nothing => r := None;
        case Started => r := Some(QueryStarted);
        case Progress => r := Some(InProgress);
        case Finished(rows) => r := Some(QueryFinished(rows));
        case TransportFails => r := Some(Failure);
        case Ipc(bytes) => r := Decode(bytes);
      }
    }

    /** The next event; nothing once the stream has ended. */
    method Next() returns (r: Option<Event>)
      modifies this
      ensures old(Rest()) == (if r.Some? then [r.value] else []) + Rest()
      ensures r.None? ==> Rest() == []
    {
      while true
        invariant Rest() == old(Rest())
        decreases |inbound|, |pending|
      {
        if |pending| > 0 {
          var b := Pop();
          return Some(BatchRead(b));
        }
        if |inbound| == 0 {
          return None;
        }
        r := Take();
        if r.Some? {
          return;
        }
      }
    }
  }

  // ---------------------------------------------------------------- from driver to client

  lemma IpcFirst(bytes: seq<Cell>, rest: seq<Message>, known: bool)
    requires Clean(bytes) && (known || SchemaEnds !in bytes)
    ensures Events([Ipc(bytes)] + rest, known) == ReadAllOf(Batches(bytes)) + Events(rest, known)
  {
    assert ([Ipc(bytes)] + rest)[1..] == rest;
  }

  lemma BatchFirst(w: Writer, b: Batch, rest: seq<Message>)
    requires ValidWriter(w)
    ensures Events([Ipc(w.encode(b))] + rest, true) == [BatchRead(b)] + Events(rest, true)
  {
    IpcFirst(w.encode(b), rest, true);
    assert ReadAllOf([b]) == [BatchRead(b)];
  }

  lemma HeaderFirst(w: Writer, rest: seq<Message>)
    requires ValidWriter(w)
    ensures Events([Ipc(w.header)] + rest, false) == [SchemaKnown] + Events(rest, true)
  {
    assert ([Ipc(w.header)] + rest)[1..] == rest;
    assert ReadAllOf(Batches(w.header)) == [];
  }

  lemma TrailerFirst(w: Writer, rest: seq<Message>)
    requires ValidWriter(w)
    ensures Events([Ipc(w.trailer)] + rest, true) == Events(rest, true)
  {
    IpcFirst(w.trailer, rest, true);
    assert ReadAllOf(Batches(w.trailer)) == [];
  }

  lemma EncodedSplit(w: Writer, kept: Stream, rest: seq<Message>)
    requires |kept| > 0
    ensures Encoded(w, kept) + rest == [Ipc(w.encode(kept[0]))] + (Encoded(w, kept[1..]) + rest)
    ensures ReadAllOf(kept) == [BatchRead(kept[0])] + ReadAllOf(kept[1..])
  {
  }

  lemma Regroup(a: seq<Event>, b: seq<Event>, c: seq<Event>)
    ensures a + (b + c) == (a + b) + c
  {
  }

  lemma EncodedStep(w: Writer, kept: Stream, rest: seq<Message>)
    requires ValidWriter(w) && |kept| > 0
    requires Events(Encoded(w, kept[1..]) + rest, true) == ReadAllOf(kept[1..]) + Events(rest, true)
    ensures Events(Encoded(w, kept) + rest, true) == ReadAllOf(kept) + Events(rest, true)
  {
    EncodedSplit(w, kept, rest);
    BatchFirst(w, kept[0], Encoded(w, kept[1..]) + rest);
    Regroup([BatchRead(kept[0])], ReadAllOf(kept[1..]), Events(rest, true));
  }

  lemma {:induction false} EncodedEvents(w: Writer, kept: Stream, rest: seq<Message>)
    requires ValidWriter(w)
    ensures Events(Encoded(w, kept) + rest, true) == ReadAllOf(kept) + Events(rest, true)
    decreases |kept|
  {
    if |kept| == 0 {
      assert Encoded(w, kept) + rest == rest;
      assert ReadAllOf(kept) + Events(rest, true) == Events(rest, true);
    } else {
      EncodedEvents(w, kept[1..], rest);
      EncodedStep(w, kept, rest);
    }
  }

  /** What the driver sends for one query turns into the schema, once and first,
      then the batches, and what follows. */
  lemma MessagesEvents(w: Writer, kept: Stream, rest: seq<Message>)
    requires ValidWriter(w)
    ensures Events(Messages(w, kept) + rest, false) == [SchemaKnown] + ReadAllOf(kept) + Events(rest, true)
  {
    var trailer := if |w.trailer| == 0 then [] else [Ipc(w.trailer)];
    var tail := trailer + rest;
    assert Messages(w, kept) + rest == [Ipc(w.header)] + (Encoded(w, kept) + tail);
    HeaderFirst(w, Encoded(w, kept) + tail);
    EncodedEvents(w, kept, tail);
    if |w.trailer| > 0 {
      TrailerFirst(w, rest);
    } else {
      assert tail == rest;
    }
  }

  // ---------------------------------------------------------------- a whole query

  /** Progress messages while the job runs. */
  function Waiting(n: nat): (r: seq<Message>)
    ensures |r| == n
  {
    seq(n, _ => Progress)
  }

  /** A query that succeeds, as the driver sends it. */
  function Response(w: Writer, progress: nat, kept: Stream, rows: nat): seq<Message> {
    [Started] + Waiting(progress) + Messages(w, kept) + [Finished(rows)]
  }

  function WaitingEvents(n: nat): (r: seq<Event>)
    ensures |r| == n
  {
    seq(n, _ => InProgress)
  }

  lemma ProgressFirst(rest: seq<Message>)
    ensures Events([Progress] + rest, false) == [InProgress] + Events(rest, false)
  {
    assert ([Progress] + rest)[1..] == rest;
  }

  lemma {:induction false} WaitingFirst(n: nat, rest: seq<Message>)
    ensures Events(Waiting(n) + rest, false) == WaitingEvents(n) + Events(rest, false)
  {
    if n == 0 {
      assert Waiting(0) + rest == rest;
      assert WaitingEvents(0) + Events(rest, false) == Events(rest, false);
    } else {
      WaitingFirst(n - 1, rest);
      ProgressFirst(Waiting(n - 1) + rest);
      assert Waiting(n) + rest == [Progress] + (Waiting(n - 1) + rest);
      assert WaitingEvents(n) == [InProgress] + WaitingEvents(n - 1);
      Regroup([InProgress], WaitingEvents(n - 1), Events(rest, false));
    }
  }

  lemma StartedFirst(rest: seq<Message>)
    ensures Events([Started] + rest, false) == [QueryStarted] + Events(rest, false)
  {
    assert ([Started] + rest)[1..] == rest;
  }

  lemma FinishedLast(rows: nat)
    ensures Events([Finished(rows)], true) == [QueryFinished(rows)]
  {
    assert Events([], true) == [];
  }

  /** The client sees the schema once, before any batch, then the batches the driver
      kept, in order, and the row count. */
  lemma ResponseEvents(w: Writer, progress: nat, kept: Stream, rows: nat)
    requires ValidWriter(w)
    ensures Events(Response(w, progress, kept, rows), false) ==
            [QueryStarted] + WaitingEvents(progress) + [SchemaKnown] + ReadAllOf(kept) + [QueryFinished(rows)]
  {
    var body := Messages(w, kept) + [Finished(rows)];
    assert Response(w, progress, kept, rows) == [Started] + (Waiting(progress) + body);
    StartedFirst(Waiting(progress) + body);
    WaitingFirst(progress, body);
    MessagesEvents(w, kept, [Finished(rows)]);
    FinishedLast(rows);
    assert [QueryStarted] + WaitingEvents(progress) + [SchemaKnown] + ReadAllOf(kept) + [QueryFinished(rows)] ==
           [QueryStarted] + (WaitingEvents(progress) + ([SchemaKnown] + ReadAllOf(kept) + [QueryFinished(rows)]));
  }

  datatype Collected = Collected(started: bool, schema: bool, batches: Stream, finished: Option<nat>)

  function Fold(out: Collected, ev: Event): Collected {
    match ev
    case QueryStarted => out.(started := true)
    case SchemaKnown => out.(schema := true)
    case BatchRead(b) => out.(batches := out.batches + [b])
    case QueryFinished(rows) => out.(finished := Some(rows))
    case _ => out
  }

  function FoldAll(out: Collected, events: seq<Event>): Collected
    decreases |events|
  {
    if |events| == 0 then out else FoldAll(Fold(out, events[0]), events[1..])
  }

  ghost predicate NoFailures(events: seq<Event>) {
    forall i :: 0 <= i < |events| ==> !events[i].Failure?
  }

  lemma NoFailuresFirst(events: seq<Event>)
    requires |events| > 0
    ensures NoFailures(events) <==> !events[0].Failure? && NoFailures(events[1..])
  {
    assert forall i :: 0 < i < |events| ==> events[i] == events[1..][i - 1];
  }

  /** Drain a stream; the first failure ends it. */
  method Collect(stream: QueryStream) returns (out: Option<Collected>)
    modifies stream
    ensures out == if NoFailures(old(stream.Rest()))
      then Some(FoldAll(Collected(false, false, [], None), old(stream.Rest()))) else None
  {
    var r := Collected(false, false, [], None);
    ghost var all := stream.Rest();
    while true
      invariant FoldAll(Collected(false, false, [], None), all) == FoldAll(r, stream.Rest())
      invariant NoFailures(all) <==> NoFailures(stream.Rest())
      decreases |stream.Rest()|
    {
      ghost var before := stream.Rest();
      var ev := stream.Next();
      if ev.None? {
        return Some(r);
      }
      assert before == [ev.value] + stream.Rest();
      assert before[1..] == stream.Rest() && before[0] == ev.value;
      if ev.value.Failure? {
        return None;
      }
      NoFailuresFirst(before);
      r := Fold(r, ev.value);
    }
  }

  /** A query that fails on the way is never taken for a complete one. */
  lemma {:induction false} FailureIsSeen(inbound: seq<Message>, known: bool)
    requires TransportFails in inbound
    ensures !NoFailures(Events(inbound, known))
    decreases |inbound|
  {
    var message, rest := inbound[0], inbound[1..];
    if message.TransportFails? {
      assert Events(inbound, known)[0] == Failure;
    } else if message.Ipc? {
      if Clean(message.bytes) {
        var learns := !known && SchemaEnds in message.bytes;
        FailureIsSeen(rest, known || learns);
        FailureBehind((if learns then [SchemaKnown] else []) + ReadAllOf(Batches(message.bytes)),
                      Events(rest, known || learns));
      } else {
        assert Events(inbound, known)[0] == Failure;
      }
    } else {
      FailureIsSeen(rest, known);
      var own := Events(inbound, known)[..|Events(inbound, known)| - |Events(rest, known)|];
      assert Events(inbound, known) == own + Events(rest, known);
      FailureBehind(own, Events(rest, known));
    }
  }

  lemma FailureBehind(a: seq<Event>, b: seq<Event>)
    requires !NoFailures(b)
    ensures !NoFailures(a + b)
  {
    var i :| 0 <= i < |b| && b[i].Failure?;
    assert (a + b)[|a| + i] == b[i];
  }

  lemma {:induction false} FoldAppend(out: Collected, a: seq<Event>, b: seq<Event>)
    ensures FoldAll(out, a + b) == FoldAll(FoldAll(out, a), b)
    decreases |a|
  {
    if |a| == 0 {
      assert a + b == b;
    } else {
      assert (a + b)[1..] == a[1..] + b;
      FoldAppend(Fold(out, a[0]), a[1..], b);
    }
  }

  lemma {:induction false} FoldWaiting(out: Collected, n: nat)
    ensures FoldAll(out, WaitingEvents(n)) == out
  {
    if n > 0 {
      assert WaitingEvents(n)[1..] == WaitingEvents(n - 1);
      FoldWaiting(out, n - 1);
    }
  }

  lemma {:induction false} FoldBatches(out: Collected, batches: Stream)
    ensures FoldAll(out, ReadAllOf(batches)) == out.(batches := out.batches + batches)
    decreases |batches|
  {
    if |batches| == 0 {
      assert out.batches + batches == out.batches;
    } else {
      var b := batches[0];
      assert ReadAllOf(batches)[1..] == ReadAllOf(batches[1..]);
      FoldBatches(out.(batches := out.batches + [b]), batches[1..]);
      assert out.batches + [b] + batches[1..] == out.batches + batches;
    }
  }

  lemma FoldOne(out: Collected, ev: Event)
    ensures FoldAll(out, [ev]) == Fold(out, ev)
  {
    assert [ev][1..] == [];
  }

  /** Collecting an answer gives back exactly the batches kept, with the schema and
      the row count. */
  lemma ResponseCollected(w: Writer, progress: nat, kept: Stream, rows: nat)
    requires ValidWriter(w)
    ensures var events := Events(Response(w, progress, kept, rows), false);
      && NoFailures(events)
      && FoldAll(Collected(false, false, [], None), events) == Collected(true, true, kept, Some(rows))
  {
    ResponseEvents(w, progress, kept, rows);
    var c0 := Collected(false, false, [], None);
    var c1 := Collected(true, false, [], None);
    var c2 := Collected(true, true, [], None);
    var e1 := [QueryStarted] + WaitingEvents(progress);
    var e2 := e1 + [SchemaKnown];
    var e3 := e2 + ReadAllOf(kept);
    FoldAppend(c0, [QueryStarted], WaitingEvents(progress));
    FoldOne(c0, QueryStarted);
    FoldWaiting(c1, progress);
    FoldAppend(c0, e1, [SchemaKnown]);
    FoldOne(c1, SchemaKnown);
    FoldAppend(c0, e2, ReadAllOf(kept));
    FoldBatches(c2, kept);
    FoldAppend(c0, e3, [QueryFinished(rows)]);
    FoldOne(Collected(true, true, kept, None), QueryFinished(rows));
  }
}
