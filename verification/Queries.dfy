/**
 From a submitted plan to what the client collects: all layers put together.
 */
module Queries {
  import opened Options
  import opened Plans
  import opened Jobs
  import opened Wire
  import opened Transport
  import opened Clusters
  import opened ClusterRuns
  import opened Streaming

  // ---------------------------------------------------------------- reading the result

  /** The network: the bytes of each location's file, and how they get read. */
  datatype Network = Network(file: Location -> seq<Cell>, pattern: Location -> nat -> Read)

  /** What a reader fetches for one partition, location by location; a location
      without rows has no file. */
  function FetchPartition(net: Network, locs: seq<Location>): seq<Fetched> {
    if |locs| == 0 then []
    else
      var l := locs[|locs| - 1];
      FetchPartition(net, locs[..|locs| - 1]) +
      (if l.numRows > 0 then Incoming(Serve(net.file(l), |net.file(l)|, net.pattern(l), 0, 0)) else [])
  }

  /** All partitions, one after the other. */
  function FetchAll(net: Network, parts: seq<seq<Location>>): seq<Fetched> {
    if |parts| == 0 then []
    else FetchAll(net, parts[..|parts| - 1]) + FetchPartition(net, parts[|parts| - 1])
  }

  /** The file decodes to what the location says it holds, and reading it works. */
  ghost predicate Served(net: Network, l: Location) {
    Clean(net.file(l)) && Batches(net.file(l)) == l.data && NeverFails(net.pattern(l))
  }

  ghost predicate AllServed(net: Network, parts: seq<seq<Location>>) {
    forall p, i :: 0 <= p < |parts| && 0 <= i < |parts[p]| ==> Served(net, parts[p][i])
  }

  lemma FetchOne(net: Network, l: Location)
    requires Served(net, l)
    ensures Incoming(Serve(net.file(l), |net.file(l)|, net.pattern(l), 0, 0)) == GotAll(l.data)
  {
    var file := net.file(l);
    FetchYieldsFile(file, |file|, net.pattern(l), 0, 0);
    assert file[0..|file|] == file;
  }

  /** Fetching a partition yields what reading its locations means. */
  lemma {:induction false} PartitionFetched(net: Network, locs: seq<Location>)
    requires forall i :: 0 <= i < |locs| ==> Served(net, locs[i])
    ensures FetchPartition(net, locs) == GotAll(ReadPartition(locs))
  {
    if |locs| > 0 {
      var front, l := locs[..|locs| - 1], locs[|locs| - 1];
      PartitionFetched(net, front);
      FetchOne(net, l);
      GotAllAppend(ReadPartition(front), if l.numRows > 0 then l.data else []);
    }
  }

  lemma {:induction false} AllFetched(net: Network, parts: seq<seq<Location>>)
    requires AllServed(net, parts)
    ensures FetchAll(net, parts) == GotAll(Concat(ReadAll(parts)))
  {
    if |parts| > 0 {
      var m := |parts| - 1;
      var front := parts[..m];
      assert AllServed(net, front) by {
        forall p, i | 0 <= p < m && 0 <= i < |front[p]|
          ensures Served(net, front[p][i])
        {
          assert Served(net, parts[p][i]);
        }
      }
      AllFetched(net, front);
      PartitionFetched(net, parts[m]);
      assert ReadAll(parts)[..m] == ReadAll(front);
      GotAllAppend(Concat(ReadAll(front)), ReadPartition(parts[m]));
    }
  }

  // ---------------------------------------------------------------- the driver

  function AsDelivered(fetched: seq<Fetched>): (input: seq<Delivered>)
    ensures |input| == |fetched|
  {
    seq(|fetched|, i requires 0 <= i < |fetched| => if fetched[i].Got? then Some(fetched[i].batch) else None)
  }

  /** All rows of a plan's output, partition by partition. */
  function PlanRows(ins: seq<Stream>): seq<Row> {
    Concat(Concat(ins))
  }

  lemma {:induction false} DeliveredRows(batches: Stream, input: seq<Delivered>, n: nat)
    requires |input| == |batches| && n <= |input|
    requires forall i :: 0 <= i < |input| ==> input[i] == Some(batches[i])
    ensures NoFailure(input, n) && Streaming.RowsOf(input, n) == Concat(batches[..n])
  {
    if n > 0 {
      DeliveredRows(batches, input, n - 1);
      assert batches[..n][..n - 1] == batches[..n - 1];
    }
  }

  lemma ResultRows(net: Network, parts: seq<seq<Location>>)
    requires AllServed(net, parts)
    ensures var input := AsDelivered(FetchAll(net, parts));
      FirstFailure(input, 0) == |input| && AllRows(input) == PlanRows(ReadAll(parts))
  {
    var batches, input := Concat(ReadAll(parts)), AsDelivered(FetchAll(net, parts));
    AllFetched(net, parts);
    DeliveredRows(batches, input, |input|);
    assert batches[..|input|] == batches;
  }

  /** The driver's side of a query whose job delivered `parts`: fetch them, stream
      them to the client, end with the row count, or with an error if a fetch
      fails before the limit is reached. */
  method SendAnswer(w: Writer, net: Network, parts: seq<seq<Location>>, progress: nat, limit: nat)
    returns (sent: seq<Message>, ok: bool, ghost kept: Stream)
    ensures forall k :: 0 <= k < |kept| ==> |kept[k]| > 0
    ensures Concat(kept) == FirstRows(AllRows(AsDelivered(FetchAll(net, parts))), limit)
    ensures ok ==> sent == Response(w, progress, kept, |Concat(kept)|)
    ensures !ok ==> !NoFailures(Events(sent, false))
    ensures var input := AsDelivered(FetchAll(net, parts));
      ok <==> FirstFailure(input, 0) == |input| || (limit > 0 && limit <= |AllRows(input)|)
    ensures AllServed(net, parts) ==> ok && Concat(kept) == FirstRows(PlanRows(ReadAll(parts)), limit)
  {
    if AllServed(net, parts) {
      ResultRows(net, parts);
    }
    var body, rows;
    body, rows, kept := StreamBatches(w, AsDelivered(FetchAll(net, parts)), limit);
    sent := [Started] + Waiting(progress) + body;
    match rows {
      case Some(n) => sent, ok := sent + [Finished(n)], true;
      case None =>
        sent, ok := sent + [TransportFails], false;
        assert sent[|sent| - 1] == TransportFails;
        FailureIsSeen(sent, false);
    }
  }

  // ---------------------------------------------------------------- the client

  /** Dropping empty batches drops no row. */
  lemma {:induction false} CompactAllRows(ins: seq<Stream>)
    ensures PlanRows(CompactAll(ins)) == PlanRows(ins)
  {
    if |ins| > 0 {
      var m := |ins| - 1;
      CompactAllRows(ins[..m]);
      CompactKeepsRows(ins[m]);
      assert CompactAll(ins)[..m] == CompactAll(ins[..m]);
      ConcatAppend(Concat(CompactAll(ins[..m])), Compact(ins[m]));
      ConcatAppend(Concat(ins[..m]), ins[m]);
    }
  }

  /** What a client makes of a whole response. */
  ghost predicate Collects(w: Writer, progress: nat, kept: Stream, rows: seq<Row>) {
    var events := Events(Response(w, progress, kept, |Concat(kept)|), false);
    && NoFailures(events)
    && var out := FoldAll(Collected(false, false, [], None), events);
       out.started && out.schema && Concat(out.batches) == rows && out.finished == Some(|rows|)
  }

  /** In every reachable state of the cluster, for every completed query and every
      limit: what the client collects from the driver's messages is the schema,
      the first `limit` rows of the submitted plan's output in order, and
      their number. */
  lemma ClientCollectsPlan(g: Setting, h: History, i: nat, k: string, parts: seq<seq<Location>>,
                           w: Writer, progress: nat, limit: nat, kept: Stream)
    requires IsHistory(g, h) && i < |h.states| && k in h.states[i].books.jobs && ValidWriter(w)
    requires h.states[i].books.jobs[k].status.JobCompleted? && h.states[i].books.jobs[k].sent == [Result(parts)]
    requires Concat(kept) == FirstRows(PlanRows(ReadAll(parts)), limit)
    ensures k in h.states[i].plans && Executable(h.states[i].plans[k])
    ensures Collects(w, progress, kept, FirstRows(PlanRows(Eval(g.engine, true, h.states[i].plans[k])), limit))
  {
    AnswerIsMeaning(g, h, i, k);
    CompactAllRows(Eval(g.engine, true, h.states[i].plans[k]));
    ResponseCollected(w, progress, kept, |Concat(kept)|);
  }

  lemma {:induction false} SamePlanRows(a: seq<Stream>, b: seq<Stream>)
    requires SameRowsAll(a, b)
    ensures PlanRows(a) == PlanRows(b)
  {
    ConcatSameRows(a, b);
  }

  /** And those are the rows of running the plan in one process, if operators look
      only at rows and every round robin deals what one process would deal. */
  lemma ClientCollectsLocal(g: Setting, h: History, i: nat, k: string, parts: seq<seq<Location>>,
                            w: Writer, progress: nat, limit: nat, kept: Stream)
    requires IsHistory(g, h) && i < |h.states| && k in h.states[i].books.jobs && ValidWriter(w)
    requires h.states[i].books.jobs[k].status.JobCompleted? && h.states[i].books.jobs[k].sent == [Result(parts)]
    requires Concat(kept) == FirstRows(PlanRows(ReadAll(parts)), limit)
    requires k in h.states[i].plans && Executable(h.states[i].plans[k])
    requires RowEngine(g.engine) && Steady(g.engine, h.states[i].plans[k])
    ensures Collects(w, progress, kept, FirstRows(PlanRows(Eval(g.engine, false, h.states[i].plans[k])), limit))
  {
    var plan := h.states[i].plans[k];
    ClientCollectsPlan(g, h, i, k, parts, w, progress, limit, kept);
    SteadyMeaning(g.engine, plan);
    SamePlanRows(Eval(g.engine, true, plan), Eval(g.engine, false, plan));
  }
}
