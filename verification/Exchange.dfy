/** Hash routing of stage outputs (src/cluster/hash_exchange.rs). */
module Exchange {
  import opened Basics
  import opened Values

  /** The destination of a row: the hash of its encoded key, modulo the partition count. */
  function Route(c: KeyCodec, columns: seq<nat>, count: nat, row: Row): nat
    requires 0 < count
  {
    c.hash(c.encode(KeyAt(columns, row))) % count
  }

  /** The rows bound for one destination, in their original order. */
  function Routed(c: KeyCodec, columns: seq<nat>, count: nat, rows: seq<Row>, d: nat): seq<Row>
    requires 0 < count
  {
    if rows == [] then []
    else
      var last := rows[|rows| - 1];
      Routed(c, columns, count, rows[..|rows| - 1], d)
        + (if Route(c, columns, count, last) == d then [last] else [])
  }

  lemma RoutedPush(c: KeyCodec, columns: seq<nat>, count: nat, rows: seq<Row>, row: Row, d: nat)
    requires 0 < count
    ensures Routed(c, columns, count, rows + [row], d)
      == Routed(c, columns, count, rows, d) + (if Route(c, columns, count, row) == d then [row] else [])
  {
    assert (rows + [row])[..|rows|] == rows;
  }

  lemma {:induction false} RoutedConcat(c: KeyCodec, columns: seq<nat>, count: nat, a: seq<Row>, b: seq<Row>, d: nat)
    requires 0 < count
    ensures Routed(c, columns, count, a + b, d) == Routed(c, columns, count, a, d) + Routed(c, columns, count, b, d)
  {
    if b == [] {
      assert a + b == a;
    } else {
      var n := |b| - 1;
      assert a + b == (a + b[..n]) + [b[n]];
      RoutedPush(c, columns, count, a + b[..n], b[n], d);
      RoutedConcat(c, columns, count, a, b[..n], d);
    }
  }

  predicate ValidExchange(width: nat, columns: seq<nat>, count: nat) {
    0 < count && columns != [] && forall i | 0 <= i < |columns| :: columns[i] < width
  }

  /** The rows of a batch at the given positions. */
  function Taken(rows: seq<Row>, indices: seq<nat>): seq<Row>
    requires forall i | 0 <= i < |indices| :: indices[i] < |rows|
  {
    seq(|indices|, i requires 0 <= i < |indices| => rows[indices[i]])
  }

  predicate Positions(indices: seq<seq<nat>>, n: nat) {
    forall d, i | 0 <= d < |indices| && 0 <= i < |indices[d]| :: indices[d][i] < n
  }

  /** Sorts the positions of one batch by destination. */
  method RouteBatch(c: KeyCodec, columns: seq<nat>, count: nat, rows: seq<Row>) returns (indices: seq<seq<nat>>)
    requires 0 < count
    ensures |indices| == count && Positions(indices, |rows|)
    ensures forall d: nat | d < count :: Taken(rows, indices[d]) == Routed(c, columns, count, rows, d)
  {
    indices := seq(count, _ => []);
    var row := 0;
    while row < |rows|
      invariant 0 <= row <= |rows| && |indices| == count && Positions(indices, row)
      invariant forall d: nat | d < count :: Taken(rows, indices[d]) == Routed(c, columns, count, rows[..row], d)
    {
      var d := Route(c, columns, count, rows[row]);
      assert rows[..row + 1] == rows[..row] + [rows[row]];
      forall e: nat | e < count
        ensures Routed(c, columns, count, rows[..row + 1], e)
          == Routed(c, columns, count, rows[..row], e) + (if d == e then [rows[row]] else [])
      {
        RoutedPush(c, columns, count, rows[..row], rows[row], e);
      }
      indices := indices[d := indices[d] + [row]];
      row := row + 1;
    }
    assert rows[..row] == rows;
  }

  /** `repartition`: one list of batches per destination, every row at the destination its key
      hashes to, in its original order; empty destinations are kept. */
  method Repartition(c: KeyCodec, width: nat, batches: seq<Batch>, columns: seq<nat>, count: U32)
    returns (r: Option<seq<seq<Batch>>>)
    requires BatchesOf(width, batches)
    ensures r.Some? <==> ValidExchange(width, columns, count)
    ensures r.Some? ==> |r.value| == count
    ensures r.Some? ==> forall d: nat | d < count :: BatchesOf(width, r.value[d])
    ensures r.Some? ==>
      forall d: nat | d < count :: AllRows(r.value[d]) == Routed(c, columns, count, AllRows(batches), d)
  {
    if count == 0 || columns == [] || exists i :: 0 <= i < |columns| && columns[i] >= width {
      return None;
    }
    var outputs: seq<seq<Batch>> := seq(count, _ => []);
    var b := 0;
    while b < |batches|
      invariant 0 <= b <= |batches| && |outputs| == count
      invariant forall d: nat | d < count :: BatchesOf(width, outputs[d])
      invariant forall d: nat | d < count ::
                  AllRows(outputs[d]) == Routed(c, columns, count, AllRows(batches[..b]), d)
    {
      outputs := AppendBatch(c, width, columns, count, batches[b].rows, AllRows(batches[..b]), outputs);
      assert batches[..b + 1] == batches[..b] + [batches[b]];
      AllRowsPush(batches[..b], batches[b]);
      b := b + 1;
    }
    assert batches[..b] == batches;
    r := Some(outputs);
  }

  /** Adds one routed batch to every destination that receives a row of it. */
  method AppendBatch(c: KeyCodec, width: nat, columns: seq<nat>, count: nat, rows: seq<Row>,
                     ghost before: seq<Row>, outputs: seq<seq<Batch>>)
    returns (r: seq<seq<Batch>>)
    requires 0 < count == |outputs| && RowsOf(width, rows)
    requires forall d: nat | d < count :: BatchesOf(width, outputs[d])
    requires forall d: nat | d < count :: AllRows(outputs[d]) == Routed(c, columns, count, before, d)
    ensures |r| == count && forall d: nat | d < count :: BatchesOf(width, r[d])
    ensures forall d: nat | d < count :: AllRows(r[d]) == Routed(c, columns, count, before + rows, d)
  {
    hide Routed; hide AllRows;
    var indices := RouteBatch(c, columns, count, rows);
    r := outputs;
    var d := 0;
    while d < count
      invariant 0 <= d <= count && |r| == count
      invariant forall e: nat | e < count :: BatchesOf(width, r[e])
      invariant forall e: nat | e < count ::
                  AllRows(r[e]) == Routed(c, columns, count, if e < d then before + rows else before, e)
    {
      RoutedConcat(c, columns, count, before, rows, d);
      var taken := Taken(rows, indices[d]);
      assert taken == Routed(c, columns, count, rows, d) && RowsOf(width, taken);
      if indices[d] == [] {
        assert taken == [] && AllRows(r[d]) + taken == AllRows(r[d]);
      } else {
        var output := Batch(width, taken);
        AllRowsPush(r[d], output);
        r := r[d := r[d] + [output]];
      }
      d := d + 1;
    }
  }

  // ----- a producer stage and its readers ----------------------------------------------------

  /** The rows each producer partition puts out. */
  function RowsPerProducer(producers: seq<seq<Batch>>): seq<seq<Row>> {
    seq(|producers|, p requires 0 <= p < |producers| => AllRows(producers[p]))
  }

  /** All the rows of a partitioned input, in partition order: what a native run reads. */
  function InputRows(producers: seq<seq<Batch>>): seq<Row> {
    Concat(RowsPerProducer(producers))
  }

  lemma InputRowsPush(producers: seq<seq<Batch>>, batches: seq<Batch>)
    ensures InputRows(producers + [batches]) == InputRows(producers) + AllRows(batches)
  {
    var all := RowsPerProducer(producers + [batches]);
    assert all[..|producers|] == RowsPerProducer(producers);
    assert all[|producers|] == AllRows(batches);
  }

  /** `blocks[p][d]` is what producer `p` published for destination `d`. */
  ghost predicate Published(c: KeyCodec, width: nat, columns: seq<nat>, count: nat,
                            producers: seq<seq<Batch>>, blocks: seq<seq<seq<Batch>>>)
    requires 0 < count
  {
    && |blocks| <= |producers|
    && (forall p | 0 <= p < |blocks| :: |blocks[p]| == count)
    && (forall p, d | 0 <= p < |blocks| && 0 <= d < count ::
          BatchesOf(width, blocks[p][d]) && AllRows(blocks[p][d]) == Routed(c, columns, count, AllRows(producers[p]), d))
  }

  /** The producer stage: every partition repartitions its output. */
  method PublishAll(c: KeyCodec, width: nat, columns: seq<nat>, count: U32, producers: seq<seq<Batch>>)
    returns (blocks: seq<seq<seq<Batch>>>)
    requires ValidExchange(width, columns, count)
    requires forall p | 0 <= p < |producers| :: BatchesOf(width, producers[p])
    ensures |blocks| == |producers| && Published(c, width, columns, count, producers, blocks)
  {
    hide AllRows; hide Routed; hide BatchesOf;
    blocks := [];
    while |blocks| < |producers|
      invariant Published(c, width, columns, count, producers, blocks)
    {
      var routed := Repartition(c, width, producers[|blocks|], columns, count);
      blocks := blocks + [routed.value];
    }
  }

  /** What one destination reads: its block of every producer, in producer order. */
  method Receive(c: KeyCodec, width: nat, columns: seq<nat>, count: nat, d: nat, blocks: seq<seq<seq<Batch>>>,
                 ghost producers: seq<seq<Batch>>)
    returns (batches: seq<Batch>)
    requires d < count && |blocks| == |producers| && Published(c, width, columns, count, producers, blocks)
    ensures BatchesOf(width, batches)
    ensures AllRows(batches) == Routed(c, columns, count, InputRows(producers), d)
  {
    hide InputRows; hide Routed; hide AllRows;
    batches := [];
    ReceivedNothing(c, columns, count, d);
    assert producers[..0] == [];
    var p := 0;
    while p < |blocks|
      invariant 0 <= p <= |blocks| && BatchesOf(width, batches)
      invariant AllRows(batches) == Routed(c, columns, count, InputRows(producers[..p]), d)
    {
      AllRowsConcat(batches, blocks[p][d]);
      InputRowsPush(producers[..p], producers[p]);
      RoutedConcat(c, columns, count, InputRows(producers[..p]), AllRows(producers[p]), d);
      assert producers[..p + 1] == producers[..p] + [producers[p]];
      assert BatchesOf(width, blocks[p][d]);
      batches := batches + blocks[p][d];
      p := p + 1;
    }
    assert producers[..p] == producers;
  }

  lemma ReceivedNothing(c: KeyCodec, columns: seq<nat>, count: nat, d: nat)
    requires 0 < count
    ensures AllRows([]) == [] && Routed(c, columns, count, InputRows([]), d) == []
  {
  }

  lemma {:induction false} AllRowsWidth(width: nat, batches: seq<Batch>)
    requires BatchesOf(width, batches)
    ensures RowsOf(width, AllRows(batches))
  {
    if batches != [] { AllRowsWidth(width, batches[..|batches| - 1]); }
  }
}
