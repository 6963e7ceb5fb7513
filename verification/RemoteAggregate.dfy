/** The two-stage remote aggregate (src/cluster/distributed.rs, src/query/session.rs): partial
    aggregation per partition, routing by group key, and a final merge per destination. */
module RemoteAggregate {
  import opened Basics
  import opened Values
  import opened Exchange
  import opened Aggregates
  import opened GroupBy
  import opened TwoStage

  // ----- what the partial stage hands on -----------------------------------------------------

  lemma {:induction false} OfDistinct(rows: seq<Tuple>, i: nat)
    requires i < |rows| && forall a, b | 0 <= a < b < |rows| :: rows[a].key != rows[b].key
    ensures Of(rows, rows[i].key) == [rows[i]]
  {
    var n := |rows| - 1;
    if i == n {
      if Of(rows[..n], rows[i].key) != [] { OfAbsent(rows[..n], rows[i].key); }
    } else {
      OfDistinct(rows[..n], i);
    }
  }

  /** A stage puts out one row for each of its groups and none for other keys. */
  lemma EmittedOnce(functions: seq<Function>, grouped: bool, rows: seq<Tuple>, output: seq<Tuple>, key: seq<Scalar>)
    requires Emits(functions, grouped, rows, output)
    ensures Of(output, key) ==
      if key in GroupKeys(grouped, rows) then [Tuple(key, GroupValues(functions, Of(rows, key)))] else []
  {
    hide GroupKeys; hide GroupValues;
    if key in GroupKeys(grouped, rows) {
      var i :| 0 <= i < |output| && output[i].key == key;
      OfDistinct(output, i);
    } else {
      OfAbsent(output, key);
    }
  }

  ghost predicate PartialsEmitted(functions: seq<Function>, grouped: bool, partitions: seq<seq<Tuple>>, emitted: seq<seq<Tuple>>) {
    && |emitted| == |partitions|
    && forall p | 0 <= p < |partitions| ::
      Emits(PartialFunctions(functions), grouped, PartialRows(functions, partitions[p]), emitted[p])
  }

  /** All partial rows of one group: one per partition that knows the group, in partition order. */
  lemma {:induction false} EmittedGroup(functions: seq<Function>, grouped: bool, partitions: seq<seq<Tuple>>,
                                        emitted: seq<seq<Tuple>>, key: seq<Scalar>)
    requires PartialsEmitted(functions, grouped, partitions, emitted)
    ensures Of(Concat(emitted), key) == PartialGroup(functions, Parts(grouped, partitions, key), key)
  {
    hide Emits; hide GroupValues; hide PartialRows; hide PartialFunctions; hide GroupKeys; hide Of; hide PartialGroup;
    if partitions == [] {
      NothingEmitted(functions, key);
    } else {
      var n := |partitions| - 1;
      var before := Parts(grouped, partitions[..n], key);
      EmittedGroup(functions, grouped, partitions[..n], emitted[..n], key);
      OfConcat(Concat(emitted[..n]), emitted[n], key);
      EmittedOnce(PartialFunctions(functions), grouped, PartialRows(functions, partitions[n]), emitted[n], key);
      PartialKeys(functions, grouped, partitions[n]);
      PartialRowsOf(functions, partitions[n], key);
      if key in GroupKeys(grouped, partitions[n]) {
        PartialGroupPush(functions, before, Of(partitions[n], key), key);
      } else {
        assert Parts(grouped, partitions, key) == before;
        assert Of(Concat(emitted), key) == Of(Concat(emitted[..n]), key);
      }
    }
  }

  lemma NothingEmitted(functions: seq<Function>, key: seq<Scalar>)
    ensures Of([], key) == [] && PartialGroup(functions, [], key) == []
  {
  }

  lemma PartialGroupPush(functions: seq<Function>, parts: seq<seq<Tuple>>, part: seq<Tuple>, key: seq<Scalar>)
    ensures PartialGroup(functions, parts + [part], key)
      == PartialGroup(functions, parts, key)
         + [Tuple(key, GroupValues(PartialFunctions(functions), PartialRows(functions, part)))]
  {
    hide GroupValues; hide PartialRows; hide PartialFunctions;
  }

  lemma InGroupKeys(grouped: bool, rows: seq<Tuple>, key: seq<Scalar>)
    ensures key in GroupKeys(grouped, rows) <==> Of(rows, key) != [] || (!grouped && key == [])
  {
    OfAbsent(rows, key);
  }

  /** A group has parts exactly when it is a group of the whole input. */
  lemma {:induction false} PartsOfGroup(grouped: bool, partitions: seq<seq<Tuple>>, key: seq<Scalar>)
    requires grouped || partitions != []
    ensures Parts(grouped, partitions, key) != [] <==> key in GroupKeys(grouped, Concat(partitions))
  {
    hide GroupKeys;
    InGroupKeys(grouped, Concat(partitions), key);
    if partitions != [] {
      var n := |partitions| - 1;
      InGroupKeys(grouped, partitions[n], key);
      OfConcat(Concat(partitions[..n]), partitions[n], key);
      InGroupKeys(grouped, Concat(partitions[..n]), key);
      if grouped || n > 0 {
        PartsOfGroup(grouped, partitions[..n], key);
      }
    }
  }

  // ----- routing by group key ----------------------------------------------------------------

  function KeyRoute(c: KeyCodec, count: nat, key: seq<Scalar>): nat
    requires 0 < count
  {
    c.hash(c.encode(key)) % count
  }

  function FirstColumns(n: nat): seq<nat> {
    seq(n, i => i)
  }

  function RowOf(t: Tuple): Row {
    t.key + t.args
  }

  function RowsFrom(tuples: seq<Tuple>): seq<Row> {
    seq(|tuples|, i requires 0 <= i < |tuples| => RowOf(tuples[i]))
  }

  function TupleOf(groupCount: nat, row: Row): Tuple {
    if groupCount <= |row| then Tuple(row[..groupCount], row[groupCount..]) else Tuple(row, [])
  }

  function TuplesFrom(groupCount: nat, rows: seq<Row>): seq<Tuple> {
    seq(|rows|, i requires 0 <= i < |rows| => TupleOf(groupCount, rows[i]))
  }

  predicate Shaped(groupCount: nat, argCount: nat, tuples: seq<Tuple>) {
    forall i | 0 <= i < |tuples| :: |tuples[i].key| == groupCount && |tuples[i].args| == argCount
  }

  lemma TuplesBack(groupCount: nat, argCount: nat, tuples: seq<Tuple>)
    requires Shaped(groupCount, argCount, tuples)
    ensures TuplesFrom(groupCount, RowsFrom(tuples)) == tuples
    ensures RowsOf(groupCount + argCount, RowsFrom(tuples))
  {
  }

  lemma {:induction false} TuplesConcat(groupCount: nat, argCount: nat, emitted: seq<seq<Tuple>>, batches: seq<seq<Batch>>)
    requires |batches| == |emitted| && forall p | 0 <= p < |emitted| ::
      Shaped(groupCount, argCount, emitted[p]) && AllRows(batches[p]) == RowsFrom(emitted[p])
    ensures TuplesFrom(groupCount, InputRows(batches)) == Concat(emitted)
    ensures RowsOf(groupCount + argCount, InputRows(batches))
  {
    if emitted != [] {
      var n := |emitted| - 1;
      TuplesConcat(groupCount, argCount, emitted[..n], batches[..n]);
      assert batches == batches[..n] + [batches[n]];
      InputRowsPush(batches[..n], batches[n]);
      TuplesBack(groupCount, argCount, emitted[n]);
      TuplesSplit(groupCount, InputRows(batches[..n]), AllRows(batches[n]));
    }
  }

  lemma TuplesSplit(groupCount: nat, a: seq<Row>, b: seq<Row>)
    ensures TuplesFrom(groupCount, a + b) == TuplesFrom(groupCount, a) + TuplesFrom(groupCount, b)
  {
  }

  lemma KeyOfRow(groupCount: nat, row: Row)
    requires groupCount <= |row|
    ensures KeyAt(FirstColumns(groupCount), row) == TupleOf(groupCount, row).key
  {
  }

  /** A destination holds the rows of exactly the groups that are routed to it. */
  ghost predicate Delivered(c: KeyCodec, count: nat, d: nat, all: seq<Tuple>, mine: seq<Tuple>)
    requires 0 < count
  {
    forall key :: Of(mine, key) == if KeyRoute(c, count, key) == d then Of(all, key) else []
  }

  lemma OneTuple(groupCount: nat, row: Row)
    ensures TuplesFrom(groupCount, [row]) == [TupleOf(groupCount, row)]
  {
    hide TupleOf;
  }

  lemma GroupPush(groupCount: nat, rows: seq<Row>, row: Row, key: seq<Scalar>)
    ensures var last := TupleOf(groupCount, row);
      Of(TuplesFrom(groupCount, rows + [row]), key) == Of(TuplesFrom(groupCount, rows), key) + (if last.key == key then [last] else [])
  {
    hide TupleOf; hide Of; hide TuplesFrom;
    TuplesSplit(groupCount, rows, [row]);
    OneTuple(groupCount, row);
    OfPush(TuplesFrom(groupCount, rows), TupleOf(groupCount, row), key);
  }

  lemma {:induction false} RoutedGroup(c: KeyCodec, groupCount: nat, width: nat, count: nat, rows: seq<Row>, d: nat, key: seq<Scalar>)
    requires 0 < count && groupCount <= width && RowsOf(width, rows)
    ensures Of(TuplesFrom(groupCount, Routed(c, FirstColumns(groupCount), count, rows, d)), key)
      == if KeyRoute(c, count, key) == d then Of(TuplesFrom(groupCount, rows), key) else []
  {
    hide TupleOf; hide KeyAt; hide FirstColumns; hide Of; hide TuplesFrom; hide Routed;
    var columns := FirstColumns(groupCount);
    if rows == [] {
      NothingRouted(c, groupCount, count, columns, d, key);
    } else {
      var n := |rows| - 1;
      RoutedGroup(c, groupCount, width, count, rows[..n], d, key);
      KeyOfRow(groupCount, rows[n]);
      assert rows == rows[..n] + [rows[n]];
      GroupPush(groupCount, rows[..n], rows[n], key);
      RoutedPush(c, columns, count, rows[..n], rows[n], d);
      var before := Routed(c, columns, count, rows[..n], d);
      if Route(c, columns, count, rows[n]) == d {
        GroupPush(groupCount, before, rows[n], key);
      } else {
        assert before + [] == before;
      }
    }
  }

  lemma NothingRouted(c: KeyCodec, groupCount: nat, count: nat, columns: seq<nat>, d: nat, key: seq<Scalar>)
    requires 0 < count
    ensures Routed(c, columns, count, [], d) == [] && Of(TuplesFrom(groupCount, []), key) == []
  {
  }

  // ----- the final task ----------------------------------------------------------------------

  /** `output` lists the groups of its input once each, with merged and projected values. */
  ghost predicate EmitsMerged(functions: seq<Function>, grouped: bool, rows: seq<Tuple>, output: seq<Tuple>) {
    && (forall i | 0 <= i < |output| ::
          output[i].key in GroupKeys(grouped, rows)
          && output[i].args == Projected(Outputs(functions), GroupValues(MergeFunctions(functions), Of(rows, output[i].key))))
    && (forall i, j | 0 <= i < j < |output| :: output[i].key != output[j].key)
    && (forall key | key in GroupKeys(grouped, rows) :: exists i :: 0 <= i < |output| && output[i].key == key)
  }

  /** A row as the final aggregate sees it: each merge reads its column. */
  function MergeRows(merges: seq<Merge>, rows: seq<Tuple>): seq<Tuple> {
    seq(|rows|, i requires 0 <= i < |rows| =>
      Tuple(rows[i].key, seq(|merges|, j requires 0 <= j < |merges| => Arg(rows[i], merges[j].column))))
  }

  lemma MergeRowsSame(functions: seq<Function>, groupCount: nat, rows: seq<Tuple>)
    requires Shaped(groupCount, |Partials(functions)|, rows)
    ensures MergeRows(Merges(functions), rows) == rows
  {
    hide Partials;
    var merged := MergeRows(Merges(functions), rows);
    forall i | 0 <= i < |rows| ensures merged[i] == rows[i] {
      assert merged[i].args == rows[i].args;
    }
  }

  /** One task of the final stage: a hash aggregate over the partial rows and a projection. */
  method FinalTask(c: KeyCodec, functions: seq<Function>, groupCount: nat, rows: seq<Tuple>)
    returns (r: Option<seq<Tuple>>)
    requires Lossless(c, GroupKeys(groupCount > 0, rows)) && Shaped(groupCount, |Partials(functions)|, rows)
    ensures r.Some? <==> Accepted(MergeFunctions(functions), groupCount > 0, rows)
    ensures r.Some? ==> EmitsMerged(functions, groupCount > 0, rows, r.value)
  {
    hide Partials; hide Accepted; hide GroupKeys; hide Of; hide GroupValues; hide Projected; hide Lossless;
    var grouped := groupCount > 0;
    var merges, outputs := FinalPlan(functions);
    MergeRowsSame(functions, groupCount, rows);
    var kinds := seq(|merges|, j requires 0 <= j < |merges| => merges[j].kind);
    assert kinds == MergeFunctions(functions);
    var merged := HashAggregate(c, kinds, grouped, MergeRows(merges, rows));
    if merged.None? { return None; }
    var m := merged.value;
    var output := seq(|m|, i requires 0 <= i < |m| => Tuple(m[i].key, Projected(outputs, m[i].args)));
    forall key | key in GroupKeys(grouped, rows) ensures exists i :: 0 <= i < |output| && output[i].key == key {
      var i :| 0 <= i < |m| && m[i].key == key;
      assert output[i].key == key;
    }
    r := Some(output);
  }

  // ----- the partial stage -------------------------------------------------------------------

  /** The first stage: every partition aggregates its own rows. */
  method PartialStage(c: KeyCodec, functions: seq<Function>, grouped: bool, partitions: seq<seq<Tuple>>)
    returns (r: Option<seq<seq<Tuple>>>)
    requires Lossless(c, GroupKeys(grouped, Concat(partitions)))
    ensures r.Some? <==>
      forall p | 0 <= p < |partitions| :: Accepted(PartialFunctions(functions), grouped, PartialRows(functions, partitions[p]))
    ensures r.Some? ==> PartialsEmitted(functions, grouped, partitions, r.value)
  {
    hide Accepted; hide Emits; hide Lossless; hide PartialRows; hide Partials; hide GroupKeys;
    var partials := PartialAggregates(functions);
    var kinds := seq(|partials|, j requires 0 <= j < |partials| => partials[j].kind);
    assert kinds == PartialFunctions(functions);
    var emitted: seq<seq<Tuple>> := [];
    while |emitted| < |partitions|
      invariant |emitted| <= |partitions|
      invariant PartialsEmitted(functions, grouped, partitions[..|emitted|], emitted)
      invariant forall p | 0 <= p < |emitted| ::
                  Accepted(PartialFunctions(functions), grouped, PartialRows(functions, partitions[p]))
    {
      PartKeys(grouped, partitions, |emitted|);
      PartialKeys(functions, grouped, partitions[|emitted|]);
      FewerKeys(c, GroupKeys(grouped, Concat(partitions)), GroupKeys(grouped, PartialRows(functions, partitions[|emitted|])));
      var partial := HashAggregate(c, kinds, grouped, PartialRows(functions, partitions[|emitted|]));
      if partial.None? { return None; }
      emitted := emitted + [partial.value];
    }
    assert partitions[..|emitted|] == partitions;
    r := Some(emitted);
  }

  // ----- two stages are one ------------------------------------------------------------------

  /** `output` lists the groups routed below `n`, each once and with its one-stage values. */
  ghost predicate EmitsBelow(c: KeyCodec, count: nat, n: nat, functions: seq<Function>, grouped: bool,
                             rows: seq<Tuple>, output: seq<Tuple>)
    requires 0 < count
  {
    && (forall i | 0 <= i < |output| ::
          && output[i].key in GroupKeys(grouped, rows) && KeyRoute(c, count, output[i].key) < n
          && output[i].args == GroupValues(functions, Of(rows, output[i].key)))
    && (forall i, j | 0 <= i < j < |output| :: output[i].key != output[j].key)
    && (forall key | key in GroupKeys(grouped, rows) && KeyRoute(c, count, key) < n ::
          exists i :: 0 <= i < |output| && output[i].key == key)
  }

  /** The keys a destination sees are the groups routed to it. */
  lemma DeliveredKeys(c: KeyCodec, functions: seq<Function>, grouped: bool, count: nat, d: nat,
                      partitions: seq<seq<Tuple>>, emitted: seq<seq<Tuple>>, mine: seq<Tuple>, key: seq<Scalar>)
    requires 0 < count && (grouped || (partitions != [] && count == 1 && d == 0))
    requires PartialsEmitted(functions, grouped, partitions, emitted)
    requires Delivered(c, count, d, Concat(emitted), mine)
    ensures key in GroupKeys(grouped, mine) <==> key in GroupKeys(grouped, Concat(partitions)) && KeyRoute(c, count, key) == d
    ensures key in GroupKeys(grouped, mine) ==>
      && Of(mine, key) == PartialGroup(functions, Parts(grouped, partitions, key), key)
      && Parts(grouped, partitions, key) != []
  {
    hide GroupKeys; hide PartialsEmitted; hide Of; hide Parts;
    InGroupKeys(grouped, mine, key);
    InGroupKeys(grouped, Concat(partitions), key);
    PartsOfGroup(grouped, partitions, key);
    EmittedGroup(functions, grouped, partitions, emitted, key);
  }

  /** Where the partial stage succeeds, all the parts of every group are accepted. */
  lemma PartialStageAccepts(functions: seq<Function>, grouped: bool, partitions: seq<seq<Tuple>>, key: seq<Scalar>)
    requires forall p | 0 <= p < |partitions| :: Accepted(PartialFunctions(functions), grouped, PartialRows(functions, partitions[p]))
    ensures PartsAccepted(functions, Parts(grouped, partitions, key))
    decreases |partitions|
  {
    hide PartialRows; hide PartialFunctions; hide GroupAccepted; hide GroupKeys; hide Of;
    if partitions != [] {
      var n := |partitions| - 1;
      PartialStageAccepts(functions, grouped, partitions[..n], key);
      PartialKeys(functions, grouped, partitions[n]);
      PartialRowsOf(functions, partitions[n], key);
    }
  }

  /** A destination's merge fails exactly when one of its groups is not accepted as a whole. */
  lemma TaskAccepts(c: KeyCodec, functions: seq<Function>, grouped: bool, count: nat, d: nat,
                    partitions: seq<seq<Tuple>>, emitted: seq<seq<Tuple>>, mine: seq<Tuple>)
    requires 0 < count && (grouped || (partitions != [] && count == 1 && d == 0))
    requires PartialsEmitted(functions, grouped, partitions, emitted) && Delivered(c, count, d, Concat(emitted), mine)
    requires forall p | 0 <= p < |partitions| :: Accepted(PartialFunctions(functions), grouped, PartialRows(functions, partitions[p]))
    ensures Accepted(MergeFunctions(functions), grouped, mine) <==>
      forall key | key in GroupKeys(grouped, Concat(partitions)) && KeyRoute(c, count, key) == d ::
        GroupAccepted(functions, Of(Concat(partitions), key))
  {
    hide GroupAccepted; hide GroupKeys; hide Of; hide PartialsEmitted; hide Delivered; hide MergeFunctions; hide KeyRoute;
    forall key
      ensures key in GroupKeys(grouped, mine) <==> key in GroupKeys(grouped, Concat(partitions)) && KeyRoute(c, count, key) == d
      ensures key in GroupKeys(grouped, mine) ==>
        (GroupAccepted(MergeFunctions(functions), Of(mine, key)) <==> GroupAccepted(functions, Of(Concat(partitions), key)))
    {
      DeliveredKeys(c, functions, grouped, count, d, partitions, emitted, mine, key);
      if key in GroupKeys(grouped, mine) {
        PartialStageAccepts(functions, grouped, partitions, key);
        GroupMerges(functions, Parts(grouped, partitions, key), key);
        PartsConcat(grouped, partitions, key);
      }
    }
  }

  lemma TaskValues(c: KeyCodec, functions: seq<Function>, grouped: bool, count: nat, d: nat,
                   partitions: seq<seq<Tuple>>, emitted: seq<seq<Tuple>>, mine: seq<Tuple>, key: seq<Scalar>)
    requires 0 < count && (grouped || (partitions != [] && count == 1 && d == 0))
    requires PartialsEmitted(functions, grouped, partitions, emitted) && Delivered(c, count, d, Concat(emitted), mine)
    requires forall p | 0 <= p < |partitions| :: Accepted(PartialFunctions(functions), grouped, PartialRows(functions, partitions[p]))
    requires key in GroupKeys(grouped, mine) && Accepted(MergeFunctions(functions), grouped, mine)
    ensures Projected(Outputs(functions), GroupValues(MergeFunctions(functions), Of(mine, key)))
      == GroupValues(functions, Of(Concat(partitions), key))
  {
    hide GroupAccepted; hide GroupKeys; hide Of; hide PartialsEmitted; hide Delivered; hide MergeFunctions; hide KeyRoute;
    hide GroupValues; hide Projected; hide Outputs;
    DeliveredKeys(c, functions, grouped, count, d, partitions, emitted, mine, key);
    PartialStageAccepts(functions, grouped, partitions, key);
    GroupMerges(functions, Parts(grouped, partitions, key), key);
    PartsConcat(grouped, partitions, key);
  }

  /** One more destination adds exactly the groups routed to it. */
  lemma TaskEmits(c: KeyCodec, functions: seq<Function>, grouped: bool, count: nat, d: nat,
                  partitions: seq<seq<Tuple>>, emitted: seq<seq<Tuple>>, mine: seq<Tuple>,
                  before: seq<Tuple>, output: seq<Tuple>)
    requires 0 < count && (grouped || (partitions != [] && count == 1 && d == 0))
    requires PartialsEmitted(functions, grouped, partitions, emitted) && Delivered(c, count, d, Concat(emitted), mine)
    requires forall p | 0 <= p < |partitions| :: Accepted(PartialFunctions(functions), grouped, PartialRows(functions, partitions[p]))
    requires Accepted(MergeFunctions(functions), grouped, mine) && EmitsMerged(functions, grouped, mine, output)
    requires EmitsBelow(c, count, d, functions, grouped, Concat(partitions), before)
    ensures EmitsBelow(c, count, d + 1, functions, grouped, Concat(partitions), before + output)
  {
    hide GroupKeys; hide Of; hide PartialsEmitted; hide Delivered; hide KeyRoute; hide GroupValues; hide Projected; hide Outputs;
    hide Accepted; hide Concat;
    var rows, all := Concat(partitions), before + output;
    forall i | 0 <= i < |output|
      ensures output[i].key in GroupKeys(grouped, rows) && KeyRoute(c, count, output[i].key) == d
      ensures output[i].args == GroupValues(functions, Of(rows, output[i].key))
    {
      DeliveredKeys(c, functions, grouped, count, d, partitions, emitted, mine, output[i].key);
      TaskValues(c, functions, grouped, count, d, partitions, emitted, mine, output[i].key);
    }
    forall key | key in GroupKeys(grouped, rows) && KeyRoute(c, count, key) < d + 1
      ensures exists i :: 0 <= i < |all| && all[i].key == key
    {
      if KeyRoute(c, count, key) < d {
        var i :| 0 <= i < |before| && before[i].key == key;
        assert all[i].key == key;
      } else {
        DeliveredKeys(c, functions, grouped, count, d, partitions, emitted, mine, key);
        var i :| 0 <= i < |output| && output[i].key == key;
        assert all[|before| + i].key == key;
      }
    }
  }

  /** The keys of all partitions have as many columns as the group has expressions. */
  predicate KeysOf(groupCount: nat, partitions: seq<seq<Tuple>>) {
    forall p, i | 0 <= p < |partitions| && 0 <= i < |partitions[p]| :: |partitions[p][i].key| == groupCount
  }

  lemma EmittedShape(functions: seq<Function>, groupCount: nat, partitions: seq<seq<Tuple>>, emitted: seq<seq<Tuple>>)
    requires KeysOf(groupCount, partitions) && PartialsEmitted(functions, groupCount > 0, partitions, emitted)
    ensures forall p | 0 <= p < |emitted| :: Shaped(groupCount, |Partials(functions)|, emitted[p])
    ensures Shaped(groupCount, |Partials(functions)|, Concat(emitted))
  {
    hide Partials;
    var grouped := groupCount > 0;
    forall p, i | 0 <= p < |emitted| && 0 <= i < |emitted[p]|
      ensures |emitted[p][i].key| == groupCount && |emitted[p][i].args| == |Partials(functions)|
    {
      PartialKeys(functions, grouped, partitions[p]);
      assert emitted[p][i].key in GroupKeys(grouped, partitions[p]);
    }
    ConcatShape(groupCount, |Partials(functions)|, emitted);
  }

  lemma {:induction false} ConcatShape(groupCount: nat, argCount: nat, parts: seq<seq<Tuple>>)
    requires forall p | 0 <= p < |parts| :: Shaped(groupCount, argCount, parts[p])
    ensures Shaped(groupCount, argCount, Concat(parts))
  {
    if parts != [] { ConcatShape(groupCount, argCount, parts[..|parts| - 1]); }
  }

  /** The partial stage refuses only inputs that one-stage aggregation refuses. */
  lemma PartialRefusal(functions: seq<Function>, grouped: bool, partitions: seq<seq<Tuple>>, p: nat)
    requires p < |partitions| && !Accepted(PartialFunctions(functions), grouped, PartialRows(functions, partitions[p]))
    ensures !Accepted(functions, grouped, Concat(partitions))
  {
    hide GroupKeys; hide PartialRows; hide PartialFunctions; hide GroupAccepted; hide Of;
    PartialKeys(functions, grouped, partitions[p]);
    var key :| key in GroupKeys(grouped, partitions[p])
               && !GroupAccepted(PartialFunctions(functions), Of(PartialRows(functions, partitions[p]), key));
    PartialRowsOf(functions, partitions[p], key);
    PartsOfGroup(grouped, partitions, key);
    var q := PartIndex(grouped, partitions, key, p);
    PartsConcat(grouped, partitions, key);
    if GroupAccepted(functions, Of(Concat(partitions), key)) {
      WholeAccepted(functions, Parts(grouped, partitions, key));
      assert false;
    }
  }

  lemma {:induction false} PartIndex(grouped: bool, partitions: seq<seq<Tuple>>, key: seq<Scalar>, p: nat) returns (q: nat)
    requires p < |partitions| && key in GroupKeys(grouped, partitions[p])
    ensures q < |Parts(grouped, partitions, key)| && Parts(grouped, partitions, key)[q] == Of(partitions[p], key)
  {
    hide GroupKeys; hide Of;
    var n := |partitions| - 1;
    if p == n {
      q := |Parts(grouped, partitions[..n], key)|;
    } else {
      q := PartIndex(grouped, partitions[..n], key, p);
    }
  }

  lemma DeliveredByRouting(c: KeyCodec, groupCount: nat, argCount: nat, count: nat, d: nat,
                           emitted: seq<seq<Tuple>>, producers: seq<seq<Batch>>, received: seq<Batch>)
    requires 0 < count && |producers| == |emitted| && forall p | 0 <= p < |emitted| ::
      Shaped(groupCount, argCount, emitted[p]) && AllRows(producers[p]) == RowsFrom(emitted[p])
    requires AllRows(received) == Routed(c, FirstColumns(groupCount), count, InputRows(producers), d)
    ensures Delivered(c, count, d, Concat(emitted), TuplesFrom(groupCount, AllRows(received)))
  {
    hide Of; hide Routed; hide KeyRoute; hide Shaped; hide InputRows;
    TuplesConcat(groupCount, argCount, emitted, producers);
    var mine := TuplesFrom(groupCount, AllRows(received));
    forall key ensures Of(mine, key) == if KeyRoute(c, count, key) == d then Of(Concat(emitted), key) else [] {
      RoutedGroup(c, groupCount, groupCount + argCount, count, InputRows(producers), d, key);
    }
  }

  /** The blocks of the partial stage: one batch of rows per partition. */
  function PartialBatches(width: nat, emitted: seq<seq<Tuple>>): seq<seq<Batch>> {
    seq(|emitted|, p requires 0 <= p < |emitted| => [Batch(width, RowsFrom(emitted[p]))])
  }

  lemma PartialBatchesRows(groupCount: nat, argCount: nat, emitted: seq<seq<Tuple>>)
    requires forall p | 0 <= p < |emitted| :: Shaped(groupCount, argCount, emitted[p])
    ensures var b := PartialBatches(groupCount + argCount, emitted);
      forall p | 0 <= p < |emitted| :: BatchesOf(groupCount + argCount, b[p]) && AllRows(b[p]) == RowsFrom(emitted[p])
  {
    forall p | 0 <= p < |emitted| ensures AllRows([Batch(groupCount + argCount, RowsFrom(emitted[p]))]) == RowsFrom(emitted[p]) {
      AllRowsPush([], Batch(groupCount + argCount, RowsFrom(emitted[p])));
      assert [] + [Batch(groupCount + argCount, RowsFrom(emitted[p]))] == [Batch(groupCount + argCount, RowsFrom(emitted[p]))];
      TuplesBack(groupCount, argCount, emitted[p]);
    }
  }

  lemma RoutedShape(c: KeyCodec, groupCount: nat, argCount: nat, received: seq<Batch>)
    requires BatchesOf(groupCount + argCount, received)
    ensures Shaped(groupCount, argCount, TuplesFrom(groupCount, AllRows(received)))
  {
    AllRowsWidth(groupCount + argCount, received);
  }

  /** What one destination reads: the blocks routed to it, or everything in a global aggregate. */
  method TaskInput(c: KeyCodec, groupCount: nat, argCount: nat, count: U32, d: nat,
                   blocks: seq<seq<seq<Batch>>>, emitted: seq<seq<Tuple>>)
    returns (mine: seq<Tuple>)
    requires d < count && (groupCount == 0 ==> count == 1)
    requires forall p | 0 <= p < |emitted| :: Shaped(groupCount, argCount, emitted[p])
    requires groupCount > 0 ==>
      |blocks| == |emitted| && Published(c, groupCount + argCount, FirstColumns(groupCount), count,
                                         PartialBatches(groupCount + argCount, emitted), blocks)
    ensures Delivered(c, count, d, Concat(emitted), mine) && Shaped(groupCount, argCount, mine)
  {
    hide Published; hide Delivered; hide PartialBatches; hide Routed; hide AllRows; hide InputRows; hide Shaped; hide FirstColumns;
    hide BatchesOf; hide RowsFrom; hide TuplesFrom;
    if groupCount == 0 {
      mine := Concat(emitted);
      OneDestination(c, mine);
      ConcatShape(groupCount, argCount, emitted);
    } else {
      ghost var producers := PartialBatches(groupCount + argCount, emitted);
      PartialBatchesRows(groupCount, argCount, emitted);
      assert |producers| == |emitted| by { BatchCount(groupCount + argCount, emitted); }
      var received := Receive(c, groupCount + argCount, FirstColumns(groupCount), count, d, blocks, producers);
      DeliveredByRouting(c, groupCount, argCount, count, d, emitted, producers, received);
      RoutedShape(c, groupCount, argCount, received);
      mine := TuplesFrom(groupCount, AllRows(received));
    }
  }

  lemma BatchCount(width: nat, emitted: seq<seq<Tuple>>)
    ensures |PartialBatches(width, emitted)| == |emitted|
  {
  }

  lemma OneDestination(c: KeyCodec, all: seq<Tuple>)
    ensures Delivered(c, 1, 0, all, all)
  {
    hide Of;
  }

  /** Every destination together: all groups, each once. */
  lemma AllDestinations(c: KeyCodec, count: nat, functions: seq<Function>, grouped: bool, rows: seq<Tuple>, output: seq<Tuple>)
    requires 0 < count && EmitsBelow(c, count, count, functions, grouped, rows, output)
    ensures Emits(functions, grouped, rows, output)
  {
    hide GroupKeys; hide GroupValues; hide Of;
  }

  /** No group fails at destinations below `n`. */
  ghost predicate AcceptedBelow(c: KeyCodec, count: nat, n: nat, functions: seq<Function>, grouped: bool, rows: seq<Tuple>)
    requires 0 < count
  {
    forall key | key in GroupKeys(grouped, rows) && KeyRoute(c, count, key) < n :: GroupAccepted(functions, Of(rows, key))
  }

  lemma MineKeys(c: KeyCodec, functions: seq<Function>, grouped: bool, count: nat, d: nat,
                 partitions: seq<seq<Tuple>>, emitted: seq<seq<Tuple>>, mine: seq<Tuple>)
    requires 0 < count && (grouped || (partitions != [] && count == 1 && d == 0))
    requires PartialsEmitted(functions, grouped, partitions, emitted) && Delivered(c, count, d, Concat(emitted), mine)
    ensures GroupKeys(grouped, mine) <= GroupKeys(grouped, Concat(partitions))
  {
    hide GroupKeys; hide PartialsEmitted; hide Delivered;
    forall key | key in GroupKeys(grouped, mine) ensures key in GroupKeys(grouped, Concat(partitions)) {
      DeliveredKeys(c, functions, grouped, count, d, partitions, emitted, mine, key);
    }
  }

  /** Two-stage aggregation is one-stage aggregation. Whatever the partitioning and the hash, it
      fails exactly when aggregating all the rows at once fails; otherwise the destinations
      together put out every group exactly once, with the values of aggregating all the rows at
      once. A global aggregate has a single destination. */
  method TwoStageAggregate(c: KeyCodec, functions: seq<Function>, groupCount: nat, count: U32, partitions: seq<seq<Tuple>>)
    returns (r: Option<seq<seq<Tuple>>>)
    requires Lossless(c, GroupKeys(groupCount > 0, Concat(partitions))) && 0 < count && partitions != [] && (groupCount == 0 ==> count == 1)
    requires KeysOf(groupCount, partitions)
    ensures r.Some? <==> Accepted(functions, groupCount > 0, Concat(partitions))
    ensures r.Some? ==> Emits(functions, groupCount > 0, Concat(partitions), Concat(r.value))
  {
    hide Accepted; hide Emits; hide Lossless; hide PartialsEmitted; hide Partials; hide EmitsBelow; hide EmitsMerged; hide Delivered;
    hide Shaped; hide KeysOf; hide Published; hide AllRows; hide PartialBatches; hide FirstColumns; hide AcceptedBelow; hide BatchesOf;
    hide GroupKeys;
    var grouped := groupCount > 0;
    ghost var rows := Concat(partitions);
    var stage := PartialStage(c, functions, grouped, partitions);
    if stage.None? {
      var p: nat :| p < |partitions| && !Accepted(PartialFunctions(functions), grouped, PartialRows(functions, partitions[p]));
      PartialRefusal(functions, grouped, partitions, p);
      return None;
    }
    var emitted := stage.value;
    var partials := PartialAggregates(functions);
    EmittedShape(functions, groupCount, partitions, emitted);
    var blocks: seq<seq<seq<Batch>>> := [];
    if grouped {
      var width := groupCount + |partials|;
      PartialBatchesRows(groupCount, |partials|, emitted);
      BatchCount(width, emitted);
      FirstColumnsValid(groupCount, width, count);
      blocks := PublishAll(c, width, FirstColumns(groupCount), count, PartialBatches(width, emitted));
    }
    var outputs: seq<seq<Tuple>> := [];
    NothingBelow(c, count, functions, grouped, rows);
    while |outputs| < count
      invariant |outputs| <= count
      invariant EmitsBelow(c, count, |outputs|, functions, grouped, rows, Concat(outputs))
      invariant AcceptedBelow(c, count, |outputs|, functions, grouped, rows)
    {
      var d := |outputs|;
      var mine := TaskInput(c, groupCount, |partials|, count, d, blocks, emitted);
      MineKeys(c, functions, grouped, count, d, partitions, emitted, mine);
      FewerKeys(c, GroupKeys(grouped, rows), GroupKeys(grouped, mine));
      var task := FinalTask(c, functions, groupCount, mine);
      TaskAccepts(c, functions, grouped, count, d, partitions, emitted, mine);
      AcceptedNext(c, count, d, functions, grouped, rows);
      if task.None? { return None; }
      TaskEmits(c, functions, grouped, count, d, partitions, emitted, mine, Concat(outputs), task.value);
      assert (outputs + [task.value])[..d] == outputs;
      outputs := outputs + [task.value];
    }
    AllDestinations(c, count, functions, grouped, rows, Concat(outputs));
    AcceptedByAll(c, count, functions, grouped, rows);
    r := Some(outputs);
  }

  lemma FirstColumnsValid(groupCount: nat, width: nat, count: nat)
    requires 0 < groupCount <= width && 0 < count
    ensures ValidExchange(width, FirstColumns(groupCount), count)
  {
  }

  lemma NothingBelow(c: KeyCodec, count: nat, functions: seq<Function>, grouped: bool, rows: seq<Tuple>)
    requires 0 < count
    ensures EmitsBelow(c, count, 0, functions, grouped, rows, Concat([])) && AcceptedBelow(c, count, 0, functions, grouped, rows)
  {
  }

  lemma AcceptedNext(c: KeyCodec, count: nat, d: nat, functions: seq<Function>, grouped: bool, rows: seq<Tuple>)
    requires 0 < count && AcceptedBelow(c, count, d, functions, grouped, rows)
    ensures var here := forall key | key in GroupKeys(grouped, rows) && KeyRoute(c, count, key) == d :: GroupAccepted(functions, Of(rows, key));
      && (here ==> AcceptedBelow(c, count, d + 1, functions, grouped, rows))
      && (!here ==> !Accepted(functions, grouped, rows))
  {
    hide GroupKeys; hide GroupAccepted; hide Of; hide KeyRoute;
  }

  lemma AcceptedByAll(c: KeyCodec, count: nat, functions: seq<Function>, grouped: bool, rows: seq<Tuple>)
    requires 0 < count && AcceptedBelow(c, count, count, functions, grouped, rows)
    ensures Accepted(functions, grouped, rows)
  {
    hide GroupKeys; hide GroupAccepted; hide Of;
  }
}
