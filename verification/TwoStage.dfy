/** Splitting an aggregate into a partial and a final stage (src/cluster/distributed.rs). */
module TwoStage {
  import opened Basics
  import opened Values
  import opened Exchange
  import opened Aggregates
  import opened GroupBy

  // ----- the split ---------------------------------------------------------------------------

  /** A partial aggregate: its function and the argument it is computed from. */
  datatype Partial = Partial(kind: Function, arg: nat)

  /** AVG travels as a sum and a count; every other aggregate as itself. */
  function PartialsOf(f: Function, i: nat): seq<Partial> {
    if f.Avg? then [Partial(Sum, i), Partial(Count, i)] else [Partial(f, i)]
  }

  function Partials(functions: seq<Function>): seq<Partial> {
    if functions == [] then []
    else
      var n := |functions| - 1;
      Partials(functions[..n]) + PartialsOf(functions[n], n)
  }

  /** The first partial column of aggregate `i`. */
  function Offset(functions: seq<Function>, i: nat): nat
    requires i <= |functions|
  {
    |Partials(functions[..i])|
  }

  lemma PartialsPush(functions: seq<Function>, i: nat)
    requires i < |functions|
    ensures Partials(functions[..i + 1]) == Partials(functions[..i]) + PartialsOf(functions[i], i)
  {
    assert functions[..i + 1][..i] == functions[..i];
  }

  lemma {:induction false} PartialsPrefix(functions: seq<Function>, i: nat)
    requires i <= |functions|
    ensures Partials(functions[..i]) <= Partials(functions)
    decreases |functions| - i
  {
    if i == |functions| {
      assert functions[..i] == functions;
    } else {
      PartialsPush(functions, i);
      PartialsPrefix(functions, i + 1);
    }
  }

  /** The partial columns of aggregate `i` start at its offset. */
  lemma PartialsAt(functions: seq<Function>, i: nat)
    requires i < |functions|
    ensures var p, o := Partials(functions), Offset(functions, i);
      && o + |PartialsOf(functions[i], i)| <= |p|
      && p[o..o + |PartialsOf(functions[i], i)|] == PartialsOf(functions[i], i)
  {
    PartialsPush(functions, i);
    PartialsPrefix(functions, i);
    PartialsPrefix(functions, i + 1);
    var p, o := Partials(functions), Offset(functions, i);
    assert p[..o] == Partials(functions[..i]);
    assert p[..o + |PartialsOf(functions[i], i)|] == Partials(functions[..i + 1]);
  }

  lemma {:induction false} PartialArgs(functions: seq<Function>, j: nat)
    requires j < |Partials(functions)|
    ensures Partials(functions)[j].arg < |functions|
    ensures var p := Partials(functions)[j]; p in PartialsOf(functions[p.arg], p.arg)
  {
    var n := |functions| - 1;
    if j < |Partials(functions[..n])| { PartialArgs(functions[..n], j); }
  }

  /** `partial_aggregate_exprs`. */
  method PartialAggregates(functions: seq<Function>) returns (partials: seq<Partial>)
    ensures partials == Partials(functions)
  {
    partials := [];
    assert functions[..0] == [];
    var i := 0;
    while i < |functions|
      invariant 0 <= i <= |functions| && partials == Partials(functions[..i])
    {
      PartialsPush(functions, i);
      if functions[i].Avg? {
        partials := partials + [Partial(Sum, i)] + [Partial(Count, i)];
      } else {
        partials := partials + [Partial(functions[i], i)];
      }
      i := i + 1;
    }
    assert functions[..i] == functions;
  }

  datatype Merge = Merge(kind: Function, column: nat)

  /** An output column: a merged column, or the quotient of two of them. */
  datatype Output = Pass(column: nat) | Quotient(sum: nat, count: nat)

  function Merges(functions: seq<Function>): seq<Merge> {
    var p := Partials(functions);
    seq(|p|, j requires 0 <= j < |p| => Merge(Combiner(p[j].kind), j))
  }

  function OutputOf(functions: seq<Function>, i: nat): Output
    requires i < |functions|
  {
    var o := Offset(functions, i);
    if functions[i].Avg? then Quotient(o, o + 1) else Pass(o)
  }

  function Outputs(functions: seq<Function>): seq<Output> {
    seq(|functions|, i requires 0 <= i < |functions| => OutputOf(functions, i))
  }

  lemma MergesPush(functions: seq<Function>, i: nat)
    requires i < |functions|
    ensures var o := Offset(functions, i);
      Merges(functions[..i + 1]) == Merges(functions[..i]) +
        (if functions[i].Avg? then [Merge(Sum, o), Merge(SumUInt64, o + 1)] else [Merge(Combiner(functions[i]), o)])
  {
    PartialsPush(functions, i);
  }

  /** `final_worker_plan`: the running column always points at the next partial value, so each
      merge reads its own partial column and each output its own merges. */
  method FinalPlan(functions: seq<Function>) returns (merges: seq<Merge>, outputs: seq<Output>)
    ensures merges == Merges(functions) && outputs == Outputs(functions)
  {
    merges, outputs := [], [];
    var column, i := 0, 0;
    assert functions[..0] == [];
    while i < |functions|
      invariant 0 <= i <= |functions| && column == Offset(functions, i) == |merges|
      invariant merges == Merges(functions[..i])
      invariant outputs == Outputs(functions)[..i]
    {
      MergesPush(functions, i);
      PartialsPush(functions, i);
      assert Outputs(functions)[..i + 1] == Outputs(functions)[..i] + [OutputOf(functions, i)];
      match functions[i] {
        case Count =>
          merges, outputs := merges + [Merge(SumUInt64, column)], outputs + [Pass(column)];
          column := column + 1;
        case Avg =>
          merges := merges + [Merge(Sum, column), Merge(SumUInt64, column + 1)];
          outputs := outputs + [Quotient(column, column + 1)];
          column := column + 2;
        case _ =>
          merges, outputs := merges + [Merge(functions[i], column)], outputs + [Pass(column)];
          column := column + 1;
      }
      i := i + 1;
    }
    assert functions[..i] == functions;
  }

  // ----- what the two stages compute -----------------------------------------------------------

  function PartialFunctions(functions: seq<Function>): seq<Function> {
    var p := Partials(functions);
    seq(|p|, j requires 0 <= j < |p| => p[j].kind)
  }

  function MergeFunctions(functions: seq<Function>): seq<Function> {
    var p := Partials(functions);
    seq(|p|, j requires 0 <= j < |p| => Combiner(p[j].kind))
  }

  /** A row as the partial stage sees it: one argument per partial aggregate. */
  function PartialRow(functions: seq<Function>, row: Tuple): Tuple {
    var p := Partials(functions);
    Tuple(row.key, seq(|p|, j requires 0 <= j < |p| => Arg(row, p[j].arg)))
  }

  function PartialRows(functions: seq<Function>, rows: seq<Tuple>): seq<Tuple> {
    seq(|rows|, i requires 0 <= i < |rows| => PartialRow(functions, rows[i]))
  }

  function At(values: seq<Scalar>, i: nat): Scalar {
    if i < |values| then values[i] else Null
  }

  function OutputValue(output: Output, merged: seq<Scalar>): Scalar {
    match output
    case Pass(column) => At(merged, column)
    case Quotient(sum, count) => Divide(At(merged, sum), At(merged, count))
  }

  /** The projection above the final merge. */
  function Projected(outputs: seq<Output>, merged: seq<Scalar>): seq<Scalar> {
    seq(|outputs|, i requires 0 <= i < |outputs| => OutputValue(outputs[i], merged))
  }

  lemma {:induction false} PartialRowsOf(functions: seq<Function>, rows: seq<Tuple>, key: seq<Scalar>)
    ensures Of(PartialRows(functions, rows), key) == PartialRows(functions, Of(rows, key))
  {
    hide PartialRow;
    if rows != [] {
      var n := |rows| - 1;
      PartialRowsOf(functions, rows[..n], key);
      assert PartialRows(functions, rows)[..n] == PartialRows(functions, rows[..n]);
      assert PartialRow(functions, rows[n]).key == rows[n].key by { KeptKey(functions, rows[n]); }
      assert PartialRows(functions, Of(rows, key)) ==
        PartialRows(functions, Of(rows[..n], key)) + (if rows[n].key == key then [PartialRow(functions, rows[n])] else []);
    }
  }

  lemma KeptKey(functions: seq<Function>, row: Tuple)
    ensures PartialRow(functions, row).key == row.key
  {
  }

  lemma PartialKeys(functions: seq<Function>, grouped: bool, rows: seq<Tuple>)
    ensures GroupKeys(grouped, PartialRows(functions, rows)) == GroupKeys(grouped, rows)
  {
    hide Partials;
    var partial := PartialRows(functions, rows);
    assert forall i | 0 <= i < |rows| :: partial[i].key == rows[i].key;
  }

  lemma PartialColumn(functions: seq<Function>, group: seq<Tuple>, j: nat)
    requires j < |Partials(functions)|
    ensures Column(PartialRows(functions, group), j) == Column(group, Partials(functions)[j].arg)
  {
    hide Partials;
    var a, b := Column(PartialRows(functions, group), j), Column(group, Partials(functions)[j].arg);
    assert |a| == |b|;
    assert forall i | 0 <= i < |group| :: a[i] == b[i];
  }

  // ----- one group, cut into parts -------------------------------------------------------------

  /** The rows of one group in each partition that knows the group. */
  function Parts(grouped: bool, partitions: seq<seq<Tuple>>, key: seq<Scalar>): seq<seq<Tuple>> {
    if partitions == [] then []
    else
      var n := |partitions| - 1;
      Parts(grouped, partitions[..n], key)
        + (if key in GroupKeys(grouped, partitions[n]) then [Of(partitions[n], key)] else [])
  }

  function Columns(parts: seq<seq<Tuple>>, i: nat): seq<seq<Scalar>> {
    seq(|parts|, p requires 0 <= p < |parts| => Column(parts[p], i))
  }

  /** One row per part, holding its partial values. */
  function PartialGroup(functions: seq<Function>, parts: seq<seq<Tuple>>, key: seq<Scalar>): (group: seq<Tuple>)
    ensures |group| == |parts|
  {
    seq(|parts|, p requires 0 <= p < |parts| =>
      Tuple(key, GroupValues(PartialFunctions(functions), PartialRows(functions, parts[p]))))
  }

  lemma {:induction false} PartsConcat(grouped: bool, partitions: seq<seq<Tuple>>, key: seq<Scalar>)
    ensures Concat(Parts(grouped, partitions, key)) == Of(Concat(partitions), key)
  {
    if partitions != [] {
      var n := |partitions| - 1;
      PartsConcat(grouped, partitions[..n], key);
      OfConcat(Concat(partitions[..n]), partitions[n], key);
      var parts := Parts(grouped, partitions, key);
      if key in GroupKeys(grouped, partitions[n]) {
        assert parts[..|parts| - 1] == Parts(grouped, partitions[..n], key);
      } else {
        OfAbsent(partitions[n], key);
        assert parts == Parts(grouped, partitions[..n], key);
      }
    }
  }

  lemma {:induction false} ColumnConcat(parts: seq<seq<Tuple>>, i: nat)
    ensures Concat(Columns(parts, i)) == Column(Concat(parts), i)
  {
    if parts != [] {
      var n := |parts| - 1;
      ColumnConcat(parts[..n], i);
      assert Columns(parts, i)[..n] == Columns(parts[..n], i);
      ColumnSplit(Concat(parts[..n]), parts[n], i);
    }
  }

  lemma ColumnSplit(a: seq<Tuple>, b: seq<Tuple>, i: nat)
    ensures Column(a + b, i) == Column(a, i) + Column(b, i)
  {
  }

  /** The merged column of a partial aggregate: its values over the parts of the group. */
  lemma MergedColumn(functions: seq<Function>, parts: seq<seq<Tuple>>, key: seq<Scalar>, j: nat)
    requires j < |Partials(functions)|
    ensures var p := Partials(functions)[j];
      Column(PartialGroup(functions, parts, key), j) == Meanings(p.kind, Columns(parts, p.arg))
  {
    hide Partials; hide Meaning; hide Column; hide PartialRows;
    var p := Partials(functions)[j];
    forall q | 0 <= q < |parts|
      ensures GroupValues(PartialFunctions(functions), PartialRows(functions, parts[q]))[j] == Meaning(p.kind, Column(parts[q], p.arg))
    {
      PartialColumn(functions, parts[q], j);
    }
    GroupColumn(functions, parts, key, j);
  }

  lemma GroupColumn(functions: seq<Function>, parts: seq<seq<Tuple>>, key: seq<Scalar>, j: nat)
    requires j < |Partials(functions)|
    ensures Column(PartialGroup(functions, parts, key), j)
      == seq(|parts|, q requires 0 <= q < |parts| =>
               GroupValues(PartialFunctions(functions), PartialRows(functions, parts[q]))[j])
  {
    hide Partials; hide PartialRows;
  }

  /** The partial stage succeeds on every part. */
  predicate PartsAccepted(functions: seq<Function>, parts: seq<seq<Tuple>>) {
    forall p | 0 <= p < |parts| :: GroupAccepted(PartialFunctions(functions), PartialRows(functions, parts[p]))
  }

  lemma PartAccepted(functions: seq<Function>, parts: seq<seq<Tuple>>, j: nat)
    requires j < |Partials(functions)| && PartsAccepted(functions, parts)
    ensures var p := Partials(functions)[j]; AllAccept(p.kind, Columns(parts, p.arg))
  {
    hide Partials; hide Accepts; hide PartialRows; hide Column;
    forall q | 0 <= q < |parts| ensures Accepts(Partials(functions)[j].kind, Column(parts[q], Partials(functions)[j].arg)) {
      PartialColumn(functions, parts[q], j);
      assert Accepts(PartialFunctions(functions)[j], Column(PartialRows(functions, parts[q]), j));
    }
  }

  /** One aggregate of one group: merging its partial columns fails exactly when aggregating the
      whole column does, and otherwise the projected output is the value over the whole column. */
  lemma AggregateMerges(functions: seq<Function>, parts: seq<seq<Tuple>>, key: seq<Scalar>, i: nat)
    requires i < |functions| && parts != [] && PartsAccepted(functions, parts)
    ensures Offset(functions, i) < |Partials(functions)|
    ensures functions[i].Avg? ==> Offset(functions, i) + 1 < |Partials(functions)|
    ensures var o, merged := Offset(functions, i), PartialGroup(functions, parts, key);
      var accepted := Accepts(MergeFunctions(functions)[o], Column(merged, o))
                      && (functions[i].Avg? ==> Accepts(MergeFunctions(functions)[o + 1], Column(merged, o + 1)));
      && (accepted <==> Accepts(functions[i], Column(Concat(parts), i)))
      && (accepted ==>
            OutputValue(OutputOf(functions, i), GroupValues(MergeFunctions(functions), merged))
              == Meaning(functions[i], Column(Concat(parts), i)))
  {
    hide Accepts; hide Meaning; hide Partials; hide Column; hide PartialGroup; hide PartsAccepted; hide Meanings; hide Divide;
    var o, p := Offset(functions, i), Partials(functions);
    PartialsAt(functions, i);
    assert p[o] == PartialsOf(functions[i], i)[0] by { assert p[o] == p[o..o + |PartialsOf(functions[i], i)|][0]; }
    var columns := Columns(parts, i);
    ColumnConcat(parts, i);
    MergedColumn(functions, parts, key, o);
    PartAccepted(functions, parts, o);
    if functions[i].Avg? {
      assert p[o + 1] == PartialsOf(functions[i], i)[1] by { assert p[o + 1] == p[o..o + 2][1]; }
      MergedColumn(functions, parts, key, o + 1);
      PartAccepted(functions, parts, o + 1);
      AveragesCombine(columns);
    } else {
      PartsCombine(functions[i], columns);
    }
  }

  /** Every merged column belongs to one of the aggregates. */
  lemma {:induction false} ColumnOwner(functions: seq<Function>, j: nat) returns (i: nat)
    requires j < |Partials(functions)|
    ensures i < |functions|
    ensures j == Offset(functions, i) || (functions[i].Avg? && j == Offset(functions, i) + 1)
  {
    var n := |functions| - 1;
    if j < |Partials(functions[..n])| {
      i := ColumnOwner(functions[..n], j);
      assert functions[..n][..i] == functions[..i];
    } else {
      i := n;
    }
  }

  /** Two-stage aggregation of one group is one-stage aggregation: it fails on the same groups and
      gives the same values. */
  lemma GroupMerges(functions: seq<Function>, parts: seq<seq<Tuple>>, key: seq<Scalar>)
    requires parts != [] && PartsAccepted(functions, parts)
    ensures var merged := PartialGroup(functions, parts, key);
      && (GroupAccepted(MergeFunctions(functions), merged) <==> GroupAccepted(functions, Concat(parts)))
      && (GroupAccepted(functions, Concat(parts)) ==>
            Projected(Outputs(functions), GroupValues(MergeFunctions(functions), merged))
              == GroupValues(functions, Concat(parts)))
  {
    hide Accepts; hide Meaning; hide Partials; hide Column; hide PartialGroup; hide PartsAccepted; hide OutputValue; hide OutputOf;
    hide Offset;
    var merged, whole := PartialGroup(functions, parts, key), Concat(parts);
    forall i: nat | i < |functions|
      ensures GroupAccepted(MergeFunctions(functions), merged) ==> Accepts(functions[i], Column(whole, i))
      ensures Accepts(functions[i], Column(whole, i)) ==>
        OutputValue(OutputOf(functions, i), GroupValues(MergeFunctions(functions), merged)) == Meaning(functions[i], Column(whole, i))
    {
      AggregateMerges(functions, parts, key, i);
    }
    forall j: nat | j < |Partials(functions)|
      ensures GroupAccepted(functions, whole) ==> Accepts(MergeFunctions(functions)[j], Column(merged, j))
    {
      var i := ColumnOwner(functions, j);
      AggregateMerges(functions, parts, key, i);
    }
  }

  /** A group that is accepted as a whole is accepted in every part. */
  lemma WholeAccepted(functions: seq<Function>, parts: seq<seq<Tuple>>)
    requires GroupAccepted(functions, Concat(parts))
    ensures PartsAccepted(functions, parts)
  {
    hide Partials; hide Accepts; hide Column; hide PartialRows;
    forall p, j: nat | 0 <= p < |parts| && j < |Partials(functions)|
      ensures Accepts(PartialFunctions(functions)[j], Column(PartialRows(functions, parts[p]), j))
    {
      var i := Partials(functions)[j].arg;
      PartialArgs(functions, j);
      PartialColumn(functions, parts[p], j);
      ColumnConcat(parts, i);
      AcceptsParts(functions[i], Columns(parts, i));
      assert Columns(parts, i)[p] == Column(parts[p], i);
      PartialAccepts(functions[i], i, Partials(functions)[j], Column(parts[p], i));
    }
  }

  lemma PartialAccepts(f: Function, i: nat, p: Partial, vs: seq<Scalar>)
    requires p in PartialsOf(f, i) && Accepts(f, vs)
    ensures Accepts(p.kind, vs)
  {
  }
}
