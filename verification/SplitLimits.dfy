/** Exactly which inputs of a split aggregate keep their rows (src/cluster/distributed.rs). The
    guards look for joins and DISTINCT only: a LIMIT, a Top-K or another aggregate below the
    aggregate is run by every partition for itself. */
module SplitLimits {
  import opened Basics
  import opened Values
  import opened Expr
  import opened GroupBy
  import opened Physical
  import opened AggregateOrder
  import opened AggregateSplit
  import Agg = Aggregates
  import Plans
  import JoinPlan
  import R = RemoteAggregate

  // ----- sorts, filters and projections ------------------------------------------------------------

  predicate Harmless(p: PhysicalPlan) {
    p.PScan? || ((p.PFilter? || p.PProjection? || p.PSort?) && Harmless(p.input))
  }

  /** Filters, projections and sorts in any nesting are harmless. */
  lemma {:induction false} SortedInputsSplit(lib: Library, p: PhysicalPlan, parts: seq<seq<Row>>)
    requires Orders(lib) && parts != [] && Harmless(p)
    ensures Divisible(lib, p, parts) && SameRows(RunEach(lib, p, parts), RunInput(lib, p, Concat(parts)))
  {
    hide Orders; hide RunInput; hide RunEach; hide AllOf; hide Looking;
    if !p.PScan? { SortedInputsSplit(lib, p.input, parts); }
    DivisibleInputsSplit(lib, p, parts);
  }

  // ----- cut inputs --------------------------------------------------------------------------------

  /** A cut looks at its rows without changing them. */
  lemma {:induction false} CutLooks(lib: Library, p: PhysicalPlan, rows: seq<Row>)
    requires Cuts(p) && JoinPlan.Each(RowStep(lib, p), rows).Some?
    ensures JoinPlan.Each(RowStep(lib, p), rows).value == rows
  {
    hide JoinPlan.Evaluated;
    if rows != [] {
      var n := |rows| - 1;
      CutLooks(lib, p, rows[..n]);
      assert rows == rows[..n] + [rows[n]];
    }
  }

  lemma CutLooksAll(lib: Library, p: PhysicalPlan, outs: seq<seq<Row>>)
    requires Cuts(p) && AllOf(Looking(lib, p), outs).Some?
    ensures AllOf(Looking(lib, p), outs).value == outs
  {
    hide JoinPlan.Each; hide RowStep;
    var seen := AllOf(Looking(lib, p), outs).value;
    forall i | 0 <= i < |outs| ensures seen[i] == outs[i] {
      assert Looking(lib, p)(outs[i]) == Some(seen[i]);
      CutLooks(lib, p, outs[i]);
    }
  }

  /** What a cut makes of the rows its partitions hand to it, and of all of them at once. */
  lemma CutBothWays(lib: Library, p: PhysicalPlan, parts: seq<seq<Row>>)
    requires Cuts(p) && RowWise(p.input) && RunEach(lib, p, parts).Some?
    ensures RunEach(lib, p.input, parts).Some?
    ensures var below := RunEach(lib, p.input, parts).value;
      && AllOf(Arranging(lib, p), below) == RunEach(lib, p, parts)
      && RunInput(lib, p, Concat(parts)) == Some(Shortened(lib, p, Concat(below)))
  {
    hide JoinPlan.Each; hide AllOf; hide Shortened; hide RowWise; hide Arranged; hide RowStep;
    RunEachStep(lib, p, parts);
    var below := RunEach(lib, p.input, parts).value;
    ApplyEach(lib, p, below);
    CutLooksAll(lib, p, below);
    RowWiseInputsSplit(lib, p.input, parts);
    LookConcat(lib, p, below);
    CutAlways(lib, p, below, Concat(below));
  }

  /** A LIMIT or Top-K over a row-wise input. The partitions together have the rows of the unsplit
      plan exactly when the limit is zero, cuts nothing, or all rows are in one partition; they never
      have fewer. */
  lemma CutInputsSplitExactlyWhen(lib: Library, p: PhysicalPlan, parts: seq<seq<Row>>)
    requires Orders(lib) && Cuts(p) && RowWise(p.input) && RunEach(lib, p, parts).Some?
    ensures RunEach(lib, p.input, parts).Some? && RunInput(lib, p, Concat(parts)).Some?
    ensures var below := RunEach(lib, p.input, parts).value;
      var split, native := Concat(RunEach(lib, p, parts).value), RunInput(lib, p, Concat(parts)).value;
      && |native| <= |split| <= |Concat(below)|
      && (|split| == |native| <==> p.limit == 0 || |Concat(below)| <= p.limit || OnePartition(below))
      && (multiset(split) == multiset(native) <==> p.limit == 0 || |Concat(below)| <= p.limit || OnePartition(below))
  {
    hide Orders; hide OnePartition; hide RunInput; hide RunEach; hide RowWise; hide Concat; hide AllOf; hide Arranging; hide Shortened;
    CutBothWays(lib, p, parts);
    var below := RunEach(lib, p.input, parts).value;
    var cut := RunEach(lib, p, parts).value;
    CutCounts(lib, p, below, cut);
    CutBounded(lib, p, below, cut);
    ShortenedRows(lib, p, Concat(below));
    CutAlways(lib, p, below, Concat(below));
    if p.limit == 0 || |Concat(below)| <= p.limit || OnePartition(below) { CutsSplit(lib, p, below, Concat(below)); }
    var native := RunInput(lib, p, Concat(parts)).value;
    if multiset(Concat(cut)) == multiset(native) { assert |multiset(Concat(cut))| == |multiset(native)|; }
  }

  lemma {:induction false} CutBounded(lib: Library, p: PhysicalPlan, outs: seq<seq<Row>>, cut: seq<seq<Row>>)
    requires Orders(lib) && Cuts(p) && AllOf(Arranging(lib, p), outs) == Some(cut)
    ensures |Concat(cut)| <= |Concat(outs)|
  {
    hide Orders; hide AllOf; hide Shortened;
    if outs == [] {
      assert |cut| == 0;
    } else {
      var n := |outs| - 1;
      CutPush(lib, p, outs, cut);
      CutBounded(lib, p, outs[..n], cut[..n]);
      ShortenedRows(lib, p, outs[n]);
    }
  }

  // ----- filters and projections above a LIMIT -----------------------------------------------------

  /** How many rows of the last part a LIMIT over all parts still takes. */
  function Taken(limit: nat, outs: seq<seq<Row>>): (r: nat)
    requires outs != []
    ensures r <= |outs[|outs| - 1]| && r <= limit
  {
    Basics.Min(|outs[|outs| - 1]|, SaturatingSub(limit, |Concat(outs[..|outs| - 1])|))
  }

  /** The rows that the parts keep though they are past the limit of the whole. */
  function Extra(limit: nat, outs: seq<seq<Row>>): seq<Row> {
    if outs == [] then []
    else
      var n := |outs| - 1;
      Extra(limit, outs[..n]) + Cut(limit, outs[n])[Taken(limit, outs)..]
  }

  lemma CutBoth(limit: nat, a: seq<Row>, b: seq<Row>, taken: nat)
    requires taken == Basics.Min(|b|, SaturatingSub(limit, |a|))
    ensures Cut(limit, a + b) == Cut(limit, a) + b[..taken]
  {
    if limit <= |a| {
      assert (a + b)[..limit] == a[..limit] + b[..0];
    } else if limit <= |a| + |b| {
      assert (a + b)[..limit] == a + b[..limit - |a|];
    } else {
      assert b[..|b|] == b;
    }
  }

  lemma CutOne(limit: nat, b: seq<Row>, taken: nat)
    requires taken <= |b| && taken <= limit
    ensures Cut(limit, b) == b[..taken] + Cut(limit, b)[taken..]
  {
    var cut := Cut(limit, b);
    assert cut[..taken] == b[..taken];
    assert cut == cut[..taken] + cut[taken..];
  }

  lemma TakenRows(limit: nat, outs: seq<seq<Row>>)
    requires outs != []
    ensures var n, taken := |outs| - 1, Taken(limit, outs);
      && Cut(limit, Concat(outs)) == Cut(limit, Concat(outs[..n])) + outs[n][..taken]
      && Cut(limit, outs[n]) == outs[n][..taken] + Cut(limit, outs[n])[taken..]
  {
    hide Cut;
    var n, taken := |outs| - 1, Taken(limit, outs);
    CutBoth(limit, Concat(outs[..n]), outs[n], taken);
    CutOne(limit, outs[n], taken);
  }

  lemma {:induction false} ExtraRows(lib: Library, p: PhysicalPlan, outs: seq<seq<Row>>, cut: seq<seq<Row>>)
    requires p.PLimit? && AllOf(Arranging(lib, p), outs) == Some(cut)
    ensures multiset(Concat(cut)) == multiset(Cut(p.limit, Concat(outs))) + multiset(Extra(p.limit, outs))
  {
    hide AllOf; hide Cut; hide Taken;
    if outs == [] {
      assert |cut| == 0;
    } else {
      var n, limit := |outs| - 1, p.limit;
      CutPush(lib, p, outs, cut);
      ExtraRows(lib, p, outs[..n], cut[..n]);
      TakenRows(limit, outs);
      assert Concat(cut) == Concat(cut[..n]) + cut[n];
    }
  }

  /** `q` is filters and projections above `p`. */
  predicate Above(q: PhysicalPlan, p: PhysicalPlan) {
    q == p || ((q.PFilter? || q.PProjection?) && Above(q.input, p))
  }

  /** Rows of `p` through the operators of `q` above it. */
  function Over(lib: Library, q: PhysicalPlan, p: PhysicalPlan, rows: seq<Row>): Option<seq<Row>>
    requires Above(q, p)
  {
    if q == p then Some(rows)
    else match Over(lib, q.input, p, rows) case None => None case Some(r) => RunOperator(lib, q, r)
  }

  lemma {:induction false} RunOver(lib: Library, q: PhysicalPlan, p: PhysicalPlan, rows: seq<Row>)
    requires Above(q, p) && !p.PHashJoin?
    ensures RunInput(lib, q, rows) == match RunInput(lib, p, rows) case None => None case Some(r) => Over(lib, q, p, r)
  {
    hide RunOperator;
    if q != p { RunOver(lib, q.input, p, rows); }
  }

  lemma {:induction false} OverConcat(lib: Library, q: PhysicalPlan, p: PhysicalPlan, a: seq<Row>, b: seq<Row>)
    requires Above(q, p)
    ensures Over(lib, q, p, a + b) ==
      if Over(lib, q, p, a).Some? && Over(lib, q, p, b).Some? then Some(Over(lib, q, p, a).value + Over(lib, q, p, b).value) else None
  {
    hide RowStep; hide JoinPlan.Each;
    if q != p {
      OverConcat(lib, q.input, p, a, b);
      if Over(lib, q.input, p, a).Some? && Over(lib, q.input, p, b).Some? {
        JoinPlan.EachConcat(RowStep(lib, q), Over(lib, q.input, p, a).value, Over(lib, q.input, p, b).value);
      }
    }
  }

  lemma {:induction false} OverPermuted(lib: Library, q: PhysicalPlan, p: PhysicalPlan, a: seq<Row>, b: seq<Row>)
    requires Above(q, p) && multiset(a) == multiset(b)
    ensures Over(lib, q, p, a).Some? <==> Over(lib, q, p, b).Some?
    ensures Over(lib, q, p, a).Some? ==> multiset(Over(lib, q, p, a).value) == multiset(Over(lib, q, p, b).value)
  {
    hide RowStep; hide JoinPlan.Each;
    if q != p {
      OverPermuted(lib, q.input, p, a, b);
      if Over(lib, q.input, p, a).Some? {
        JoinPlan.EachPermuted(RowStep(lib, q), Over(lib, q.input, p, a).value, Over(lib, q.input, p, b).value);
      }
    }
  }

  lemma {:induction false} OverEach(lib: Library, q: PhysicalPlan, p: PhysicalPlan, parts: seq<seq<Row>>)
    requires Above(q, p) && !p.PHashJoin? && RunEach(lib, q, parts).Some?
    ensures RunEach(lib, p, parts).Some?
    ensures Over(lib, q, p, Concat(RunEach(lib, p, parts).value)) == Some(Concat(RunEach(lib, q, parts).value))
  {
    hide AllOf; hide Applying; hide Looking; hide JoinPlan.Each; hide RowStep; hide Running;
    if q != p {
      RunEachStep(lib, q, parts);
      OverEach(lib, q.input, p, parts);
      var outs := RunEach(lib, q.input, parts).value;
      LookConcat(lib, q, outs);
      RowWiseLook(lib, q, outs);
    }
  }

  /** Filters and projections above a LIMIT. The split plan has the rows of the unsplit plan and, in
      addition, what the filters and projections make of the rows past the limit; so it has the same
      rows exactly when those are all dropped. */
  lemma FilteredLimitSplitsExactlyWhen(lib: Library, q: PhysicalPlan, p: PhysicalPlan, parts: seq<seq<Row>>)
    requires Orders(lib) && Above(q, p) && p.PLimit? && RowWise(p.input) && RunEach(lib, q, parts).Some?
    ensures RunInput(lib, q, Concat(parts)).Some? && RunEach(lib, p.input, parts).Some?
    ensures var split, native := Concat(RunEach(lib, q, parts).value), RunInput(lib, q, Concat(parts)).value;
      var extra := Over(lib, q, p, Extra(p.limit, RunEach(lib, p.input, parts).value));
      && extra.Some?
      && multiset(split) == multiset(native) + multiset(extra.value)
      && (multiset(split) == multiset(native) <==> extra.value == [])
  {
    hide Orders; hide RunInput; hide RunEach; hide RowWise; hide Concat; hide AllOf; hide Over; hide Above; hide Extra; hide Arranging;
    OverEach(lib, q, p, parts);
    CutBothWays(lib, p, parts);
    var below, cut := RunEach(lib, p.input, parts).value, RunEach(lib, p, parts).value;
    var first, extra := Cut(p.limit, Concat(below)), Extra(p.limit, below);
    RunOver(lib, q, p, Concat(parts));
    ExtraRows(lib, p, below, cut);
    assert multiset(first + extra) == multiset(first) + multiset(extra);
    OverPermuted(lib, q, p, Concat(cut), first + extra);
    OverConcat(lib, q, p, first, extra);
    NothingAdded(RunInput(lib, q, Concat(parts)).value, Over(lib, q, p, extra).value);
  }

  lemma NothingAdded(rows: seq<Row>, extra: seq<Row>)
    ensures multiset(rows) == multiset(rows) + multiset(extra) <==> extra == []
  {
    if multiset(rows) == multiset(rows) + multiset(extra) {
      assert |multiset(rows) + multiset(extra)| == |multiset(rows)| + |multiset(extra)|;
    }
  }

  // ----- aggregates below the aggregate ------------------------------------------------------------

  /** An aggregate over an input that may be split. The partitions together have the rows of the
      unsplit aggregate exactly when no group is in two partitions, which without grouping means that
      there is one partition; they never have fewer. */
  lemma NestedGroupsSplitExactlyWhen(lib: Library, p: PhysicalPlan, parts: seq<seq<Row>>)
    requires Orders(lib) && p.PHashAggregate? && parts != [] && Divisible(lib, p.input, parts)
    requires RunEach(lib, p, parts).Some? && RunInput(lib, p, Concat(parts)).Some?
    ensures Seen(lib, p, parts).Some?
    ensures var split, native := Concat(RunEach(lib, p, parts).value), RunInput(lib, p, Concat(parts)).value;
      var groups := TupleParts(|p.groups|, Seen(lib, p, parts).value);
      && |native| <= |split|
      && (multiset(split) == multiset(native) <==> KeysApart(p.groups != [], groups))
      && (p.groups == [] ==> (KeysApart(false, groups) <==> |parts| == 1))
  {
    hide Orders; hide Divisible; hide RunInput; hide RunEach; hide AllOf; hide KeysApart; hide Concat; hide Looking; hide Applying; hide Arranging;
    RunEachStep(lib, p, parts);
    ApplyEach(lib, p, RunEach(lib, p.input, parts).value);
    var seen, outs := Seen(lib, p, parts).value, RunEach(lib, p, parts).value;
    if KeysApart(p.groups != [], TupleParts(|p.groups|, seen)) { NestedRows(lib, p, parts, seen, outs); }
    NestedSizes(lib, p, parts, seen, outs);
    var split, native := Concat(outs), RunInput(lib, p, Concat(parts)).value;
    if multiset(split) == multiset(native) { assert |multiset(split)| == |multiset(native)|; }
    if p.groups == [] { GlobalApart(TupleParts(|p.groups|, seen)); }
  }

  lemma GlobalApart(parts: seq<seq<Tuple>>)
    requires parts != []
    ensures KeysApart(false, parts) <==> |parts| == 1
  {
    if |parts| > 1 { assert [] in GroupKeys(false, parts[0]) && [] in GroupKeys(false, parts[1]); }
  }

  lemma NestedRows(lib: Library, p: PhysicalPlan, parts: seq<seq<Row>>, seen: seq<seq<Row>>, outs: seq<seq<Row>>)
    requires Orders(lib) && p.PHashAggregate? && parts != [] && Divisible(lib, p.input, parts)
    requires Seen(lib, p, parts) == Some(seen) && RunEach(lib, p, parts) == Some(outs)
    requires KeysApart(p.groups != [], TupleParts(|p.groups|, seen))
    ensures RunInput(lib, p, Concat(parts)).Some? && multiset(Concat(outs)) == multiset(RunInput(lib, p, Concat(parts)).value)
  {
    hide Orders; hide RunInput; hide RunEach; hide AllOf; hide KeysApart; hide Concat; hide Looking;
    DivisibleInputsSplit(lib, p, parts);
  }

  lemma NestedSizes(lib: Library, p: PhysicalPlan, parts: seq<seq<Row>>, seen: seq<seq<Row>>, outs: seq<seq<Row>>)
    requires Orders(lib) && p.PHashAggregate? && parts != [] && Divisible(lib, p.input, parts) && Seen(lib, p, parts) == Some(seen)
    requires AllOf(Arranging(lib, p), seen) == Some(outs) && RunInput(lib, p, Concat(parts)).Some?
    ensures |seen| == |parts|
    ensures |RunInput(lib, p, Concat(parts)).value| <= |Concat(outs)|
    ensures |RunInput(lib, p, Concat(parts)).value| == |Concat(outs)| <==> KeysApart(p.groups != [], TupleParts(|p.groups|, seen))
  {
    hide Orders; hide Divisible; hide RunInput; hide RunEach; hide AllOf; hide KeysApart; hide Concat; hide Looking; hide Lists; hide AllAccepted;
    hide GroupKeys; hide TupleParts;
    NativeOverParts(lib, p, parts);
    SeenShape(lib, p, parts);
    var specs, grouped := Plans.Specs(p.aggregates).value, p.groups != [];
    SeenOverParts(lib, p, parts);
    GroupingParts(lib, p, seen);
    PartCount(|p.groups|, seen);
    GroupsListed(lib);
    GroupCounts(lib.listing, specs, grouped, TupleParts(|p.groups|, seen), outs);
    ListedOnce(lib.listing, GroupKeys(grouped, Concat(TupleParts(|p.groups|, seen))));
  }

  // ----- counting ----------------------------------------------------------------------------------

  /** SELECT COUNT(*) over an input. */
  function CountPlan(id: U32, input: PhysicalPlan, schema: FullSchema): PhysicalPlan {
    PHashAggregate(id, input, [], [Aggregate(Agg.Count, Wildcard, false)], schema)
  }

  const COUNT_ROWS := Plans.Spec(Agg.Count, Literal(Boolean(true)), false)

  lemma CountSpecs()
    ensures Plans.Specs([Aggregate(Agg.Count, Wildcard, false)]) == Some([COUNT_ROWS])
  {
    var all := [Aggregate(Agg.Count, Wildcard, false)];
    assert Plans.SpecOf(all[0]) == Some(COUNT_ROWS);
    assert Plans.Specs(all).value == [COUNT_ROWS];
  }

  lemma CountLook(k: Kernels, names: Schema, row: Row)
    ensures Plans.EvalAll(k, names, row, [] + Plans.ArgsOf([COUNT_ROWS])) == Some([Boolean(true)])
  {
    var args := [] + Plans.ArgsOf([COUNT_ROWS]);
    assert args == [Literal(Boolean(true))];
    assert args[..|args| - 1] == [];
    assert [] + [Boolean(true)] == [Boolean(true)];
  }

  function Trues(n: nat): seq<Row> {
    seq(n, _ => [Boolean(true)])
  }

  lemma {:induction false} CountLooks(lib: Library, p: PhysicalPlan, rows: seq<Row>)
    requires p.PHashAggregate? && p == CountPlan(p.id, p.input, p.schema)
    ensures JoinPlan.Each(RowStep(lib, p), rows) == Some(Trues(|rows|))
  {
    hide JoinPlan.Each;
    if rows == [] {
      NothingLooks(lib, p);
    } else {
      var n := |rows| - 1;
      CountLooks(lib, p, rows[..n]);
      CountSpecs();
      CountLook(lib.k, JoinPlan.BatchNames(p.input), rows[n]);
      JoinPlan.EachPush(RowStep(lib, p), rows[..n], rows[n]);
      assert rows == rows[..n] + [rows[n]];
      assert Trues(n) + [[Boolean(true)]] == Trues(|rows|);
    }
  }

  lemma NothingLooks(lib: Library, p: PhysicalPlan)
    ensures JoinPlan.Each(RowStep(lib, p), []) == Some(Trues(0))
  {
    assert Trues(0) == [];
  }

  lemma {:induction false} AllSeen(vs: seq<Scalar>)
    requires forall i | 0 <= i < |vs| :: !vs[i].Null?
    ensures Agg.Seen(vs) == |vs|
  {
    if vs != [] { AllSeen(vs[..|vs| - 1]); }
  }

  lemma {:induction false} OneGroup(tuples: seq<Tuple>)
    requires forall i | 0 <= i < |tuples| :: tuples[i].key == []
    ensures Of(tuples, []) == tuples
  {
    if tuples != [] {
      OneGroup(tuples[..|tuples| - 1]);
      assert tuples == tuples[..|tuples| - 1] + [tuples[|tuples| - 1]];
    }
  }

  lemma GlobalRow(listing: Listing, specs: seq<Plans.Spec>, tuples: seq<Tuple>)
    requires Lists(listing) && forall i | 0 <= i < |tuples| :: tuples[i].key == []
    requires Plans.SpecsAccept(specs, tuples)
    ensures GroupRows(listing, specs, false, tuples) == Some([Plans.SpecValues(specs, tuples)])
  {
    hide Lists; hide Of; hide Plans.SpecsAccept; hide Plans.SpecValues;
    assert GroupKeys(false, tuples) == {[]};
    OneGroup(tuples);
    ListedOnce(listing, {[]});
    ListedIn(listing, {[]}, 0);
    assert listing({[]}) == [[]];
    assert [] + Plans.SpecValues(specs, tuples) == Plans.SpecValues(specs, tuples);
    assert AllAccepted(specs, false, tuples);
    assert GroupRow(specs, tuples, []) == Plans.SpecValues(specs, tuples);
    assert RowsOfGroups(specs, tuples, [[]]) == [Plans.SpecValues(specs, tuples)];
  }

  /** COUNT(*) counts the rows of its input. */
  lemma CountOf(lib: Library, p: PhysicalPlan, rows: seq<Row>)
    requires Orders(lib) && p.PHashAggregate? && p == CountPlan(p.id, p.input, p.schema) && |rows| <= U64_MAX
    ensures RunOperator(lib, p, rows) == Some([[UInt64(|rows|)]])
  {
    hide JoinPlan.Each; hide RowStep; hide GroupRows; hide Lists;
    CountLooks(lib, p, rows);
    CountSpecs();
    var tuples := R.TuplesFrom(0, Trues(|rows|));
    var column := GroupBy.Column(tuples, 0);
    AllSeen(column);
    assert Plans.SpecColumn(COUNT_ROWS, tuples, 0) == column;
    assert Plans.SpecValues([COUNT_ROWS], tuples) == [UInt64(|rows|)];
    GlobalRow(lib.listing, [COUNT_ROWS], tuples);
  }

  /** COUNT(*) over a LIMIT or Top-K is the same split and unsplit exactly when the limit is zero,
      cuts nothing, or all rows are in one partition. */
  lemma CountedCutSplitsExactlyWhen(lib: Library, p: PhysicalPlan, parts: seq<seq<Row>>, id: U32, schema: FullSchema)
    requires Orders(lib) && Cuts(p) && RowWise(p.input) && RunEach(lib, p, parts).Some?
    requires RunEach(lib, p.input, parts).Some? && |Concat(RunEach(lib, p.input, parts).value)| <= U64_MAX
    ensures var below, count := RunEach(lib, p.input, parts).value, CountPlan(id, p, schema);
      OverParts(lib, count, parts) == RunInput(lib, count, Concat(parts))
      <==> p.limit == 0 || |Concat(below)| <= p.limit || OnePartition(below)
  {
    hide Orders; hide OnePartition; hide RunEach; hide RowWise; hide Concat; hide RunOperator;
    CutInputsSplitExactlyWhen(lib, p, parts);
    var count := CountPlan(id, p, schema);
    var split, native := Concat(RunEach(lib, p, parts).value), RunInput(lib, p, Concat(parts)).value;
    CountOf(lib, count, split);
    CountOf(lib, count, native);
    if |split| != |native| { assert [[UInt64(|split|)]][0][0] != [[UInt64(|native|)]][0][0]; }
  }

  // ----- two plans that the guards let through -----------------------------------------------------

  /** A table of two partitions. */
  function TwoParts(schema: FullSchema): PhysicalPlan {
    PScan(0, "t", Provider(0, schema, 2), None, [], schema)
  }

  lemma {:induction false} ScannedAsStored(lib: Library, schema: FullSchema, rows: seq<Row>)
    ensures RunInput(lib, TwoParts(schema), rows) == Some(rows)
  {
    var scan := TwoParts(schema);
    if rows != [] {
      var n := |rows| - 1;
      ScannedAsStored(lib, schema, rows[..n]);
      assert JoinPlan.OperatorRow(lib.k, scan, rows[n]) == JoinPlan.Kept(rows[n]);
      assert RowStep(lib, scan)(rows[n]) == JoinPlan.Kept(rows[n]);
      assert rows == rows[..n] + [rows[n]];
    }
  }

  lemma Pair<T>(f: T -> Option<seq<Row>>, a: T, b: T)
    requires f(a).Some? && f(b).Some?
    ensures AllOf(f, [a, b]) == Some([f(a).value, f(b).value]) && Concat([f(a).value, f(b).value]) == f(a).value + f(b).value
  {
    var all := AllOf(f, [a, b]).value;
    assert f([a, b][0]) == Some(all[0]) && f([a, b][1]) == Some(all[1]);
    assert all == [f(a).value, f(b).value];
    assert all[..1] == [f(a).value] && all[..1][..0] == [];
    assert Concat(all[..1]) == Concat(all[..1][..0]) + f(a).value;
  }

  /** A row in each partition, counted below LIMIT 1: the plan is split, and counts two rows instead
      of one. */
  lemma LimitedCountExample(lib: Library, schema: FullSchema, counted: FullSchema, row: Row)
    requires Orders(lib)
    ensures var input := PLimit(1, TwoParts(schema), 1, schema);
      var p := CountPlan(2, input, counted);
      && SplitMergeable(p) == Ok(Some(Split(input, 2)))
      && OverParts(lib, p, [[row], [row]]) == Some([[UInt64(2)]])
      && RunInput(lib, p, [row, row]) == Some([[UInt64(1)]])
  {
    hide Orders; hide RunOperator; hide AllOf; hide Concat;
    var input := PLimit(1, TwoParts(schema), 1, schema);
    var p := CountPlan(2, input, counted);
    CountSplits(2, input, counted);
    LimitedRows(lib, schema, [row]);
    LimitedRows(lib, schema, [row, row]);
    assert [row][..1] == [row] && [row, row][..1] == [row];
    Pair(Running(lib, input), [row], [row]);
    assert [row] + [row] == [row, row];
    CountOf(lib, p, [row, row]);
    CountOf(lib, p, [row]);
  }

  lemma CountSplits(id: U32, input: PhysicalPlan, schema: FullSchema)
    requires ScanPartitions(input) == Some(2)
    ensures SplitMergeable(CountPlan(id, input, schema)) == Ok(Some(Split(input, 2)))
  {
    CountSpecs();
    assert !IsDistinct(CountPlan(id, input, schema).aggregates[0]);
  }

  lemma LimitedRows(lib: Library, schema: FullSchema, rows: seq<Row>)
    requires rows != []
    ensures RunInput(lib, PLimit(1, TwoParts(schema), 1, schema), rows) == Some(rows[..1])
    ensures ScanPartitions(PLimit(1, TwoParts(schema), 1, schema)) == Some(2)
  {
    var p := PLimit(1, TwoParts(schema), 1, schema);
    ScannedAsStored(lib, schema, rows);
    LimitLooks(lib, p, rows);
    assert ScanPartitions(TwoParts(schema)) == Some(2);
  }

  lemma {:induction false} LimitLooks(lib: Library, p: PhysicalPlan, rows: seq<Row>)
    requires p.PLimit?
    ensures JoinPlan.Each(RowStep(lib, p), rows) == Some(rows)
  {
    if rows != [] {
      var n := |rows| - 1;
      LimitLooks(lib, p, rows[..n]);
      assert rows == rows[..n] + [rows[n]];
    }
  }

  /** A row in each partition, counted twice over: the plan is split, and finds two counts instead
      of one. */
  lemma NestedCountExample(lib: Library, schema: FullSchema, counted: FullSchema, row: Row)
    requires Orders(lib)
    ensures var input := CountPlan(1, TwoParts(schema), counted);
      var p := CountPlan(2, input, counted);
      && SplitMergeable(p) == Ok(Some(Split(input, 2)))
      && OverParts(lib, p, [[row], [row]]) == Some([[UInt64(2)]])
      && RunInput(lib, p, [row, row]) == Some([[UInt64(1)]])
  {
    hide Orders; hide RunOperator; hide AllOf; hide Concat;
    var input := CountPlan(1, TwoParts(schema), counted);
    var p := CountPlan(2, input, counted);
    assert ScanPartitions(TwoParts(schema)) == Some(2);
    CountSplits(2, input, counted);
    ScannedAsStored(lib, schema, [row]);
    ScannedAsStored(lib, schema, [row, row]);
    CountOf(lib, input, [row]);
    CountOf(lib, input, [row, row]);
    Pair(Running(lib, input), [row], [row]);
    CountOf(lib, p, [[UInt64(1)]] + [[UInt64(1)]]);
    CountOf(lib, p, [[UInt64(2)]]);
  }
}
