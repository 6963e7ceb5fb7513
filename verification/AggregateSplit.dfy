/** Which aggregates are split over partitions (src/cluster/distributed.rs), and when that leaves
    their rows alone. Every partition runs the whole input of the aggregate for itself. */
module AggregateSplit {
  import opened Basics
  import opened Values
  import opened Expr
  import opened GroupBy
  import opened Physical
  import opened AggregateOrder
  import Agg = Aggregates
  import Plans
  import JoinPlan
  import R = RemoteAggregate

  // ----- the split -------------------------------------------------------------------------------

  function ScanPartitions(p: PhysicalPlan): Option<nat> {
    match p
    case PScan(_, _, provider, _, _, _) => Some(provider.partitions)
    case PProjection(_, input, _, _) => ScanPartitions(input)
    case PFilter(_, input, _, _) => ScanPartitions(input)
    case PHashAggregate(_, input, _, _, _) => ScanPartitions(input)
    case PSort(_, input, _, _) => ScanPartitions(input)
    case PTopK(_, input, _, _, _) => ScanPartitions(input)
    case PLimit(_, input, _, _) => ScanPartitions(input)
    case PHashJoin(_, _, _, _, _, _, _) => None
  }

  predicate IsDistinct(e: Expr) {
    Unalias(e).Aggregate? && Unalias(e).distinct
  }

  /** The input that every partition runs for itself before it aggregates. */
  datatype Split = Split(input: PhysicalPlan, partitions: nat)

  datatype SplitError = NoScanPartitions | NotAnAggregate

  /** The guards of `split_mergeable_aggregate`. */
  function SplitMergeable(p: PhysicalPlan): Result<Option<Split>, SplitError> {
    if !p.PHashAggregate? || exists i :: 0 <= i < |p.aggregates| && IsDistinct(p.aggregates[i]) then Ok(None)
    else
      match ScanPartitions(p.input)
      case None => Ok(None)
      case Some(n) =>
        if n == 0 then Err(NoScanPartitions)
        else if Plans.Specs(p.aggregates).None? then Err(NotAnAggregate)
        else Ok(Some(Split(p.input, n)))
  }

  // ----- running a plan --------------------------------------------------------------------------

  /** Sorting, and the order in which groups come out. */
  datatype Library = Library(k: Kernels, sort: (seq<Plans.SortKey>, seq<Row>) -> seq<Row>, listing: Listing)

  /** Sorting loses and invents no rows, and every group is listed once. */
  ghost predicate Orders(lib: Library) {
    && (forall keys, rows :: multiset(lib.sort(keys, rows)) == multiset(rows))
    && Lists(lib.listing)
  }

  lemma LibrariesExist(k: Kernels) returns (lib: Library)
    ensures Orders(lib) && lib.k == k
  {
    lib := Library(k, (keys, rows) => rows, keys => SomeOrder(keys));
    forall keys, key ensures multiset(lib.listing(keys))[key] == if key in keys then 1 else 0 {
      SomeOrderLists(keys, key);
    }
  }

  function Cut(limit: nat, rows: seq<Row>): (r: seq<Row>)
    ensures |r| == Basics.Min(limit, |rows|)
  {
    if limit <= |rows| then rows[..limit] else rows
  }

  /** What an operator makes of its rows once it has looked at each of them. */
  function Arranged(lib: Library, p: PhysicalPlan, rows: seq<Row>): Option<seq<Row>> {
    match p
    case PSort(_, _, keys, _) => Some(lib.sort(keys, rows))
    case PTopK(_, _, keys, limit, _) => Some(Cut(limit, lib.sort(keys, rows)))
    case PLimit(_, _, limit, _) => Some(Cut(limit, rows))
    case PHashAggregate(_, _, groups, aggregates, _) =>
      (match Plans.Specs(aggregates)
       case None => None
       case Some(specs) => GroupRows(lib.listing, specs, groups != [], R.TuplesFrom(|groups|, rows)))
    case PHashJoin(_, _, _, _, _, _, _) => None
    case _ => Some(rows)
  }

  function RowStep(lib: Library, p: PhysicalPlan): Row -> JoinPlan.Outcome {
    row => JoinPlan.OperatorRow(lib.k, p, row)
  }

  /** One operator over the rows of its input. */
  function RunOperator(lib: Library, p: PhysicalPlan, rows: seq<Row>): Option<seq<Row>> {
    match JoinPlan.Each(RowStep(lib, p), rows) case None => None case Some(r) => Arranged(lib, p, r)
  }

  /** A plan without joins over the stored rows it is given. */
  function RunInput(lib: Library, p: PhysicalPlan, rows: seq<Row>): Option<seq<Row>> {
    if p.PScan? then RunOperator(lib, p, rows)
    else if p.PHashJoin? then None
    else match RunInput(lib, p.input, rows) case None => None case Some(r) => RunOperator(lib, p, r)
  }

  /** A computation for every part, failing when one fails. */
  function AllOf<A, B>(f: A -> Option<B>, parts: seq<A>): (r: Option<seq<B>>)
    ensures r.Some? <==> forall i | 0 <= i < |parts| :: f(parts[i]).Some?
    ensures r.Some? ==> |r.value| == |parts| && forall i | 0 <= i < |parts| :: f(parts[i]) == Some(r.value[i])
  {
    if parts == [] then Some([])
    else
      match (AllOf(f, parts[..|parts| - 1]), f(parts[|parts| - 1]))
      case (Some(before), Some(x)) => Some(before + [x])
      case _ => None
  }

  function Looking(lib: Library, p: PhysicalPlan): seq<Row> -> Option<seq<Row>> {
    rows => JoinPlan.Each(RowStep(lib, p), rows)
  }

  function Arranging(lib: Library, p: PhysicalPlan): seq<Row> -> Option<seq<Row>> {
    rows => Arranged(lib, p, rows)
  }

  function Applying(lib: Library, p: PhysicalPlan): seq<Row> -> Option<seq<Row>> {
    rows => RunOperator(lib, p, rows)
  }

  function Running(lib: Library, p: PhysicalPlan): seq<Row> -> Option<seq<Row>> {
    rows => RunInput(lib, p, rows)
  }

  /** The plan run by every partition for itself. */
  function RunEach(lib: Library, p: PhysicalPlan, parts: seq<seq<Row>>): (r: Option<seq<seq<Row>>>) {
    AllOf(Running(lib, p), parts)
  }

  /** The parts together have the rows of the whole, each as often, and fail when it fails. */
  ghost predicate SameRows(split: Option<seq<seq<Row>>>, whole: Option<seq<Row>>) {
    && (split.Some? <==> whole.Some?)
    && (split.Some? ==> multiset(Concat(split.value)) == multiset(whole.value))
  }

  lemma AllOfPush<A, B>(f: A -> Option<B>, parts: seq<A>, all: seq<B>)
    requires parts != [] && AllOf(f, parts) == Some(all)
    ensures var n := |parts| - 1;
      |all| == |parts| && AllOf(f, parts[..n]) == Some(all[..n]) && f(parts[n]) == Some(all[n])
  {
    var n := |parts| - 1;
    assert AllOf(f, parts[..n]).value == all[..n];
  }

  /** Two computations after each other, for every part. */
  lemma Composed<A, B, C>(f: A -> Option<B>, g: B -> Option<C>, h: A -> Option<C>, parts: seq<A>)
    requires forall i | 0 <= i < |parts| :: h(parts[i]) == if f(parts[i]).Some? then g(f(parts[i]).value) else None
    ensures AllOf(h, parts) == match AllOf(f, parts) case None => None case Some(between) => AllOf(g, between)
  {
    hide AllOf;
    if AllOf(f, parts).Some? {
      var between := AllOf(f, parts).value;
      assert forall i | 0 <= i < |parts| :: f(parts[i]).value == between[i];
      assert AllOf(h, parts).Some? <==> AllOf(g, between).Some?;
      if AllOf(h, parts).Some? { assert AllOf(h, parts).value == AllOf(g, between).value; }
    } else {
      var i :| 0 <= i < |parts| && f(parts[i]).None?;
      assert h(parts[i]).None?;
    }
  }

  lemma ApplyEach(lib: Library, p: PhysicalPlan, outs: seq<seq<Row>>)
    ensures AllOf(Applying(lib, p), outs) ==
      match AllOf(Looking(lib, p), outs) case None => None case Some(seen) => AllOf(Arranging(lib, p), seen)
  {
    hide JoinPlan.Each; hide Arranged;
    Composed(Looking(lib, p), Arranging(lib, p), Applying(lib, p), outs);
  }

  lemma RunEachStep(lib: Library, p: PhysicalPlan, parts: seq<seq<Row>>)
    requires !p.PScan? && !p.PHashJoin?
    ensures RunEach(lib, p, parts) ==
      match RunEach(lib, p.input, parts) case None => None case Some(outs) => AllOf(Applying(lib, p), outs)
  {
    hide RunOperator;
    Composed(Running(lib, p.input), Applying(lib, p), Running(lib, p), parts);
  }

  lemma {:induction false} LookConcat(lib: Library, p: PhysicalPlan, outs: seq<seq<Row>>)
    ensures JoinPlan.Each(RowStep(lib, p), Concat(outs)) ==
      match AllOf(Looking(lib, p), outs) case None => None case Some(seen) => Some(Concat(seen))
  {
    hide RowStep;
    if outs != [] {
      var n := |outs| - 1;
      LookConcat(lib, p, outs[..n]);
      JoinPlan.EachConcat(RowStep(lib, p), Concat(outs[..n]), outs[n]);
      if AllOf(Looking(lib, p), outs).Some? {
        var seen := AllOf(Looking(lib, p), outs).value;
        assert seen[..n] == AllOf(Looking(lib, p), outs[..n]).value;
      }
    }
  }

  // ----- grouping by partition -------------------------------------------------------------------

  /** No group has rows in two partitions. */
  predicate KeysApart(grouped: bool, parts: seq<seq<Tuple>>) {
    forall i, j | 0 <= i < j < |parts| :: GroupKeys(grouped, parts[i]) !! GroupKeys(grouped, parts[j])
  }

  function Grouping(listing: Listing, specs: seq<Plans.Spec>, grouped: bool): seq<Tuple> -> Option<seq<Row>> {
    tuples => GroupRows(listing, specs, grouped, tuples)
  }

  lemma {:induction false} KeysInParts(grouped: bool, parts: seq<seq<Tuple>>, key: seq<Scalar>)
    requires parts != []
    ensures key in GroupKeys(grouped, Concat(parts)) <==> exists i :: 0 <= i < |parts| && key in GroupKeys(grouped, parts[i])
  {
    hide GroupKeys;
    var n := |parts| - 1;
    KeysConcat(grouped, Concat(parts[..n]), parts[n]);
    if n == 0 {
      assert Concat(parts) == parts[0];
    } else {
      KeysInParts(grouped, parts[..n], key);
      assert parts == parts[..n] + [parts[n]];
    }
  }

  lemma KeysApartPush(grouped: bool, parts: seq<seq<Tuple>>)
    requires |parts| > 1
    ensures var n := |parts| - 1;
      KeysApart(grouped, parts) <==> KeysApart(grouped, parts[..n]) && GroupKeys(grouped, Concat(parts[..n])) !! GroupKeys(grouped, parts[n])
  {
    hide GroupKeys;
    var n := |parts| - 1;
    var init := parts[..n];
    assert forall i | 0 <= i < n :: init[i] == parts[i];
    forall key { KeysInParts(grouped, init, key); }
    if KeysApart(grouped, init) && GroupKeys(grouped, Concat(init)) !! GroupKeys(grouped, parts[n]) {
      forall i, j | 0 <= i < j < |parts| ensures GroupKeys(grouped, parts[i]) !! GroupKeys(grouped, parts[j]) {
        if j < n { assert GroupKeys(grouped, init[i]) !! GroupKeys(grouped, init[j]); }
      }
    }
  }

  lemma OnePartIsApart(grouped: bool, parts: seq<seq<Tuple>>)
    requires |parts| == 1
    ensures KeysApart(grouped, parts) && Concat(parts) == parts[0]
  {
  }

  lemma ListedOnce(listing: Listing, keys: set<seq<Scalar>>)
    requires Lists(listing)
    ensures multiset(listing(keys)) == multiset(keys) && |listing(keys)| == |keys|
  {
    assert multiset(listing(keys)) == multiset(keys);
    assert |multiset(listing(keys))| == |multiset(keys)|;
  }

  lemma ListedIn(listing: Listing, keys: set<seq<Scalar>>, i: nat)
    requires Lists(listing) && i < |listing(keys)|
    ensures listing(keys)[i] in keys
  {
    assert listing(keys)[i] in multiset(listing(keys));
  }

  /** Rows of other groups change nothing for a group. */
  lemma OtherGroups(specs: seq<Plans.Spec>, grouped: bool, a: seq<Tuple>, b: seq<Tuple>, key: seq<Scalar>)
    requires key !in GroupKeys(grouped, b)
    ensures Of(a + b, key) == Of(a, key) && Of(b + a, key) == Of(a, key)
    ensures GroupRow(specs, a + b, key) == GroupRow(specs, a, key) && GroupRow(specs, b + a, key) == GroupRow(specs, a, key)
  {
    OfAbsent(b, key);
    OfConcat(a, b, key);
    OfConcat(b, a, key);
  }

  /** Rows with different groups are aggregated as well apart as together. */
  lemma ApartGroups(listing: Listing, specs: seq<Plans.Spec>, grouped: bool, a: seq<Tuple>, b: seq<Tuple>)
    requires Lists(listing) && GroupKeys(grouped, a) !! GroupKeys(grouped, b)
    ensures GroupRows(listing, specs, grouped, a + b).Some?
      <==> GroupRows(listing, specs, grouped, a).Some? && GroupRows(listing, specs, grouped, b).Some?
    ensures GroupRows(listing, specs, grouped, a + b).Some? ==>
      multiset(GroupRows(listing, specs, grouped, a + b).value)
      == multiset(GroupRows(listing, specs, grouped, a).value) + multiset(GroupRows(listing, specs, grouped, b).value)
  {
    hide GroupKeys; hide Of; hide GroupRow; hide Plans.SpecsAccept; hide Lists;
    var keysA, keysB := GroupKeys(grouped, a), GroupKeys(grouped, b);
    KeysConcat(grouped, a, b);
    forall key | key in keysA ensures Of(a + b, key) == Of(a, key) && GroupRow(specs, a + b, key) == GroupRow(specs, a, key) {
      OtherGroups(specs, grouped, a, b, key);
    }
    forall key | key in keysB ensures Of(a + b, key) == Of(b, key) && GroupRow(specs, a + b, key) == GroupRow(specs, b, key) {
      OtherGroups(specs, grouped, b, a, key);
    }
    assert AllAccepted(specs, grouped, a + b) <==> AllAccepted(specs, grouped, a) && AllAccepted(specs, grouped, b);
    var listA, listB, list := listing(keysA), listing(keysB), listing(keysA + keysB);
    ListedOnce(listing, keysA);
    ListedOnce(listing, keysB);
    ListedOnce(listing, keysA + keysB);
    assert multiset(keysA + keysB) == multiset(keysA) + multiset(keysB);
    forall i | 0 <= i < |listA| ensures GroupRow(specs, a + b, listA[i]) == GroupRow(specs, a, listA[i]) { ListedIn(listing, keysA, i); }
    forall i | 0 <= i < |listB| ensures GroupRow(specs, a + b, listB[i]) == GroupRow(specs, b, listB[i]) { ListedIn(listing, keysB, i); }
    ImagesPermuted(key => GroupRow(specs, a + b, key), list, listA + listB,
                   RowsOfGroups(specs, a + b, list), RowsOfGroups(specs, a, listA) + RowsOfGroups(specs, b, listB));
  }

  /** Grouping by partition is harmless when no group is in two partitions. */
  lemma {:induction false} ApartGroupsSplit(listing: Listing, specs: seq<Plans.Spec>, grouped: bool, parts: seq<seq<Tuple>>)
    requires parts != [] && Lists(listing) && KeysApart(grouped, parts)
    ensures SameRows(AllOf(Grouping(listing, specs, grouped), parts), GroupRows(listing, specs, grouped, Concat(parts)))
  {
    hide GroupRows; hide KeysApart; hide GroupKeys; hide Lists;
    var n := |parts| - 1;
    var all := AllOf(Grouping(listing, specs, grouped), parts);
    if n == 0 {
      OnePartIsApart(grouped, parts);
      if all.Some? { assert Concat(all.value) == all.value[0]; }
    } else {
      KeysApartPush(grouped, parts);
      ApartGroupsSplit(listing, specs, grouped, parts[..n]);
      ApartGroups(listing, specs, grouped, Concat(parts[..n]), parts[n]);
      var before := AllOf(Grouping(listing, specs, grouped), parts[..n]);
      if all.Some? { assert all.value[..n] == before.value; }
    }
  }

  lemma UnionSize(a: set<seq<Scalar>>, b: set<seq<Scalar>>)
    ensures |a + b| <= |a| + |b|
    ensures |a + b| == |a| + |b| <==> a !! b
  {
    assert |a + b| == |a| + |b| - |a * b|;
    if a !! b { assert a * b == {}; } else { var x :| x in a && x in b; assert x in a * b; }
  }

  /** Grouping by partition puts out at least as many rows as there are groups, and as many exactly
      when no group is in two partitions. */
  lemma {:induction false} GroupCounts(listing: Listing, specs: seq<Plans.Spec>, grouped: bool, parts: seq<seq<Tuple>>, outs: seq<seq<Row>>)
    requires parts != [] && Lists(listing) && AllOf(Grouping(listing, specs, grouped), parts) == Some(outs)
    ensures |GroupKeys(grouped, Concat(parts))| <= |Concat(outs)|
    ensures |GroupKeys(grouped, Concat(parts))| == |Concat(outs)| <==> KeysApart(grouped, parts)
  {
    hide GroupKeys; hide KeysApart; hide Lists; hide AllAccepted;
    var n := |parts| - 1;
    assert Grouping(listing, specs, grouped)(parts[n]) == Some(outs[n]);
    ListedOnce(listing, GroupKeys(grouped, parts[n]));
    if n == 0 {
      assert Concat(outs) == outs[0];
      OnePartIsApart(grouped, parts);
    } else {
      assert outs[..n] == AllOf(Grouping(listing, specs, grouped), parts[..n]).value;
      GroupCounts(listing, specs, grouped, parts[..n], outs[..n]);
      KeysConcat(grouped, Concat(parts[..n]), parts[n]);
      KeysApartPush(grouped, parts);
      UnionSize(GroupKeys(grouped, Concat(parts[..n])), GroupKeys(grouped, parts[n]));
    }
  }

  // ----- cutting by partition --------------------------------------------------------------------

  predicate Cuts(p: PhysicalPlan) {
    p.PLimit? || p.PTopK?
  }

  function Shortened(lib: Library, p: PhysicalPlan, rows: seq<Row>): seq<Row>
    requires Cuts(p)
  {
    Cut(p.limit, if p.PTopK? then lib.sort(p.keys, rows) else rows)
  }

  /** All rows are in one partition. */
  predicate OnePartition(outs: seq<seq<Row>>) {
    forall i, j | 0 <= i < j < |outs| :: outs[i] == [] || outs[j] == []
  }

  lemma {:induction false} NothingInside(outs: seq<seq<Row>>)
    ensures Concat(outs) == [] <==> forall i | 0 <= i < |outs| :: outs[i] == []
  {
    if outs != [] {
      var n := |outs| - 1;
      NothingInside(outs[..n]);
      assert outs == outs[..n] + [outs[n]];
    }
  }

  lemma OnePartitionPush(outs: seq<seq<Row>>)
    requires outs != []
    ensures var n := |outs| - 1;
      && (OnePartition(outs) <==> OnePartition(outs[..n]) && (Concat(outs[..n]) == [] || outs[n] == []))
      && (Concat(outs[..n]) == [] ==> OnePartition(outs[..n]))
  {
    var n := |outs| - 1;
    NothingInside(outs[..n]);
    if OnePartition(outs[..n]) && (outs[n] == [] || Concat(outs[..n]) == []) {
      forall i, j | 0 <= i < j < |outs| ensures outs[i] == [] || outs[j] == [] {
        if j < n { assert outs[..n][i] == outs[i] && outs[..n][j] == outs[j]; } else { assert outs[..n][i] == outs[i]; }
      }
    }
    if OnePartition(outs) {
      assert forall i | 0 <= i < n :: outs[..n][i] == outs[i];
      if outs[n] != [] { assert forall i | 0 <= i < n :: outs[i] == [] || outs[n] == []; }
    }
  }

  lemma ShortenedRows(lib: Library, p: PhysicalPlan, rows: seq<Row>)
    requires Orders(lib) && Cuts(p)
    ensures |Shortened(lib, p, rows)| == Basics.Min(p.limit, |rows|)
    ensures |rows| <= p.limit ==> multiset(Shortened(lib, p, rows)) == multiset(rows)
  {
    if p.PTopK? {
      var sorted := lib.sort(p.keys, rows);
      assert multiset(sorted) == multiset(rows);
      assert |multiset(sorted)| == |multiset(rows)|;
      assert |rows| <= p.limit ==> Cut(p.limit, sorted) == sorted;
    } else {
      assert |rows| <= p.limit ==> Cut(p.limit, rows) == rows;
    }
  }

  lemma CutPush(lib: Library, p: PhysicalPlan, outs: seq<seq<Row>>, cut: seq<seq<Row>>)
    requires Cuts(p) && outs != [] && AllOf(Arranging(lib, p), outs) == Some(cut)
    ensures var n := |outs| - 1;
      |cut| == |outs| && AllOf(Arranging(lib, p), outs[..n]) == Some(cut[..n]) && cut[n] == Shortened(lib, p, outs[n])
  {
    hide AllOf;
    AllOfPush(Arranging(lib, p), outs, cut);
  }

  /** Cutting every part keeps at least as many rows as cutting the whole, and as many exactly when
      nothing is kept, nothing is cut or only one part has rows. */
  lemma {:induction false} CutCounts(lib: Library, p: PhysicalPlan, outs: seq<seq<Row>>, cut: seq<seq<Row>>)
    requires Orders(lib) && Cuts(p) && AllOf(Arranging(lib, p), outs) == Some(cut)
    ensures Basics.Min(p.limit, |Concat(outs)|) <= |Concat(cut)|
    ensures |Concat(cut)| == Basics.Min(p.limit, |Concat(outs)|)
      <==> p.limit == 0 || |Concat(outs)| <= p.limit || OnePartition(outs)
  {
    hide Orders; hide OnePartition; hide AllOf; hide Shortened;
    if outs == [] {
      assert |cut| == 0;
    } else {
      var n := |outs| - 1;
      CutPush(lib, p, outs, cut);
      CutCounts(lib, p, outs[..n], cut[..n]);
      ShortenedRows(lib, p, outs[n]);
      OnePartitionPush(outs);
    }
  }

  /** With all rows in one partition, cutting every part is cutting the whole. */
  lemma {:induction false} CutOnePartition(lib: Library, p: PhysicalPlan, outs: seq<seq<Row>>, cut: seq<seq<Row>>)
    requires Orders(lib) && Cuts(p) && AllOf(Arranging(lib, p), outs) == Some(cut) && OnePartition(outs)
    ensures Concat(cut) == Shortened(lib, p, Concat(outs))
  {
    hide Orders; hide OnePartition; hide AllOf; hide Shortened;
    ShortenedRows(lib, p, []);
    if outs != [] {
      var n := |outs| - 1;
      CutPush(lib, p, outs, cut);
      OnePartitionPush(outs);
      CutOnePartition(lib, p, outs[..n], cut[..n]);
      assert Concat(outs) == if outs[n] == [] then Concat(outs[..n]) else outs[n];
      assert Concat(cut) == Concat(cut[..n]) + cut[n];
    }
  }

  lemma {:induction false} NothingCut(lib: Library, p: PhysicalPlan, outs: seq<seq<Row>>, cut: seq<seq<Row>>)
    requires Orders(lib) && Cuts(p) && AllOf(Arranging(lib, p), outs) == Some(cut) && |Concat(outs)| <= p.limit
    ensures multiset(Concat(cut)) == multiset(Concat(outs))
  {
    hide Orders; hide AllOf; hide Shortened;
    if outs != [] {
      var n := |outs| - 1;
      CutPush(lib, p, outs, cut);
      NothingCut(lib, p, outs[..n], cut[..n]);
      ShortenedRows(lib, p, outs[n]);
    }
  }

  lemma CutAlways(lib: Library, p: PhysicalPlan, outs: seq<seq<Row>>, rows: seq<Row>)
    requires Cuts(p)
    ensures AllOf(Arranging(lib, p), outs).Some? && Arranged(lib, p, rows) == Some(Shortened(lib, p, rows))
  {
  }

  lemma CutsSplit(lib: Library, p: PhysicalPlan, outs: seq<seq<Row>>, rows: seq<Row>)
    requires Orders(lib) && Cuts(p) && multiset(rows) == multiset(Concat(outs))
    requires p.limit == 0 || |Concat(outs)| <= p.limit || (OnePartition(outs) && rows == Concat(outs))
    ensures SameRows(AllOf(Arranging(lib, p), outs), Arranged(lib, p, rows))
  {
    hide Orders; hide OnePartition; hide AllOf; hide Shortened; hide Arranged; hide Arranging; hide Concat;
    CutAlways(lib, p, outs, rows);
    var cut := AllOf(Arranging(lib, p), outs).value;
    assert |multiset(rows)| == |multiset(Concat(outs))|;
    ShortenedRows(lib, p, rows);
    if p.limit == 0 {
      CutCounts(lib, p, outs, cut);
    } else if |Concat(outs)| <= p.limit {
      NothingCut(lib, p, outs, cut);
    } else {
      CutOnePartition(lib, p, outs, cut);
    }
  }

  // ----- plans that may be split -----------------------------------------------------------------

  predicate RowWise(p: PhysicalPlan) {
    p.PScan? || ((p.PFilter? || p.PProjection?) && RowWise(p.input))
  }

  function TupleParts(groupCount: nat, outs: seq<seq<Row>>): seq<seq<Tuple>> {
    seq(|outs|, i requires 0 <= i < |outs| => R.TuplesFrom(groupCount, outs[i]))
  }

  lemma {:induction false} TuplesOfParts(groupCount: nat, outs: seq<seq<Row>>)
    ensures Concat(TupleParts(groupCount, outs)) == R.TuplesFrom(groupCount, Concat(outs))
  {
    if outs != [] {
      var n := |outs| - 1;
      TuplesOfParts(groupCount, outs[..n]);
      assert TupleParts(groupCount, outs)[..n] == TupleParts(groupCount, outs[..n]);
      R.TuplesSplit(groupCount, Concat(outs[..n]), outs[n]);
    }
  }

  /** The operator may be left to the partitions: a cut keeps nothing, cuts nothing or has all its
      rows in one partition, and an aggregate has no group in two. */
  predicate Divides(p: PhysicalPlan, outs: seq<seq<Row>>) {
    match p
    case PTopK(_, input, _, limit, _) => limit == 0 || |Concat(outs)| <= limit || (RowWise(input) && OnePartition(outs))
    case PLimit(_, input, limit, _) => limit == 0 || |Concat(outs)| <= limit || (RowWise(input) && OnePartition(outs))
    case PHashAggregate(_, _, groups, _, _) => KeysApart(groups != [], TupleParts(|groups|, outs))
    case PHashJoin(_, _, _, _, _, _, _) => false
    case _ => true
  }

  /** Every operator of the plan may be left to the partitions. */
  predicate Divisible(lib: Library, p: PhysicalPlan, parts: seq<seq<Row>>) {
    if p.PScan? then true
    else if p.PHashJoin? then false
    else
      && Divisible(lib, p.input, parts)
      && match RunEach(lib, p.input, parts)
         case None => true
         case Some(outs) => match AllOf(Looking(lib, p), outs) case None => true case Some(seen) => Divides(p, seen)
  }

  lemma {:induction false} ConcatPermuted(a: seq<seq<Row>>, b: seq<seq<Row>>)
    requires |a| == |b| && forall i | 0 <= i < |a| :: multiset(a[i]) == multiset(b[i])
    ensures multiset(Concat(a)) == multiset(Concat(b))
  {
    if a != [] {
      var n := |a| - 1;
      ConcatPermuted(a[..n], b[..n]);
    }
  }

  lemma GroupsSplit(lib: Library, p: PhysicalPlan, outs: seq<seq<Row>>, rows: seq<Row>)
    requires Orders(lib) && p.PHashAggregate? && outs != [] && multiset(rows) == multiset(Concat(outs))
    requires KeysApart(p.groups != [], TupleParts(|p.groups|, outs))
    ensures SameRows(AllOf(Arranging(lib, p), outs), Arranged(lib, p, rows))
  {
    hide GroupRows; hide KeysApart; hide Lists; hide R.TuplesFrom;
    if Plans.Specs(p.aggregates).None? {
      assert Arranging(lib, p)(outs[0]).None?;
    } else {
      GroupingParts(lib, p, outs);
      ApartGroupsSplit(lib.listing, Plans.Specs(p.aggregates).value, p.groups != [], TupleParts(|p.groups|, outs));
      TuplesOfParts(|p.groups|, outs);
      GroupedAnyOrder(lib, p, rows, Concat(outs));
    }
  }

  lemma GroupingParts(lib: Library, p: PhysicalPlan, outs: seq<seq<Row>>)
    requires p.PHashAggregate? && Plans.Specs(p.aggregates).Some?
    ensures AllOf(Arranging(lib, p), outs)
      == AllOf(Grouping(lib.listing, Plans.Specs(p.aggregates).value, p.groups != []), TupleParts(|p.groups|, outs))
  {
    hide GroupRows; hide R.TuplesFrom;
    var f, g := Arranging(lib, p), Grouping(lib.listing, Plans.Specs(p.aggregates).value, p.groups != []);
    var tuples := TupleParts(|p.groups|, outs);
    assert forall i | 0 <= i < |outs| :: f(outs[i]) == g(tuples[i]);
    assert AllOf(f, outs).Some? <==> AllOf(g, tuples).Some?;
    if AllOf(f, outs).Some? { assert AllOf(f, outs).value == AllOf(g, tuples).value; }
  }

  lemma GroupedAnyOrder(lib: Library, p: PhysicalPlan, a: seq<Row>, b: seq<Row>)
    requires Orders(lib) && p.PHashAggregate? && multiset(a) == multiset(b)
    ensures Arranged(lib, p, a) == Arranged(lib, p, b)
  {
    hide GroupRows; hide Lists;
    var g := |p.groups|;
    ImagesPermuted(row => R.TupleOf(g, row), a, b, R.TuplesFrom(g, a), R.TuplesFrom(g, b));
    if Plans.Specs(p.aggregates).Some? {
      GroupRowsPermuted(lib.listing, Plans.Specs(p.aggregates).value, p.groups != [], R.TuplesFrom(g, a), R.TuplesFrom(g, b));
    }
  }

  lemma ArrangedSplits(lib: Library, p: PhysicalPlan, outs: seq<seq<Row>>, rows: seq<Row>)
    requires Orders(lib) && outs != [] && multiset(rows) == multiset(Concat(outs)) && Divides(p, outs)
    requires Cuts(p) && RowWise(p.input) ==> rows == Concat(outs)
    ensures SameRows(AllOf(Arranging(lib, p), outs), Arranged(lib, p, rows))
  {
    hide KeysApart; hide GroupRows; hide RowWise; hide OnePartition;
    if Cuts(p) {
      CutsSplit(lib, p, outs, rows);
    } else if p.PHashAggregate? {
      GroupsSplit(lib, p, outs, rows);
    } else if p.PSort? {
      assert forall i | 0 <= i < |outs| :: Arranging(lib, p)(outs[i]) == Some(lib.sort(p.keys, outs[i]));
      ConcatPermuted(outs, AllOf(Arranging(lib, p), outs).value);
    } else {
      assert forall i | 0 <= i < |outs| :: Arranging(lib, p)(outs[i]) == Some(outs[i]);
      assert AllOf(Arranging(lib, p), outs).value == outs;
    }
  }

  /** A row-wise plan produces the same rows in the same order. */
  lemma {:induction false} RowWiseInputsSplit(lib: Library, p: PhysicalPlan, parts: seq<seq<Row>>)
    requires RowWise(p)
    ensures RunInput(lib, p, Concat(parts)) == match RunEach(lib, p, parts) case None => None case Some(outs) => Some(Concat(outs))
  {
    hide JoinPlan.Each; hide AllOf;
    if p.PScan? {
      LookConcat(lib, p, parts);
      RowWiseLook(lib, p, parts);
    } else {
      RowWiseInputsSplit(lib, p.input, parts);
      RunEachStep(lib, p, parts);
      if RunEach(lib, p.input, parts).Some? {
        var outs := RunEach(lib, p.input, parts).value;
        LookConcat(lib, p, outs);
        RowWiseLook(lib, p, outs);
      }
    }
  }

  lemma RowWiseLook(lib: Library, p: PhysicalPlan, outs: seq<seq<Row>>)
    requires p.PScan? || p.PFilter? || p.PProjection?
    ensures AllOf(Applying(lib, p), outs) == AllOf(Looking(lib, p), outs)
    ensures p.PScan? ==> RunEach(lib, p, outs) == AllOf(Looking(lib, p), outs)
  {
    hide JoinPlan.Each;
    var f, g, h := Applying(lib, p), Looking(lib, p), Running(lib, p);
    assert forall i | 0 <= i < |outs| :: f(outs[i]) == g(outs[i]);
    if AllOf(f, outs).Some? { assert AllOf(f, outs).value == AllOf(g, outs).value; }
    if p.PScan? {
      assert forall i | 0 <= i < |outs| :: h(outs[i]) == g(outs[i]);
      if AllOf(h, outs).Some? { assert AllOf(h, outs).value == AllOf(g, outs).value; }
    }
  }

  /** A divisible plan may be run by every partition for itself: whatever its operators and however
      they are nested, the partitions together have its rows, each as often, and fail when it fails. */
  lemma {:induction false} DivisibleInputsSplit(lib: Library, p: PhysicalPlan, parts: seq<seq<Row>>)
    requires Orders(lib) && parts != [] && Divisible(lib, p, parts)
    ensures SameRows(RunEach(lib, p, parts), RunInput(lib, p, Concat(parts)))
  {
    hide Orders; hide JoinPlan.Each; hide AllOf; hide Arranged; hide Divides;
    if p.PScan? {
      RowWiseInputsSplit(lib, p, parts);
    } else {
      DivisibleInputsSplit(lib, p.input, parts);
      RunEachStep(lib, p, parts);
      if RunEach(lib, p.input, parts).Some? {
        var outs, rows := RunEach(lib, p.input, parts).value, RunInput(lib, p.input, Concat(parts)).value;
        if RowWise(p.input) { RowWiseInputsSplit(lib, p.input, parts); }
        AppliedSplits(lib, p, outs, rows);
      }
    }
  }

  lemma AppliedSplits(lib: Library, p: PhysicalPlan, outs: seq<seq<Row>>, rows: seq<Row>)
    requires Orders(lib) && !p.PScan? && !p.PHashJoin? && outs != [] && multiset(rows) == multiset(Concat(outs))
    requires RowWise(p.input) ==> rows == Concat(outs)
    requires AllOf(Looking(lib, p), outs).Some? ==> Divides(p, AllOf(Looking(lib, p), outs).value)
    ensures SameRows(AllOf(Applying(lib, p), outs), RunOperator(lib, p, rows))
  {
    hide Orders; hide JoinPlan.Each; hide AllOf; hide Arranged; hide Divides; hide RowWise; hide RowStep;
    ApplyEach(lib, p, outs);
    LookConcat(lib, p, outs);
    JoinPlan.EachPermuted(RowStep(lib, p), rows, Concat(outs));
    if AllOf(Looking(lib, p), outs).Some? {
      ArrangedSplits(lib, p, AllOf(Looking(lib, p), outs).value, JoinPlan.Each(RowStep(lib, p), rows).value);
    }
  }

  // ----- the remote aggregate plan ---------------------------------------------------------------

  function Kinds(specs: seq<Plans.Spec>): seq<Agg.Function> {
    seq(|specs|, i requires 0 <= i < |specs| => specs[i].kind)
  }

  predicate NoneDistinct(specs: seq<Plans.Spec>) {
    forall i | 0 <= i < |specs| :: !specs[i].distinct
  }

  lemma PlainValues(specs: seq<Plans.Spec>, group: seq<Tuple>)
    requires NoneDistinct(specs)
    ensures Plans.SpecsAccept(specs, group) <==> GroupAccepted(Kinds(specs), group)
    ensures Plans.SpecValues(specs, group) == GroupValues(Kinds(specs), group)
  {
    hide Agg.Accepts; hide Agg.Meaning; hide GroupBy.Column;
    assert forall i | 0 <= i < |specs| :: Plans.SpecColumn(specs[i], group, i) == GroupBy.Column(group, i) && Kinds(specs)[i] == specs[i].kind;
  }

  lemma {:induction false} DistinctCounts<T>(s: seq<T>, x: T)
    requires forall i, j | 0 <= i < j < |s| :: s[i] != s[j]
    ensures multiset(s)[x] == if x in s then 1 else 0
  {
    if s != [] {
      var n := |s| - 1;
      DistinctCounts(s[..n], x);
      assert s == s[..n] + [s[n]];
      assert x == s[n] ==> x !in s[..n];
    }
  }

  /** Putting out every group once with its values is hash aggregation, up to order. */
  lemma EmittedRows(listing: Listing, specs: seq<Plans.Spec>, grouped: bool, tuples: seq<Tuple>, output: seq<Tuple>)
    requires Lists(listing) && NoneDistinct(specs) && Emits(Kinds(specs), grouped, tuples, output)
    ensures multiset(R.RowsFrom(output)) == multiset(RowsOfGroups(specs, tuples, listing(GroupKeys(grouped, tuples))))
  {
    hide GroupKeys; hide Of; hide Lists; hide GroupValues; hide Plans.SpecValues; hide Kinds; hide NoneDistinct;
    var keys := seq(|output|, i requires 0 <= i < |output| => output[i].key);
    var groups := GroupKeys(grouped, tuples);
    forall key ensures multiset(keys)[key] == multiset(groups)[key] {
      DistinctCounts(keys, key);
      if key in groups { var i :| 0 <= i < |output| && output[i].key == key; assert keys[i] == key; }
    }
    ListedOnce(listing, groups);
    forall i | 0 <= i < |output| ensures R.RowsFrom(output)[i] == GroupRow(specs, tuples, keys[i]) {
      PlainValues(specs, Of(tuples, keys[i]));
    }
    ImagesPermuted(key => GroupRow(specs, tuples, key), keys, listing(groups), R.RowsFrom(output), RowsOfGroups(specs, tuples, listing(groups)));
  }

  lemma SameAcceptance(specs: seq<Plans.Spec>, grouped: bool, tuples: seq<Tuple>)
    requires NoneDistinct(specs)
    ensures AllAccepted(specs, grouped, tuples) <==> Accepted(Kinds(specs), grouped, tuples)
  {
    hide GroupKeys; hide Of; hide Plans.SpecsAccept; hide GroupAccepted; hide Kinds; hide NoneDistinct;
    forall key ensures Plans.SpecsAccept(specs, Of(tuples, key)) <==> GroupAccepted(Kinds(specs), Of(tuples, key)) {
      PlainValues(specs, Of(tuples, key));
    }
  }

  /** What each partition hands to the aggregate: its groups and arguments. */
  function Seen(lib: Library, p: PhysicalPlan, parts: seq<seq<Row>>): Option<seq<seq<Row>>>
    requires p.PHashAggregate?
  {
    match RunEach(lib, p.input, parts) case None => None case Some(outs) => AllOf(Looking(lib, p), outs)
  }

  function KeysSeen(lib: Library, p: PhysicalPlan, parts: seq<seq<Row>>): set<seq<Scalar>>
    requires p.PHashAggregate?
  {
    match Seen(lib, p, parts)
    case None => {}
    case Some(seen) => GroupKeys(p.groups != [], Concat(TupleParts(|p.groups|, seen)))
  }

  /** The aggregate over the rows its partitions make of the input. */
  function OverParts(lib: Library, p: PhysicalPlan, parts: seq<seq<Row>>): Option<seq<Row>>
    requires p.PHashAggregate?
  {
    match RunEach(lib, p.input, parts) case None => None case Some(outs) => RunOperator(lib, p, Concat(outs))
  }

  lemma SeenOverParts(lib: Library, p: PhysicalPlan, parts: seq<seq<Row>>)
    requires p.PHashAggregate? && Plans.Specs(p.aggregates).Some?
    ensures OverParts(lib, p, parts) ==
      match Seen(lib, p, parts)
      case None => None
      case Some(seen) =>
        GroupRows(lib.listing, Plans.Specs(p.aggregates).value, p.groups != [], Concat(TupleParts(|p.groups|, seen)))
  {
    hide JoinPlan.Each; hide AllOf; hide GroupRows; hide TupleParts;
    if RunEach(lib, p.input, parts).Some? {
      LookConcat(lib, p, RunEach(lib, p.input, parts).value);
      if Seen(lib, p, parts).Some? { TuplesOfParts(|p.groups|, Seen(lib, p, parts).value); }
    }
  }

  lemma SeenShape(lib: Library, p: PhysicalPlan, parts: seq<seq<Row>>)
    requires p.PHashAggregate? && Seen(lib, p, parts).Some?
    ensures R.KeysOf(|p.groups|, TupleParts(|p.groups|, Seen(lib, p, parts).value)) && |Seen(lib, p, parts).value| == |parts|
  {
    hide JoinPlan.OperatorRow;
    var outs, seen := RunEach(lib, p.input, parts).value, Seen(lib, p, parts).value;
    forall i | 0 <= i < |seen| ensures forall r | 0 <= r < |seen[i]| :: |seen[i][r]| >= |p.groups| {
      assert Looking(lib, p)(outs[i]) == Some(seen[i]);
      WideRows(lib, p, outs[i]);
    }
  }

  lemma {:induction false} WideRows(lib: Library, p: PhysicalPlan, rows: seq<Row>)
    requires p.PHashAggregate? && JoinPlan.Each(RowStep(lib, p), rows).Some?
    ensures forall r | 0 <= r < |JoinPlan.Each(RowStep(lib, p), rows).value| :: |JoinPlan.Each(RowStep(lib, p), rows).value[r]| >= |p.groups|
  {
    if rows != [] { WideRows(lib, p, rows[..|rows| - 1]); }
  }

  /** The distributed plan of a split aggregate: every partition runs the input and a partial
      aggregate, and `count` tasks merge. It puts out the aggregate of the rows that the partitions
      make of the input; when the input is divisible, these are the rows of the plan itself. */
  method RunSplit(lib: Library, c: KeyCodec, p: PhysicalPlan, parts: seq<seq<Row>>, count: U32) returns (r: Option<seq<Row>>)
    requires Orders(lib) && 0 < count
    requires p.PHashAggregate? && SplitMergeable(p) == Ok(Some(Split(p.input, |parts|)))
    requires p.groups == [] ==> count == 1
    requires Lossless(c, KeysSeen(lib, p, parts))
    ensures r.Some? <==> OverParts(lib, p, parts).Some?
    ensures r.Some? ==> multiset(r.value) == multiset(OverParts(lib, p, parts).value)
    ensures Divisible(lib, p.input, parts) ==>
      var native := RunInput(lib, p, Concat(parts));
      && (r.Some? <==> native.Some?)
      && (r.Some? ==> multiset(r.value) == multiset(native.value))
  {
    hide Orders; hide Divisible; hide RunInput; hide RunEach; hide AllOf; hide GroupKeys; hide Emits; hide Accepted; hide AllAccepted;
    hide TupleParts; hide Lossless;
    hide OverParts; hide R.KeysOf; hide RowsOfGroups; hide Looking;
    if Divisible(lib, p.input, parts) { NativeOverParts(lib, p, parts); }
    var specs := Plans.Specs(p.aggregates).value;
    SeenOverParts(lib, p, parts);
    var seen := Seen(lib, p, parts);
    if seen.None? { return None; }
    SeenShape(lib, p, parts);
    PlainSpecs(p);
    var tuples := TupleParts(|p.groups|, seen.value);
    SameAcceptance(specs, p.groups != [], Concat(tuples));
    PartCount(|p.groups|, seen.value);
    var outputs := R.TwoStageAggregate(c, Kinds(specs), |p.groups|, count, tuples);
    if outputs.None? { return None; }
    GroupsListed(lib);
    EmittedRows(lib.listing, specs, p.groups != [], Concat(tuples), Concat(outputs.value));
    r := Some(R.RowsFrom(Concat(outputs.value)));
  }

  lemma PartCount(groupCount: nat, outs: seq<seq<Row>>)
    ensures |TupleParts(groupCount, outs)| == |outs|
  {
  }

  lemma GroupsListed(lib: Library)
    requires Orders(lib)
    ensures Lists(lib.listing)
  {
  }

  lemma PlainSpecs(p: PhysicalPlan)
    requires SplitMergeable(p).Ok? && SplitMergeable(p).value.Some?
    ensures Plans.Specs(p.aggregates).Some? && NoneDistinct(Plans.Specs(p.aggregates).value)
  {
    var specs := Plans.Specs(p.aggregates).value;
    forall i | 0 <= i < |specs| ensures !specs[i].distinct {
      assert !IsDistinct(p.aggregates[i]) && Plans.SpecOf(p.aggregates[i]) == Some(specs[i]);
    }
  }

  /** Over a divisible input, the aggregate over the parts is the plan itself. */
  lemma NativeOverParts(lib: Library, p: PhysicalPlan, parts: seq<seq<Row>>)
    requires Orders(lib) && p.PHashAggregate? && parts != [] && Divisible(lib, p.input, parts)
    ensures OverParts(lib, p, parts) == RunInput(lib, p, Concat(parts))
  {
    hide Orders; hide Divisible; hide JoinPlan.Each; hide AllOf; hide Arranged; hide RowStep;
    DivisibleInputsSplit(lib, p.input, parts);
    if RunEach(lib, p.input, parts).Some? {
      var outs, rows := RunEach(lib, p.input, parts).value, RunInput(lib, p.input, Concat(parts)).value;
      JoinPlan.EachPermuted(RowStep(lib, p), rows, Concat(outs));
      var a, b := JoinPlan.Each(RowStep(lib, p), rows), JoinPlan.Each(RowStep(lib, p), Concat(outs));
      if a.Some? { GroupedAnyOrder(lib, p, a.value, b.value); }
    }
  }
}
