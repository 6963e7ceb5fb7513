/** The in-process merge of partial aggregates (src/cluster/distributed.rs, `merge_partials`). */
module LocalMerge {
  import opened Basics
  import opened Values
  import opened Aggregates
  import opened GroupBy
  import opened TwoStage
  import opened RemoteAggregate

  datatype MergeState =
    | CountMerge(total: U64)
    | SumMerge(value: real, seen: bool)
    | MinMerge(least: Option<Scalar>)
    | MaxMerge(greatest: Option<Scalar>)
    | AvgMerge(sum: real, count: U64)

  function NewMerge(f: Function): MergeState {
    match f
    case Count => CountMerge(0)
    case SumUInt64 => CountMerge(0)
    case Sum => SumMerge(0.0, false)
    case Min => MinMerge(None)
    case Max => MaxMerge(None)
    case Avg => AvgMerge(0.0, 0)
  }

  /** `as_u64`: NULL counts as zero. */
  function AsUnsigned(v: Scalar): Option<U64> {
    match v
    case UInt64(n) => Some(n)
    case Int64(n) => if n >= 0 then Some(n) else None
    case Null => Some(0)
    case _ => None
  }

  /** `as_f64`: NULL counts as zero. */
  function AsNumber(v: Scalar): Option<real> {
    if v.Null? || Numeric(v) then Some(NumberOf(v)) else None
  }

  function AddUnsigned(total: U64, v: Scalar): Option<U64> {
    match AsUnsigned(v)
    case None => None
    case Some(n) => if total + n > U64_MAX then None else Some(total + n)
  }

  /** One aggregate takes in its partial value or values, starting at `column`. */
  function MergeOne(f: Function, s: MergeState, row: Tuple, column: nat): Option<MergeState> {
    var v := Arg(row, column);
    match (f, s)
    case (Count, CountMerge(total)) =>
      (match AddUnsigned(total, v) case None => None case Some(n) => Some(CountMerge(n)))
    case (SumUInt64, CountMerge(total)) =>
      (match AddUnsigned(total, v) case None => None case Some(n) => Some(CountMerge(n)))
    case (Sum, SumMerge(value, _)) =>
      if v.Null? then Some(s)
      else (match AsNumber(v) case None => None case Some(x) => Some(SumMerge(value + x, true)))
    case (Min, MinMerge(current)) => if Comparable(current, v) then Some(MinMerge(Better(true, current, v))) else None
    case (Max, MaxMerge(current)) => if Comparable(current, v) then Some(MaxMerge(Better(false, current, v))) else None
    case (Avg, AvgMerge(sum, count)) =>
      (match (AsNumber(v), AddUnsigned(count, Arg(row, column + 1)))
       case (Some(x), Some(n)) => Some(AvgMerge(sum + x, n))
       case _ => None)
    case _ => None
  }

  function MergeFinish(s: MergeState): Scalar {
    match s
    case CountMerge(n) => UInt64(n)
    case SumMerge(x, seen) => if seen then Float64(x) else Null
    case MinMerge(v) => OrNull(v)
    case MaxMerge(v) => OrNull(v)
    case AvgMerge(sum, n) => if n == 0 then Null else Float64(sum / n as real)
  }

  /** The first `n` aggregates take in one row; the second component is the running column. */
  function MergeRow(functions: seq<Function>, states: seq<MergeState>, row: Tuple, n: nat): Option<(seq<MergeState>, nat)>
    requires n <= |functions|
  {
    if n == 0 then Some(([], 0))
    else
      match MergeRow(functions, states, row, n - 1)
      case None => None
      case Some((done, column)) =>
        if n - 1 >= |states| then None
        else
          match MergeOne(functions[n - 1], states[n - 1], row, column)
          case None => None
          case Some(s) => Some((done + [s], column + (if functions[n - 1].Avg? then 2 else 1)))
  }

  function MergeStep(functions: seq<Function>): Stepper<seq<MergeState>> {
    (states, row) =>
      match MergeRow(functions, states, row, |functions|)
      case None => None
      case Some((done, _)) => Some(done)
  }

  function NewMerges(functions: seq<Function>): seq<MergeState> {
    seq(|functions|, i requires 0 <= i < |functions| => NewMerge(functions[i]))
  }

  // ----- what a merge state stands for -------------------------------------------------------

  /** The merge state stands for the whole column the parts were cut from. */
  predicate MergeStands(f: Function, s: MergeState, vs: seq<Scalar>) {
    match f
    case Count => s == CountMerge(Unsigned(Seen(vs)).unsigned)
    case SumUInt64 => s == CountMerge(Unsigned(UnsignedTotal(vs)).unsigned)
    case Sum => s == SumMerge(Total(vs), Seen(vs) != 0)
    case Min => s == MinMerge(Best(true, vs))
    case Max => s == MaxMerge(Best(false, vs))
    case Avg => s == AvgMerge(Total(vs), Unsigned(Seen(vs)).unsigned)
  }

  /** The value a local merge gives: an unsigned sum of nothing is zero instead of NULL. */
  function MergedMeaning(f: Function, vs: seq<Scalar>): Scalar {
    if f.SumUInt64? && Seen(vs) == 0 then UInt64(0) else Meaning(f, vs)
  }

  lemma NewMergeStands(f: Function)
    ensures MergeStands(f, NewMerge(f), [])
  {
  }

  lemma MergeFinished(f: Function, s: MergeState, vs: seq<Scalar>)
    requires Accepts(f, vs) && MergeStands(f, s, vs)
    ensures MergeFinish(s) == MergedMeaning(f, vs)
  {
    if f.SumUInt64? && Seen(vs) == 0 { NullsAddNothing(vs); }
  }

  /** The values a part contributes to aggregate `f`, from `column` on. */
  predicate Carries(f: Function, row: Tuple, column: nat, part: seq<Scalar>) {
    if f.Avg? then Arg(row, column) == Meaning(Sum, part) && Arg(row, column + 1) == Meaning(Count, part)
    else Arg(row, column) == Meaning(f, part)
  }

  predicate PartAccepts(f: Function, part: seq<Scalar>) {
    if f.Avg? then Accepts(Sum, part) && Accepts(Count, part) else Accepts(f, part)
  }

  /** Merging one more part: it succeeds exactly when the longer column is accepted. */
  lemma MergeOneStep(f: Function, s: MergeState, vs: seq<Scalar>, row: Tuple, column: nat, part: seq<Scalar>)
    requires Accepts(f, vs) && MergeStands(f, s, vs) && PartAccepts(f, part) && Carries(f, row, column, part)
    ensures MergeOne(f, s, row, column).Some? <==> Accepts(f, vs + part)
    ensures MergeOne(f, s, row, column).Some? ==> MergeStands(f, MergeOne(f, s, row, column).value, vs + part)
  {
    Additive(vs, part);
    if Seen(part) == 0 { NullsAddNothing(part); }
    if f.Min? || f.Max? {
      OneKindJoin(f.Min?, vs, part);
      if OneKind(vs + part) { BestConcat(f.Min?, vs, part); }
    }
  }

  predicate AllMergeStand(functions: seq<Function>, states: seq<MergeState>, group: seq<Tuple>) {
    |states| == |functions| && forall i | 0 <= i < |functions| :: MergeStands(functions[i], states[i], Column(group, i))
  }

  /** A partial row carries the values of one part of its group. */
  lemma RowCarries(functions: seq<Function>, parts: seq<seq<Tuple>>, key: seq<Scalar>, p: nat, i: nat)
    requires p < |parts| && i < |functions| && PartsAccepted(functions, parts)
    ensures Carries(functions[i], PartialGroup(functions, parts, key)[p], Offset(functions, i), Column(parts[p], i))
    ensures PartAccepts(functions[i], Column(parts[p], i))
  {
    hide Accepts; hide Meaning; hide Partials; hide PartialRows; hide PartsAccepted; hide Column; hide PartialGroup;
    var o, all := Offset(functions, i), Partials(functions);
    PartialsAt(functions, i);
    var mine := PartialsOf(functions[i], i);
    assert forall j | 0 <= j < |mine| :: all[o + j] == all[o..o + |mine|][j] == mine[j];
    forall j: nat | j < |mine|
      ensures Arg(PartialGroup(functions, parts, key)[p], o + j) == Meaning(mine[j].kind, Column(parts[p], i))
      ensures Accepts(mine[j].kind, Column(parts[p], i))
    {
      GroupArg(functions, parts, key, p, o + j);
      PartialColumn(functions, parts[p], o + j);
      PartAccepted(functions, parts, o + j);
      assert Columns(parts, i)[p] == Column(parts[p], i);
    }
    assert mine[0].kind == if functions[i].Avg? then Sum else functions[i];
    assert functions[i].Avg? ==> mine[1].kind == Count;
    assert Arg(PartialGroup(functions, parts, key)[p], o + 0) == Arg(PartialGroup(functions, parts, key)[p], o);
  }

  lemma GroupArg(functions: seq<Function>, parts: seq<seq<Tuple>>, key: seq<Scalar>, p: nat, j: nat)
    requires p < |parts| && j < |Partials(functions)|
    ensures Arg(PartialGroup(functions, parts, key)[p], j)
      == Meaning(Partials(functions)[j].kind, Column(PartialRows(functions, parts[p]), j))
  {
    hide Partials; hide PartialRows; hide Column; hide Meaning;
  }

  /** The running column is the offset of the next aggregate, so every aggregate reads its own
      partial values. */
  lemma {:induction false} MergeRowStep(functions: seq<Function>, states: seq<MergeState>, parts: seq<seq<Tuple>>, key: seq<Scalar>,
                                        p: nat, before: seq<Tuple>, n: nat)
    requires p < |parts| && n <= |functions| && PartsAccepted(functions, parts)
    requires AllMergeStand(functions, states, before) && GroupAccepted(functions, before)
    ensures var r := MergeRow(functions, states, PartialGroup(functions, parts, key)[p], n);
      && (r.Some? <==> forall i | 0 <= i < n :: Accepts(functions[i], Column(before + parts[p], i)))
      && (r.Some? ==>
            && |r.value.0| == n && r.value.1 == Offset(functions, n)
            && forall i | 0 <= i < n :: MergeStands(functions[i], r.value.0[i], Column(before + parts[p], i)))
  {
    hide Accepts; hide MergeStands; hide MergeOne; hide Column; hide PartialGroup; hide PartsAccepted; hide Carries; hide PartAccepts;
    hide Partials;
    if n == 0 {
      assert Offset(functions, 0) == 0 by { NoOffset(functions); }
    } else {
      var row, i := PartialGroup(functions, parts, key)[p], n - 1;
      MergeRowStep(functions, states, parts, key, p, before, i);
      RowCarries(functions, parts, key, p, i);
      ColumnSplit(before, parts[p], i);
      MergeOneStep(functions[i], states[i], Column(before, i), row, Offset(functions, i), Column(parts[p], i));
      PartialsPush(functions, i);
    }
  }

  lemma NoOffset(functions: seq<Function>)
    ensures Offset(functions, 0) == 0
  {
    assert functions[..0] == [];
  }

  /** Merging all the parts of a group: it fails exactly when the whole group is not accepted. */
  lemma {:induction false} MergeFold(functions: seq<Function>, parts: seq<seq<Tuple>>, key: seq<Scalar>)
    requires PartsAccepted(functions, parts)
    ensures var r := FoldGroup(NewMerges(functions), MergeStep(functions), PartialGroup(functions, parts, key));
      && (r.Some? <==> GroupAccepted(functions, Concat(parts)))
      && (r.Some? ==> AllMergeStand(functions, r.value, Concat(parts)))
  {
    hide Accepts; hide MergeStands; hide MergeRow; hide PartialRows; hide GroupValues; hide Partials; hide PartialFunctions;
    var group := PartialGroup(functions, parts, key);
    if parts == [] {
      forall i | 0 <= i < |functions| ensures Accepts(functions[i], Column(Concat(parts), i)) && MergeStands(functions[i], NewMerge(functions[i]), Column(Concat(parts), i)) {
        assert Column(Concat(parts), i) == [];
        NewStands(functions[i]);
        NewMergeStands(functions[i]);
      }
    } else {
      var n := |parts| - 1;
      assert PartsAccepted(functions, parts[..n]) by { FewerParts(functions, parts, n); }
      MergeFold(functions, parts[..n], key);
      assert group == PartialGroup(functions, parts[..n], key) + [group[n]];
      FoldPush(NewMerges(functions), MergeStep(functions), PartialGroup(functions, parts[..n], key), group[n]);
      var before := FoldGroup(NewMerges(functions), MergeStep(functions), PartialGroup(functions, parts[..n], key));
      if before.Some? {
        MergeRowStep(functions, before.value, parts, key, n, Concat(parts[..n]), |functions|);
      } else {
        WiderNotAccepted(functions, Concat(parts[..n]), parts[n]);
      }
    }
  }

  lemma FewerParts(functions: seq<Function>, parts: seq<seq<Tuple>>, n: nat)
    requires n <= |parts| && PartsAccepted(functions, parts)
    ensures PartsAccepted(functions, parts[..n])
  {
    hide GroupAccepted;
  }

  lemma WiderNotAccepted(functions: seq<Function>, group: seq<Tuple>, more: seq<Tuple>)
    requires !GroupAccepted(functions, group)
    ensures !GroupAccepted(functions, group + more)
  {
    hide Accepts; hide Column;
    var i :| 0 <= i < |functions| && !Accepts(functions[i], Column(group, i));
    ColumnSplit(group, more, i);
    if Accepts(functions[i], Column(group + more, i)) {
      AcceptsPrefix(functions[i], Column(group, i), Column(more, i));
    }
  }

  // ----- the merge ---------------------------------------------------------------------------

  function MergedValues(functions: seq<Function>, group: seq<Tuple>): seq<Scalar> {
    seq(|functions|, i requires 0 <= i < |functions| => MergedMeaning(functions[i], Column(group, i)))
  }

  /** `output` lists every group of `rows` once, with its merged values. */
  ghost predicate EmitsLocally(functions: seq<Function>, grouped: bool, rows: seq<Tuple>, output: seq<Tuple>) {
    && (forall i | 0 <= i < |output| ::
          output[i].key in GroupKeys(grouped, rows)
          && output[i].args == MergedValues(functions, Of(rows, output[i].key)))
    && (forall i, j | 0 <= i < j < |output| :: output[i].key != output[j].key)
    && (forall key | key in GroupKeys(grouped, rows) :: exists i :: 0 <= i < |output| && output[i].key == key)
  }

  function FinishedMerges(states: seq<MergeState>): seq<Scalar> {
    seq(|states|, i requires 0 <= i < |states| => MergeFinish(states[i]))
  }

  lemma FinishedMergeGroup(functions: seq<Function>, states: seq<MergeState>, group: seq<Tuple>)
    requires AllMergeStand(functions, states, group) && GroupAccepted(functions, group)
    ensures FinishedMerges(states) == MergedValues(functions, group)
  {
    hide Accepts; hide MergeStands; hide MergeFinish; hide MergedMeaning; hide Column;
    forall i | 0 <= i < |functions| ensures MergeFinish(states[i]) == MergedMeaning(functions[i], Column(group, i)) {
      MergeFinished(functions[i], states[i], Column(group, i));
    }
  }

  /** One group of the merge input stands for the same group of the original rows. */
  lemma LocalGroup(functions: seq<Function>, grouped: bool, partitions: seq<seq<Tuple>>, emitted: seq<seq<Tuple>>, key: seq<Scalar>)
    requires partitions != [] && PartialsEmitted(functions, grouped, partitions, emitted)
    requires forall p | 0 <= p < |partitions| :: Accepted(PartialFunctions(functions), grouped, PartialRows(functions, partitions[p]))
    ensures key in GroupKeys(grouped, Concat(emitted)) <==> key in GroupKeys(grouped, Concat(partitions))
    ensures var r := FoldGroup(NewMerges(functions), MergeStep(functions), Of(Concat(emitted), key));
      && (r.Some? <==> GroupAccepted(functions, Of(Concat(partitions), key)))
      && (r.Some? ==> AllMergeStand(functions, r.value, Of(Concat(partitions), key)))
  {
    hide GroupKeys; hide Of; hide PartialsEmitted; hide FoldGroup; hide GroupAccepted; hide AllMergeStand; hide NewMerges; hide MergeStep;
    hide PartsAccepted;
    InGroupKeys(grouped, Concat(emitted), key);
    InGroupKeys(grouped, Concat(partitions), key);
    PartsOfGroup(grouped, partitions, key);
    EmittedGroup(functions, grouped, partitions, emitted, key);
    PartialStageAccepts(functions, grouped, partitions, key);
    PartsConcat(grouped, partitions, key);
    MergeFold(functions, Parts(grouped, partitions, key), key);
  }

  lemma LocalFold(functions: seq<Function>, grouped: bool, partitions: seq<seq<Tuple>>, emitted: seq<seq<Tuple>>)
    requires partitions != [] && PartialsEmitted(functions, grouped, partitions, emitted)
    requires forall p | 0 <= p < |partitions| :: Accepted(PartialFunctions(functions), grouped, PartialRows(functions, partitions[p]))
    ensures AllFold(NewMerges(functions), MergeStep(functions), grouped, Concat(emitted))
      <==> Accepted(functions, grouped, Concat(partitions))
  {
    hide GroupKeys; hide Of; hide PartialsEmitted; hide FoldGroup; hide GroupAccepted; hide AllMergeStand; hide NewMerges; hide MergeStep;
    hide Concat;
    forall key
      ensures key in GroupKeys(grouped, Concat(emitted)) <==> key in GroupKeys(grouped, Concat(partitions))
      ensures FoldGroup(NewMerges(functions), MergeStep(functions), Of(Concat(emitted), key)).Some?
        <==> GroupAccepted(functions, Of(Concat(partitions), key))
    {
      LocalGroup(functions, grouped, partitions, emitted, key);
    }
  }

  lemma LocalOutput(functions: seq<Function>, grouped: bool, partitions: seq<seq<Tuple>>, emitted: seq<seq<Tuple>>,
                    listed: seq<(seq<Scalar>, seq<MergeState>)>, output: seq<Tuple>)
    requires partitions != [] && PartialsEmitted(functions, grouped, partitions, emitted)
    requires forall p | 0 <= p < |partitions| :: Accepted(PartialFunctions(functions), grouped, PartialRows(functions, partitions[p]))
    requires ListsGroups(NewMerges(functions), MergeStep(functions), grouped, Concat(emitted), listed)
    requires |output| == |listed| && forall i | 0 <= i < |listed| :: output[i] == Tuple(listed[i].0, FinishedMerges(listed[i].1))
    ensures EmitsLocally(functions, grouped, Concat(partitions), output)
  {
    hide GroupKeys; hide Of; hide PartialsEmitted; hide FoldGroup; hide GroupAccepted; hide AllMergeStand; hide NewMerges; hide MergeStep;
    hide Concat; hide FinishedMerges; hide MergedValues; hide Accepted; hide PartialRows; hide PartialFunctions;
    var rows := Concat(partitions);
    forall i | 0 <= i < |output|
      ensures output[i].key in GroupKeys(grouped, rows) && output[i].args == MergedValues(functions, Of(rows, output[i].key))
    {
      LocalGroup(functions, grouped, partitions, emitted, listed[i].0);
      FinishedMergeGroup(functions, listed[i].1, Of(rows, listed[i].0));
    }
    forall key | key in GroupKeys(grouped, rows) ensures exists i :: 0 <= i < |output| && output[i].key == key {
      LocalGroup(functions, grouped, partitions, emitted, key);
      var i :| 0 <= i < |listed| && listed[i].0 == key;
      assert output[i].key == key;
    }
  }

  lemma EmittedKeys(functions: seq<Function>, grouped: bool, partitions: seq<seq<Tuple>>, emitted: seq<seq<Tuple>>)
    requires partitions != [] && PartialsEmitted(functions, grouped, partitions, emitted)
    requires forall p | 0 <= p < |partitions| :: Accepted(PartialFunctions(functions), grouped, PartialRows(functions, partitions[p]))
    ensures GroupKeys(grouped, Concat(emitted)) <= GroupKeys(grouped, Concat(partitions))
  {
    hide GroupKeys; hide PartialsEmitted; hide Concat; hide Accepted; hide FoldGroup; hide GroupAccepted; hide AllMergeStand;
    forall key | key in GroupKeys(grouped, Concat(emitted)) ensures key in GroupKeys(grouped, Concat(partitions)) {
      LocalGroup(functions, grouped, partitions, emitted, key);
    }
  }

  /** The in-process cluster: partial aggregation per partition and one `merge_partials`. It fails
      exactly when aggregating all the rows at once fails, and puts out the same groups. */
  method LocalAggregate(c: KeyCodec, functions: seq<Function>, grouped: bool, partitions: seq<seq<Tuple>>)
    returns (r: Option<seq<Tuple>>)
    requires Lossless(c, GroupKeys(grouped, Concat(partitions))) && partitions != []
    ensures r.Some? <==> Accepted(functions, grouped, Concat(partitions))
    ensures r.Some? ==> EmitsLocally(functions, grouped, Concat(partitions), r.value)
    ensures r.Some? ==>
      (Emits(functions, grouped, Concat(partitions), r.value) <==> SumsSomething(functions, grouped, Concat(partitions)))
  {
    hide Accepted; hide Lossless; hide PartialsEmitted; hide AllFold; hide Folded; hide ListsGroups; hide EmitsLocally; hide PartialRows;
    hide PartialFunctions; hide NewMerges; hide MergeStep; hide Concat; hide FinishedMerges; hide GroupKeys; hide Emits; hide SumsSomething;
    var stage := PartialStage(c, functions, grouped, partitions);
    if stage.None? {
      var p: nat :| p < |partitions| && !Accepted(PartialFunctions(functions), grouped, PartialRows(functions, partitions[p]));
      PartialRefusal(functions, grouped, partitions, p);
      return None;
    }
    var rows := Concat(stage.value);
    LocalFold(functions, grouped, partitions, stage.value);
    EmittedKeys(functions, grouped, partitions, stage.value);
    FewerKeys(c, GroupKeys(grouped, Concat(partitions)), GroupKeys(grouped, rows));
    var groups := BuildGroups(c, NewMerges(functions), MergeStep(functions), grouped, rows);
    if groups.None? { return None; }
    var listed := ListGroups(c, NewMerges(functions), MergeStep(functions), grouped, rows, groups.value, GroupKeys(grouped, rows));
    var output := seq(|listed|, i requires 0 <= i < |listed| => Tuple(listed[i].0, FinishedMerges(listed[i].1)));
    LocalOutput(functions, grouped, partitions, stage.value, listed, output);
    LocalMergeIsExactlyWhen(functions, grouped, Concat(partitions), output);
    r := Some(output);
  }

  /** The local merge gives the one-stage value, except that the internal unsigned sum of a column
      without a value is zero where one-stage aggregation gives NULL. */
  lemma MergedValueIsExactUnlessUnsignedSumOfNothing(f: Function, vs: seq<Scalar>)
    ensures MergedMeaning(f, vs) == Meaning(f, vs) <==> !(f.SumUInt64? && Seen(vs) == 0)
  {
  }

  /** Every internal unsigned sum has something to add up, in every group. */
  predicate SumsSomething(functions: seq<Function>, grouped: bool, rows: seq<Tuple>) {
    forall key, i | key in GroupKeys(grouped, rows) && 0 <= i < |functions| && functions[i].SumUInt64? ::
      Seen(Column(Of(rows, key), i)) > 0
  }

  /** The local merge puts out what one-stage aggregation puts out exactly when no internal unsigned
      sum is over nothing. */
  lemma LocalMergeIsExactlyWhen(functions: seq<Function>, grouped: bool, rows: seq<Tuple>, output: seq<Tuple>)
    requires EmitsLocally(functions, grouped, rows, output)
    ensures Emits(functions, grouped, rows, output) <==> SumsSomething(functions, grouped, rows)
    ensures SumUInt64 !in functions ==> SumsSomething(functions, grouped, rows)
  {
    hide GroupKeys; hide Of; hide Meaning; hide MergedMeaning; hide Seen; hide Column;
    if SumsSomething(functions, grouped, rows) {
      forall key | key in GroupKeys(grouped, rows) ensures MergedValues(functions, Of(rows, key)) == GroupValues(functions, Of(rows, key)) {
        forall i | 0 <= i < |functions|
          ensures MergedMeaning(functions[i], Column(Of(rows, key), i)) == Meaning(functions[i], Column(Of(rows, key), i))
        {
          MergedValueIsExactUnlessUnsignedSumOfNothing(functions[i], Column(Of(rows, key), i));
        }
      }
    } else {
      var key, i :| key in GroupKeys(grouped, rows) && 0 <= i < |functions| && functions[i].SumUInt64? && Seen(Column(Of(rows, key), i)) == 0;
      var o :| 0 <= o < |output| && output[o].key == key;
      MergedValueIsExactUnlessUnsignedSumOfNothing(functions[i], Column(Of(rows, key), i));
      assert output[o].args[i] == MergedMeaning(functions[i], Column(Of(rows, key), i));
      assert GroupValues(functions, Of(rows, key))[i] == Meaning(functions[i], Column(Of(rows, key), i));
    }
  }

  /** The unsigned sum of a NULL: zero locally, NULL in one stage. */
  lemma UnsignedSumOfNothingExample()
    ensures var rows := [Tuple([], [Null])];
      && EmitsLocally([SumUInt64], false, rows, [Tuple([], [UInt64(0)])])
      && Emits([SumUInt64], false, rows, [Tuple([], [Null])])
  {
    var rows := [Tuple([], [Null])];
    assert rows[..0] == [];
    assert Of(rows, []) == Of(rows[..0], []) + rows;
    assert [] + rows == rows;
    var column := Column(Of(rows, []), 0);
    assert column == [Null];
    assert column[..0] == [];
    assert Seen(column) == 0 && UnsignedTotal(column) == 0;
    assert GroupKeys(false, rows) == {[]};
    assert MergedValues([SumUInt64], Of(rows, [])) == [UInt64(0)];
    assert GroupValues([SumUInt64], Of(rows, [])) == [Null];
    assert [Tuple([], [UInt64(0)])][0].key == [] && [Tuple([], [Null])][0].key == [];
  }

  /** An aggregate other than COUNT is NULL exactly when its column has no value, COUNT never is, and
      a global COUNT over no rows at all is zero. */
  lemma NullsOfAggregates(f: Function, vs: seq<Scalar>)
    requires Accepts(f, vs)
    ensures Meaning(f, vs).Null? <==> !f.Count? && Seen(vs) == 0
    ensures GroupValues([Count], Of([], [])) == [UInt64(0)]
  {
    if f.Min? || f.Max? { BestIsExtreme(f.Min?, vs); }
    assert Column(Of([], []), 0) == [];
  }
}
