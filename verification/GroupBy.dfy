/** Grouping rows by key and folding each group (src/runtime/execution.rs, `hash_aggregate`). */
module GroupBy {
  import opened Basics
  import opened Values
  import opened Aggregates

  /** An input row after its group key and the arguments of the aggregates have been evaluated. */
  datatype Tuple = Tuple(key: seq<Scalar>, args: seq<Scalar>)

  /** The rows of one group, in order. */
  function Of(rows: seq<Tuple>, key: seq<Scalar>): seq<Tuple> {
    if rows == [] then []
    else
      var last := rows[|rows| - 1];
      Of(rows[..|rows| - 1], key) + (if last.key == key then [last] else [])
  }

  /** The groups: the keys that occur, or the single empty key of a global aggregate. */
  function GroupKeys(grouped: bool, rows: seq<Tuple>): set<seq<Scalar>> {
    (set i | 0 <= i < |rows| :: rows[i].key) + (if grouped then {} else {[]})
  }

  lemma OfPush(rows: seq<Tuple>, row: Tuple, key: seq<Scalar>)
    ensures Of(rows + [row], key) == Of(rows, key) + (if row.key == key then [row] else [])
  {
    assert (rows + [row])[..|rows|] == rows;
  }

  lemma {:induction false} OfConcat(a: seq<Tuple>, b: seq<Tuple>, key: seq<Scalar>)
    ensures Of(a + b, key) == Of(a, key) + Of(b, key)
  {
    if b == [] {
      assert a + b == a;
    } else {
      var n := |b| - 1;
      assert a + b == (a + b[..n]) + [b[n]];
      OfPush(a + b[..n], b[n], key);
      OfConcat(a, b[..n], key);
    }
  }

  lemma {:induction false} OfAbsent(rows: seq<Tuple>, key: seq<Scalar>)
    ensures (exists i :: 0 <= i < |rows| && rows[i].key == key) <==> Of(rows, key) != []
  {
    if rows != [] {
      var n := |rows| - 1;
      OfAbsent(rows[..n], key);
      assert rows == rows[..n] + [rows[n]];
    }
  }

  lemma GroupKeysPush(grouped: bool, rows: seq<Tuple>, row: Tuple)
    ensures GroupKeys(grouped, rows + [row]) == GroupKeys(grouped, rows) + {row.key}
  {
    var all := rows + [row];
    assert forall i | 0 <= i < |rows| :: all[i] == rows[i];
    assert all[|rows|] == row;
  }

  // ----- folding each group ------------------------------------------------------------------

  /** How the state of a group takes in one row; `None` is an error. */
  type Stepper<!S> = (S, Tuple) -> Option<S>

  function FoldGroup<S>(init: S, step: Stepper<S>, group: seq<Tuple>): Option<S> {
    if group == [] then Some(init)
    else
      match FoldGroup(init, step, group[..|group| - 1])
      case None => None
      case Some(s) => step(s, group[|group| - 1])
  }

  lemma FoldPush<S>(init: S, step: Stepper<S>, group: seq<Tuple>, row: Tuple)
    ensures FoldGroup(init, step, group + [row])
      == match FoldGroup(init, step, group) case None => None case Some(s) => step(s, row)
  {
    assert (group + [row])[..|group|] == group;
  }

  lemma {:induction false} FoldPrefix<S>(init: S, step: Stepper<S>, a: seq<Tuple>, b: seq<Tuple>)
    requires FoldGroup(init, step, a + b).Some?
    ensures FoldGroup(init, step, a).Some?
  {
    if b == [] {
      assert a + b == a;
    } else {
      assert (a + b)[..|a + b| - 1] == a + b[..|b| - 1];
      FoldPrefix(init, step, a, b[..|b| - 1]);
    }
  }

  ghost predicate AllFold<S>(init: S, step: Stepper<S>, grouped: bool, rows: seq<Tuple>) {
    forall key | key in GroupKeys(grouped, rows) :: FoldGroup(init, step, Of(rows, key)).Some?
  }

  /** The hash table holds the folded state of every group, under its encoded key. */
  ghost predicate Folded<S(!new)>(c: KeyCodec, keys: set<seq<Scalar>>, init: S, step: Stepper<S>, grouped: bool, rows: seq<Tuple>,
                                  groups: map<Encoded, S>)
  {
    && GroupKeys(grouped, rows) <= keys
    && (forall key | key in keys :: c.encode(key) in groups <==> key in GroupKeys(grouped, rows))
    && (forall key | key in GroupKeys(grouped, rows) ::
          c.encode(key) in groups && FoldGroup(init, step, Of(rows, key)) == Some(groups[c.encode(key)]))
    && (forall e | e in groups :: c.decode(e) in keys && c.encode(c.decode(e)) == e)
  }

  lemma FoldedStart<S(!new)>(c: KeyCodec, keys: set<seq<Scalar>>, init: S, step: Stepper<S>, grouped: bool)
    requires Lossless(c, keys) && (!grouped ==> [] in keys)
    ensures Folded(c, keys, init, step, grouped, [], if grouped then map[] else map[c.encode([]) := init])
  {
    assert forall key | key in keys && c.encode(key) == c.encode([]) && [] in keys :: key == c.decode(c.encode(key)) == c.decode(c.encode([])) == [];
    assert GroupKeys(grouped, []) == if grouped then {} else {[]};
  }

  lemma NewGroup<S>(init: S, step: Stepper<S>, grouped: bool, rows: seq<Tuple>, key: seq<Scalar>)
    requires key !in GroupKeys(grouped, rows)
    ensures FoldGroup(init, step, Of(rows, key)) == Some(init)
  {
    OfAbsent(rows, key);
  }

  lemma FoldedPush<S(!new)>(c: KeyCodec, keys: set<seq<Scalar>>, init: S, step: Stepper<S>, grouped: bool, rows: seq<Tuple>, row: Tuple,
                            groups: map<Encoded, S>)
    requires Lossless(c, keys) && Folded(c, keys, init, step, grouped, rows, groups) && row.key in keys
    ensures var e := c.encode(row.key);
      var state := step(if e in groups then groups[e] else init, row);
      && FoldGroup(init, step, Of(rows + [row], row.key)) == state
      && (state.Some? ==> Folded(c, keys, init, step, grouped, rows + [row], groups[e := state.value]))
  {
    hide FoldGroup; hide Of; hide GroupKeys;
    var e := c.encode(row.key);
    GroupKeysPush(grouped, rows, row);
    OfPush(rows, row, row.key);
    FoldPush(init, step, Of(rows, row.key), row);
    if row.key !in GroupKeys(grouped, rows) { NewGroup(init, step, grouped, rows, row.key); }
    forall key | key in keys
      ensures key != row.key ==> c.encode(key) != e && Of(rows + [row], key) == Of(rows, key)
    {
      assert c.decode(c.encode(key)) == key && c.decode(e) == row.key;
      OfPush(rows, row, key);
    }
  }

  /** What a group fold returns: every group once, with its folded state. */
  ghost predicate ListsGroups<S>(init: S, step: Stepper<S>, grouped: bool, rows: seq<Tuple>,
                                 output: seq<(seq<Scalar>, S)>)
  {
    && (forall i | 0 <= i < |output| ::
          output[i].0 in GroupKeys(grouped, rows)
          && FoldGroup(init, step, Of(rows, output[i].0)) == Some(output[i].1))
    && (forall i, j | 0 <= i < j < |output| :: output[i].0 != output[j].0)
    && (forall key | key in GroupKeys(grouped, rows) :: exists i :: 0 <= i < |output| && output[i].0 == key)
  }

  /** Collects the groups into a hash table, row by row; an error in any row ends it. */
  method BuildGroups<S(!new)>(c: KeyCodec, init: S, step: Stepper<S>, grouped: bool, rows: seq<Tuple>)
    returns (r: Option<map<Encoded, S>>)
    requires Lossless(c, GroupKeys(grouped, rows))
    ensures r.Some? <==> AllFold(init, step, grouped, rows)
    ensures r.Some? ==> Folded(c, GroupKeys(grouped, rows), init, step, grouped, rows, r.value)
  {
    hide FoldGroup; hide Of; hide GroupKeys; hide Folded; hide Lossless; hide AllFold;
    ghost var keys := GroupKeys(grouped, rows);
    forall i | 0 <= i < |rows| ensures rows[i].key in keys { RowsHaveGroups(grouped, rows, i); }
    assert !grouped ==> [] in keys by { GlobalKey(rows); }
    var groups: map<Encoded, S> := map[];
    if !grouped {
      groups := groups[c.encode([]) := init];
    }
    FoldedStart(c, keys, init, step, grouped);
    var n := 0;
    assert rows[..0] == [];
    while n < |rows|
      invariant 0 <= n <= |rows|
      invariant Folded(c, keys, init, step, grouped, rows[..n], groups)
    {
      var row := rows[n];
      var e := c.encode(row.key);
      FoldedPush(c, keys, init, step, grouped, rows[..n], row, groups);
      assert rows[..n + 1] == rows[..n] + [row];
      var updated := step(if e in groups then groups[e] else init, row);
      if updated.None? {
        FoldFails(init, step, grouped, rows, n + 1, row.key);
        return None;
      }
      groups := groups[e := updated.value];
      n := n + 1;
    }
    assert rows[..n] == rows;
    FoldedIsAll(c, keys, init, step, grouped, rows, groups);
    r := Some(groups);
  }

  lemma RowsHaveGroups(grouped: bool, rows: seq<Tuple>, i: nat)
    requires i < |rows|
    ensures rows[i].key in GroupKeys(grouped, rows)
  {
  }

  lemma KeysConcat(grouped: bool, a: seq<Tuple>, b: seq<Tuple>)
    ensures GroupKeys(grouped, a + b) == GroupKeys(grouped, a) + GroupKeys(grouped, b)
  {
    var all := a + b;
    forall key | key in GroupKeys(grouped, a) + GroupKeys(grouped, b) ensures key in GroupKeys(grouped, all) {
      if i :| 0 <= i < |a| && a[i].key == key {
        assert all[i].key == key;
      } else if j :| 0 <= j < |b| && b[j].key == key {
        assert all[|a| + j].key == key;
      }
    }
  }

  lemma {:induction false} PartKeys(grouped: bool, parts: seq<seq<Tuple>>, p: nat)
    requires p < |parts|
    ensures GroupKeys(grouped, parts[p]) <= GroupKeys(grouped, Concat(parts))
  {
    hide GroupKeys;
    var n := |parts| - 1;
    KeysConcat(grouped, Concat(parts[..n]), parts[n]);
    if p < n { PartKeys(grouped, parts[..n], p); }
  }

  lemma GlobalKey(rows: seq<Tuple>)
    ensures [] in GroupKeys(false, rows)
  {
  }

  lemma FoldFails<S>(init: S, step: Stepper<S>, grouped: bool, rows: seq<Tuple>, n: nat, key: seq<Scalar>)
    requires 0 < n <= |rows| && rows[n - 1].key == key
    requires FoldGroup(init, step, Of(rows[..n], key)).None?
    ensures !AllFold(init, step, grouped, rows)
  {
    assert rows == rows[..n] + rows[n..];
    OfConcat(rows[..n], rows[n..], key);
    assert key in GroupKeys(grouped, rows);
    if FoldGroup(init, step, Of(rows, key)).Some? {
      FoldPrefix(init, step, Of(rows[..n], key), Of(rows[n..], key));
    }
  }

  lemma FoldedIsAll<S(!new)>(c: KeyCodec, keys: set<seq<Scalar>>, init: S, step: Stepper<S>, grouped: bool, rows: seq<Tuple>,
                             groups: map<Encoded, S>)
    requires Folded(c, keys, init, step, grouped, rows, groups)
    ensures AllFold(init, step, grouped, rows)
  {
  }

  /** Reads the hash table back into a list of groups. */
  method ListGroups<S(!new)>(c: KeyCodec, init: S, step: Stepper<S>, grouped: bool, rows: seq<Tuple>,
                             groups: map<Encoded, S>, ghost keys: set<seq<Scalar>>)
    returns (output: seq<(seq<Scalar>, S)>)
    requires Lossless(c, keys) && Folded(c, keys, init, step, grouped, rows, groups)
    ensures ListsGroups(init, step, grouped, rows, output)
  {
    hide FoldGroup; hide Of; hide GroupKeys; hide Folded; hide Lossless; hide Listing;
    output := [];
    var rest := groups.Keys;
    ListingStart(c, keys, init, step, grouped, rows, groups);
    while rest != {}
      invariant rest <= groups.Keys && Listing(c, init, step, grouped, rows, output, rest)
      decreases |rest|
    {
      var e :| e in rest;
      ListingPush(c, keys, init, step, grouped, rows, groups, output, rest, e);
      output := output + [(c.decode(e), groups[e])];
      rest := rest - {e};
    }
    ListingDone(c, init, step, grouped, rows, output);
  }

  /** Every group is listed or still to come. */
  ghost predicate Listing<S(!new)>(c: KeyCodec, init: S, step: Stepper<S>, grouped: bool, rows: seq<Tuple>,
                                   output: seq<(seq<Scalar>, S)>, rest: set<Encoded>)
  {
    && (forall i | 0 <= i < |output| ::
          output[i].0 in GroupKeys(grouped, rows) && c.encode(output[i].0) !in rest
          && FoldGroup(init, step, Of(rows, output[i].0)) == Some(output[i].1))
    && (forall i, j | 0 <= i < j < |output| :: output[i].0 != output[j].0)
    && (forall key | key in GroupKeys(grouped, rows) ::
          c.encode(key) in rest || exists i :: 0 <= i < |output| && output[i].0 == key)
  }

  lemma ListingStart<S(!new)>(c: KeyCodec, keys: set<seq<Scalar>>, init: S, step: Stepper<S>, grouped: bool, rows: seq<Tuple>, groups: map<Encoded, S>)
    requires Folded(c, keys, init, step, grouped, rows, groups)
    ensures Listing(c, init, step, grouped, rows, [], groups.Keys)
  {
    hide FoldGroup; hide Of; hide GroupKeys;
  }

  lemma ListingDone<S(!new)>(c: KeyCodec, init: S, step: Stepper<S>, grouped: bool, rows: seq<Tuple>, output: seq<(seq<Scalar>, S)>)
    requires Listing(c, init, step, grouped, rows, output, {})
    ensures ListsGroups(init, step, grouped, rows, output)
  {
    hide FoldGroup; hide Of; hide GroupKeys;
  }

  lemma ListingPush<S(!new)>(c: KeyCodec, keys: set<seq<Scalar>>, init: S, step: Stepper<S>, grouped: bool, rows: seq<Tuple>, groups: map<Encoded, S>,
                             output: seq<(seq<Scalar>, S)>, rest: set<Encoded>, e: Encoded)
    requires Lossless(c, keys) && Folded(c, keys, init, step, grouped, rows, groups) && e in rest && rest <= groups.Keys
    requires Listing(c, init, step, grouped, rows, output, rest)
    ensures Listing(c, init, step, grouped, rows, output + [(c.decode(e), groups[e])], rest - {e})
  {
    hide FoldGroup; hide Of; hide GroupKeys;
    var key, next := c.decode(e), output + [(c.decode(e), groups[e])];
    assert c.encode(key) == e && key in GroupKeys(grouped, rows);
    forall k | k in GroupKeys(grouped, rows)
      ensures c.encode(k) in rest - {e} || exists i :: 0 <= i < |next| && next[i].0 == k
    {
      if c.encode(k) == e {
        assert c.decode(c.encode(k)) == k;
        assert next[|output|].0 == k;
      } else if c.encode(k) !in rest {
        var i :| 0 <= i < |output| && output[i].0 == k;
        assert next[i].0 == k;
      }
    }
  }

  // ----- hash aggregation --------------------------------------------------------------------

  function Column(group: seq<Tuple>, i: nat): seq<Scalar> {
    seq(|group|, j requires 0 <= j < |group| => Arg(group[j], i))
  }

  function Arg(row: Tuple, i: nat): Scalar {
    if i < |row.args| then row.args[i] else Null
  }

  predicate GroupAccepted(functions: seq<Function>, group: seq<Tuple>) {
    forall i | 0 <= i < |functions| :: Accepts(functions[i], Column(group, i))
  }

  /** The output values of one group. */
  function GroupValues(functions: seq<Function>, group: seq<Tuple>): seq<Scalar> {
    seq(|functions|, i requires 0 <= i < |functions| => Meaning(functions[i], Column(group, i)))
  }

  predicate Accepted(functions: seq<Function>, grouped: bool, rows: seq<Tuple>) {
    forall key | key in GroupKeys(grouped, rows) :: GroupAccepted(functions, Of(rows, key))
  }

  /** `output` lists every group of `rows` exactly once, each with the values of its aggregates. */
  ghost predicate Emits(functions: seq<Function>, grouped: bool, rows: seq<Tuple>, output: seq<Tuple>) {
    && (forall i | 0 <= i < |output| ::
          output[i].key in GroupKeys(grouped, rows)
          && output[i].args == GroupValues(functions, Of(rows, output[i].key)))
    && (forall i, j | 0 <= i < j < |output| :: output[i].key != output[j].key)
    && (forall key | key in GroupKeys(grouped, rows) :: exists i :: 0 <= i < |output| && output[i].key == key)
  }

  function NewStates(functions: seq<Function>): seq<State> {
    seq(|functions|, i requires 0 <= i < |functions| => NewState(functions[i]))
  }

  /** Updates the first `n` states with the arguments of one row. */
  function UpdateStates(states: seq<State>, row: Tuple, n: nat): Option<seq<State>>
    requires n <= |states|
  {
    if n == 0 then Some([])
    else
      match UpdateStates(states, row, n - 1)
      case None => None
      case Some(done) =>
        match Update(states[n - 1], Arg(row, n - 1))
        case None => None
        case Some(s) => Some(done + [s])
  }

  function StateStep(): Stepper<seq<State>> {
    (states, row) => UpdateStates(states, row, |states|)
  }

  predicate AllStand(functions: seq<Function>, states: seq<State>, group: seq<Tuple>) {
    |states| == |functions| && forall i | 0 <= i < |functions| :: Stands(functions[i], states[i], Column(group, i))
  }

  lemma ColumnPush(group: seq<Tuple>, row: Tuple, i: nat)
    ensures Column(group + [row], i) == Column(group, i) + [Arg(row, i)]
  {
  }

  lemma {:induction false} UpdateStatesStep(functions: seq<Function>, states: seq<State>, group: seq<Tuple>, row: Tuple, n: nat)
    requires n <= |functions| && AllStand(functions, states, group) && GroupAccepted(functions, group)
    ensures var r := UpdateStates(states, row, n);
      && (r.Some? <==> forall i | 0 <= i < n :: Accepts(functions[i], Column(group + [row], i)))
      && (r.Some? ==> |r.value| == n && forall i | 0 <= i < n :: Stands(functions[i], r.value[i], Column(group + [row], i)))
  {
    hide Accepts; hide Stands; hide Update; hide Column; hide Arg;
    if n > 0 {
      UpdateStatesStep(functions, states, group, row, n - 1);
      ColumnPush(group, row, n - 1);
      UpdateStep(functions[n - 1], states[n - 1], Column(group, n - 1), Arg(row, n - 1));
    }
  }

  /** Folding the rows of a group fails exactly when some aggregate does not accept its column,
      and otherwise leaves states that stand for the columns. */
  lemma {:induction false} GroupFold(functions: seq<Function>, group: seq<Tuple>)
    ensures var r := FoldGroup(NewStates(functions), StateStep(), group);
      && (r.Some? <==> GroupAccepted(functions, group))
      && (r.Some? ==> AllStand(functions, r.value, group))
  {
    hide Accepts; hide Stands; hide Update; hide UpdateStates;
    if group == [] {
      forall i | 0 <= i < |functions| ensures Accepts(functions[i], Column(group, i)) && Stands(functions[i], NewState(functions[i]), Column(group, i)) {
        assert Column(group, i) == [];
        NewStands(functions[i]);
      }
    } else {
      var n := |group| - 1;
      assert group == group[..n] + [group[n]];
      GroupFold(functions, group[..n]);
      FoldPush(NewStates(functions), StateStep(), group[..n], group[n]);
      var before := FoldGroup(NewStates(functions), StateStep(), group[..n]);
      if before.Some? {
        UpdateStatesStep(functions, before.value, group[..n], group[n], |functions|);
      } else {
        PrefixAccepted(functions, group[..n], group[n]);
      }
    }
  }

  lemma PrefixAccepted(functions: seq<Function>, group: seq<Tuple>, row: Tuple)
    requires !GroupAccepted(functions, group)
    ensures !GroupAccepted(functions, group + [row])
  {
    hide Accepts; hide Column;
    var i :| 0 <= i < |functions| && !Accepts(functions[i], Column(group, i));
    ColumnPush(group, row, i);
    if Accepts(functions[i], Column(group + [row], i)) {
      AcceptsPrefix(functions[i], Column(group, i), [Arg(row, i)]);
    }
  }

  function Finished(states: seq<State>): seq<Scalar> {
    seq(|states|, i requires 0 <= i < |states| => Finish(states[i]))
  }

  lemma FinishedGroup(functions: seq<Function>, states: seq<State>, group: seq<Tuple>)
    requires AllStand(functions, states, group) && GroupAccepted(functions, group)
    ensures Finished(states) == GroupValues(functions, group)
  {
    hide Accepts; hide Stands; hide Finish; hide Meaning; hide Column;
    forall i | 0 <= i < |functions| ensures Finish(states[i]) == Meaning(functions[i], Column(group, i)) {
      FinishedState(functions[i], states[i], Column(group, i));
    }
  }

  lemma FoldIsAcceptance(functions: seq<Function>, grouped: bool, rows: seq<Tuple>)
    ensures AllFold(NewStates(functions), StateStep(), grouped, rows) <==> Accepted(functions, grouped, rows)
  {
    hide FoldGroup; hide GroupAccepted; hide NewStates; hide StateStep; hide Of; hide GroupKeys;
    forall key ensures FoldGroup(NewStates(functions), StateStep(), Of(rows, key)).Some? <==> GroupAccepted(functions, Of(rows, key)) {
      GroupFold(functions, Of(rows, key));
    }
  }

  /** `hash_aggregate`: it fails exactly when some group has a column its aggregate does not
      accept, and otherwise puts out every group once with the values its aggregates mean. */
  method HashAggregate(c: KeyCodec, functions: seq<Function>, grouped: bool, rows: seq<Tuple>)
    returns (r: Option<seq<Tuple>>)
    requires Lossless(c, GroupKeys(grouped, rows))
    ensures r.Some? <==> Accepted(functions, grouped, rows)
    ensures r.Some? ==> Emits(functions, grouped, rows, r.value)
  {
    hide FoldGroup; hide NewStates; hide StateStep; hide Of; hide GroupKeys; hide Folded; hide Lossless; hide AllFold;
    hide Accepted; hide Emits; hide ListsGroups;
    FoldIsAcceptance(functions, grouped, rows);
    var groups := BuildGroups(c, NewStates(functions), StateStep(), grouped, rows);
    if groups.None? { return None; }
    var listed := ListGroups(c, NewStates(functions), StateStep(), grouped, rows, groups.value, GroupKeys(grouped, rows));
    var output := seq(|listed|, i requires 0 <= i < |listed| => Tuple(listed[i].0, Finished(listed[i].1)));
    FinishedGroups(functions, grouped, rows, listed, output);
    r := Some(output);
  }

  lemma FinishedGroups(functions: seq<Function>, grouped: bool, rows: seq<Tuple>,
                       listed: seq<(seq<Scalar>, seq<State>)>, output: seq<Tuple>)
    requires Accepted(functions, grouped, rows) && |output| == |listed|
    requires ListsGroups(NewStates(functions), StateStep(), grouped, rows, listed)
    requires forall i | 0 <= i < |listed| :: output[i] == Tuple(listed[i].0, Finished(listed[i].1))
    ensures Emits(functions, grouped, rows, output)
  {
    hide FoldGroup; hide NewStates; hide StateStep; hide Of; hide GroupKeys; hide GroupAccepted; hide AllStand; hide Finished;
    hide GroupValues;
    forall i | 0 <= i < |output| ensures output[i].args == GroupValues(functions, Of(rows, output[i].key)) {
      var group := Of(rows, listed[i].0);
      GroupFold(functions, group);
      FinishedGroup(functions, listed[i].1, group);
    }
    forall key | key in GroupKeys(grouped, rows) ensures exists i :: 0 <= i < |output| && output[i].key == key {
      var i :| 0 <= i < |listed| && listed[i].0 == key;
      assert output[i].key == key;
    }
  }
}
