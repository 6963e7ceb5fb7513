/** Hash joins (src/runtime/execution.rs) and their distribution by key (src/cluster/join.rs). */
module Join {
  import opened Basics
  import opened Values
  import opened Exchange

  datatype JoinType = Inner | Left

  // ----- what a join means -------------------------------------------------------------------

  /** The right rows with exactly this key, in order; a key with a NULL in it matches nothing. */
  function Matches(on: seq<nat>, key: seq<Scalar>, rights: seq<Row>): seq<Row> {
    if rights == [] then []
    else
      var last := rights[|rights| - 1];
      Matches(on, key, rights[..|rights| - 1]) + (if !HasNull(key) && KeyAt(on, last) == key then [last] else [])
  }

  /** The output rows of one left row: one per match, or one padded with NULLs in a left join. */
  function JoinedRow(kind: JoinType, rightWidth: nat, row: Row, matches: seq<Row>): seq<Row> {
    if matches != [] then seq(|matches|, i requires 0 <= i < |matches| => row + matches[i])
    else if kind == Left then [row + seq(rightWidth, _ => Null)]
    else []
  }

  datatype Keys = Keys(left: seq<nat>, right: seq<nat>)

  /** The join as nested loops over the left and right rows. */
  function Joined(kind: JoinType, on: Keys, rightWidth: nat, lefts: seq<Row>, rights: seq<Row>): seq<Row> {
    if lefts == [] then []
    else
      var last := lefts[|lefts| - 1];
      Joined(kind, on, rightWidth, lefts[..|lefts| - 1], rights)
        + JoinedRow(kind, rightWidth, last, Matches(on.right, KeyAt(on.left, last), rights))
  }

  lemma MatchesPush(on: seq<nat>, key: seq<Scalar>, rights: seq<Row>, row: Row)
    ensures Matches(on, key, rights + [row])
      == Matches(on, key, rights) + (if !HasNull(key) && KeyAt(on, row) == key then [row] else [])
  {
    assert (rights + [row])[..|rights|] == rights;
  }

  lemma JoinedPush(kind: JoinType, on: Keys, rightWidth: nat, lefts: seq<Row>, row: Row, rights: seq<Row>)
    ensures Joined(kind, on, rightWidth, lefts + [row], rights)
      == Joined(kind, on, rightWidth, lefts, rights)
         + JoinedRow(kind, rightWidth, row, Matches(on.right, KeyAt(on.left, row), rights))
  {
    assert (lefts + [row])[..|lefts|] == lefts;
  }

  lemma {:induction false} NullKeysNeverMatch(on: seq<nat>, key: seq<Scalar>, rights: seq<Row>)
    requires HasNull(key)
    ensures Matches(on, key, rights) == []
  {
    if rights != [] { NullKeysNeverMatch(on, key, rights[..|rights| - 1]); }
  }

  /** A match is a right row with the same key, and every such row is a match. */
  lemma {:induction false} MatchesAreEqualKeys(on: seq<nat>, key: seq<Scalar>, rights: seq<Row>, row: Row)
    ensures multiset(Matches(on, key, rights))[row]
      == if HasNull(key) || KeyAt(on, row) != key then 0 else multiset(rights)[row]
  {
    if rights != [] {
      var init, last := rights[..|rights| - 1], rights[|rights| - 1];
      assert rights == init + [last];
      MatchesAreEqualKeys(on, key, init, row);
    }
  }

  // ----- the hash join -----------------------------------------------------------------------

  /** The hash table holds, under each encoded key, the right rows that match it. */
  ghost predicate Built(c: KeyCodec, keys: set<seq<Scalar>>, on: seq<nat>, rights: seq<Row>, build: map<Encoded, seq<Row>>) {
    forall key | key in keys ::
      && (c.encode(key) in build <==> Matches(on, key, rights) != [])
      && (c.encode(key) in build ==> build[c.encode(key)] == Matches(on, key, rights))
  }

  lemma BuiltPush(c: KeyCodec, keys: set<seq<Scalar>>, on: seq<nat>, rights: seq<Row>, row: Row, build: map<Encoded, seq<Row>>)
    requires Lossless(c, keys) && Built(c, keys, on, rights, build) && KeyAt(on, row) in keys
    ensures HasNull(KeyAt(on, row)) ==> Built(c, keys, on, rights + [row], build)
    ensures !HasNull(KeyAt(on, row)) ==>
      var e := c.encode(KeyAt(on, row));
      Built(c, keys, on, rights + [row], build[e := (if e in build then build[e] else []) + [row]])
  {
    var mine := KeyAt(on, row);
    var e := c.encode(mine);
    forall key | key in keys
      ensures Matches(on, key, rights + [row])
        == Matches(on, key, rights) + (if !HasNull(key) && mine == key then [row] else [])
      ensures key != mine ==> c.encode(key) != e
    {
      MatchesPush(on, key, rights, row);
    }
  }

  lemma BuiltNothing(c: KeyCodec, keys: set<seq<Scalar>>, on: seq<nat>)
    ensures AllRows([]) == [] && Built(c, keys, on, [], map[])
  {
  }

  method BuildTable(c: KeyCodec, on: seq<nat>, right: seq<Batch>, ghost keys: set<seq<Scalar>>) returns (build: map<Encoded, seq<Row>>)
    requires Lossless(c, keys) && RowKeys(on, AllRows(right)) <= keys
    ensures Built(c, keys, on, AllRows(right), build)
  {
    hide Built; hide Matches; hide AllRows; hide KeyAt; hide HasNull; hide Lossless; hide RowKeys;
    build := map[];
    BuiltNothing(c, keys, on);
    var b := 0;
    while b < |right|
      invariant 0 <= b <= |right|
      invariant Built(c, keys, on, AllRows(right[..b]), build)
    {
      var rows := right[b].rows;
      ghost var before := AllRows(right[..b]);
      var i := 0;
      assert before + rows[..i] == before;
      while i < |rows|
        invariant 0 <= i <= |rows|
        invariant Built(c, keys, on, before + rows[..i], build)
      {
        BatchKey(on, right, b, i);
        BuiltPush(c, keys, on, before + rows[..i], rows[i], build);
        assert before + rows[..i + 1] == before + rows[..i] + [rows[i]];
        if !HasNull(KeyAt(on, rows[i])) {
          var key := c.encode(KeyAt(on, rows[i]));
          if key in build {
            build := build[key := build[key] + [rows[i]]];
          } else {
            build := build[key := [rows[i]]];
            assert [] + [rows[i]] == [rows[i]];
          }
        }
        i := i + 1;
      }
      assert before + rows[..i] == before + rows;
      AllRowsPush(right[..b], right[b]);
      assert right[..b + 1] == right[..b] + [right[b]];
      b := b + 1;
    }
    assert right[..b] == right;
  }

  lemma BatchKey(on: seq<nat>, batches: seq<Batch>, b: nat, i: nat)
    requires b < |batches| && i < |batches[b].rows|
    ensures KeyAt(on, batches[b].rows[i]) in RowKeys(on, AllRows(batches))
  {
    hide KeyAt; hide AllRows;
    assert batches == batches[..b] + ([batches[b]] + batches[b + 1..]);
    AllRowsConcat(batches[..b], [batches[b]] + batches[b + 1..]);
    AllRowsConcat([batches[b]], batches[b + 1..]);
    OneBatch(batches[b]);
    RowKeysConcat(on, AllRows(batches[..b]), batches[b].rows + AllRows(batches[b + 1..]));
    RowKeysConcat(on, batches[b].rows, AllRows(batches[b + 1..]));
  }

  lemma OneBatch(batch: Batch)
    ensures AllRows([batch]) == batch.rows
  {
    assert [batch][..0] == [];
  }

  /** The output rows of one probe. */
  method ProbeRow(c: KeyCodec, kind: JoinType, on: Keys, rightWidth: nat, row: Row, build: map<Encoded, seq<Row>>,
                  ghost keys: set<seq<Scalar>>, ghost rights: seq<Row>)
    returns (output: seq<Row>)
    requires Built(c, keys, on.right, rights, build) && KeyAt(on.left, row) in keys
    ensures output == JoinedRow(kind, rightWidth, row, Matches(on.right, KeyAt(on.left, row), rights))
  {
    var key := KeyAt(on.left, row);
    output := [];
    if !HasNull(key) && c.encode(key) in build {
      var matches := build[c.encode(key)];
      var j := 0;
      while j < |matches|
        invariant 0 <= j <= |matches|
        invariant output == seq(j, k requires 0 <= k < j => row + matches[k])
      {
        output := output + [row + matches[j]];
        j := j + 1;
      }
    } else {
      if HasNull(key) { NullKeysNeverMatch(on.right, key, rights); }
      if kind == Left {
        output := [row + seq(rightWidth, _ => Null)];
      }
    }
  }

  lemma JoinedNothing(kind: JoinType, on: Keys, rightWidth: nat, rights: seq<Row>)
    ensures AllRows([]) == [] && Joined(kind, on, rightWidth, [], rights) == []
  {
  }

  /** The keys of both sides. */
  function JoinKeys(on: Keys, lefts: seq<Row>, rights: seq<Row>): set<seq<Scalar>> {
    RowKeys(on.left, lefts) + RowKeys(on.right, rights)
  }

  /** `hash_join` computes the nested-loop join. The width of the padding comes from the first
      right batch, or is what the left batches leave of the output schema. */
  method HashJoin(c: KeyCodec, kind: JoinType, on: Keys, schemaWidth: nat, left: seq<Batch>, right: seq<Batch>,
                  ghost leftWidth: nat, ghost rightWidth: nat)
    returns (output: seq<Row>)
    requires Lossless(c, JoinKeys(on, AllRows(left), AllRows(right))) && schemaWidth == leftWidth + rightWidth
    requires BatchesOf(leftWidth, left) && BatchesOf(rightWidth, right)
    ensures output == Joined(kind, on, rightWidth, AllRows(left), AllRows(right))
    ensures RowsOf(schemaWidth, output)
  {
    hide Joined; hide JoinedRow; hide Matches; hide Built; hide AllRows; hide Lossless; hide RowKeys; hide KeyAt;
    ghost var keys := JoinKeys(on, AllRows(left), AllRows(right));
    JoinedNothing(kind, on, rightWidth, AllRows(right));
    var padding :=
      if right != [] then right[0].width
      else SaturatingSub(schemaWidth, if left != [] then left[0].width else 0);
    var build := BuildTable(c, on.right, right, keys);
    ghost var rights := AllRows(right);
    output := [];
    var b := 0;
    while b < |left|
      invariant 0 <= b <= |left|
      invariant output == Joined(kind, on, rightWidth, AllRows(left[..b]), rights)
    {
      assert padding == rightWidth;
      forall i | 0 <= i < |left[b].rows| ensures KeyAt(on.left, left[b].rows[i]) in keys { BatchKey(on.left, left, b, i); }
      output := ProbeBatch(c, kind, on, padding, left[b].rows, build, output, keys, AllRows(left[..b]), rights);
      AllRowsPush(left[..b], left[b]);
      assert left[..b + 1] == left[..b] + [left[b]];
      b := b + 1;
    }
    assert left[..b] == left;
    AllRowsWidth(leftWidth, left);
    AllRowsWidth(rightWidth, right);
    JoinedWidth(kind, on, leftWidth, rightWidth, AllRows(left), rights);
  }

  method ProbeBatch(c: KeyCodec, kind: JoinType, on: Keys, padding: nat, rows: seq<Row>, build: map<Encoded, seq<Row>>,
                    output: seq<Row>, ghost keys: set<seq<Scalar>>, ghost before: seq<Row>, ghost rights: seq<Row>)
    returns (r: seq<Row>)
    requires forall i | 0 <= i < |rows| :: KeyAt(on.left, rows[i]) in keys
    requires Built(c, keys, on.right, rights, build) && output == Joined(kind, on, padding, before, rights)
    ensures r == Joined(kind, on, padding, before + rows, rights)
  {
    hide Joined; hide JoinedRow; hide Matches; hide Built;
    r := output;
    var i := 0;
    assert before + rows[..0] == before;
    while i < |rows|
      invariant 0 <= i <= |rows|
      invariant r == Joined(kind, on, padding, before + rows[..i], rights)
    {
      var joined := ProbeRow(c, kind, on, padding, rows[i], build, keys, rights);
      JoinedPush(kind, on, padding, before + rows[..i], rows[i], rights);
      assert before + rows[..i + 1] == before + rows[..i] + [rows[i]];
      r := r + joined;
      i := i + 1;
    }
    assert rows[..i] == rows;
  }

  lemma {:induction false} MatchesWidth(on: seq<nat>, key: seq<Scalar>, width: nat, rights: seq<Row>)
    requires RowsOf(width, rights)
    ensures RowsOf(width, Matches(on, key, rights))
  {
    if rights != [] { MatchesWidth(on, key, width, rights[..|rights| - 1]); }
  }

  lemma {:induction false} JoinedWidth(kind: JoinType, on: Keys, leftWidth: nat, rightWidth: nat, lefts: seq<Row>, rights: seq<Row>)
    requires RowsOf(leftWidth, lefts) && RowsOf(rightWidth, rights)
    ensures RowsOf(leftWidth + rightWidth, Joined(kind, on, rightWidth, lefts, rights))
  {
    if lefts != [] {
      JoinedWidth(kind, on, leftWidth, rightWidth, lefts[..|lefts| - 1], rights);
      MatchesWidth(on.right, KeyAt(on.left, lefts[|lefts| - 1]), rightWidth, rights);
    }
  }

  // ----- distribution by key -----------------------------------------------------------------

  /** A right row that matches a left row goes to the same destination, so a destination sees all
      the matches of its left rows, in the original order. */
  lemma {:induction false} MatchesAreRouted(c: KeyCodec, on: Keys, count: nat, row: Row, rights: seq<Row>, d: nat)
    requires 0 < count && Route(c, on.left, count, row) == d
    ensures var key := KeyAt(on.left, row);
      Matches(on.right, key, Routed(c, on.right, count, rights, d)) == Matches(on.right, key, rights)
  {
    if rights != [] {
      var init, last := rights[..|rights| - 1], rights[|rights| - 1];
      MatchesAreRouted(c, on, count, row, init, d);
      assert KeyAt(on.right, last) == KeyAt(on.left, row) ==> Route(c, on.right, count, last) == d;
      assert rights == init + [last];
      RoutedPush(c, on.right, count, init, last, d);
      if Route(c, on.right, count, last) == d {
        MatchesPush(on.right, KeyAt(on.left, row), Routed(c, on.right, count, init, d), last);
      } else {
        assert Routed(c, on.right, count, rights, d) == Routed(c, on.right, count, init, d);
      }
    }
  }

  /** What the destinations below `n` produce together. */
  function Spread(c: KeyCodec, kind: JoinType, on: Keys, rightWidth: nat, count: nat,
                  lefts: seq<Row>, rights: seq<Row>, n: nat): seq<Row>
    requires 0 < count
  {
    if n == 0 then []
    else
      Spread(c, kind, on, rightWidth, count, lefts, rights, n - 1)
        + Joined(kind, on, rightWidth, Routed(c, on.left, count, lefts, n - 1), Routed(c, on.right, count, rights, n - 1))
  }

  /** Adding a left row adds its output at the one destination it is routed to. */
  lemma {:induction false} SpreadPush(c: KeyCodec, kind: JoinType, on: Keys, rightWidth: nat, count: nat,
                                      lefts: seq<Row>, row: Row, rights: seq<Row>, n: nat)
    requires 0 < count
    ensures multiset(Spread(c, kind, on, rightWidth, count, lefts + [row], rights, n))
      == multiset(Spread(c, kind, on, rightWidth, count, lefts, rights, n))
         + (if Route(c, on.left, count, row) < n then
              multiset(JoinedRow(kind, rightWidth, row, Matches(on.right, KeyAt(on.left, row), rights)))
            else multiset{})
  {
    hide Joined; hide Routed; hide Matches; hide JoinedRow; hide Route; hide KeyAt;
    if n > 0 {
      var d := n - 1;
      SpreadPush(c, kind, on, rightWidth, count, lefts, row, rights, d);
      RoutedPush(c, on.left, count, lefts, row, d);
      if Route(c, on.left, count, row) == d {
        var there := Routed(c, on.right, count, rights, d);
        JoinedPush(kind, on, rightWidth, Routed(c, on.left, count, lefts, d), row, there);
        MatchesAreRouted(c, on, count, row, rights, d);
      } else {
        assert Routed(c, on.left, count, lefts + [row], d) == Routed(c, on.left, count, lefts, d);
      }
    }
  }

  lemma {:induction false} SpreadNothing(c: KeyCodec, kind: JoinType, on: Keys, rightWidth: nat, count: nat, rights: seq<Row>, n: nat)
    requires 0 < count
    ensures Spread(c, kind, on, rightWidth, count, [], rights, n) == []
  {
    if n > 0 { SpreadNothing(c, kind, on, rightWidth, count, rights, n - 1); }
  }

  /** The joins of all destinations together produce the rows of the whole join, each as often. */
  lemma {:induction false} SpreadIsJoin(c: KeyCodec, kind: JoinType, on: Keys, rightWidth: nat, count: nat,
                                        lefts: seq<Row>, rights: seq<Row>)
    requires 0 < count
    ensures multiset(Spread(c, kind, on, rightWidth, count, lefts, rights, count))
      == multiset(Joined(kind, on, rightWidth, lefts, rights))
  {
    if lefts == [] {
      SpreadNothing(c, kind, on, rightWidth, count, rights, count);
    } else {
      var init, last := lefts[..|lefts| - 1], lefts[|lefts| - 1];
      assert lefts == init + [last];
      SpreadIsJoin(c, kind, on, rightWidth, count, init, rights);
      SpreadPush(c, kind, on, rightWidth, count, init, last, rights, count);
      JoinedPush(kind, on, rightWidth, init, last, rights);
    }
  }

  // ----- the three-stage remote join ---------------------------------------------------------

  lemma {:induction false} RoutedKeys(c: KeyCodec, columns: seq<nat>, count: nat, rows: seq<Row>, d: nat)
    requires 0 < count
    ensures RowKeys(columns, Routed(c, columns, count, rows, d)) <= RowKeys(columns, rows)
  {
    hide KeyAt; hide RowKeys; hide Route;
    if rows == [] {
      assert RowKeys(columns, Routed(c, columns, count, rows, d)) <= RowKeys(columns, rows);
    } else {
      var n := |rows| - 1;
      RoutedKeys(c, columns, count, rows[..n], d);
      assert rows == rows[..n] + [rows[n]];
      RowKeysConcat(columns, rows[..n], [rows[n]]);
      RowKeysConcat(columns, Routed(c, columns, count, rows[..n], d), [rows[n]]);
      assert Routed(c, columns, count, rows[..n], d) + [] == Routed(c, columns, count, rows[..n], d);
    }
  }

  /** Distribution does not change a join. Both inputs are routed by their key columns, and every
      destination joins the blocks it receives; whatever the hash function and the partitioning,
      the rows of all destinations together are those of one join over both whole inputs, each the
      same number of times. */
  method RemoteJoin(c: KeyCodec, kind: JoinType, on: Keys, leftWidth: nat, rightWidth: nat, count: U32,
                    lefts: seq<seq<Batch>>, rights: seq<seq<Batch>>)
    returns (outputs: seq<seq<Row>>)
    requires Lossless(c, JoinKeys(on, InputRows(lefts), InputRows(rights)))
    requires ValidExchange(leftWidth, on.left, count) && ValidExchange(rightWidth, on.right, count)
    requires forall p | 0 <= p < |lefts| :: BatchesOf(leftWidth, lefts[p])
    requires forall p | 0 <= p < |rights| :: BatchesOf(rightWidth, rights[p])
    ensures |outputs| == count
    ensures multiset(Concat(outputs)) == multiset(Joined(kind, on, rightWidth, InputRows(lefts), InputRows(rights)))
  {
    hide Joined; hide InputRows; hide Routed; hide AllRows; hide BatchesOf; hide Published; hide Lossless; hide RowKeys;
    var leftBlocks := PublishAll(c, leftWidth, on.left, count, lefts);
    var rightBlocks := PublishAll(c, rightWidth, on.right, count, rights);
    ghost var l, r := InputRows(lefts), InputRows(rights);
    outputs := [];
    while |outputs| < count
      invariant |outputs| <= count
      invariant Concat(outputs) == Spread(c, kind, on, rightWidth, count, l, r, |outputs|)
    {
      var d := |outputs|;
      var left := Receive(c, leftWidth, on.left, count, d, leftBlocks, lefts);
      var right := Receive(c, rightWidth, on.right, count, d, rightBlocks, rights);
      RoutedKeys(c, on.left, count, l, d);
      RoutedKeys(c, on.right, count, r, d);
      FewerKeys(c, JoinKeys(on, l, r), JoinKeys(on, AllRows(left), AllRows(right)));
      var joined := HashJoin(c, kind, on, leftWidth + rightWidth, left, right, leftWidth, rightWidth);
      assert (outputs + [joined])[..d] == outputs;
      outputs := outputs + [joined];
    }
    SpreadIsJoin(c, kind, on, rightWidth, count, l, r);
  }
}
