/** Query plans are typed soundly: every row a plan yields fits the types its operators declare. */
module PlanTyping {
  import opened Basics
  import opened Values
  import opened Expr
  import opened ExprTyping
  import opened ExprDrift
  import opened Plans
  import opened PlanRelation
  import opened ScanNarrowing
  import Agg = Aggregates
  import G = GroupBy
  import J = Join
  import Pruning

  // ----- the plans a query is made of ----------------------------------------------------------

  /** An output expression keeps its name when it is simplified: a column, a literal, an aggregate
      of a column, or anything under an alias. */
  predicate Plain(e: Expr) {
    || e.Column? || e.Literal?
    || (e.Alias? && NoAlias(e.expr))
    || (e.Aggregate? && (e.expr.Column? || e.expr.Wildcard?))
  }

  predicate PlainAll(exprs: seq<Expr>) {
    forall i | 0 <= i < |exprs| :: Plain(exprs[i])
  }

  predicate RootAliases(exprs: seq<Expr>) {
    forall i | 0 <= i < |exprs| :: NoAlias(Unalias(exprs[i]))
  }

  predicate ExactAll(k: Kernels, plan: Schema, run: Schema, exprs: seq<Expr>) {
    forall i | 0 <= i < |exprs| :: Exact(k, plan, run, exprs[i])
  }

  /** A plan as queries are planned: scans of whole tables with plain column names, schemas as the
      operators compute them, and every computed output aliased. */
  ghost predicate Source(show: Expr -> string, db: Database, p: Plan) {
    match p
    case Scan(table, projection, filters, schema) =>
      projection.None? && filters == [] && ScanOk(db, p)
    case Projection(input, exprs, schema) =>
      Source(show, db, input) && PlainAll(exprs) && FieldsOf(show, input.schema, exprs) == Ok(schema)
    case Filter(input, condition, schema) =>
      Source(show, db, input) && schema == input.schema && NoAlias(Unalias(condition))
    case Aggregation(input, groups, aggregates, schema) =>
      && Source(show, db, input) && PlainAll(groups) && PlainAll(aggregates)
      && FieldsOf(show, input.schema, groups + aggregates) == Ok(schema)
    case Sort(input, keys, schema) =>
      Source(show, db, input) && schema == input.schema && RootAliases(KeyExprs(keys))
    case Limit(input, _, schema) => Source(show, db, input) && schema == input.schema
    case Join(left, right, _, leftOn, rightOn, schema) =>
      && Source(show, db, left) && Source(show, db, right)
      && schema == JoinFields(left.schema, right.schema)
      && RootAliases(leftOn) && RootAliases(rightOn)
  }

  /** A plan whose batches carry the names of the plan, and whose rows fit. */
  ghost predicate Sound(k: Kernels, db: Database, p: Plan, rows: seq<Row>) {
    Linked(p.schema, Out(db, p)) && AllFit(k, Out(db, p), rows)
  }

  lemma LinkedToItself(schema: Schema)
    ensures Linked(schema, schema)
  {
  }

  lemma LinkedTypes(plan: Schema, run: Schema)
    requires Linked(plan, run)
    ensures |plan| == |run| && forall i | 0 <= i < |plan| :: plan[i].ty == run[i].ty
  {
  }

  lemma RetypedFits(k: Kernels, a: Schema, n: Schema, rows: seq<Row>)
    requires |a| == |n| && (forall i | 0 <= i < |a| :: a[i].ty == n[i].ty) && AllFit(k, n, rows)
    ensures AllFit(k, a, rows)
  {
    hide Fits;
    forall r | 0 <= r < |rows| ensures RowFits(k, a, rows[r]) { assert RowFits(k, n, rows[r]); }
  }

  lemma SomeRowsFit(k: Kernels, schema: Schema, rows: seq<Row>, some: seq<Row>)
    requires AllFit(k, schema, rows) && forall r | 0 <= r < |some| :: some[r] in rows
    ensures AllFit(k, schema, some)
  {
    hide RowFits;
    forall r | 0 <= r < |some| ensures RowFits(k, schema, some[r]) {
      var q :| 0 <= q < |rows| && rows[q] == some[r];
    }
  }

  // ----- scans, filters, limits and sorts ------------------------------------------------------------

  lemma {:induction false} ScannedFits(k: Kernels, t: Stored, columns: seq<nat>, filters: seq<Expr>, n: nat)
    requires StoredOk(k, t) && n <= |t.chunks| && forall i | 0 <= i < |columns| :: columns[i] < |t.schema|
    requires Scanned(k, TakeFields(t.schema, columns), columns, t, filters, n).Some?
    ensures AllFit(k, TakeFields(t.schema, columns), Scanned(k, TakeFields(t.schema, columns), columns, t, filters, n).value)
  {
    hide Skipped; hide Pruning.FilterAll; hide Pruning.WellFormed; hide Pruning.TrueStats; hide TakeFields; hide Fits; hide TakeRow; hide RowFits;
    if n > 0 {
      var names, c := TakeFields(t.schema, columns), t.chunks[n - 1];
      ScannedFits(k, t, columns, filters, n - 1);
      if !Skipped(t, c, filters) {
        assert ChunkOk(k, t, c);
        var all := TakeRows(columns, c.rows);
        forall r | 0 <= r < |all| ensures RowFits(k, names, all[r]) { TakenFits(k, t.schema, columns, c.rows[r]); }
        Pruning.SomeRowsOf(k, names, filters, all);
        SomeRowsFit(k, names, all, Pruning.FilterAll(k, names, filters, all).value);
      }
    }
  }

  lemma TakenFits(k: Kernels, schema: Schema, columns: seq<nat>, row: Row)
    requires RowFits(k, schema, row) && forall i | 0 <= i < |columns| :: columns[i] < |schema|
    ensures RowFits(k, TakeFields(schema, columns), TakeRow(columns, row))
  {
    hide Fits;
  }

  lemma ScanSound(k: Kernels, db: Database, p: Plan, out: seq<Row>)
    requires LawfulDb(k, db) && p.Scan? && ScanOk(db, p) && Run(k, db, p) == Some(out)
    ensures Sound(k, db, p, out)
  {
    hide Linked; hide Resolve; hide Scanned; hide StoredOk; hide AllFit; hide Delivers; hide AllBoolean; hide ResolveAll;
    var t := db.tables[p.table];
    ScannedFits(k, t, ScanColumns(db, p.table, p.projection).value, p.filters, |t.chunks|);
  }

  /** What a limit above a sort does. */
  lemma SelectedRows(k: Kernels, db: Database, p: Plan, rows: seq<Row>)
    requires p.Limit? && p.input.Sort? && Run(k, db, p.input).Some? && Run(k, db, p.input.input) == Some(rows)
    ensures Out(db, p) == p.input.schema && Sends(k, db, p)
    ensures Run(k, db, p) == if p.limit == 0 || !Sends(k, db, p.input.input) then Some([]) else TopRows(k, db, p.input.keys, p.limit, p.schema, rows)
  {
    hide TopRows; hide Sortable; hide MapRows;
  }

  lemma SelectedFrom(k: Kernels, db: Database, keys: seq<SortKey>, limit: nat, schema: Schema, rows: seq<Row>, out: seq<Row>)
    requires TopRows(k, db, keys, limit, schema, rows) == Some(out)
    ensures forall r | 0 <= r < |out| :: out[r] in rows
  {
    hide MapRows;
  }

  lemma LimitRuns(k: Kernels, db: Database, p: Plan)
    requires p.Limit? && Run(k, db, p).Some?
    ensures Run(k, db, p.input).Some?
  {
    hide TopRows; hide Sends;
  }

  /** A limit above a sort hands on rows of the sort's input. */
  lemma TopSound(k: Kernels, db: Database, p: Plan, rows: seq<Row>, out: seq<Row>)
    requires p.Limit? && p.input.Sort? && p.schema == p.input.schema == p.input.input.schema && Sound(k, db, p.input.input, rows)
    requires Run(k, db, p.input.input) == Some(rows) && Run(k, db, p) == Some(out)
    ensures Sound(k, db, p, out)
  {
    hide Linked; hide AllFit; hide Run; hide Sends; hide Out; hide TopRows;
    var run := Out(db, p.input.input);
    LimitRuns(k, db, p);
    SelectedRows(k, db, p, rows);
    if out != [] { SelectedFrom(k, db, p.input.keys, p.limit, p.schema, rows, out); }
    SomeRowsFit(k, run, rows, out);
    LinkedTypes(p.schema, run);
    RetypedFits(k, p.schema, run, out);
    LinkedToItself(p.schema);
  }

  /** Filters, limits and sorts hand on rows of their input. */
  lemma SelectionSound(k: Kernels, db: Database, p: Plan, rows: seq<Row>, out: seq<Row>)
    requires (p.Filter? || (p.Limit? && !p.input.Sort?) || p.Sort?) && p.schema == p.input.schema && Sound(k, db, p.input, rows)
    requires Run(k, db, p.input) == Some(rows) && Run(k, db, p) == Some(out)
    ensures Sound(k, db, p, out)
  {
    hide Linked; hide AllFit; hide MapRows; hide Pruning.FilterRows; hide Eval; hide RunType; hide Sends;
    var run := Out(db, p.input);
    if p.Filter? { Pruning.KeptRowsPass(k, run, p.condition, rows); }
    SomeRowsFit(k, run, rows, out);
    if p.Sort? {
      LinkedTypes(p.schema, run);
      RetypedFits(k, p.schema, run, out);
      LinkedToItself(p.schema);
    }
  }

  // ----- projections ---------------------------------------------------------------------------------

  lemma ProjectionSound(k: Kernels, show: Expr -> string, db: Database, p: Plan, rows: seq<Row>, out: seq<Row>)
    requires Lawful(k) && LawfulDb(k, db) && p.Projection? && FieldsOf(show, p.input.schema, p.exprs) == Ok(p.schema)
    requires Run(k, db, p.input) == Some(rows) && Sound(k, db, p.input, rows) && Run(k, db, p) == Some(out)
    ensures Sound(k, db, p, out)
  {
    hide FieldsOf; hide RunType; hide MapRows; hide Lawful; hide AllFit; hide LawfulDb; hide Sends; hide Linked;
    if rows != [] {
      RowsAreSent(k, db, p.input);
      MappedFits(k, Out(db, p.input), p.exprs, rows, p.schema);
    } else {
      NothingFits(k, p.schema, out);
    }
    LinkedToItself(p.schema);
  }

  lemma NothingFits(k: Kernels, schema: Schema, rows: seq<Row>)
    requires rows == []
    ensures AllFit(k, schema, rows)
  {
  }

  // ----- joins ---------------------------------------------------------------------------------------

  lemma {:induction false} JoinFieldTypes(fields: Schema, right: Schema)
    ensures |JoinFields(fields, right)| == |fields| + |right|
    ensures forall i | 0 <= i < |fields| :: JoinFields(fields, right)[i] == fields[i]
    ensures forall i | 0 <= i < |right| :: JoinFields(fields, right)[|fields| + i].ty == right[i].ty
    decreases |right|
  {
    if right != [] {
      var f := right[0];
      var taken := exists i :: 0 <= i < |fields| && fields[i].name == f.name;
      var longer := fields + [if taken then Field("right." + f.name, f.ty) else f];
      JoinFieldTypes(longer, right[1..]);
      assert forall i | 0 <= i < |fields| :: longer[i] == fields[i];
      forall i | 0 <= i < |right| ensures JoinFields(fields, right)[|fields| + i].ty == right[i].ty {
        if i == 0 {
          assert longer[|fields|].ty == f.ty;
        } else {
          assert right[1..][i - 1] == right[i] && |longer| + (i - 1) == |fields| + i;
        }
      }
    }
  }

  predicate FromSides(row: Row, rightWidth: nat, lefts: seq<Row>, rights: seq<Row>) {
    exists l :: 0 <= l < |lefts| &&
      (row == lefts[l] + seq(rightWidth, _ => Null) || exists r :: 0 <= r < |rights| && row == lefts[l] + rights[r])
  }

  lemma {:induction false} MatchesAreRows(key: Row, keys: seq<Row>, rows: seq<Row>)
    requires |keys| == |rows|
    ensures forall m | 0 <= m < |KeyMatches(key, keys, rows)| :: KeyMatches(key, keys, rows)[m] in rows
  {
    if rows != [] { MatchesAreRows(key, keys[..|rows| - 1], rows[..|rows| - 1]); }
  }

  /** Every output row of a join is a left row followed by a right row or by NULLs. */
  lemma {:induction false} JoinedFromSides(kind: J.JoinType, rightWidth: nat, leftKeys: seq<Row>, all: seq<Row>, rightKeys: seq<Row>, rights: seq<Row>, n: nat, i: nat)
    requires |leftKeys| == |all| && |rightKeys| == |rights| && n <= |all|
    requires i < |JoinRows(kind, rightWidth, leftKeys[..n], all[..n], rightKeys, rights)|
    ensures FromSides(JoinRows(kind, rightWidth, leftKeys[..n], all[..n], rightKeys, rights)[i], rightWidth, all, rights)
  {
    hide KeyMatches;
    var m := n - 1;
    assert leftKeys[..n][..m] == leftKeys[..m] && all[..n][..m] == all[..m];
    var before := JoinRows(kind, rightWidth, leftKeys[..m], all[..m], rightKeys, rights);
    if i < |before| {
      JoinedFromSides(kind, rightWidth, leftKeys, all, rightKeys, rights, m, i);
    } else {
      var matches := KeyMatches(leftKeys[m], rightKeys, rights);
      MatchesAreRows(leftKeys[m], rightKeys, rights);
      if matches != [] {
        var r :| 0 <= r < |rights| && rights[r] == matches[i - |before|];
        assert JoinRows(kind, rightWidth, leftKeys[..n], all[..n], rightKeys, rights)[i] == all[m] + rights[r];
      }
    }
  }

  predicate AllFromSides(out: seq<Row>, rightWidth: nat, lefts: seq<Row>, rights: seq<Row>) {
    forall i | 0 <= i < |out| :: FromSides(out[i], rightWidth, lefts, rights)
  }

  lemma AllJoinedFromSides(kind: J.JoinType, width: nat, leftKeys: seq<Row>, lefts: seq<Row>, rightKeys: seq<Row>, rights: seq<Row>)
    requires |leftKeys| == |lefts| && |rightKeys| == |rights|
    ensures AllFromSides(JoinRows(kind, width, leftKeys, lefts, rightKeys, rights), width, lefts, rights)
  {
    hide JoinRows; hide FromSides;
    var out := JoinRows(kind, width, leftKeys, lefts, rightKeys, rights);
    assert leftKeys[..|lefts|] == leftKeys && lefts[..|lefts|] == lefts;
    forall i | 0 <= i < |out| ensures FromSides(out[i], width, lefts, rights) {
      JoinedFromSides(kind, width, leftKeys, lefts, rightKeys, rights, |lefts|, i);
    }
  }

  lemma JoinedRowFits(k: Kernels, l: Schema, r: Schema, lefts: seq<Row>, rights: seq<Row>, row: Row)
    requires AllFit(k, l, lefts) && AllFit(k, r, rights) && FromSides(row, |r|, lefts, rights)
    ensures RowFits(k, JoinFields(l, r), row)
  {
    hide JoinFields;
    JoinFieldTypes(l, r);
    var fields := JoinFields(l, r);
    var a :| 0 <= a < |lefts| && (row == lefts[a] + seq(|r|, _ => Null) || exists b :: 0 <= b < |rights| && row == lefts[a] + rights[b]);
    assert RowFits(k, l, lefts[a]);
    assert |row| == |l| + |r| && row[..|l|] == lefts[a];
    forall i | 0 <= i < |row| ensures Fits(k, fields[i].ty, row[i]) {
      if i < |l| {
        assert row[i] == lefts[a][i];
      } else {
        assert fields[|l| + (i - |l|)].ty == r[i - |l|].ty;
        if row != lefts[a] + seq(|r|, _ => Null) {
          var b :| 0 <= b < |rights| && row == lefts[a] + rights[b];
          assert RowFits(k, r, rights[b]) && row[i] == rights[b][i - |l|];
        }
      }
    }
  }

  lemma JoinFits(k: Kernels, l: Schema, r: Schema, lefts: seq<Row>, rights: seq<Row>, out: seq<Row>)
    requires AllFit(k, l, lefts) && AllFit(k, r, rights) && AllFromSides(out, |r|, lefts, rights)
    ensures AllFit(k, JoinFields(l, r), out)
  {
    hide JoinFields; hide FromSides; hide RowFits;
    forall i | 0 <= i < |out| ensures RowFits(k, JoinFields(l, r), out[i]) { JoinedRowFits(k, l, r, lefts, rights, out[i]); }
  }

  lemma JoinSides(k: Kernels, db: Database, p: Plan, lefts: seq<Row>, rights: seq<Row>, out: seq<Row>)
    requires p.Join? && Run(k, db, p.left) == Some(lefts) && Run(k, db, p.right) == Some(rights) && Run(k, db, p) == Some(out)
    ensures AllFromSides(out, |p.right.schema|, lefts, rights)
  {
    hide MapRows; hide KeysFit; hide AllFromSides; hide JoinRows; hide Sends; hide Builds; hide Out;
    AllJoinedFromSides(p.kind, |p.right.schema|, MapRows(k, Out(db, p.left), p.leftOn, lefts).value, lefts,
                       MapRows(k, Out(db, p.right), p.rightOn, rights).value, rights);
  }

  lemma JoinSound(k: Kernels, db: Database, p: Plan, lefts: seq<Row>, rights: seq<Row>, out: seq<Row>)
    requires p.Join? && p.schema == JoinFields(p.left.schema, p.right.schema)
    requires Sound(k, db, p.left, lefts) && Run(k, db, p.left) == Some(lefts) && Sound(k, db, p.right, rights) && Run(k, db, p.right) == Some(rights)
    requires Run(k, db, p) == Some(out)
    ensures Sound(k, db, p, out)
  {
    hide Linked; hide AllFit; hide Run; hide JoinFields; hide AllFromSides;
    JoinSides(k, db, p, lefts, rights, out);
    LinkedTypes(p.left.schema, Out(db, p.left));
    LinkedTypes(p.right.schema, Out(db, p.right));
    RetypedFits(k, p.left.schema, Out(db, p.left), lefts);
    RetypedFits(k, p.right.schema, Out(db, p.right), rights);
    JoinFits(k, p.left.schema, p.right.schema, lefts, rights, out);
    LinkedToItself(p.schema);
  }

  // ----- aggregations --------------------------------------------------------------------------------

  lemma {:induction false} GroupFromTuples(tuples: seq<G.Tuple>, key: seq<Scalar>)
    ensures forall i | 0 <= i < |G.Of(tuples, key)| :: G.Of(tuples, key)[i] in tuples
  {
    if tuples != [] { GroupFromTuples(tuples[..|tuples| - 1], key); }
  }

  lemma {:induction false} DedupIsSome(vs: seq<Scalar>)
    ensures forall i | 0 <= i < |Dedup(vs)| :: Dedup(vs)[i] in vs
  {
    if vs != [] { DedupIsSome(vs[..|vs| - 1]); }
  }

  /** Each value a specification aggregates is an argument of one of the tuples. */
  lemma SpecColumnValues(spec: Spec, tuples: seq<G.Tuple>, key: seq<Scalar>, m: nat, i: nat)
    requires i < |SpecColumn(spec, G.Of(tuples, key), m)|
    ensures exists t :: 0 <= t < |tuples| && SpecColumn(spec, G.Of(tuples, key), m)[i] == G.Arg(tuples[t], m)
  {
    hide G.Of; hide Dedup;
    var group := G.Of(tuples, key);
    GroupFromTuples(tuples, key);
    DedupIsSome(G.Column(group, m));
    var v := SpecColumn(spec, group, m)[i];
    var g :| 0 <= g < |group| && G.Column(group, m)[g] == v;
    assert group[g] in tuples;
    var t :| 0 <= t < |tuples| && tuples[t] == group[g];
    assert v == G.Arg(tuples[t], m);
  }

  /** Aggregate values fit the type that is declared for them. */
  lemma SpecValueFits(k: Kernels, specs: seq<Spec>, tuples: seq<G.Tuple>, key: seq<Scalar>, m: nat, arg: Result<DataType, PlanError>)
    requires m < |specs| && Agg.Accepts(specs[m].kind, SpecColumn(specs[m], G.Of(tuples, key), m))
    requires AggregateType(specs[m].kind, arg).Ok?
    requires specs[m].kind.Min? || specs[m].kind.Max? ==> forall t | 0 <= t < |tuples| :: Fits(k, arg.value, G.Arg(tuples[t], m))
    ensures Fits(k, AggregateType(specs[m].kind, arg).value, SpecValues(specs, G.Of(tuples, key))[m])
  {
    hide G.Of; hide Agg.Best; hide Agg.Seen; hide SpecColumn; hide Agg.Total; hide Agg.UnsignedTotal;
    var kind, vs := specs[m].kind, SpecColumn(specs[m], G.Of(tuples, key), m);
    if kind.Min? || kind.Max? {
      Agg.BestIsExtreme(kind.Min?, vs);
      var best := Agg.Best(kind.Min?, vs);
      if best.Some? {
        var i :| 0 <= i < |vs| && vs[i] == best.value;
        SpecColumnValues(specs[m], tuples, key, m, i);
      }
    }
  }

  /** The key of an output group is the key of one of the rows. */
  lemma ListedKey(k: Kernels, db: Database, grouped: bool, tuples: seq<G.Tuple>, i: nat)
    requires LawfulDb(k, db) && i < |db.listing(G.GroupKeys(grouped, tuples))|
    ensures var key := db.listing(G.GroupKeys(grouped, tuples))[i];
      key in G.GroupKeys(grouped, tuples) &&
      if grouped then exists t :: 0 <= t < |tuples| && key == tuples[t].key
      else key == [] || exists t :: 0 <= t < |tuples| && key == tuples[t].key
  {
  }

  predicate Width(rows: seq<Row>, n: nat) {
    forall r | 0 <= r < |rows| :: |rows[r]| == n
  }

  lemma MappedWidth(k: Kernels, names: Schema, exprs: seq<Expr>, rows: seq<Row>)
    requires MapRows(k, names, exprs, rows).Some?
    ensures Width(MapRows(k, names, exprs, rows).value, |exprs|)
  {
    hide MapRows; hide EvalAll;
    forall r | 0 <= r < |rows| ensures |MapRows(k, names, exprs, rows).value[r]| == |exprs| {
      MapRowsAt(k, names, exprs, rows, r);
    }
  }

  /** One output row: a key of the input, followed by the values of its group. */
  lemma OutputRow(k: Kernels, db: Database, specs: seq<Spec>, g: nat, keys: seq<Row>, args: seq<Row>, out: seq<Row>, i: nat) returns (key: Row)
    requires LawfulDb(k, db) && |keys| == |args| && Width(keys, g) && i < |out|
    requires AggregateRows(db, specs, g > 0, Tuples(keys, args)) == Some(out)
    ensures out[i] == key + SpecValues(specs, G.Of(Tuples(keys, args), key)) && |key| == g
    ensures SpecsAccept(specs, G.Of(Tuples(keys, args), key))
    ensures g > 0 ==> key in keys
  {
    hide G.Of; hide SpecsAccept; hide SpecValues; hide G.GroupKeys;
    var tuples := Tuples(keys, args);
    key := db.listing(G.GroupKeys(g > 0, tuples))[i];
    ListedKey(k, db, g > 0, tuples, i);
    if key != [] || g > 0 {
      var t :| 0 <= t < |tuples| && key == tuples[t].key;
      assert key == keys[t];
    }
  }

  lemma AggregateTyped(plan: Schema, e: Expr)
    requires Unalias(e).Aggregate?
    ensures TypeIn(plan, e) == AggregateType(Unalias(e).kind, TypeIn(plan, Unalias(e).expr))
    ensures Unalias(e).expr.Wildcard? ==> TypeIn(plan, Unalias(e).expr).Err?
  {
    hide Resolve; hide BinaryType;
    assert TypeIn(plan, Unalias(e)) == AggregateType(Unalias(e).kind, TypeIn(plan, Unalias(e).expr));
  }

  /** A MIN or MAX that has a type has an argument that has one. */
  lemma ExtremeArgument(plan: Schema, e: Expr)
    requires Unalias(e).Aggregate? && (Unalias(e).kind.Min? || Unalias(e).kind.Max?) && TypeIn(plan, e).Ok?
    ensures !Unalias(e).expr.Wildcard? && TypeIn(plan, Unalias(e).expr).Ok?
  {
    hide TypeIn;
    AggregateTyped(plan, e);
  }

  /** What fits the run type fits the inferred type. */
  lemma FitsInferred(k: Kernels, plan: Schema, run: Schema, e: Expr, v: Scalar)
    requires Compatible(plan, run) && TypeIn(plan, e).Ok? && RunType(k, run, e).Some? && Fits(k, RunType(k, run, e).value, v)
    ensures Fits(k, TypeIn(plan, e).value, v)
  {
    hide TypeIn; hide RunType; hide Compatible;
    InferredOrWidened(k, plan, run, e);
  }

  /** An aggregation on its own, over an input that is sound. */
  ghost predicate AggregatingAlone(k: Kernels, show: Expr -> string, db: Database, p: Plan, rows: seq<Row>, out: seq<Row>) {
    && p.Aggregation? && Specs(p.aggregates).Some? && FieldsOf(show, p.input.schema, p.groups + p.aggregates) == Ok(p.schema)
    && Sound(k, db, p.input, rows)
    && var specs := Specs(p.aggregates).value;
    && (rows != [] ==> ExactAll(k, p.input.schema, Out(db, p.input), p.groups) && Runs(k, Out(db, p.input), ArgsOf(specs)))
    && MapRows(k, Out(db, p.input), p.groups, rows).Some? && MapRows(k, Out(db, p.input), ArgsOf(specs), rows).Some?
    && AggregateRows(db, specs, |p.groups| > 0,
                     Tuples(MapRows(k, Out(db, p.input), p.groups, rows).value, MapRows(k, Out(db, p.input), ArgsOf(specs), rows).value))
       == Some(out)
  }

  lemma ComputedFits(k: Kernels, run: Schema, exprs: seq<Expr>, rows: seq<Row>, r: nat, i: nat)
    requires Lawful(k) && AllFit(k, run, rows) && MapRows(k, run, exprs, rows).Some? && r < |rows| && i < |exprs|
    requires RunType(k, run, exprs[i]).Some?
    ensures i < |MapRows(k, run, exprs, rows).value[r]|
    ensures Fits(k, RunType(k, run, exprs[i]).value, MapRows(k, run, exprs, rows).value[r][i])
  {
    hide MapRows; hide EvalAll; hide RunType; hide Eval; hide Lawful; hide Fits;
    MapRowsAt(k, run, exprs, rows, r);
    EvalAllAt(k, run, rows[r], exprs, i);
    AllFits(k, run, rows, r);
    EvalRuns(k, run, rows[r], exprs[i]);
  }

  lemma KeyFits(k: Kernels, show: Expr -> string, db: Database, p: Plan, rows: seq<Row>, out: seq<Row>, key: Row, c: nat)
    requires Lawful(k) && AggregatingAlone(k, show, db, p, rows, out) && c < |p.groups| == |key|
    requires key in MapRows(k, Out(db, p.input), p.groups, rows).value
    ensures Fits(k, p.schema[c].ty, key[c])
  {
    hide MapRows; hide RunType; hide TypeIn; hide FieldsOf; hide AggregateRows; hide Fits; hide Lawful; hide Specs; hide AllFit; hide Runs;
    var keys, all := MapRows(k, Out(db, p.input), p.groups, rows).value, p.groups + p.aggregates;
    assert all[c] == p.groups[c] && Exact(k, p.input.schema, Out(db, p.input), p.groups[c]);
    var t :| 0 <= t < |keys| && keys[t] == key;
    ComputedFits(k, Out(db, p.input), p.groups, rows, t, c);
  }

  lemma ValuesWidth(specs: seq<Spec>, group: seq<G.Tuple>)
    ensures |SpecValues(specs, group)| == |specs|
  {
  }

  lemma ValueFits(k: Kernels, show: Expr -> string, db: Database, p: Plan, rows: seq<Row>, out: seq<Row>, key: Row, m: nat)
    requires Lawful(k) && AggregatingAlone(k, show, db, p, rows, out) && m < |p.aggregates|
    requires var specs := Specs(p.aggregates).value;
      var tuples := Tuples(MapRows(k, Out(db, p.input), p.groups, rows).value, MapRows(k, Out(db, p.input), ArgsOf(specs), rows).value);
      SpecsAccept(specs, G.Of(tuples, key))
    ensures var specs := Specs(p.aggregates).value;
      var tuples := Tuples(MapRows(k, Out(db, p.input), p.groups, rows).value, MapRows(k, Out(db, p.input), ArgsOf(specs), rows).value);
      && m < |SpecValues(specs, G.Of(tuples, key))|
      && Fits(k, p.schema[|p.groups| + m].ty, SpecValues(specs, G.Of(tuples, key))[m])
  {
    hide MapRows; hide RunType; hide TypeIn; hide Eval; hide FieldsOf; hide AggregateRows; hide Fits; hide G.Of; hide ExactAll;
    hide Lawful; hide Linked; hide Specs; hide AllFit; hide Agg.Accepts; hide Agg.Meaning; hide AggregateType;
    var plan, run, specs := p.input.schema, Out(db, p.input), Specs(p.aggregates).value;
    var keys, args := MapRows(k, run, p.groups, rows).value, MapRows(k, run, ArgsOf(specs), rows).value;
    var tuples, e := Tuples(keys, args), p.aggregates[m];
    var all := p.groups + p.aggregates;
    assert all[|p.groups| + m] == e && SpecOf(e) == Some(specs[m]);
    AggregateTyped(plan, e);
    var arg := TypeIn(plan, Unalias(e).expr);
    if specs[m].kind.Min? || specs[m].kind.Max? {
      ExtremeArgument(plan, e);
      assert ArgsOf(specs)[m] == Unalias(e).expr;
      LinkedIsCompatible(plan, run);
      forall t | 0 <= t < |tuples| ensures Fits(k, arg.value, G.Arg(tuples[t], m)) {
        ComputedFits(k, run, ArgsOf(specs), rows, t, m);
        FitsInferred(k, plan, run, Unalias(e).expr, G.Arg(tuples[t], m));
      }
    }
    SpecValueFits(k, specs, tuples, key, m, arg);
  }

  lemma AllFitBuild(k: Kernels, schema: Schema, rows: seq<Row>)
    requires forall r | 0 <= r < |rows| :: RowFits(k, schema, rows[r])
    ensures AllFit(k, schema, rows)
  {
  }

  lemma JoinedFits(k: Kernels, schema: Schema, key: Row, values: Row)
    requires |schema| == |key| + |values|
    requires forall c: nat | c < |key| :: Fits(k, schema[c].ty, key[c])
    requires forall m: nat | m < |values| :: Fits(k, schema[|key| + m].ty, values[m])
    ensures RowFits(k, schema, key + values)
  {
    hide Fits;
    var row := key + values;
    forall i | 0 <= i < |row| ensures Fits(k, schema[i].ty, row[i]) {
      if i >= |key| { assert row[i] == values[i - |key|] && schema[i].ty == schema[|key| + (i - |key|)].ty; }
    }
  }

  /** The rows of an aggregation fit its schema. */
  lemma AggregationFits(k: Kernels, show: Expr -> string, db: Database, p: Plan, rows: seq<Row>, out: seq<Row>)
    requires Lawful(k) && LawfulDb(k, db) && AggregatingAlone(k, show, db, p, rows, out)
    ensures AllFit(k, p.schema, out)
  {
    hide MapRows; hide RunType; hide TypeIn; hide Eval; hide FieldsOf; hide AggregateRows; hide Fits; hide G.Of;
    hide SpecOf; hide Lawful; hide LawfulDb; hide Linked; hide Specs; hide SpecsAccept; hide SpecValues; hide AllFit; hide ExactAll; hide Runs;
    var run, g, specs := Out(db, p.input), |p.groups|, Specs(p.aggregates).value;
    var keys, args := MapRows(k, run, p.groups, rows).value, MapRows(k, run, ArgsOf(specs), rows).value;
    MappedWidth(k, run, p.groups, rows);
    forall i | 0 <= i < |out| ensures RowFits(k, p.schema, out[i]) {
      var key := OutputRow(k, db, specs, g, keys, args, out, i);
      var values := SpecValues(specs, G.Of(Tuples(keys, args), key));
      ValuesWidth(specs, G.Of(Tuples(keys, args), key));
      forall c: nat | c < g ensures Fits(k, p.schema[c].ty, key[c]) { KeyFits(k, show, db, p, rows, out, key, c); }
      forall m: nat | m < |specs| ensures Fits(k, p.schema[g + m].ty, values[m]) { ValueFits(k, show, db, p, rows, out, key, m); }
      JoinedFits(k, p.schema, key, values);
    }
    AllFitBuild(k, p.schema, out);
  }

  lemma GroupsExact(k: Kernels, show: Expr -> string, plan: Schema, run: Schema, groups: seq<Expr>, aggregates: seq<Expr>, fields: Schema)
    requires FieldsOf(show, plan, groups + aggregates) == Ok(fields) && RunAs(k, run, groups, fields)
    ensures ExactAll(k, plan, run, groups)
  {
    hide FieldsOf; hide TypeIn; hide RunType;
    var all := groups + aggregates;
    forall i | 0 <= i < |groups| ensures Exact(k, plan, run, groups[i]) { assert all[i] == groups[i]; }
  }

  lemma AggregationAlone(k: Kernels, show: Expr -> string, db: Database, p: Plan, rows: seq<Row>, out: seq<Row>)
    requires LawfulDb(k, db) && p.Aggregation? && FieldsOf(show, p.input.schema, p.groups + p.aggregates) == Ok(p.schema)
    requires Sound(k, db, p.input, rows) && Run(k, db, p.input) == Some(rows) && Run(k, db, p) == Some(out)
    ensures AggregatingAlone(k, show, db, p, rows, out)
  {
    hide MapRows; hide FieldsOf; hide LawfulDb; hide Linked; hide AllFit; hide Specs; hide AggregateRows; hide Runs; hide RunAs;
    hide Sends; hide Builds;
    if rows != [] {
      RowsAreSent(k, db, p.input);
      GroupsExact(k, show, p.input.schema, Out(db, p.input), p.groups, p.aggregates, p.schema);
    }
  }

  lemma AggregationSound(k: Kernels, show: Expr -> string, db: Database, p: Plan, rows: seq<Row>, out: seq<Row>)
    requires Lawful(k) && LawfulDb(k, db) && p.Aggregation? && FieldsOf(show, p.input.schema, p.groups + p.aggregates) == Ok(p.schema)
    requires Sound(k, db, p.input, rows) && Run(k, db, p.input) == Some(rows) && Run(k, db, p) == Some(out)
    ensures Sound(k, db, p, out)
  {
    hide Run; hide FieldsOf; hide Lawful; hide LawfulDb; hide Linked; hide AllFit; hide AggregatingAlone; hide Specs;
    AggregationAlone(k, show, db, p, rows, out);
    AggregationFits(k, show, db, p, rows, out);
    LinkedToItself(p.schema);
  }

  // ----- whole plans ---------------------------------------------------------------------------------

  lemma InputsRun(k: Kernels, db: Database, p: Plan)
    requires Run(k, db, p).Some?
    ensures p.Projection? || p.Filter? || p.Aggregation? || p.Sort? || p.Limit? ==> Run(k, db, p.input).Some?
    ensures p.Join? ==> Run(k, db, p.left).Some? && Run(k, db, p.right).Some?
  {
    hide MapRows; hide AggregateRows; hide JoinRows; hide Specs; hide Sends; hide KeysFit; hide RunAs; hide Runs; hide Out; hide Builds; hide RunType;
    hide Sortable; hide Pruning.FilterRows;
  }

  lemma UnarySound(k: Kernels, show: Expr -> string, db: Database, p: Plan, rows: seq<Row>, out: seq<Row>)
    requires Lawful(k) && LawfulDb(k, db) && Source(show, db, p) && !p.Scan? && !p.Join? && !(p.Limit? && p.input.Sort?)
    requires Run(k, db, p.input) == Some(rows) && Sound(k, db, p.input, rows) && Run(k, db, p) == Some(out)
    ensures Sound(k, db, p, out)
  {
    hide Run; hide Lawful; hide LawfulDb; hide Sound; hide Out; hide FieldsOf; hide PlainAll; hide NoAlias; hide RootAliases;
    match p
    case Projection(_, _, _) => ProjectionSound(k, show, db, p, rows, out);
    case Aggregation(_, _, _, _) => AggregationSound(k, show, db, p, rows, out);
    case _ => SelectionSound(k, db, p, rows, out);
  }

  /** Whatever a query yields fits the types its plan declares, column by column: what evaluation
      finds at run time and what planning infers agree on every row. */
  lemma {:induction false} PlansAreSound(k: Kernels, show: Expr -> string, db: Database, p: Plan)
    requires Lawful(k) && LawfulDb(k, db) && Source(show, db, p) && Run(k, db, p).Some?
    ensures Sound(k, db, p, Run(k, db, p).value)
    decreases p
  {
    hide Run; hide Lawful; hide LawfulDb; hide Sound; hide Out; hide FieldsOf; hide PlainAll; hide NoAlias; hide RootAliases; hide ScanOk;
    hide JoinFields;
    var out := Run(k, db, p).value;
    InputsRun(k, db, p);
    if p.Scan? {
      ScanSound(k, db, p, out);
    } else if p.Join? {
      PlansAreSound(k, show, db, p.left);
      PlansAreSound(k, show, db, p.right);
      JoinSound(k, db, p, Run(k, db, p.left).value, Run(k, db, p.right).value, out);
    } else if p.Limit? && p.input.Sort? {
      InputsRun(k, db, p.input);
      PlansAreSound(k, show, db, p.input.input);
      TopSound(k, db, p, Run(k, db, p.input.input).value, out);
    } else {
      PlansAreSound(k, show, db, p.input);
      UnarySound(k, show, db, p, Run(k, db, p.input).value, out);
    }
  }
}
