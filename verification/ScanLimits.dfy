/** Where an optimized scan fails or reads something else: dotted column names, names that differ in
    case, and files that hand on their columns in another order. */
module ScanLimits {
  import opened Basics
  import opened Values
  import opened Expr
  import opened ExprTyping
  import opened Plans
  import opened PlanRelation
  import opened Optimizer
  import opened ScanNarrowing
  import opened OptimizerSoundness
  import opened OptimizerLimits
  import Pruning

  // ----- dotted column names -------------------------------------------------------------------------

  function DottedTable(): Schema { [Field("a", Int64Type), Field("b.c", Int64Type)] }

  function DottedScan(): Plan { Scan("t", None, [], [Field("t.a", Int64Type), Field("t.b.c", Int64Type)]) }

  function OneColumn(input: Plan): Plan { Projection(input, [Alias(Column("a"), "x")], [Field("x", Int64Type)]) }

  /** Reading one plain column of a table that also has a dotted one: the narrowed scan asks the
      table for a name it does not know. */
  lemma DottedTableStopsTheScan(k: Kernels, show: Expr -> string, db: Database)
    requires db.tables == map["t" := InMemory(DottedTable(), [])]
    ensures var p := OneColumn(DottedScan());
      && Run(k, db, p) == Some([])
      && Optimize(k, show, p) == Ok(OneColumn(Narrowed(DottedScan(), [0])))
      && Run(k, db, OneColumn(Narrowed(DottedScan(), [0]))) == None
  {
    hide Run; hide Optimize;
    DottedRuns(k, db);
    DottedOptimizes(k, show);
    DottedStops(k, db);
  }

  lemma DottedNames()
    ensures Resolve(DottedTable(), "a") == Ok(0) && Resolve(DottedScan().schema, "a") == Ok(0)
    ensures Resolve([Field("t.a", Int64Type)], "a") == Ok(0)
    ensures Resolve(DottedTable(), "t.a").Err? && Unqualified("a") == "a"
  {
    hide Unqualified; hide Resolve; hide Indices; hide Qualified;
    StoredName();
    UnknownName();
    LastParts();
    ShortMatch(DottedScan().schema);
    ShortMatch([Field("t.a", Int64Type)]);
  }

  lemma StoredName()
    ensures Resolve(DottedTable(), "a") == Ok(0)
  {
    hide Resolve;
    var stored := DottedTable();
    assert stored[0].name == "a" && stored[1].name == "b.c";
    OwnNameResolves(stored, 0);
  }

  lemma UnknownName()
    ensures Resolve(DottedTable(), "t.a").Err?
  {
    hide Unqualified; hide Indices;
    var stored := DottedTable();
    assert Qualified(stored[1].name) by { assert stored[1].name[1] == '.'; }
    assert Qualified("t.a") by { assert "t.a"[1] == '.'; }
    IndicesAre(stored, "t.a", false);
    assert forall j: nat | j < |stored| :: NameAt(stored, j, false) == stored[j].name != "t.a";
    NoMember(Indices(stored, "t.a", false), |stored|);
  }

  lemma LastParts()
    ensures Unqualified("t.a") == "a" && Unqualified("t.b.c") == "c" && Unqualified("a") == "a" && !Qualified("a")
  {
    hide Unqualified;
    LastPartOf("t", "a");
    LastPartOf("t.b", "c");
    assert "t" + "." + "a" == "t.a" && "t.b" + "." + "c" == "t.b.c";
    PlainName("a");
  }

  /** A plain name that matches the last part of the first column only. */
  lemma ShortMatch(schema: Schema)
    requires schema != [] && Unqualified(schema[0].name) == "a" && !Qualified("a") && Unqualified("a") == "a"
    requires forall i | 0 <= i < |schema| :: schema[i].name != "a" && (i > 0 ==> Unqualified(schema[i].name) != "a")
    ensures Resolve(schema, "a") == Ok(0)
  {
    hide Unqualified; hide Qualified;
    IndicesAre(schema, "a", false);
    assert forall j: nat | j < |schema| :: NameAt(schema, j, false) == schema[j].name;
    NoMember(Indices(schema, "a", false), |schema|);
    assert forall j: nat | j < |schema| :: NameAt(schema, j, true) == Unqualified(schema[j].name);
    IndexUnique(schema, "a", true, 0);
  }

  lemma ColumnTyped(k: Kernels, schema: Schema)
    requires Resolve(schema, "a") == Ok(0) && schema[0].ty == Int64Type
    ensures var e := Alias(Column("a"), "x");
      RunType(k, schema, e) == Some(Int64Type) && TypeIn(schema, e) == Ok(Int64Type) && Simplify(k, schema, e) == Ok(e)
  {
    hide Resolve;
    assert TypeIn(schema, Column("a")) == Ok(Int64Type) && RunType(k, schema, Column("a")) == Some(Int64Type);
    assert Simplify(k, schema, Column("a")) == Ok(Column("a"));
  }

  lemma DottedRuns(k: Kernels, db: Database)
    requires db.tables == map["t" := InMemory(DottedTable(), [])]
    ensures Run(k, db, OneColumn(DottedScan())) == Some([])
  {
    hide Resolve; hide MapRows; hide RunType; hide Out; hide Sends;
    DottedNames();
    ColumnTyped(k, DottedTable());
    var stored, es, fields := DottedTable(), [Alias(Column("a"), "x")], [Field("x", Int64Type)];
    InMemoryRuns(k, db, DottedScan(), stored, []);
    NoRowsMapped(k, stored, es);
    assert RunAs(k, stored, es, fields);
  }

  lemma DottedOptimizes(k: Kernels, show: Expr -> string)
    ensures Optimize(k, show, OneColumn(DottedScan())) == Ok(OneColumn(Narrowed(DottedScan(), [0])))
  {
    hide Resolve; hide TypeIn; hide Simplify; hide FieldsOf; hide Expand; hide Sorted; hide ResolveAll; hide AllColumnNames; hide SimplifyAll;
    hide Unqualified; hide Qualified;
    var scan, e := DottedScan(), Alias(Column("a"), "x");
    var narrow := Narrowed(scan, [0]);
    DottedNames();
    ScanIsFixed(k, show, scan);
    assert narrow.schema == [Field("t.a", Int64Type)];
    ColumnTyped(k, scan.schema);
    ColumnTyped(k, narrow.schema);
    OneField(show, scan.schema, e, "x", Int64Type);
    OneField(show, narrow.schema, e, "x", Int64Type);
    OneSimplified(k, scan.schema, e, e);
    NothingToExpand([e], scan.schema);
    NothingToExpand([e], narrow.schema);
    RequiredName();
    OneResolved(scan.schema);
    assert Project(show, scan, [e]) == Ok(OneColumn(scan)) && Project(show, narrow, [e]) == Ok(OneColumn(narrow));
    assert OptimizeChildren(k, show, OneColumn(scan)) == Ok(OneColumn(scan));
    assert SimplifyExpressions(k, show, OneColumn(scan)) == Ok(OneColumn(scan));
    assert PushProjection(show, OneColumn(scan)) == Ok(OneColumn(narrow));
    assert [e][0] == e && Name(show, e) == "x" && narrow.schema[0].name != "x";
    assert !IdentityProjection(show, narrow.schema, [e]);
  }

  /** The one name the projection mentions. */
  lemma RequiredName()
    ensures AllColumnNames([Alias(Column("a"), "x")] + DottedScan().filters) == {"a"} && Sorted({"a"}) == ["a"]
  {
    hide Sorted;
    PlainName("a");
    var es := [Alias(Column("a"), "x")];
    assert es + [] == es && es[..|es| - 1] == [] && es[|es| - 1] == Alias(Column("a"), "x");
    assert ColumnNames(Alias(Column("a"), "x")) == ColumnNames(Column("a")) == {Unqualified("a")};
    assert !Qualified("a");
    OneName("a");
  }

  lemma OneName(name: string)
    ensures Sorted({name}) == [name]
  {
    hide Sorted;
    var r := Sorted({name});
    assert name in r;
    forall i | 0 <= i < |r| ensures r[i] == name { assert r[i] in r; }
    assert r[0] == r[|r| - 1] == name;
  }

  lemma OneResolved(schema: Schema)
    requires Resolve(schema, "a") == Ok(0)
    ensures ResolveAll(schema, ["a"]) == Some([0])
  {
    hide Resolve;
    var names := ["a"];
    assert names[..|names| - 1] == [] && names[|names| - 1] == "a";
    assert ResolveAll(schema, []) == Some([]);
    assert [] + [0] == [0];
  }

  lemma DottedStops(k: Kernels, db: Database)
    requires db.tables == map["t" := InMemory(DottedTable(), [])]
    ensures Run(k, db, OneColumn(Narrowed(DottedScan(), [0]))) == None
  {
    hide Resolve; hide MapRows; hide RunType; hide Scanned;
    DottedNames();
    var narrow := Narrowed(DottedScan(), [0]);
    assert narrow.projection.value[0] == "t.a";
  }

  // ----- names that pruning confuses -----------------------------------------------------------------

  /** A file of one row group with one row. */
  function OneGroup(schema: Pruning.TableSchema, row: Row, group: Pruning.RowGroup): Stored {
    Stored(seq(|schema|, i requires 0 <= i < |schema| => Field(schema[i].name, schema[i].ty)),
           seq(|schema|, i requires 0 <= i < |schema| => schema[i].nullable),
           [Chunk([row], true, Some(group))], true)
  }

  function AllOf(n: nat): (r: seq<nat>)
    ensures |r| == n && forall i | 0 <= i < n :: r[i] == i
  {
    seq(n, i => i)
  }

  lemma OneGroupIsLawful(k: Kernels, schema: Pruning.TableSchema, row: Row, group: Pruning.RowGroup)
    requires Pruning.WellFormed(schema) && Pruning.TrueStats(k, schema, group, [row])
    ensures var t := OneGroup(schema, row, group); Described(t) == schema && StoredOk(k, t)
  {
    hide Fits; hide Pruning.NullCount; hide Pruning.BoundsHold;
    var t := OneGroup(schema, row, group);
    assert Described(t) == schema;
    assert Pruning.TableRow(k, schema, [row][0]);
    assert RowFits(k, t.schema, row);
  }

  /** The filter over the scan finds the row, the filter inside it does not read its group. */
  lemma PrunedRow(k: Kernels, db: Database, schema: Pruning.TableSchema, row: Row, group: Pruning.RowGroup, filter: Expr)
    requires Lawful(k) && Pruning.TrueStats(k, schema, group, [row]) && |row| == |schema| && db.tables == map["t" := OneGroup(schema, row, group)]
    requires Pruning.Projects(schema, AllOf(|schema|)) && Pruning.Passes(k, schema, AllOf(|schema|), row, filter)
    requires Eval(k, OneGroup(schema, row, group).schema, row, filter).Ok? ==> Eval(k, OneGroup(schema, row, group).schema, row, filter).value.ty.BooleanType?
    requires !Pruning.GroupMayMatch(schema, group, [filter])
    ensures var fields := OneGroup(schema, row, group).schema;
      && Run(k, db, Filter(Scan("t", None, [], fields), filter, fields)) == Some([row])
      && Run(k, db, Scan("t", None, [filter], fields)) == Some([])
  {
    hide Eval; hide Pruning.MayMatch; hide Lawful; hide Pruning.TrueStats; hide RunType; hide TakeRow; hide Pruning.ReadRow; hide Pruning.ReadSchema;
    var t, columns := OneGroup(schema, row, group), AllOf(|schema|);
    var fields := t.schema;
    OneGroupNames(schema, row, group);
    assert seq(|fields|, i => i) == columns;
    assert TakeRows(columns, [row]) == [row];
    assert Eval(k, fields, row, filter).Ok? && Eval(k, fields, row, filter).value.value == Boolean(true);
    RowFitsGroup(k, schema, row, group);
    EvalRuns(k, fields, row, filter);
    UnprunedScan(k, t, columns, row);
    PrunedScan(k, t, columns, filter);
    OneDecided(k, fields, filter, row, true);
  }

  lemma OneGroupNames(schema: Pruning.TableSchema, row: Row, group: Pruning.RowGroup)
    requires |row| == |schema| && Pruning.Projects(schema, AllOf(|schema|))
    ensures var t := OneGroup(schema, row, group);
      && Pruning.ReadSchema(schema, AllOf(|schema|)) == t.schema == TakeFields(t.schema, AllOf(|schema|))
      && Pruning.ReadRow(schema, AllOf(|schema|), row) == row == TakeRow(AllOf(|schema|), row) && Described(t) == schema
  {
  }

  lemma RowFitsGroup(k: Kernels, schema: Pruning.TableSchema, row: Row, group: Pruning.RowGroup)
    requires Pruning.TrueStats(k, schema, group, [row])
    ensures RowFits(k, OneGroup(schema, row, group).schema, row)
  {
    hide Fits; hide Pruning.NullCount; hide Pruning.BoundsHold;
    assert Pruning.TableRow(k, schema, [row][0]);
  }

  lemma UnprunedScan(k: Kernels, t: Stored, columns: seq<nat>, row: Row)
    requires |t.chunks| == 1 && t.chunks[0].rows == [row] && t.chunks[0].sent && TakeRows(columns, [row]) == [row]
    ensures Scanned(k, t.schema, columns, t, [], 1) == Some([row]) && Delivers(t, [])
  {
    hide TakeRows;
    assert !Skipped(t, t.chunks[0], []);
    assert Scanned(k, t.schema, columns, t, [], 0) == Some([]);
    assert [] + [row] == [row];
  }

  lemma PrunedScan(k: Kernels, t: Stored, columns: seq<nat>, filter: Expr)
    requires |t.chunks| == 1 && Skipped(t, t.chunks[0], [filter])
    ensures Scanned(k, t.schema, columns, t, [filter], 1) == Some([]) && !Delivers(t, [filter])
  {
    hide TakeRows; hide Skipped;
    assert Scanned(k, t.schema, columns, t, [filter], 0) == Some([]);
    var none: seq<Row> := [];
    assert none + none == none;
  }

  lemma FilterOptimizes(k: Kernels, show: Expr -> string, fields: Schema, filter: Expr)
    requires Simplify(k, fields, filter) == Ok(filter) && TypeIn(fields, filter) == Ok(BooleanType)
    ensures Optimize(k, show, Filter(Scan("t", None, [], fields), filter, fields)) == Ok(Scan("t", None, [filter], fields))
  {
    hide Simplify; hide TypeIn;
    var scan := Scan("t", None, [], fields);
    ScanIsFixed(k, show, scan);
    assert MakeFilter(scan, filter) == Ok(Filter(scan, filter, fields));
    assert OptimizeChildren(k, show, Filter(scan, filter, fields)) == Ok(Filter(scan, filter, fields));
    assert [] + [filter] == [filter];
  }

  /** The guard for pushed filters is exact: wherever a name means one column and pruning consults
      another one harmfully, there are a file with true statistics and a filter on that name such
      that the query finds a row and the optimized query does not. */
  lemma ConfusedFilterLosesARow(k: Kernels, show: Expr -> string, db: Database, schema: Pruning.TableSchema, name: string)
    returns (t: Stored, row: Row, filter: Expr)
    requires Lawful(k) && Widening(k) && LawfulDb(k, db) && Pruning.WellFormed(schema)
    requires Pruning.Projects(schema, AllOf(|schema|)) && !Pruning.Reads(schema, AllOf(|schema|), name)
    ensures Described(t) == schema && LawfulDb(k, db.(tables := map["t" := t]))
    ensures var p, p' := Filter(Scan("t", None, [], t.schema), filter, t.schema), Scan("t", None, [filter], t.schema);
      var stored := db.(tables := map["t" := t]);
      Run(k, stored, p) == Some([row]) && Optimize(k, show, p) == Ok(p') && Run(k, stored, p') == Some([])
  {
    hide Run; hide Optimize; hide Lawful; hide Widening; hide Pruning.WellFormed; hide Pruning.Reads; hide Pruning.TrueStats;
    hide Pruning.MayMatch; hide Eval; hide StoredOk;
    hide Simplify; hide TypeIn; hide Pruning.Passes; hide OneGroup;
    var group: Pruning.RowGroup;
    group, row, filter := Pruning.HarmfulConfusionLosesARow(k, schema, AllOf(|schema|), name);
    t := OneGroup(schema, row, group);
    OneGroupIsLawful(k, schema, row, group);
    ConfusedFilterTyped(k, schema, row, group, name, filter);
    PrunedRow(k, db.(tables := map["t" := t]), schema, row, group, filter);
    FilterOptimizes(k, show, t.schema, filter);
  }

  lemma ConfusedFilterTyped(k: Kernels, schema: Pruning.TableSchema, row: Row, group: Pruning.RowGroup, name: string, filter: Expr)
    requires Lawful(k) && |row| == |schema| && Pruning.TrueStats(k, schema, group, [row])
    requires Pruning.Projects(schema, AllOf(|schema|)) && Pruning.Passes(k, schema, AllOf(|schema|), row, filter) && Pruning.AsksFor(name, filter)
    ensures var fields := OneGroup(schema, row, group).schema;
      && Simplify(k, fields, filter) == Ok(filter) && TypeIn(fields, filter) == Ok(BooleanType)
      && (Eval(k, fields, row, filter).Ok? ==> Eval(k, fields, row, filter).value.ty.BooleanType?)
  {
    hide Lawful; hide Pruning.TrueStats; hide Resolve; hide EvalBinary;
    var fields := OneGroup(schema, row, group).schema;
    OneGroupNames(schema, row, group);
    RowFitsGroup(k, schema, row, group);
    FilterTyped(k, fields, row, name, filter);
  }

  lemma FilterTyped(k: Kernels, fields: Schema, row: Row, name: string, filter: Expr)
    requires Lawful(k) && RowFits(k, fields, row) && Pruning.AsksFor(name, filter) && Eval(k, fields, row, filter).Ok?
    ensures Simplify(k, fields, filter) == Ok(filter) && TypeIn(fields, filter) == Ok(BooleanType)
    ensures Eval(k, fields, row, filter).value.ty.BooleanType?
  {
    hide Lawful; hide Resolve; hide EvalBinary;
    var c := Column(name);
    assert Eval(k, fields, row, c).Ok? && Simplify(k, fields, c) == Ok(c);
    if filter.IsNull? {
      assert Simplify(k, fields, filter) == SimplifyNode(k, fields, filter);
    } else {
      var v := filter.right;
      var x, y := Eval(k, fields, row, c).value, Eval(k, fields, row, v).value;
      EvalRuns(k, fields, row, c);
      EvalRuns(k, fields, row, v);
      assert Eval(k, fields, row, filter) == EvalBinary(k, Eq, x, y);
      BinaryRuns(k, Eq, x, y);
      LiteralIsFixed(k, fields, v);
      assert Simplify(k, fields, filter) == SimplifyNode(k, fields, filter);
    }
  }

  lemma LiteralIsFixed(k: Kernels, fields: Schema, v: Expr)
    requires v.Literal? && !v.value.Null?
    ensures Simplify(k, fields, v) == Ok(v) && TypeIn(fields, v) == Ok(TypeOf(v.value))
  {
  }

  /** Two columns whose names differ in case only: `b` is read from the second, pruned by the first. */
  lemma CasesAreConfused()
    ensures var schema := [Pruning.TableField("B", Int64Type, false), Pruning.TableField("b", Int64Type, false)];
      Pruning.WellFormed(schema) && Pruning.Projects(schema, AllOf(|schema|)) && !Pruning.Reads(schema, AllOf(|schema|), "b")
  {
    hide Resolve;
    var schema := [Pruning.TableField("B", Int64Type, false), Pruning.TableField("b", Int64Type, false)];
    var names := Pruning.ReadSchema(schema, AllOf(|schema|));
    assert names[0].name == "B" && names[1].name == "b" && "B"[0] != "b"[0];
    OwnNameResolves(names, 1);
    PlainName("b");
    assert Pruning.Lower("B") == Pruning.Lower("b");
    assert Pruning.PickedFrom(schema, "b", 0) == Some(0);
    assert ResultType(Eq, Int64Type, Int64Type).Some?;
  }

  lemma MixedCaseFilterLosesARow(k: Kernels, show: Expr -> string, db: Database)
    returns (t: Stored, row: Row, filter: Expr)
    requires Lawful(k) && Widening(k) && LawfulDb(k, db)
    ensures |t.schema| == 2 && t.schema[0].name == "B" && t.schema[1].name == "b" && LawfulDb(k, db.(tables := map["t" := t]))
    ensures var p, p' := Filter(Scan("t", None, [], t.schema), filter, t.schema), Scan("t", None, [filter], t.schema);
      var stored := db.(tables := map["t" := t]);
      Run(k, stored, p) == Some([row]) && Optimize(k, show, p) == Ok(p') && Run(k, stored, p') == Some([])
  {
    hide Run; hide Optimize; hide Lawful; hide Widening; hide Pruning.WellFormed; hide Pruning.Reads; hide LawfulDb;
    var schema := [Pruning.TableField("B", Int64Type, false), Pruning.TableField("b", Int64Type, false)];
    CasesAreConfused();
    t, row, filter := ConfusedFilterLosesARow(k, show, db, schema, "b");
    assert Described(t)[0] == schema[0] && Described(t)[1] == schema[1];
  }

  // ----- columns in another order --------------------------------------------------------------------

  function BA(): Schema { [Field("b", Int64Type), Field("a", Int64Type)] }

  function AB(): Schema { [Field("a", Int64Type), Field("b", Int64Type)] }

  /** `SELECT a, b` from a file whose columns are `b` and `a`. */
  function Reordered(): Plan { Projection(Scan("t", None, [], BA()), [Column("a"), Column("b")], AB()) }

  function Asked(): Plan { Scan("t", Some(["a", "b"]), [], AB()) }

  predicate FileBA(db: Database) {
    db.tables == map["t" := Stored(BA(), [], [Chunk([[Int64(1), Int64(2)]], true, None)], true)]
  }

  /** The projection is pushed into the scan and then dropped, and the file hands on its columns in
      its own order: the values come out swapped. */
  lemma DroppedProjectionSwapsColumns(k: Kernels, show: Expr -> string, db: Database)
    requires FileBA(db)
    ensures Run(k, db, Reordered()) == Some([[Int64(2), Int64(1)]])
    ensures Optimize(k, show, Reordered()) == Ok(Asked()) && !Ordered(db, Asked())
    ensures Run(k, db, Asked()) == Some([[Int64(1), Int64(2)]])
  {
    hide Run; hide Optimize; hide Ordered;
    ReorderedRuns(k, db);
    ReorderedOptimizes(k, show);
    AskedRuns(k, db);
  }

  lemma Letters()
    ensures Resolve(BA(), "a") == Ok(1) && Resolve(BA(), "b") == Ok(0) && Resolve(AB(), "a") == Ok(0) && Resolve(AB(), "b") == Ok(1)
    ensures Unqualified("a") == "a" && Unqualified("b") == "b"
  {
    hide Resolve; hide Unqualified;
    assert "a"[0] != "b"[0];
    OwnNameResolves(BA(), 0);
    OwnNameResolves(BA(), 1);
    OwnNameResolves(AB(), 0);
    OwnNameResolves(AB(), 1);
    PlainName("a");
    PlainName("b");
  }

  lemma TwoResolved(schema: Schema, i: nat, j: nat)
    requires Resolve(schema, "a") == Ok(i) && Resolve(schema, "b") == Ok(j)
    ensures ResolveAll(schema, ["a", "b"]) == Some([i, j])
  {
    hide Resolve;
    ResolveAllBuild(schema, ["a", "b"], [i, j]);
  }

  lemma ReorderedRuns(k: Kernels, db: Database)
    requires FileBA(db)
    ensures Run(k, db, Reordered()) == Some([[Int64(2), Int64(1)]])
  {
    hide Resolve; hide MapRows; hide EvalAll; hide Eval; hide RunType;
    var row, es, scan := [Int64(1), Int64(2)], [Column("a"), Column("b")], Scan("t", None, [], BA());
    Letters();
    assert seq(|BA()|, i => i) == [0, 1] && TakeFields(BA(), [0, 1]) == BA();
    assert TakeRow([0, 1], row) == row && TakeRows([0, 1], [row]) == [row];
    var t := db.tables["t"];
    UnfilteredScan(k, t, [0, 1], BA(), row);
    ReadColumn(k, BA(), row, "a", 1);
    ReadColumn(k, BA(), row, "b", 0);
    TwoEvaluated(k, BA(), row, es, Typed(Int64Type, Int64(2)), Typed(Int64Type, Int64(1)));
    OneMapped(k, BA(), es, row, [Int64(2), Int64(1)]);
    assert RunAs(k, BA(), es, AB());
  }

  lemma UnfilteredScan(k: Kernels, t: Stored, columns: seq<nat>, names: Schema, row: Row)
    requires |t.chunks| == 1 && t.chunks[0].rows == [row] && t.chunks[0].sent && TakeRows(columns, [row]) == [row]
    ensures Scanned(k, names, columns, t, [], |t.chunks|) == Some([row]) && Delivers(t, [])
  {
    hide TakeRows;
    assert !Skipped(t, t.chunks[0], []);
    assert Scanned(k, names, columns, t, [], 0) == Some([]);
    assert [] + [row] == [row];
  }

  lemma ReadColumn(k: Kernels, schema: Schema, row: Row, name: string, i: nat)
    requires Resolve(schema, name) == Ok(i) && |row| == |schema|
    ensures Eval(k, schema, row, Column(name)) == Ok(Typed(schema[i].ty, row[i])) && RunType(k, schema, Column(name)) == Some(schema[i].ty)
    ensures TypeIn(schema, Column(name)) == Ok(schema[i].ty) && Simplify(k, schema, Column(name)) == Ok(Column(name))
  {
    hide Resolve;
  }

  lemma TwoEvaluated(k: Kernels, names: Schema, row: Row, es: seq<Expr>, v: Typed, w: Typed)
    requires |es| == 2 && Eval(k, names, row, es[0]) == Ok(v) && Eval(k, names, row, es[1]) == Ok(w)
    ensures EvalAll(k, names, row, es) == Some([v.value, w.value])
  {
    hide Eval; hide EvalAll;
    assert es[..1] == [es[0]];
    OneEvaluated(k, names, row, es[0], v);
    TwoStep(k, names, row, es);
    assert [v.value] + [w.value] == [v.value, w.value];
  }

  lemma TwoStep(k: Kernels, names: Schema, row: Row, es: seq<Expr>)
    requires |es| == 2 && EvalAll(k, names, row, es[..1]).Some? && Eval(k, names, row, es[1]).Ok?
    ensures EvalAll(k, names, row, es) == Some(EvalAll(k, names, row, es[..1]).value + [Eval(k, names, row, es[1]).value.value])
  {
    hide Eval;
  }

  lemma FileOrderOfTwo(columns: seq<nat>)
    requires columns == [1, 0]
    ensures Ascending(columns, 2) == [0, 1] && !Increasing(columns)
  {
    assert columns[0] == 1 && columns[1] == 0;
    assert Ascending(columns, 0) == [];
    assert Ascending(columns, 1) == [0];
  }

  lemma AskedRuns(k: Kernels, db: Database)
    requires FileBA(db)
    ensures Run(k, db, Asked()) == Some([[Int64(1), Int64(2)]]) && !Ordered(db, Asked())
  {
    hide Resolve; hide ResolveAll; hide Ascending; hide Increasing; hide Scanned; hide Delivers; hide TakeFields;
    var row, t := [Int64(1), Int64(2)], db.tables["t"];
    Letters();
    TwoResolved(BA(), 1, 0);
    FileOrderOfTwo([1, 0]);
    assert TakeRow([0, 1], row) == row && TakeRows([0, 1], [row]) == [row];
    UnfilteredScan(k, t, [0, 1], TakeFields(BA(), [0, 1]), row);
    assert ScanColumns(db, "t", Some(["a", "b"])) == Some([0, 1]);
  }

  lemma TwoNames()
    ensures AllColumnNames([Column("a"), Column("b")] + []) == {"a", "b"} && Sorted({"a", "b"}) == ["a", "b"]
  {
    hide Sorted; hide Unqualified;
    Letters();
    var es := [Column("a"), Column("b")];
    assert es + [] == es && es[..1] == [Column("a")] && es[..1][..0] == [];
    assert ColumnNames(es[0]) == {"a"} && ColumnNames(es[1]) == {"b"};
    assert AllColumnNames([]) == {} && AllColumnNames(es[..1]) == {"a"};
    assert "a"[0] < "b"[0];
    SortedPair("a", "b");
  }

  lemma SortedPair(x: string, y: string)
    requires x != y && StringLeq(x, y)
    ensures Sorted({x, y}) == [x, y]
  {
    hide StringLeq;
    var r := Sorted({x, y});
    assert r == [r[0]] + Sorted({x, y} - {r[0]}) && r[0] in {x, y} && StringLeq(r[0], x);
    if r[0] == y { StringLeqAntisymmetric(x, y); }
    assert {x, y} - {x} == {y};
    OneName(y);
  }

  lemma ReorderedOptimizes(k: Kernels, show: Expr -> string)
    ensures Optimize(k, show, Reordered()) == Ok(Asked())
  {
    hide Resolve; hide TypeIn; hide Simplify; hide FieldsOf; hide Expand; hide Sorted; hide ResolveAll; hide AllColumnNames;
    hide SimplifyAll; hide Unqualified;
    var scan, es := Scan("t", None, [], BA()), [Column("a"), Column("b")];
    Letters();
    ReadColumn(k, BA(), [Null, Null], "a", 1);
    ReadColumn(k, BA(), [Null, Null], "b", 0);
    ReadColumn(k, AB(), [Null, Null], "a", 0);
    ReadColumn(k, AB(), [Null, Null], "b", 1);
    ScanIsFixed(k, show, scan);
    TwoFields(show, BA(), es);
    TwoFields(show, AB(), es);
    SimplifyAllBuild(k, BA(), es, es);
    NothingToExpand(es, BA());
    NothingToExpand(es, AB());
    TwoNames();
    TwoResolved(BA(), 1, 0);
    var narrow := Narrowed(scan, [1, 0]);
    assert narrow == Asked() by {
      assert narrow.projection.value == ["a", "b"] && narrow.schema == AB();
    }
    assert Project(show, scan, es) == Ok(Reordered()) && Project(show, narrow, es) == Ok(Projection(narrow, es, AB()));
    assert OptimizeChildren(k, show, Reordered()) == Ok(Reordered());
    assert SimplifyExpressions(k, show, Reordered()) == Ok(Reordered());
    assert PushProjection(show, Reordered()) == Ok(Projection(narrow, es, AB()));
    assert IdentityProjection(show, AB(), es);
  }

  lemma TwoFields(show: Expr -> string, schema: Schema, es: seq<Expr>)
    requires es == [Column("a"), Column("b")] && TypeIn(schema, es[0]) == Ok(Int64Type) && TypeIn(schema, es[1]) == Ok(Int64Type)
    ensures FieldsOf(show, schema, es) == Ok(AB())
  {
    hide TypeIn; hide FieldsOf;
    var r := FieldsOf(show, schema, es);
    assert r.Ok?;
    assert r.value[0] == AB()[0] && r.value[1] == AB()[1];
    assert r.value == AB();
  }
}
