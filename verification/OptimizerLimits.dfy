/** Where an optimized plan stops running: types that change below an operator that looks at them. */
module OptimizerLimits {
  import opened Basics
  import opened Values
  import opened Expr
  import opened ExprTyping
  import opened Simplification
  import opened ExprDrift
  import opened Plans
  import opened PlanRelation
  import opened PlanTyping
  import opened Optimizer
  import opened OptimizerSoundness
  import ScanNarrowing
  import Agg = Aggregates
  import G = GroupBy
  import J = Join
  import Pruning

  // ----- tables in memory ----------------------------------------------------------------------------

  /** A table of one batch. */
  function InMemory(schema: Schema, rows: seq<Row>): Stored {
    Stored(schema, [], [Chunk(rows, true, None)], false)
  }

  lemma InMemoryRuns(k: Kernels, db: Database, scan: Plan, schema: Schema, rows: seq<Row>)
    requires scan.Scan? && scan.projection.None? && scan.filters == [] && scan.table in db.tables && db.tables[scan.table] == InMemory(schema, rows)
    requires forall r | 0 <= r < |rows| :: |rows[r]| == |schema|
    ensures Out(db, scan) == schema && Run(k, db, scan) == Some(rows) && Sends(k, db, scan)
  {
    hide TakeRow;
    var t, columns := db.tables[scan.table], seq(|schema|, i => i);
    assert TakeFields(schema, columns) == schema;
    assert TakeRows(columns, rows) == rows by {
      forall r | 0 <= r < |rows| ensures TakeRow(columns, rows[r]) == rows[r] { AllColumns(columns, rows[r]); }
    }
    assert !Skipped(t, t.chunks[0], []) && t.chunks[0].sent;
    OneScanned(k, schema, columns, t, rows);
  }

  lemma AllColumns(columns: seq<nat>, row: Row)
    requires columns == seq(|row|, i => i)
    ensures TakeRow(columns, row) == row
  {
  }

  lemma OneScanned(k: Kernels, names: Schema, columns: seq<nat>, t: Stored, rows: seq<Row>)
    requires |t.chunks| == 1 && t.chunks[0].group.None? && TakeRows(columns, t.chunks[0].rows) == rows
    ensures Scanned(k, names, columns, t, [], |t.chunks|) == Some(rows)
  {
    hide TakeRows;
    assert Scanned(k, names, columns, t, [], 0) == Some([]);
    assert Pruning.FilterAll(k, names, [], rows) == Some(rows);
    assert [] + rows == rows;
  }

  // ----- MIN and MAX of folded 32-bit arithmetic -----------------------------------------------------

  function Int32Literal(n: I64): Expr { Cast(Literal(Int64(n)), Int32Type) }

  function Sum(): Expr { Binary(Int32Literal(1), Add, Int32Literal(2)) }

  function MinOf(x: Expr): Expr { Alias(Aggregate(Agg.Min, x, false), "m") }

  function Table(): Plan { Scan("t", None, [], [Field("t.a", Int64Type)]) }

  function MinPlan(x: Expr, t: DataType): Plan { Aggregation(Table(), [], [MinOf(x)], [Field("m", t)]) }

  function Above(): Expr { Alias(Binary(Column("m"), Add, Int32Literal(2)), "x") }

  /** The minimum, and above it the sum of the minimum and a 32-bit constant. */
  function MinPlusTwo(x: Expr, t: DataType): Plan { Projection(MinPlan(x, t), [Above()], [Field("x", Int64Type)]) }

  /** A table `t` without rows, and the one group of a global aggregate. */
  predicate EmptyTable(db: Database) {
    db.tables == map["t" := InMemory([Field("a", Int64Type)], [])] && db.listing({[]}) == [[]]
  }

  lemma ColumnM(t: DataType)
    ensures Resolve([Field("m", t)], "m") == Ok(0)
  {
    OwnNameResolves([Field("m", t)], 0);
  }

  lemma Constant(k: Kernels, n: I64)
    requires Lawful(k) && Fits(k, Int32Type, Int64(n))
    ensures forall schema, row :: Eval(k, schema, row, Int32Literal(n)) == Ok(Typed(Int32Type, Int64(n)))
    ensures forall schema :: RunType(k, schema, Int32Literal(n)) == Some(Int32Type)
    ensures forall schema :: TypeIn(schema, Int32Literal(n)) == Ok(Int32Type)
    ensures forall schema :: Simplify(k, schema, Int32Literal(n)) == Ok(Int32Literal(n))
  {
    hide Simplify; hide Eval; hide TypeIn;
    var x := Typed(Int32Type, Int64(n));
    assert TypedLiteral(x.value, x.ty) == Int32Literal(n);
    forall schema, row ensures Eval(k, schema, row, Int32Literal(n)) == Ok(x) { TypedLiteralEvaluates(k, schema, schema, row, x); }
    forall schema ensures TypeIn(schema, Int32Literal(n)) == Ok(Int32Type) { TypedLiteralEvaluates(k, schema, schema, [], x); }
    forall schema ensures Simplify(k, schema, Int32Literal(n)) == Ok(Int32Literal(n)) { ConstantIsFixed(k, schema, x); }
    assert k.canCast(Int64Type, Int32Type);
  }

  /** 32-bit arithmetic is inferred as 64 bits but folds to a 32-bit constant, so simplification
      changes the declared type of the aggregate. */
  lemma FoldedExtreme(k: Kernels, schema: Schema)
    requires Lawful(k) && k.arith(Add, Int32Type, Int64(1), Int64(2)) == Some(Int64(3))
    ensures TypeIn(schema, MinOf(Sum())) == Ok(Int64Type)
    ensures Simplify(k, schema, MinOf(Sum())) == Ok(MinOf(Int32Literal(3)))
    ensures TypeIn(schema, MinOf(Int32Literal(3))) == Ok(Int32Type)
    ensures RunType(k, schema, Sum()) == Some(Int32Type)
  {
    hide Lawful;
    Constant(k, 1);
    Constant(k, 2);
    Constant(k, 3);
    var x, y := Typed(Int32Type, Int64(1)), Typed(Int32Type, Int64(2));
    assert Eval(k, [], [], Sum()) == EvalBinary(k, Add, x, y);
    assert TypeIn(schema, Aggregate(Agg.Min, Int32Literal(3), false)) == TypeIn(schema, Int32Literal(3));
    assert TypeIn(schema, Sum()) == Ok(Int64Type);
    assert Simplify(k, schema, Sum()) == SimplifyNode(k, schema, Sum());
  }

  /** The sum above runs in the wider of its types and is always declared with 64 bits. */
  lemma AboveTyped(k: Kernels, t: DataType)
    requires Lawful(k) && (t.Int32Type? || t.Int64Type?)
    ensures RunType(k, [Field("m", t)], Above()) == Some(t) && TypeIn([Field("m", t)], Above()) == Ok(Int64Type)
    ensures Simplify(k, [Field("m", t)], Above()) == Ok(Above())
  {
    hide Lawful; hide Resolve;
    ColumnM(t);
    Constant(k, 2);
    var schema, sum := [Field("m", t)], Binary(Column("m"), Add, Int32Literal(2));
    assert TypeIn(schema, Column("m")) == Ok(t);
    assert RunType(k, schema, Column("m")) == Some(t);
    assert RunType(k, schema, sum) == ResultType(Add, t, Int32Type);
    assert TypeIn(schema, sum) == Ok(Int64Type);
    assert Simplify(k, schema, Column("m")) == Ok(Column("m"));
    assert Simplify(k, schema, sum) == SimplifyNode(k, schema, sum);
  }

  /** A minimum over no rows runs unless its column cannot be built. */
  lemma MinOverNothing(k: Kernels, db: Database, input: Plan, schema: Schema, x: Expr, t: DataType)
    requires Out(db, input) == schema && Run(k, db, input) == Some([]) && db.listing({[]}) == [[]] && !x.Wildcard? && RunType(k, schema, x).Some?
    ensures Run(k, db, Aggregation(input, [], [MinOf(x)], [Field("m", t)])) == if t.NullType? then None else Some([[Null]])
  {
    hide RunType; hide Eval; hide Out; hide AggregateRows; hide MapRows; hide Sends; hide Specs;
    var specs, fields := [Spec(Agg.Min, x, false)], [Field("m", t)];
    OneSpec(x);
    NoRowsMapped(k, schema, []);
    NoRowsMapped(k, schema, ArgsOf(specs));
    assert Tuples([], []) == [];
    MinOfNothing(db, specs[0]);
    assert Runs(k, schema, ArgsOf(specs));
    assert fields[0].ty == t && (Builds(fields, 0) <==> !t.NullType?);
  }

  /** The aggregate alone still runs: there is no value to aggregate. */
  lemma MinRuns(k: Kernels, db: Database, x: Expr, t: DataType)
    requires EmptyTable(db) && !x.Wildcard? && RunType(k, [Field("a", Int64Type)], x).Some? && !t.NullType?
    ensures Run(k, db, MinPlan(x, t)) == Some([[Null]])
  {
    hide RunType; hide Run; hide Out;
    InMemoryRuns(k, db, Table(), [Field("a", Int64Type)], []);
    MinOverNothing(k, db, Table(), [Field("a", Int64Type)], x, t);
  }

  lemma OneSpec(x: Expr)
    requires !x.Wildcard?
    ensures Specs([MinOf(x)]) == Some([Spec(Agg.Min, x, false)])
  {
    var es := [MinOf(x)];
    assert es[..|es| - 1] == [] && es[|es| - 1] == MinOf(x);
    assert SpecOf(MinOf(x)) == Some(Spec(Agg.Min, x, false));
    assert Specs([]) == Some([]);
    assert [] + [Spec(Agg.Min, x, false)] == [Spec(Agg.Min, x, false)];
  }

  lemma MinOfNothing(db: Database, spec: Spec)
    requires db.listing({[]}) == [[]] && spec.kind.Min? && !spec.distinct
    ensures AggregateRows(db, [spec], false, []) == Some([[Null]])
  {
    assert G.GroupKeys(false, []) == {[]};
    assert G.Column(G.Of([], []), 0) == [];
    assert SpecColumn(spec, G.Of([], []), 0) == [];
    assert Agg.Meaning(Agg.Min, []) == Null && Agg.Accepts(Agg.Min, []);
    assert SpecValues([spec], G.Of([], [])) == [Null];
    var rows := AggregateRows(db, [spec], false, []).value;
    assert |rows| == 1 && rows[0] == [] + SpecValues([spec], G.Of([], []));
    assert [] + [Null] == [Null];
    assert rows == [[Null]];
  }

  lemma SumRuns(k: Kernels)
    requires Lawful(k)
    ensures MapRows(k, [Field("m", Int64Type)], [Above()], [[Null]]) == Some([[Null]])
  {
    hide Resolve;
    ColumnM(Int64Type);
    Constant(k, 2);
    var schema := [Field("m", Int64Type)];
    assert Eval(k, schema, [Null], Column("m")) == Ok(Typed(Int64Type, Null));
    assert !Above().expr.Alias?;
    assert Eval(k, schema, [Null], Above()) == Eval(k, schema, [Null], Above().expr);
    assert Eval(k, schema, [Null], Above().expr) == EvalBinary(k, Add, Typed(Int64Type, Null), Typed(Int32Type, Int64(2)));
    BinaryRuns(k, Add, Typed(Int64Type, Null), Typed(Int32Type, Int64(2)));
    var es, rows := [Above()], [[Null]];
    assert es[..|es| - 1] == [] && es[|es| - 1] == Above() && rows[..|rows| - 1] == [] && rows[|rows| - 1] == [Null];
    assert EvalAll(k, schema, [Null], []) == Some([]);
    assert [] + [Null] == [Null] && [] + rows == rows;
    assert EvalAll(k, schema, [Null], es) == Some([Null]);
    assert MapRows(k, schema, es, []) == Some([]);
  }

  lemma OneField(show: Expr -> string, schema: Schema, e: Expr, name: string, t: DataType)
    requires e.Alias? && e.alias == name && TypeIn(schema, e) == Ok(t)
    ensures FieldsOf(show, schema, [e]) == Ok([Field(name, t)])
  {
    hide TypeIn;
    var es := [e];
    assert es[..|es| - 1] == [] && es[|es| - 1] == e;
    assert FieldsOf(show, schema, []) == Ok([]);
    assert [] + [Field(name, t)] == [Field(name, t)];
  }

  lemma OneSimplified(k: Kernels, schema: Schema, e: Expr, s: Expr)
    requires Simplify(k, schema, e) == Ok(s)
    ensures SimplifyAll(k, schema, [e]) == Ok([s])
  {
    hide Simplify;
    var es := [e];
    assert es[..|es| - 1] == [] && es[|es| - 1] == e;
    assert SimplifyAll(k, schema, []) == Ok([]);
    assert [] + [s] == [s];
  }

  /** An aggregation of a whole table whose argument is simplified. */
  lemma AggregateOptimizes(k: Kernels, show: Expr -> string, scan: Plan, x: Expr, t: DataType, y: Expr, t': DataType)
    requires scan.Scan? && scan.filters == [] && TypeIn(scan.schema, MinOf(x)) == Ok(t) && TypeIn(scan.schema, MinOf(y)) == Ok(t')
    requires Simplify(k, scan.schema, MinOf(x)) == Ok(MinOf(y))
    ensures Optimize(k, show, Aggregation(scan, [], [MinOf(x)], [Field("m", t)])) == Ok(Aggregation(scan, [], [MinOf(y)], [Field("m", t')]))
  {
    hide TypeIn; hide Simplify; hide FieldsOf;
    var p, p' := Aggregation(scan, [], [MinOf(x)], [Field("m", t)]), Aggregation(scan, [], [MinOf(y)], [Field("m", t')]);
    ScanIsFixed(k, show, scan);
    OneField(show, scan.schema, MinOf(x), "m", t);
    OneField(show, scan.schema, MinOf(y), "m", t');
    OneSimplified(k, scan.schema, MinOf(x), MinOf(y));
    assert [] + [MinOf(x)] == [MinOf(x)] && [] + [MinOf(y)] == [MinOf(y)];
    assert MakeAggregation(show, scan, [], [MinOf(x)]) == Ok(p);
    assert MakeAggregation(show, scan, [], [MinOf(y)]) == Ok(p');
    assert SimplifyAll(k, scan.schema, []) == Ok([]);
    assert OptimizeChildren(k, show, p) == Ok(p);
    assert SimplifyExpressions(k, show, p) == Ok(p');
  }

  lemma MinOptimizes(k: Kernels, show: Expr -> string)
    requires Lawful(k) && k.arith(Add, Int32Type, Int64(1), Int64(2)) == Some(Int64(3))
    ensures Optimize(k, show, MinPlan(Sum(), Int64Type)) == Ok(MinPlan(Int32Literal(3), Int32Type))
  {
    hide Lawful; hide TypeIn; hide Simplify; hide Optimize;
    FoldedExtreme(k, Table().schema);
    AggregateOptimizes(k, show, Table(), Sum(), Int64Type, Int32Literal(3), Int32Type);
  }

  lemma SumOptimizes(k: Kernels, show: Expr -> string)
    requires Lawful(k) && k.arith(Add, Int32Type, Int64(1), Int64(2)) == Some(Int64(3))
    ensures Optimize(k, show, MinPlusTwo(Sum(), Int64Type)) == Ok(MinPlusTwo(Int32Literal(3), Int32Type))
  {
    hide Lawful; hide TypeIn; hide Simplify; hide FieldsOf; hide Expand;
    var inner := MinPlan(Int32Literal(3), Int32Type);
    MinOptimizes(k, show);
    AboveTyped(k, Int32Type);
    OneField(show, inner.schema, Above(), "x", Int64Type);
    OneSimplified(k, inner.schema, Above(), Above());
    NothingToExpand([Above()], inner.schema);
    var rebuilt := MinPlusTwo(Int32Literal(3), Int32Type);
    assert Project(show, inner, [Above()]) == Ok(rebuilt);
    assert OptimizeChildren(k, show, MinPlusTwo(Sum(), Int64Type)) == Ok(rebuilt);
    assert SimplifyExpressions(k, show, rebuilt) == Ok(rebuilt);
    assert !Unalias(Above()).Column?;
  }

  /** So a plan can stop running when it is optimized: the sum above the aggregate ran in 64 bits,
      as it was declared, and the optimized plan runs it in 32. */
  lemma FoldedExtremeStopsThePlan(k: Kernels, show: Expr -> string, db: Database)
    requires Lawful(k) && k.arith(Add, Int32Type, Int64(1), Int64(2)) == Some(Int64(3)) && EmptyTable(db)
    ensures var p, p' := MinPlusTwo(Sum(), Int64Type), MinPlusTwo(Int32Literal(3), Int32Type);
      Run(k, db, p) == Some([[Null]]) && Optimize(k, show, p) == Ok(p') && Run(k, db, p') == None
  {
    hide Lawful; hide RunType; hide Simplify; hide MapRows; hide Optimize; hide AggregateRows; hide Specs;
    FoldedExtreme(k, [Field("a", Int64Type)]);
    Constant(k, 3);
    MinRuns(k, db, Sum(), Int64Type);
    MinRuns(k, db, Int32Literal(3), Int32Type);
    AboveTyped(k, Int64Type);
    AboveTyped(k, Int32Type);
    SumRuns(k);
    SumOptimizes(k, show);
    assert !RunAs(k, [Field("m", Int32Type)], [Above()], [Field("x", Int64Type)]) by {
      assert [Above()][0] == Above() && [Field("x", Int64Type)][0].ty == Int64Type;
    }
  }

  // ----- columns that fade ---------------------------------------------------------------------------

  function Faded(): Plan { Scan("t", None, [], [Field("n", NullType)]) }

  function TrueAnd(): Expr { Binary(Literal(Boolean(true)), And, Column("n")) }

  /** `SELECT MIN(x) AS m FROM t` over a table whose column has the type of NULL. */
  function MinOfFaded(x: Expr, t: DataType): Plan { Aggregation(Faded(), [], [MinOf(x)], [Field("m", t)]) }

  lemma TrueAndTyped(k: Kernels, schema: Schema)
    requires schema == [Field("n", NullType)]
    ensures RunType(k, schema, TrueAnd()) == Some(BooleanType) && RunType(k, schema, Column("n")) == Some(NullType)
    ensures TypeIn(schema, MinOf(TrueAnd())) == Ok(BooleanType) && TypeIn(schema, MinOf(Column("n"))) == Ok(NullType)
    ensures Simplify(k, schema, MinOf(TrueAnd())) == Ok(MinOf(Column("n")))
  {
    hide Resolve;
    OwnNameResolves(schema, 0);
    var n := Column("n");
    assert TypeIn(schema, n) == Ok(NullType) && RunType(k, schema, n) == Some(NullType) && Simplify(k, schema, n) == Ok(n);
    assert TypeIn(schema, TrueAnd()) == Ok(BooleanType);
    ConstantTrue(k, schema);
    assert Simplify(k, schema, TrueAnd()) == SimplifyNode(k, schema, TrueAnd()) == Ok(n);
    assert TypeIn(schema, Aggregate(Agg.Min, n, false)) == TypeIn(schema, n);
  }

  /** The minimum of a truth value that is always NULL runs; simplified, its column has the type of
      NULL and cannot be built. */
  lemma FadedExtremeStopsThePlan(k: Kernels, show: Expr -> string, db: Database)
    requires db.tables == map["t" := InMemory([Field("n", NullType)], [])] && db.listing({[]}) == [[]]
    ensures var p, p' := MinOfFaded(TrueAnd(), BooleanType), MinOfFaded(Column("n"), NullType);
      Run(k, db, p) == Some([[Null]]) && Optimize(k, show, p) == Ok(p') && Run(k, db, p') == None
  {
    hide Run; hide Optimize; hide RunType; hide TypeIn; hide Simplify; hide Out;
    var schema := [Field("n", NullType)];
    InMemoryRuns(k, db, Faded(), schema, []);
    TrueAndTyped(k, schema);
    MinOverNothing(k, db, Faded(), schema, TrueAnd(), BooleanType);
    MinOverNothing(k, db, Faded(), schema, Column("n"), NullType);
    AggregateOptimizes(k, show, Faded(), TrueAnd(), BooleanType, Column("n"), NullType);
  }

  // ----- join keys -----------------------------------------------------------------------------------

  function Keyed(): Schema { [Field("a", Int32Type)] }

  function NullKey(): Expr { Binary(Column("a"), Add, TypedLiteral(Null, Int32Type)) }

  function SumKey(): Expr { Binary(Column("a"), Add, Column("a")) }

  /** Table `t` joined with itself. */
  function SelfJoin(left: Expr): Plan {
    var scan := Scan("t", None, [], Keyed());
    Join(scan, scan, J.Inner, [left], [SumKey()], JoinFields(Keyed(), Keyed()))
  }

  /** A table `t` with one row. */
  predicate OneKeyTable(db: Database) {
    db.tables == map["t" := InMemory(Keyed(), [[Null]])]
  }

  /** Both keys are declared with 64 bits and run with 32; once the first one is simplified to NULL,
      both are still declared with 64 bits but only one runs so. */
  lemma NullKeyChangesType(k: Kernels)
    requires Lawful(k)
    ensures var schema, folded := Keyed(), TypedLiteral(Null, Int64Type);
      && KeyTypesMatch(schema, schema, [NullKey()], [SumKey()]) && KeysRun(k, schema, [NullKey()], schema, [SumKey()])
      && SimplifyAll(k, schema, [NullKey()]) == Ok([folded]) && SimplifyAll(k, schema, [SumKey()]) == Ok([SumKey()])
      && KeyTypesMatch(schema, schema, [folded], [SumKey()]) && !KeysRun(k, schema, [folded], schema, [SumKey()])
  {
    hide Lawful; hide Resolve; hide SimplifyAll;
    var schema := Keyed();
    OwnNameResolves(schema, 0);
    var a, none := Column("a"), TypedLiteral(Null, Int32Type);
    var left, right, folded := NullKey(), SumKey(), TypedLiteral(Null, Int64Type);
    NullConstant(k, schema, Int32Type);
    NullConstant(k, schema, Int64Type);
    assert RunType(k, schema, a) == Some(Int32Type) && TypeIn(schema, a) == Ok(Int32Type) && Simplify(k, schema, a) == Ok(a);
    assert RunType(k, schema, left) == Some(Int32Type) && RunType(k, schema, right) == Some(Int32Type);
    assert TypeIn(schema, left) == Ok(Int64Type) && TypeIn(schema, right) == Ok(Int64Type);
    assert Simplify(k, schema, left) == SimplifyNode(k, schema, left);
    assert Simplify(k, schema, right) == SimplifyNode(k, schema, right);
    OneSimplified(k, schema, left, folded);
    OneSimplified(k, schema, right, right);
    OneKey(k, schema, left, right);
    OneKey(k, schema, folded, right);
  }

  /** So the join of a table with itself on these keys stops running when it is optimized. */
  lemma NullKeyStopsTheJoin(k: Kernels, show: Expr -> string, db: Database)
    requires Lawful(k) && OneKeyTable(db)
    ensures var p, p' := SelfJoin(NullKey()), SelfJoin(TypedLiteral(Null, Int64Type));
      Run(k, db, p) == Some([]) && Optimize(k, show, p) == Ok(p') && Run(k, db, p') == None
  {
    hide Lawful; hide KeyTypesMatch; hide KeysRun; hide SimplifyAll; hide JoinFields; hide MapRows; hide JoinRows; hide Out;
    var scan := Scan("t", None, [], Keyed());
    NullKeyChangesType(k);
    InMemoryRuns(k, db, scan, Keyed(), [[Null]]);
    ScanIsFixed(k, show, scan);
    KeyIsNull(k);
    KeyedColumns();
    assert KeysFit(k, Keyed(), [NullKey()], true, Keyed(), [SumKey()], true) by { KeysRunBoth(k, Keyed(), [NullKey()], [SumKey()]); }
    NullKeysJoinNothing([[Null]]);
    assert MakeJoin(scan, scan, J.Inner, [NullKey()], [SumKey()]) == Ok(SelfJoin(NullKey()));
    assert OptimizeChildren(k, show, SelfJoin(NullKey())) == Ok(SelfJoin(NullKey()));
  }

  lemma KeysRunBoth(k: Kernels, schema: Schema, l: seq<Expr>, r: seq<Expr>)
    requires KeysRun(k, schema, l, schema, r)
    ensures Runs(k, schema, l) && Runs(k, schema, r)
  {
    hide RunType;
  }

  lemma KeyedColumns()
    ensures Builds(JoinFields(Keyed(), Keyed()), 0)
  {
    hide JoinFields;
    JoinFieldTypes(Keyed(), Keyed());
    var fields := JoinFields(Keyed(), Keyed());
    assert fields[0] == Keyed()[0] && fields[1 + 0].ty == Keyed()[0].ty;
  }

  /** Both keys of the row are NULL. */
  lemma KeyIsNull(k: Kernels)
    requires Lawful(k)
    ensures MapRows(k, Keyed(), [NullKey()], [[Null]]) == Some([[Null]]) && MapRows(k, Keyed(), [SumKey()], [[Null]]) == Some([[Null]])
  {
    hide Lawful; hide Resolve; hide EvalBinary; hide MapRows; hide EvalAll;
    var schema, x := Keyed(), Typed(Int32Type, Null);
    OwnNameResolves(schema, 0);
    assert Eval(k, schema, [Null], Column("a")) == Ok(x);
    TypedLiteralEvaluates(k, schema, schema, [Null], x);
    assert Eval(k, schema, [Null], NullKey()) == EvalBinary(k, Add, x, x);
    assert Eval(k, schema, [Null], SumKey()) == EvalBinary(k, Add, x, x);
    BinaryRuns(k, Add, x, x);
    BinaryValue(k, Add, x, x);
    OneEvaluated(k, schema, [Null], NullKey(), EvalBinary(k, Add, x, x).value);
    OneEvaluated(k, schema, [Null], SumKey(), EvalBinary(k, Add, x, x).value);
    OneMapped(k, schema, [NullKey()], [Null], [Null]);
    OneMapped(k, schema, [SumKey()], [Null], [Null]);
  }

  lemma OneMapped(k: Kernels, names: Schema, exprs: seq<Expr>, row: Row, values: Row)
    requires EvalAll(k, names, row, exprs) == Some(values)
    ensures MapRows(k, names, exprs, [row]) == Some([values])
  {
    hide EvalAll;
    MapRowsBuild(k, names, exprs, [row], [values]);
  }

  lemma OneEvaluated(k: Kernels, names: Schema, row: Row, e: Expr, v: Typed)
    requires Eval(k, names, row, e) == Ok(v)
    ensures EvalAll(k, names, row, [e]) == Some([v.value])
  {
    hide Eval;
    var es := [e];
    assert es[..|es| - 1] == [] && es[|es| - 1] == e;
    assert EvalAll(k, names, row, []) == Some([]);
    assert [] + [v.value] == [v.value];
  }

  lemma NullKeysJoinNothing(rows: seq<Row>)
    requires rows == [[Null]]
    ensures JoinRows(J.Inner, 1, rows, rows, rows, rows) == []
  {
    var key: Row := [Null];
    assert rows[..0] == [] && rows[|rows| - 1] == key && key[0].Null? && HasNull(key);
    assert KeyMatches(key, [], []) == [] && KeyMatches(key, rows, rows) == [];
    assert JoinRows(J.Inner, 1, [], [], rows, rows) == [];
  }

  lemma NullConstant(k: Kernels, schema: Schema, t: DataType)
    requires Lawful(k) && (t.Int32Type? || t.Int64Type?)
    ensures var e := TypedLiteral(Null, t);
      && RunType(k, schema, e) == Some(t) && TypeIn(schema, e) == Ok(t) && Simplify(k, schema, e) == Ok(e) && IsNullExpression(e)
  {
    hide Simplify;
    TypedLiteralEvaluates(k, schema, schema, [], Typed(t, Null));
    ConstantIsFixed(k, schema, Typed(t, Null));
    assert k.canCast(NullType, t);
  }

  lemma OneKey(k: Kernels, schema: Schema, l: Expr, r: Expr)
    ensures KeyTypesMatch(schema, schema, [l], [r]) <==> TypeIn(schema, l).Ok? && TypeIn(schema, l) == TypeIn(schema, r)
    ensures KeysRun(k, schema, [l], schema, [r]) <==> RunType(k, schema, l).Some? && RunType(k, schema, l) == RunType(k, schema, r)
  {
    hide TypeIn; hide RunType;
    assert [l][0] == l && [r][0] == r;
  }

  // ----- the guard of MIN and MAX is exact -----------------------------------------------------------

  function Doubled(name: string): Expr { Alias(Binary(Column(name), Add, Column(name)), "x") }

  /** No rows of a plan, and one of its columns added to itself. */
  function DoubledPlan(p: Plan, name: string, t: DataType): Plan {
    Projection(Filter(p, Literal(Boolean(false)), p.schema), [Doubled(name)], [Field("x", t)])
  }

  lemma DoubledTyped(k: Kernels, schema: Schema, i: nat)
    requires i < |schema| && Resolve(schema, schema[i].name) == Ok(i) && IsNumeric(schema[i].ty)
    ensures RunType(k, schema, Doubled(schema[i].name)) == Some(schema[i].ty)
    ensures TypeIn(schema, Doubled(schema[i].name)) == Ok(Normalized(schema[i].ty))
    ensures Simplify(k, schema, Doubled(schema[i].name)) == Ok(Doubled(schema[i].name))
  {
    hide Resolve;
    var c := Column(schema[i].name);
    var sum := Binary(c, Add, c);
    assert TypeIn(schema, c) == Ok(schema[i].ty) && RunType(k, schema, c) == Some(schema[i].ty) && Simplify(k, schema, c) == Ok(c);
    assert TypeIn(schema, sum) == Ok(Normalized(schema[i].ty));
    assert Simplify(k, schema, sum) == SimplifyNode(k, schema, sum);
  }

  lemma {:induction false} NothingPasses(k: Kernels, names: Schema, rows: seq<Row>)
    ensures Pruning.FilterRows(k, names, Literal(Boolean(false)), rows) == Some([])
  {
    if rows != [] { NothingPasses(k, names, rows[..|rows| - 1]); }
  }

  lemma OneDecided(k: Kernels, names: Schema, e: Expr, row: Row, kept: bool)
    requires Eval(k, names, row, e) == Ok(Typed(BooleanType, Boolean(kept)))
    ensures Pruning.FilterRows(k, names, e, [row]) == Some(if kept then [row] else [])
  {
    hide Eval;
    var rows := [row];
    assert rows[..|rows| - 1] == [] && rows[|rows| - 1] == row;
    assert Pruning.FilterRows(k, names, e, []) == Some([]);
    assert [] + [row] == [row];
  }

  lemma DoubledRuns(k: Kernels, db: Database, p: Plan, i: nat, t: DataType)
    requires i < |p.schema| && Resolve(p.schema, p.schema[i].name) == Ok(i) && IsNumeric(p.schema[i].ty) && Out(db, p) == p.schema && Sends(k, db, p)
    ensures p.schema[i].ty == t && Run(k, db, p).Some? ==> Run(k, db, DoubledPlan(p, p.schema[i].name, t)) == Some([])
    ensures p.schema[i].ty != t ==> Run(k, db, DoubledPlan(p, p.schema[i].name, t)) == None
  {
    hide RunType; hide Resolve; hide MapRows; hide Pruning.FilterRows;
    DoubledTyped(k, p.schema, i);
    var name := p.schema[i].name;
    var none, es, fields := Filter(p, Literal(Boolean(false)), p.schema), [Doubled(name)], [Field("x", t)];
    assert RunAs(k, p.schema, es, fields) <==> p.schema[i].ty == t by {
      assert es[0] == Doubled(name) && fields[0].ty == t;
    }
    assert RunType(k, p.schema, Literal(Boolean(false))) == Some(BooleanType) by { FalseTyped(k, p.schema); }
    if Run(k, db, p).Some? { NothingPasses(k, p.schema, Run(k, db, p).value); }
    NoRowsMapped(k, p.schema, es);
  }

  lemma FalseTyped(k: Kernels, schema: Schema)
    ensures RunType(k, schema, Literal(Boolean(false))) == Some(BooleanType) && TypeIn(schema, Literal(Boolean(false))) == Ok(BooleanType)
    ensures Simplify(k, schema, Literal(Boolean(false))) == Ok(Literal(Boolean(false)))
  {
  }

  lemma DoubledOptimizes(k: Kernels, show: Expr -> string, p: Plan, p': Plan, i: nat, t: DataType)
    requires Optimize(k, show, p) == Ok(p') && !p'.Scan? && SameNames(p.schema, p'.schema) && i < |p.schema|
    requires Resolve(p.schema, p.schema[i].name) == Ok(i) && IsNumeric(p'.schema[i].ty) && Normalized(p'.schema[i].ty) == t
    ensures Optimize(k, show, DoubledPlan(p, p.schema[i].name, t)) == Ok(DoubledPlan(p', p'.schema[i].name, t))
  {
    hide Simplify; hide TypeIn; hide FieldsOf; hide Expand; hide Resolve; hide SimplifyAll;
    var name, no := p.schema[i].name, Literal(Boolean(false));
    var c, c' := Filter(p, no, p.schema), Filter(p', no, p'.schema);
    SameNamesResolve(p.schema, p'.schema, name);
    FalseTyped(k, p'.schema);
    assert OptimizeChildren(k, show, c) == Ok(c') && SimplifyExpressions(k, show, c') == Ok(c') && PushFilter(c') == Ok(c');
    assert Optimize(k, show, c) == Ok(c');
    DoubledTyped(k, p'.schema, i);
    OneField(show, p'.schema, Doubled(name), "x", t);
    OneSimplified(k, p'.schema, Doubled(name), Doubled(name));
    NothingToExpand([Doubled(name)], p'.schema);
    var q := DoubledPlan(p', name, t);
    assert Project(show, c', [Doubled(name)]) == Ok(q);
    assert OptimizeChildren(k, show, DoubledPlan(p, name, t)) == Ok(q);
    assert SimplifyExpressions(k, show, q) == Ok(q);
    assert !Unalias(Doubled(name)).Column?;
  }

  /** The type of an aggregation's column fades when its input is optimized, or is a number that
      narrows. */
  lemma AggregationTypes(k: Kernels, show: Expr -> string, db: Database, p: Plan, p': Plan, rows: seq<Row>, out: seq<Row>, i: nat)
    requires Lawful(k) && LawfulDb(k, db) && Aggregating(k, show, db, p, p', rows, out) && Sends(k, db, p.input) && i < |p.schema|
    ensures i < |p'.schema| && (Fades(p.schema[i].ty, p'.schema[i].ty) || Narrows(p.schema[i].ty, p'.schema[i].ty))
  {
    hide MapRows; hide RunType; hide TypeIn; hide Eval; hide FieldsOf; hide AggregateRows; hide ScanNarrowing.ScanOk; hide Builds;
    hide Simplify; hide Specs; hide SpecOf;
    hide Lawful; hide LawfulDb; hide Linked; hide Related; hide AllFit; hide SimplifyAll; hide Plain; hide Sends; hide Out;
    hide Compatible; hide Narrows; hide Fades;
    hide SchemaShifts; hide NoAlias; hide PlainAll; hide RunAs; hide Runs;
    var plan, run, plan', run', g := p.input.schema, Out(db, p.input), p'.input.schema, Out(db, p'.input), |p.groups|;
    var specs := Specs(p.aggregates).value;
    assert RunAs(k, run, p.groups, p.schema) && Runs(k, run, ArgsOf(specs));
    LinkedIsCompatible(plan, run);
    LinkedIsCompatible(plan', run');
    RelatedGrows(run, run', rows);
    SimplifiedTogether(k, plan', p.groups, p.aggregates, p'.groups, p'.aggregates);
    var e, s := (p.groups + p.aggregates)[i], (p'.groups + p'.aggregates)[i];
    if i < g {
      assert e == p.groups[i] && RunType(k, run, e).Some? by { assert e == p.groups[i]; RunsAs(k, run, p.groups, p.schema, i); }
      PlainHasRootAliases(p.groups);
      InferredShifts(false, k, plan, run, plan', run', e, s);
    } else {
      assert e == p.aggregates[i - g] && Plain(e) && SpecOf(e) == Some(specs[i - g]) by { PlainAt(p.aggregates, i - g); }
      RunsArg(k, run, specs, i - g);
      AggregateTypes(k, plan, run, plan', run', e, s);
    }
  }

  lemma RunsAs(k: Kernels, run: Schema, exprs: seq<Expr>, fields: Schema, i: nat)
    requires RunAs(k, run, exprs, fields) && i < |exprs|
    ensures RunType(k, run, exprs[i]).Some?
  {
    hide RunType;
  }

  lemma RunsArg(k: Kernels, run: Schema, specs: seq<Spec>, i: nat)
    requires Runs(k, run, ArgsOf(specs)) && i < |specs|
    ensures RunType(k, run, specs[i].arg).Some?
  {
    hide RunType;
    assert ArgsOf(specs)[i] == specs[i].arg;
  }

  lemma PlainAt(exprs: seq<Expr>, i: nat)
    requires PlainAll(exprs) && i < |exprs|
    ensures Plain(exprs[i])
  {
    hide Plain;
  }

  lemma AggregateTypes(k: Kernels, plan: Schema, run: Schema, plan': Schema, run': Schema, e: Expr, s: Expr)
    requires Lawful(k) && Compatible(plan, run) && Compatible(plan', run') && SchemaShifts(false, run, run')
    requires Plain(e) && SpecOf(e).Some? && Simplify(k, plan', e) == Ok(s) && RunType(k, run, SpecOf(e).value.arg).Some?
    requires TypeIn(plan, e).Ok? && TypeIn(plan', s).Ok?
    ensures Fades(TypeIn(plan, e).value, TypeIn(plan', s).value) || Narrows(TypeIn(plan, e).value, TypeIn(plan', s).value)
  {
    hide Lawful; hide Compatible; hide SchemaShifts; hide RunType; hide TypeIn; hide Simplify; hide Plain; hide Narrows;
    SimplifiedSpec(k, plan', e, s);
    AggregateTyped(plan, e);
    AggregateTyped(plan', s);
    var x, y := Unalias(e), Unalias(s);
    if x.kind.Min? || x.kind.Max? {
      ExtremeArgument(plan, e);
      ExtremeArgument(plan', s);
      InferredShifts(false, k, plan, run, plan', run', x.expr, y.expr);
    }
  }

  lemma NarrowedIsNumeric(t: DataType, t': DataType)
    requires Narrows(t, t')
    ensures IsNumeric(t) && IsNumeric(t') && Normalized(t') == t
  {
  }

  /** The guard of `OptimizerPreservesRows` for the types of an aggregation is exact. Take any
      aggregation over steady inputs that hand on a batch, and a column of it with a name of its own
      whose type does not just fade: the aggregation can be extended to a plan that runs, is accepted,
      and no longer runs when optimized. */
  lemma NarrowedExtremeStopsAPlan(k: Kernels, show: Expr -> string, db: Database, p: Plan, i: nat)
    requires Lawful(k) && LawfulDb(k, db) && p.Aggregation? && Source(show, db, p) && SteadyInputs(k, show, db, p) && Sends(k, db, p.input)
    requires Run(k, db, p).Some? && Optimize(k, show, p).Ok? && i < |p.schema| && Resolve(p.schema, p.schema[i].name) == Ok(i)
    requires var p' := Optimize(k, show, p).value; i < |p'.schema| ==> !Shifts(false, p.schema[i].ty, p'.schema[i].ty)
    ensures var column := p.schema[i];
      var q, q' := DoubledPlan(p, column.name, column.ty), DoubledPlan(Optimize(k, show, p).value, column.name, column.ty);
      Run(k, db, q) == Some([]) && Optimize(k, show, q) == Ok(q') && Run(k, db, q') == None
  {
    hide Resolve; hide Optimize; hide Run; hide Lawful; hide LawfulDb; hide Source; hide SteadyInputs; hide Out; hide Narrows;
    var p' := Optimize(k, show, p).value;
    OptimizedAggregate(k, show, db, p);
    AggregationTypes(k, show, db, p, p', Run(k, db, p.input).value, Run(k, db, p).value, i);
    NarrowedIsNumeric(p.schema[i].ty, p'.schema[i].ty);
    AggregatedNames(k, show, p, p');
    SameNamesResolve(p.schema, p'.schema, p.schema[i].name);
    AggregationOut(k, db, p);
    AggregationOut(k, db, p');
    DoubledRuns(k, db, p, i, p.schema[i].ty);
    DoubledOptimizes(k, show, p, p', i, p.schema[i].ty);
    DoubledRuns(k, db, p', i, p.schema[i].ty);
  }

  lemma AggregationOut(k: Kernels, db: Database, p: Plan)
    requires p.Aggregation?
    ensures Out(db, p) == p.schema && Sends(k, db, p)
  {
  }

  /** The setting in which an aggregation is optimized. */
  lemma OptimizedAggregate(k: Kernels, show: Expr -> string, db: Database, p: Plan)
    requires Lawful(k) && LawfulDb(k, db) && p.Aggregation? && Source(show, db, p) && SteadyInputs(k, show, db, p)
    requires Run(k, db, p).Some? && Optimize(k, show, p).Ok?
    ensures Run(k, db, p.input).Some?
    ensures Aggregating(k, show, db, p, Optimize(k, show, p).value, Run(k, db, p.input).value, Run(k, db, p).value)
  {
    hide Run; hide Simplify; hide TypeIn; hide Lawful; hide LawfulDb; hide SimplifyAll; hide Project; hide FieldsOf; hide Input;
    hide PlainAll; hide Out; hide Steady;
    InputsRun(k, db, p);
    InputsOptimize(k, show, p);
    OptimizedInput(k, show, db, p.input);
  }
}
