/** Where the optimizer changes the rows of a plan that still runs: MIN and MAX of folded 32-bit
    floats. */
module OptimizerRounding {
  import opened Basics
  import opened Values
  import opened Expr
  import opened ExprTyping
  import opened Simplification
  import opened Plans
  import opened Optimizer
  import opened OptimizerLimits
  import Agg = Aggregates
  import G = GroupBy
  import Pruning

  const LARGE: real := 16777216.0

  function Single(x: real): Expr { TypedLiteral(Float64(x), Float32Type) }

  function LargeSum(): Expr { Binary(Single(16777215.0), Add, Single(1.0)) }

  /** The minimum plus one is larger than a 32-bit float can tell. */
  function OneMore(): Expr { Binary(Binary(Column("m"), Add, Single(1.0)), Eq, Literal(Float64(16777217.0))) }

  function LargeMin(x: Expr, t: DataType): Plan { Filter(MinPlan(x, t), OneMore(), [Field("m", t)]) }

  /** A table `t` with one row, and the one group of a global aggregate. */
  predicate OneRowTable(db: Database) {
    db.tables == map["t" := InMemory([Field("a", Int64Type)], [[Int64(0)]])] && db.listing({[]}) == [[]]
  }

  /** 32-bit floats are precise up to 2 to the power of 24 and round beyond, 64-bit ones do not yet. */
  predicate Rounds(k: Kernels) {
    && k.single(16777215.0) && k.single(LARGE)
    && k.arith(Add, Float32Type, Float64(16777215.0), Float64(1.0)) == Some(Float64(LARGE))
    && k.arith(Add, Float32Type, Float64(LARGE), Float64(1.0)) == Some(Float64(LARGE))
    && k.arith(Add, Float64Type, Float64(LARGE), Float64(1.0)) == Some(Float64(16777217.0))
  }

  lemma SingleConstant(k: Kernels, schema: Schema, row: Row, x: real)
    requires Lawful(k) && k.single(x)
    ensures var e := Single(x);
      && Eval(k, schema, row, e) == Ok(Typed(Float32Type, Float64(x))) && RunType(k, schema, e) == Some(Float32Type)
      && TypeIn(schema, e) == Ok(Float32Type) && Simplify(k, schema, e) == Ok(e) && e == Cast(Literal(Float64(x)), Float32Type)
  {
    hide Simplify; hide Eval; hide TypeIn;
    TypedLiteralEvaluates(k, schema, schema, row, Typed(Float32Type, Float64(x)));
    ConstantIsFixed(k, schema, Typed(Float32Type, Float64(x)));
    assert k.canCast(Float64Type, Float32Type);
  }

  lemma FoldedFloats(k: Kernels, schema: Schema, row: Row)
    requires Lawful(k) && Rounds(k)
    ensures TypeIn(schema, MinOf(LargeSum())) == Ok(Float64Type) && TypeIn(schema, MinOf(Single(LARGE))) == Ok(Float32Type)
    ensures Simplify(k, schema, MinOf(LargeSum())) == Ok(MinOf(Single(LARGE)))
    ensures RunType(k, schema, LargeSum()) == Some(Float32Type)
    ensures Eval(k, schema, row, LargeSum()) == Ok(Typed(Float32Type, Float64(LARGE)))
  {
    hide Lawful; hide TypedLiteral;
    var x, y := Typed(Float32Type, Float64(16777215.0)), Typed(Float32Type, Float64(1.0));
    SingleConstant(k, schema, row, 16777215.0);
    SingleConstant(k, schema, row, LARGE);
    OneIsSingle(k);
    SingleConstant(k, schema, row, 1.0);
    SingleConstant(k, [], [], 16777215.0);
    SingleConstant(k, [], [], 1.0);
    assert Eval(k, [], [], LargeSum()) == EvalBinary(k, Add, x, y);
    assert TypeIn(schema, LargeSum()) == Ok(Float64Type);
    assert TypeIn(schema, Aggregate(Agg.Min, Single(LARGE), false)) == TypeIn(schema, Single(LARGE));
    assert Simplify(k, schema, LargeSum()) == SimplifyNode(k, schema, LargeSum());
  }

  lemma OneIsSingle(k: Kernels)
    requires Lawful(k)
    ensures k.single(1.0)
  {
  }

  lemma MinOfOne(db: Database, spec: Spec, v: Scalar)
    requires db.listing({[]}) == [[]] && spec.kind.Min? && !spec.distinct && !v.Null?
    ensures AggregateRows(db, [spec], false, [G.Tuple([], [v])]) == Some([[v]])
  {
    var tuples := [G.Tuple([], [v])];
    assert tuples[..0] == [] && G.Of(tuples, []) == tuples;
    assert G.GroupKeys(false, tuples) == {[]};
    assert G.Column(tuples, 0) == [v];
    var column := [v];
    assert column[..0] == [] && Agg.Best(true, column) == Some(v);
    assert SpecColumn(spec, tuples, 0) == [v];
    assert SpecValues([spec], G.Of(tuples, [])) == [v];
    var rows := AggregateRows(db, [spec], false, tuples).value;
    assert |rows| == 1 && rows[0] == [] + SpecValues([spec], G.Of(tuples, []));
    assert [] + [v] == [v];
    assert rows == [[v]];
  }

  lemma MinRunsOnOne(k: Kernels, db: Database, x: Expr, t: DataType, v: Typed)
    requires OneRowTable(db) && !x.Wildcard? && RunType(k, [Field("a", Int64Type)], x).Some? && !v.value.Null? && !t.NullType?
    requires Eval(k, [Field("a", Int64Type)], [Int64(0)], x) == Ok(v)
    ensures Run(k, db, MinPlan(x, t)) == Some([[v.value]])
  {
    hide RunType; hide Eval; hide MapRows; hide EvalAll; hide AggregateRows; hide Specs; hide Out; hide Sends;
    var names, specs := [Field("a", Int64Type)], [Spec(Agg.Min, x, false)];
    OneSpec(x);
    InMemoryRuns(k, db, Table(), names, [[Int64(0)]]);
    assert EvalAll(k, names, [Int64(0)], []) == Some([]) by { NothingEvaluated(k, names); }
    OneMapped(k, names, [], [Int64(0)], []);
    OneEvaluated(k, names, [Int64(0)], x, v);
    assert ArgsOf(specs) == [x];
    OneMapped(k, names, [x], [Int64(0)], [v.value]);
    assert Tuples([[]], [[v.value]]) == [G.Tuple([], [v.value])];
    MinOfOne(db, specs[0], v.value);
    assert Runs(k, names, ArgsOf(specs)) && Builds([Field("m", t)], 0);
  }

  lemma NothingEvaluated(k: Kernels, names: Schema)
    ensures EvalAll(k, names, [Int64(0)], []) == Some([])
  {
  }

  /** The filter on the minimum in either width. */
  lemma OneMoreRuns(k: Kernels, t: DataType)
    requires Lawful(k) && Rounds(k) && (t.Float32Type? || t.Float64Type?)
    ensures RunType(k, [Field("m", t)], OneMore()) == Some(BooleanType) && TypeIn([Field("m", t)], OneMore()) == Ok(BooleanType)
    ensures Simplify(k, [Field("m", t)], OneMore()) == Ok(OneMore())
    ensures Eval(k, [Field("m", t)], [Float64(LARGE)], OneMore()) == Ok(Typed(BooleanType, Boolean(t.Float64Type?)))
  {
    hide Lawful; hide Resolve; hide TypedLiteral; hide EvalBinary; hide Rounds;
    var schema, row, m := [Field("m", t)], [Float64(LARGE)], Column("m");
    ColumnM(t);
    OneIsSingle(k);
    SingleConstant(k, schema, row, 1.0);
    var sum, number := Binary(m, Add, Single(1.0)), Literal(Float64(16777217.0));
    assert TypeIn(schema, m) == Ok(t) && RunType(k, schema, m) == Some(t) && Simplify(k, schema, m) == Ok(m);
    assert TypeIn(schema, sum) == Ok(Float64Type) && RunType(k, schema, sum) == Some(t);
    assert Simplify(k, schema, sum) == SimplifyNode(k, schema, sum) == Ok(sum);
    assert Simplify(k, schema, number) == Ok(number) by { LiteralForm(number.value); NumberIsFixed(k, schema, number.value); }
    assert Simplify(k, schema, OneMore()) == SimplifyNode(k, schema, OneMore()) == Ok(OneMore());
    assert Eval(k, schema, row, m) == Ok(Typed(t, Float64(LARGE)));
    RoundedSum(k, t);
    assert Eval(k, schema, row, sum) == EvalBinary(k, Add, Typed(t, Float64(LARGE)), Typed(Float32Type, Float64(1.0)));
  }

  lemma NumberIsFixed(k: Kernels, schema: Schema, v: Scalar)
    ensures Simplify(k, schema, Literal(v)) == Ok(TypedLiteral(v, TypeOf(v)))
  {
  }

  lemma RoundedSum(k: Kernels, t: DataType)
    requires Lawful(k) && Rounds(k) && (t.Float32Type? || t.Float64Type?)
    ensures var sum := EvalBinary(k, Add, Typed(t, Float64(LARGE)), Typed(Float32Type, Float64(1.0)));
      && sum == Ok(Typed(t, Float64(if t.Float64Type? then 16777217.0 else LARGE)))
      && EvalBinary(k, Eq, sum.value, Typed(Float64Type, Float64(16777217.0))) == Ok(Typed(BooleanType, Boolean(t.Float64Type?)))
  {
    assert Fits(k, Float32Type, Float64(1.0)) && Fits(k, Float32Type, Float64(LARGE)) && Normalized(Float32Type) == Float64Type;
    assert k.cast(Float32Type, Float64Type, Float64(1.0)) == Float64(1.0);
    assert k.cast(Float32Type, Float64Type, Float64(LARGE)) == Float64(LARGE);
  }

  lemma LargeMinRuns(k: Kernels, db: Database, x: Expr, t: DataType, v: DataType)
    requires Lawful(k) && Rounds(k) && OneRowTable(db) && (t.Float32Type? || t.Float64Type?)
    requires !x.Wildcard? && RunType(k, [Field("a", Int64Type)], x).Some?
    requires Eval(k, [Field("a", Int64Type)], [Int64(0)], x) == Ok(Typed(v, Float64(LARGE)))
    ensures Run(k, db, LargeMin(x, t)) == Some(if t.Float64Type? then [[Float64(LARGE)]] else [])
  {
    hide RunType; hide Eval; hide Lawful; hide Rounds; hide Pruning.FilterRows; hide AggregateRows; hide MapRows; hide Specs; hide Sends;
    MinRunsOnOne(k, db, x, t, Typed(v, Float64(LARGE)));
    OneMoreRuns(k, t);
    assert Out(db, MinPlan(x, t)) == [Field("m", t)];
    OneDecided(k, [Field("m", t)], OneMore(), [Float64(LARGE)], t.Float64Type?);
  }

  lemma LargeMinOptimizes(k: Kernels, show: Expr -> string)
    requires Lawful(k) && Rounds(k)
    ensures Optimize(k, show, LargeMin(LargeSum(), Float64Type)) == Ok(LargeMin(Single(LARGE), Float32Type))
  {
    hide Lawful; hide Rounds; hide TypeIn; hide Simplify; hide FieldsOf; hide TypedLiteral;
    var inner := MinPlan(Single(LARGE), Float32Type);
    LargeOptimizes(k, show);
    OneMoreRuns(k, Float32Type);
    assert MakeFilter(inner, OneMore()) == Ok(LargeMin(Single(LARGE), Float32Type));
    assert OptimizeChildren(k, show, LargeMin(LargeSum(), Float64Type)) == Ok(LargeMin(Single(LARGE), Float32Type));
    assert SimplifyExpressions(k, show, LargeMin(Single(LARGE), Float32Type)) == Ok(LargeMin(Single(LARGE), Float32Type));
  }

  lemma LargeOptimizes(k: Kernels, show: Expr -> string)
    requires Lawful(k) && Rounds(k)
    ensures Optimize(k, show, MinPlan(LargeSum(), Float64Type)) == Ok(MinPlan(Single(LARGE), Float32Type))
  {
    hide Lawful; hide Rounds; hide TypeIn; hide Simplify; hide TypedLiteral; hide Optimize;
    FoldedFloats(k, Table().schema, []);
    AggregateOptimizes(k, show, Table(), LargeSum(), Float64Type, Single(LARGE), Float32Type);
  }

  /** Both plans run, and the optimized one loses the row: its sum is rounded to 32 bits. */
  lemma NarrowedFloatLosesARow(k: Kernels, show: Expr -> string, db: Database)
    requires Lawful(k) && Rounds(k) && OneRowTable(db)
    ensures var p, p' := LargeMin(LargeSum(), Float64Type), LargeMin(Single(LARGE), Float32Type);
      Run(k, db, p) == Some([[Float64(LARGE)]]) && Optimize(k, show, p) == Ok(p') && Run(k, db, p') == Some([])
  {
    hide Run; hide Optimize; hide Lawful; hide Rounds; hide RunType; hide Eval; hide TypedLiteral;
    var names := [Field("a", Int64Type)];
    FoldedFloats(k, names, [Int64(0)]);
    LargeIsSingle(k);
    SingleConstant(k, names, [Int64(0)], LARGE);
    LargeMinRuns(k, db, LargeSum(), Float64Type, Float32Type);
    LargeMinRuns(k, db, Single(LARGE), Float32Type, Float32Type);
    LargeMinOptimizes(k, show);
  }

  lemma LargeIsSingle(k: Kernels)
    requires Rounds(k)
    ensures k.single(LARGE)
  {
  }
}
