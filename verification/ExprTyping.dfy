/** Type inference against evaluation: what `data_type` promises about `evaluate`. */
module ExprTyping {
  import opened Basics
  import opened Values
  import opened Expr

  /** The type an operator really produces on operands of the given types. */
  function ResultType(op: Operator, a: DataType, b: DataType): Option<DataType> {
    if a.NullType? && b.NullType? then if IsArithmetic(op) then None else Some(BooleanType)
    else if a == b then ApplyType(op, a)
    else
      match Target(op, a, b)
      case None => None
      case Some(t) => ApplyType(op, t)
  }

  function ApplyType(op: Operator, t: DataType): Option<DataType> {
    if IsComparison(op) then Some(BooleanType)
    else if op.And? || op.Or? then if t.BooleanType? then Some(BooleanType) else None
    else if IsNumeric(t) then Some(t) else None
  }

  /** The type an expression really evaluates to, if it evaluates at all: every node, also those
      below a cast or a NULL test, must have one. */
  function RunType(k: Kernels, schema: Schema, e: Expr): Option<DataType> {
    match e
    case Alias(x, _) => if x.Alias? then None else RunType(k, schema, x)
    case Column(name) => (match Resolve(schema, name) case Ok(i) => Some(schema[i].ty) case Err(_) => None)
    case Literal(v) => Some(TypeOf(v))
    case Binary(l, op, r) =>
      (match (RunType(k, schema, l), RunType(k, schema, r))
       case (Some(a), Some(b)) => ResultType(op, a, b)
       case _ => None)
    case IsNull(x, _) => if RunType(k, schema, x).Some? then Some(BooleanType) else None
    case Cast(x, t) =>
      (match RunType(k, schema, x) case None => None case Some(s) => if k.canCast(s, t) then Some(t) else None)
    case Aggregate(_, _, _) => None
    case Wildcard => None
  }

  lemma CastsAreSupported(k: Kernels, op: Operator, a: DataType, b: DataType)
    requires Lawful(k) && a != b && Target(op, a, b).Some? && ApplyType(op, Target(op, a, b).value).Some?
    ensures k.canCast(a, Target(op, a, b).value) && k.canCast(b, Target(op, a, b).value)
  {
  }

  /** One operator: it fails for its types exactly when there is no result type, and then only
      arithmetic on two values can still fail. */
  lemma BinaryRuns(k: Kernels, op: Operator, x: Typed, y: Typed)
    requires Lawful(k) && Fits(k, x.ty, x.value) && Fits(k, y.ty, y.value)
    ensures var r := EvalBinary(k, op, x, y);
      && (ResultType(op, x.ty, y.ty).None? ==> r.Err?)
      && (ResultType(op, x.ty, y.ty).Some? && r.Err? ==>
            r.error == Failed && IsArithmetic(op) && !x.value.Null? && !y.value.Null?)
      && (r.Ok? ==> ResultType(op, x.ty, y.ty) == Some(r.value.ty) && Fits(k, r.value.ty, r.value.value))
  {
    hide Lawful; hide CommonNumeric;
    ArithmeticLaws(k, op);
    if x.ty != y.ty && Target(op, x.ty, y.ty).Some? {
      var t := Target(op, x.ty, y.ty).value;
      if ApplyType(op, t).Some? {
        CastsAreSupported(k, op, x.ty, y.ty);
        CastFits(k, x, t);
        CastFits(k, y, t);
      }
    }
  }

  lemma ArithmeticLaws(k: Kernels, op: Operator)
    requires Lawful(k)
    ensures forall t, a: Scalar, b: Scalar | a.Null? || b.Null? :: k.arith(op, t, a, b) == Some(Null)
    ensures forall t, a, b | IsNumeric(t) && k.arith(op, t, a, b).Some? :: Fits(k, t, k.arith(op, t, a, b).value)
  {
  }

  lemma CastFits(k: Kernels, x: Typed, t: DataType)
    requires Lawful(k) && Fits(k, x.ty, x.value) && k.canCast(x.ty, t)
    ensures Fits(k, t, k.cast(x.ty, t, x.value)) && (x.value.Null? ==> k.cast(x.ty, t, x.value).Null?)
  {
  }

  /** Evaluation and `RunType` agree: without a run type every evaluation fails, and with one the
      only failure left is arithmetic. */
  lemma {:induction false} EvalRuns(k: Kernels, schema: Schema, row: Row, e: Expr)
    requires Lawful(k) && RowFits(k, schema, row)
    ensures var r := Eval(k, schema, row, e);
      && (RunType(k, schema, e).None? ==> r.Err?)
      && (RunType(k, schema, e).Some? && r.Err? ==> r.error == Failed)
      && (r.Ok? ==> RunType(k, schema, e) == Some(r.value.ty) && Fits(k, r.value.ty, r.value.value))
  {
    hide EvalBinary; hide ResultType;
    match e
    case Alias(x, _) => EvalRuns(k, schema, row, x);
    case Binary(l, op, r) =>
      EvalRuns(k, schema, row, l);
      EvalRuns(k, schema, row, r);
      if Eval(k, schema, row, l).Ok? && Eval(k, schema, row, r).Ok? {
        BinaryRuns(k, op, Eval(k, schema, row, l).value, Eval(k, schema, row, r).value);
      }
    case Cast(x, _) => EvalRuns(k, schema, row, x);
    case IsNull(x, _) => EvalRuns(k, schema, row, x);
    case _ =>
  }

  /** Every node is accepted by type inference, and every cast is supported. */
  predicate DeepTyped(k: Kernels, schema: Schema, e: Expr) {
    && TypeIn(schema, e).Ok?
    && match e
       case Alias(x, _) => DeepTyped(k, schema, x)
       case Binary(l, _, r) => DeepTyped(k, schema, l) && DeepTyped(k, schema, r)
       case IsNull(x, _) => DeepTyped(k, schema, x)
       case Cast(x, t) => DeepTyped(k, schema, x) && k.canCast(TypeIn(schema, x).value, t)
       case Aggregate(_, _, _) => false
       case _ => true
  }

  /** The inferred type is decided by the 64-bit families of the operand types, and an operator
      runs exactly when inference accepts it. */
  lemma BinaryTyped(op: Operator, a: DataType, b: DataType, a': DataType, b': DataType)
    requires Normalized(a) == Normalized(a') && Normalized(b) == Normalized(b')
    ensures BinaryType(op, a, b).Ok? <==> ResultType(op, a', b').Some?
    ensures BinaryType(op, a, b).Ok? ==> Normalized(BinaryType(op, a, b).value) == Normalized(ResultType(op, a', b').value)
  {
    hide CommonNumeric;
    CommonOfFamilies(a, b, a', b');
    CommonOfFamilies(a, b, a, a);
  }

  lemma CommonOfFamilies(a: DataType, b: DataType, a': DataType, b': DataType)
    ensures Normalized(a) == Normalized(a') && Normalized(b) == Normalized(b') ==> CommonNumeric(a, b) == CommonNumeric(a', b')
    ensures CommonNumeric(a, b).Some? ==>
      var t := CommonNumeric(a, b).value;
      IsNumeric(t) && Normalized(t) == t && (IsNumeric(a) || a.NullType?) && (IsNumeric(b) || b.NullType?) && (IsNumeric(a) || IsNumeric(b))
    ensures IsNumeric(a) && Normalized(a) == Normalized(b) ==> CommonNumeric(a, b) == Some(Normalized(a))
  {
  }

  /** Inference is exact once it is applied to every node: an expression runs exactly when it is
      typed throughout, and its run type is the inferred one up to 32-to-64-bit widening. */
  lemma {:induction false} RunsExactlyWhenDeeplyTyped(k: Kernels, schema: Schema, e: Expr)
    requires Lawful(k)
    ensures RunType(k, schema, e).Some? <==> DeepTyped(k, schema, e)
    ensures DeepTyped(k, schema, e) ==> Normalized(RunType(k, schema, e).value) == Normalized(TypeIn(schema, e).value)
  {
    hide ResultType; hide BinaryType;
    match e
    case Alias(x, _) => RunsExactlyWhenDeeplyTyped(k, schema, x);
    case Binary(l, op, r) =>
      RunsExactlyWhenDeeplyTyped(k, schema, l);
      RunsExactlyWhenDeeplyTyped(k, schema, r);
      if DeepTyped(k, schema, l) && DeepTyped(k, schema, r) {
        BinaryTyped(op, TypeIn(schema, l).value, TypeIn(schema, r).value,
                    RunType(k, schema, l).value, RunType(k, schema, r).value);
      }
    case Cast(x, t) =>
      RunsExactlyWhenDeeplyTyped(k, schema, x);
    case IsNull(x, _) => RunsExactlyWhenDeeplyTyped(k, schema, x);
    case _ =>
  }

  /** Type inference is sound up to 32-to-64-bit widening on expressions that are typed throughout:
      the only failure left is arithmetic, and the result has the inferred type after widening. */
  lemma InferenceIsSound(k: Kernels, schema: Schema, row: Row, e: Expr)
    requires Lawful(k) && RowFits(k, schema, row) && TypeIn(schema, e).Ok?
    ensures DeepTyped(k, schema, e) ==>
      match Eval(k, schema, row, e)
      case Ok(x) => Normalized(x.ty) == Normalized(TypeIn(schema, e).value) && Fits(k, x.ty, x.value)
      case Err(f) => f == Failed
    ensures !DeepTyped(k, schema, e) ==> Eval(k, schema, row, e).Err?
  {
    EvalRuns(k, schema, row, e);
    RunsExactlyWhenDeeplyTyped(k, schema, e);
  }

  /** Accepting the whole expression is not enough: inference stops at a cast or a NULL test, so
      the ill-typed operand below it is noticed only when rows are evaluated. */
  lemma InferenceStopsAtNullTests(k: Kernels, row: Row)
    requires Lawful(k)
    ensures var schema, e := [Field("a", Utf8Type), Field("b", BooleanType)],
                             IsNull(Binary(Column("a"), Add, Column("b")), false);
      TypeIn(schema, e) == Ok(BooleanType) && (RowFits(k, schema, row) ==> Eval(k, schema, row, e).Err?)
  {
    hide Resolve; hide Lawful;
    var schema := [Field("a", Utf8Type), Field("b", BooleanType)];
    if RowFits(k, schema, row) {
      TwoColumns(schema);
      assert Eval(k, schema, row, Column("a")) == Ok(Typed(Utf8Type, row[0]));
      assert Eval(k, schema, row, Column("b")) == Ok(Typed(BooleanType, row[1]));
    }
  }

  lemma TwoColumns(schema: Schema)
    requires |schema| == 2 && schema[0].name == "a" && schema[1].name == "b"
    ensures Resolve(schema, "a") == Ok(0) && Resolve(schema, "b") == Ok(1)
  {
    hide Resolve;
    OwnNameResolves(schema, 0);
    OwnNameResolves(schema, 1);
  }

  // ----- planning and running with different names -----------------------------------------------

  /** Expressions are planned against one schema and run against another, such as the unqualified
      columns of a table: the same columns, and a name that both know means the same column. */
  ghost predicate Compatible(plan: Schema, run: Schema) {
    && |plan| == |run|
    && (forall i | 0 <= i < |plan| :: plan[i].ty == run[i].ty)
    && (forall name | Resolve(plan, name).Ok? && Resolve(run, name).Ok? :: Resolve(plan, name) == Resolve(run, name))
  }

  lemma CompatibleWithItself(schema: Schema)
    ensures Compatible(schema, schema)
  {
  }
}
