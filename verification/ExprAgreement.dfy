/** Expressions over columns whose integers have changed their width: an evaluation that succeeds
    over both gives the same value. */
module ExprAgreement {
  import opened Basics
  import opened Values
  import opened Expr
  import opened ExprTyping
  import opened Simplification
  import opened ExprDrift

  /** Integers of 32 and 64 bits: they are cast alike, and where the narrow operation succeeds the
      wide one gives the same number. */
  ghost predicate Uniform(k: Kernels) {
    && (forall s, t, v | Whole(s) && Fits(k, s, v) :: k.cast(s, t, v) == k.cast(Normalized(s), t, v))
    && (forall op, t, a, b | Whole(t) && Fits(k, t, a) && Fits(k, t, b) && k.arith(op, t, a, b).Some? ::
          k.arith(op, Normalized(t), a, b) == k.arith(op, t, a, b))
  }

  /** The same value, whose type has drifted at most as a NULL or an integer. */
  predicate Loose(x: Typed, y: Typed) {
    x.value == y.value && Drifts(x.ty, y.ty) && (x.ty == y.ty || x.value.Null? || Whole(x.ty))
  }

  // ----- operators -------------------------------------------------------------------------------

  function Widen(x: Typed): Typed {
    if Whole(x.ty) then Typed(Normalized(x.ty), x.value) else x
  }

  lemma CastWidened(k: Kernels, x: Typed, t: DataType)
    requires Lawful(k) && Uniform(k) && Fits(k, x.ty, x.value)
    ensures Fits(k, Widen(x).ty, Widen(x).value) && CastTo(k, Widen(x), t) == CastTo(k, x, t)
    ensures Whole(x.ty) ==> k.cast(x.ty, Normalized(x.ty), x.value) == x.value
  {
    assert k.canCast(x.ty, t) == k.canCast(Normalized(x.ty), t);
  }

  lemma ArithWidened(k: Kernels, op: Operator, t: DataType, a: Scalar, b: Scalar)
    requires Uniform(k) && Fits(k, t, a) && Fits(k, t, b) && k.arith(op, t, a, b).Some?
    ensures Whole(t) ==> k.arith(op, Normalized(t), a, b) == k.arith(op, t, a, b)
  {
  }

  /** An operator on integers that were widened first. */
  lemma WidenedBinary(k: Kernels, op: Operator, x: Typed, y: Typed)
    requires Lawful(k) && Uniform(k) && Fits(k, x.ty, x.value) && Fits(k, y.ty, y.value) && EvalBinary(k, op, x, y).Ok?
    requires !x.value.Null? && !y.value.Null?
    ensures EvalBinary(k, op, Widen(x), Widen(y)).Ok?
    ensures EvalBinary(k, op, Widen(x), Widen(y)).value.value == EvalBinary(k, op, x, y).value.value
  {
    hide Lawful; hide Uniform; hide CommonNumeric; hide Compare; hide Kleene; hide Fits; hide CastTo;
    var s, t := Widen(x).ty, Widen(y).ty;
    assert !x.ty.NullType? && !y.ty.NullType? by { SomeType(k, x); SomeType(k, y); }
    CommonOfFamilies(x.ty, y.ty, s, t);
    CommonOfFamilies(s, t, x.ty, y.ty);
    if x.ty == y.ty {
      if IsArithmetic(op) && IsNumeric(x.ty) { ArithWidened(k, op, x.ty, x.value, y.value); }
    } else {
      var u := Target(op, x.ty, y.ty).value;
      CastWidened(k, x, u);
      CastWidened(k, y, u);
      if s == t { SameFamily(k, x, y); }
    }
  }

  lemma SomeType(k: Kernels, x: Typed)
    requires Fits(k, x.ty, x.value) && !x.value.Null?
    ensures !x.ty.NullType?
  {
  }

  /** Two widths of one integer type are brought to the wide one. */
  lemma SameFamily(k: Kernels, x: Typed, y: Typed)
    requires Lawful(k) && Uniform(k) && Fits(k, x.ty, x.value) && Fits(k, y.ty, y.value) && x.ty != y.ty && Widen(x).ty == Widen(y).ty
    ensures CommonNumeric(x.ty, y.ty) == Some(Widen(x).ty) && !x.ty.NullType? && !y.ty.NullType?
    ensures CastTo(k, x, Widen(x).ty) == Ok(Widen(x)) && CastTo(k, y, Widen(y).ty) == Ok(Widen(y))
  {
    hide Lawful; hide Uniform; hide Fits;
    CastWidened(k, x, Widen(x).ty);
    CastWidened(k, y, Widen(y).ty);
    CastSame(k, x);
    CastSame(k, y);
  }

  lemma CastSame(k: Kernels, x: Typed)
    requires Lawful(k)
    ensures CastTo(k, Widen(x), Widen(x).ty) == Ok(Widen(x))
  {
  }

  /** Operators cannot tell operands that agree loosely apart, where they succeed on both. */
  lemma LooseBinary(k: Kernels, op: Operator, x: Typed, y: Typed, x': Typed, y': Typed)
    requires Lawful(k) && Uniform(k) && Fits(k, x.ty, x.value) && Fits(k, y.ty, y.value) && Fits(k, x'.ty, x'.value) && Fits(k, y'.ty, y'.value)
    requires Loose(x, x') && Loose(y, y') && EvalBinary(k, op, x, y).Ok? && EvalBinary(k, op, x', y').Ok?
    ensures Loose(EvalBinary(k, op, x, y).value, EvalBinary(k, op, x', y').value)
  {
    hide EvalBinary; hide Lawful; hide Uniform; hide ResultType; hide Kleene; hide Fits;
    BinaryRuns(k, op, x, y);
    BinaryRuns(k, op, x', y');
    DriftTypes(op, x.ty, y.ty, x'.ty, y'.ty);
    BinaryValue(k, op, x, y);
    BinaryValue(k, op, x', y');
    if !IsArithmetic(op) {
      BooleanResults(op, x.ty, y.ty);
      BooleanResults(op, x'.ty, y'.ty);
    }
    if !x.value.Null? && !y.value.Null? {
      WidenedBinary(k, op, x, y);
      WidenedBinary(k, op, x', y');
      if IsArithmetic(op) && (x.ty != x'.ty || y.ty != y'.ty) { ResultIsWhole(op, x.ty, y.ty, x'.ty, y'.ty); }
    }
  }

  /** Arithmetic with an integer whose width has changed: the result is an integer, or a float in
      both cases. */
  lemma ResultIsWhole(op: Operator, a: DataType, b: DataType, a': DataType, b': DataType)
    requires IsArithmetic(op) && ResultType(op, a, b).Some? && ResultType(op, a', b').Some? && Drifts(a, a') && Drifts(b, b')
    requires (a != a' && Whole(a) && (b == b' || Whole(b))) || (b != b' && Whole(b) && (a == a' || Whole(a)))
    ensures Whole(ResultType(op, a, b).value) || ResultType(op, a, b) == ResultType(op, a', b')
  {
  }

  // ----- columns that have drifted ------------------------------------------------------------------

  predicate ColumnBlends(a: DataType, b: DataType, onlyNull: bool) {
    a == b || (Fades(a, b) && onlyNull) || (Whole(a) && Normalized(a) == Normalized(b))
  }

  predicate RowBlends(a: Schema, b: Schema, row: Row) {
    SameNames(a, b) && |row| == |a| && forall i | 0 <= i < |a| :: ColumnBlends(a[i].ty, b[i].ty, row[i].Null?)
  }

  // ----- simplified expressions ---------------------------------------------------------------------

  /** The simplified form `s` of an expression with value `x`, over drifted columns. */
  ghost predicate StandsLoosely(k: Kernels, plan: Schema, run: Schema, row: Row, s: Expr, x: Typed) {
    && (Eval(k, run, row, s).Ok? ==> Loose(x, Eval(k, run, row, s).value))
    && (NoColumns(s) && !ContainsAggregate(s) && NoDoubleAlias(s) ==> Eval(k, run, row, s).Ok?)
    && (TypeIn(plan, s).Ok? ==> Drifts(x.ty, TypeIn(plan, s).value))
  }

  lemma LiteralStands(k: Kernels, plan: Schema, run: Schema, row: Row, v: Typed, z: Typed)
    requires Lawful(k) && Fits(k, v.ty, v.value) && Loose(z, v)
    ensures StandsLoosely(k, plan, run, row, TypedLiteral(v.value, v.ty), z)
  {
    hide Lawful; hide Eval; hide TypeIn; hide TypedLiteral;
    TypedLiteralEvaluates(k, plan, run, row, v);
  }

  /** Setting of the proof for one operator. */
  ghost predicate LooseOperands(k: Kernels, plan: Schema, run: Schema, row: Row, x: Typed, y: Typed, op: Operator, z: Typed, l: Expr, r: Expr) {
    && Lawful(k) && Uniform(k) && RowFits(k, run, row)
    && Fits(k, x.ty, x.value) && Fits(k, y.ty, y.value) && EvalBinary(k, op, x, y) == Ok(z)
    && StandsLoosely(k, plan, run, row, l, x) && StandsLoosely(k, plan, run, row, r, y)
  }

  lemma KeptLoosely(k: Kernels, plan: Schema, run: Schema, row: Row, x: Typed, y: Typed, op: Operator, z: Typed, l: Expr, r: Expr)
    requires LooseOperands(k, plan, run, row, x, y, op, z, l, r)
    ensures var s := Binary(l, op, r);
      && (Eval(k, run, row, s).Ok? ==> Loose(z, Eval(k, run, row, s).value))
      && (TypeIn(plan, s).Ok? ==> Drifts(z.ty, TypeIn(plan, s).value))
  {
    hide EvalBinary; hide Lawful; hide Uniform; hide ResultType; hide BinaryType; hide Loose; hide Drifts; hide Resolve; hide Fits;
    var s := Binary(l, op, r);
    BinaryRuns(k, op, x, y);
    if Eval(k, run, row, s).Ok? {
      EvalRuns(k, run, row, l);
      EvalRuns(k, run, row, r);
      LooseBinary(k, op, x, y, Eval(k, run, row, l).value, Eval(k, run, row, r).value);
    }
    if TypeIn(plan, s).Ok? {
      BinaryStandsTyped(op, x.ty, y.ty, TypeIn(plan, l).value, TypeIn(plan, r).value);
    }
  }

  lemma FoldedLoosely(k: Kernels, plan: Schema, run: Schema, row: Row, x: Typed, y: Typed, op: Operator, z: Typed, l: Expr, r: Expr)
    requires LooseOperands(k, plan, run, row, x, y, op, z, l, r)
    requires NoColumns(Binary(l, op, r)) && Eval(k, [], [], Binary(l, op, r)).Ok?
    ensures var v := Eval(k, [], [], Binary(l, op, r)).value; StandsLoosely(k, plan, run, row, TypedLiteral(v.value, v.ty), z)
  {
    hide EvalBinary; hide Lawful; hide Uniform; hide Loose; hide TypeIn; hide TypedLiteral; hide Eval; hide StandsLoosely;
    var s := Binary(l, op, r);
    ConstantsEvaluateAnywhere(k, run, row, s);
    KeptLoosely(k, plan, run, row, x, y, op, z, l, r);
    EvalRuns(k, [], [], s);
    LiteralStands(k, plan, run, row, Eval(k, [], [], s).value, z);
  }

  lemma NullLoosely(k: Kernels, plan: Schema, run: Schema, row: Row, x: Typed, y: Typed, op: Operator, z: Typed, l: Expr, r: Expr)
    requires LooseOperands(k, plan, run, row, x, y, op, z, l, r) && !op.And? && !op.Or?
    requires IsNullExpression(l) || IsNullExpression(r)
    requires TypeIn(plan, Binary(l, op, r)).Ok?
    ensures StandsLoosely(k, plan, run, row, TypedLiteral(Null, TypeIn(plan, Binary(l, op, r)).value), z)
  {
    hide EvalBinary; hide Lawful; hide Uniform; hide ResultType; hide BinaryType; hide Drifts; hide IsNullExpression; hide Eval; hide TypedLiteral;
    hide Resolve; hide TypeIn; hide NoColumns; hide ContainsAggregate;
    if IsNullExpression(l) {
      NullIsConstant(k, run, row, l);
    } else {
      NullIsConstant(k, run, row, r);
    }
    BinaryValue(k, op, x, y);
    KeptLoosely(k, plan, run, row, x, y, op, z, l, r);
    LiteralStands(k, plan, run, row, Typed(TypeIn(plan, Binary(l, op, r)).value, Null), z);
  }

  lemma {:induction false} NullIsConstant(k: Kernels, run: Schema, row: Row, e: Expr)
    requires Lawful(k) && IsNullExpression(e)
    ensures NoColumns(e) && !ContainsAggregate(e) && NoDoubleAlias(e)
    ensures Eval(k, run, row, e).Ok? ==> Eval(k, run, row, e).value.value.Null?
  {
    hide Eval;
    NullExpressionsAreNull(k, run, row, e);
    match e
    case Alias(x, _) => NullIsConstant(k, run, row, x);
    case Cast(x, _) => NullIsConstant(k, run, row, x);
    case Literal(_) =>
  }

  /** The value of AND or OR next to a literal. */
  lemma LogicWithLiteral(k: Kernels, op: Operator, x: Typed, y: Typed, z: Typed, left: bool, flag: bool)
    requires Lawful(k) && (op.And? || op.Or?) && Fits(k, x.ty, x.value) && Fits(k, y.ty, y.value) && EvalBinary(k, op, x, y) == Ok(z)
    requires (if left then x else y).value == Boolean(flag)
    ensures var other := if left then y else x;
      && (other.ty.BooleanType? || other.ty.NullType?) && z.ty.BooleanType?
      && z.value == if flag == op.And? then other.value else Boolean(flag)
  {
    hide EvalBinary; hide Lawful; hide ResultType;
    BinaryRuns(k, op, x, y);
    BinaryValue(k, op, x, y);
    BooleanResults(op, x.ty, y.ty);
  }

  /** What a literal operand makes of the other one. */
  lemma BesideLiteral(k: Kernels, plan: Schema, run: Schema, row: Row, x: Typed, literal: Expr, flag: bool)
    requires StandsLoosely(k, plan, run, row, literal, x) && BooleanLiteral(literal) == Some(flag)
    ensures x.value == Boolean(flag)
  {
    hide TypeIn; hide NoColumns;
    BooleanLiteralsEvaluate(k, run, row, literal);
  }

  lemma NeutralLoosely(k: Kernels, plan: Schema, run: Schema, row: Row, y: Typed, z: Typed, r: Expr)
    requires Lawful(k) && RowFits(k, run, row) && StandsLoosely(k, plan, run, row, r, y)
    requires (y.ty.BooleanType? || y.ty.NullType?) && z.ty.BooleanType? && z.value == y.value
    ensures StandsLoosely(k, plan, run, row, r, z)
  {
    hide Lawful; hide Eval; hide TypeIn; hide NoColumns; hide RowFits;
    if Eval(k, run, row, r).Ok? {
      EvalRuns(k, run, row, r);
      LogicValue(k, y, z, Eval(k, run, row, r).value);
    }
  }

  lemma LogicLoosely(k: Kernels, plan: Schema, run: Schema, row: Row, x: Typed, y: Typed, op: Operator, z: Typed, l: Expr, r: Expr)
    requires LooseOperands(k, plan, run, row, x, y, op, z, l, r) && (op.And? || op.Or?)
    ensures BooleanLiteral(l) == Some(op.And?) ==> StandsLoosely(k, plan, run, row, r, z)
    ensures BooleanLiteral(r) == Some(op.And?) ==> StandsLoosely(k, plan, run, row, l, z)
    ensures BooleanLiteral(l) == Some(op.Or?) || BooleanLiteral(r) == Some(op.Or?) ==> StandsLoosely(k, plan, run, row, Literal(Boolean(op.Or?)), z)
  {
    hide EvalBinary; hide Lawful; hide Uniform; hide BooleanLiteral; hide StandsLoosely; hide RowFits; hide Fits; hide TypedLiteral;
    if BooleanLiteral(l).Some? {
      var flag := BooleanLiteral(l).value;
      BesideLiteral(k, plan, run, row, x, l, flag);
      LogicWithLiteral(k, op, x, y, z, true, flag);
      if flag == op.And? { NeutralLoosely(k, plan, run, row, y, z, r); } else { DecidedLoosely(k, plan, run, row, z, flag); }
    }
    if BooleanLiteral(r).Some? {
      var flag := BooleanLiteral(r).value;
      BesideLiteral(k, plan, run, row, y, r, flag);
      LogicWithLiteral(k, op, x, y, z, false, flag);
      if flag == op.And? { NeutralLoosely(k, plan, run, row, x, z, l); } else { DecidedLoosely(k, plan, run, row, z, flag); }
    }
  }

  lemma DecidedLoosely(k: Kernels, plan: Schema, run: Schema, row: Row, z: Typed, flag: bool)
    requires Lawful(k) && z == Typed(BooleanType, Boolean(flag))
    ensures StandsLoosely(k, plan, run, row, Literal(Boolean(flag)), z)
  {
    hide Lawful;
    LiteralForm(Boolean(flag));
    LiteralStands(k, plan, run, row, z, z);
  }

  lemma LogicValue(k: Kernels, y: Typed, z: Typed, v: Typed)
    requires Loose(y, v) && (y.ty.BooleanType? || y.ty.NullType?) && z.ty.BooleanType? && z.value == y.value && Fits(k, v.ty, v.value)
    ensures Loose(z, v)
  {
  }

  lemma BinaryLoosely(k: Kernels, plan: Schema, run: Schema, row: Row, x: Typed, y: Typed, op: Operator, z: Typed, l: Expr, r: Expr)
    requires LooseOperands(k, plan, run, row, x, y, op, z, l, r)
    requires SimplifyNode(k, plan, Binary(l, op, r)).Ok?
    ensures StandsLoosely(k, plan, run, row, SimplifyNode(k, plan, Binary(l, op, r)).value, z)
  {
    hide LooseOperands; hide TypedLiteral; hide Eval; hide IsNullExpression; hide BooleanLiteral; hide TypeIn; hide Loose; hide Drifts;
    var e := Binary(l, op, r);
    KeptLoosely(k, plan, run, row, x, y, op, z, l, r);
    if NoColumns(e) && !ContainsAggregate(e) {
      FoldedLoosely(k, plan, run, row, x, y, op, z, l, r);
    } else if !op.And? && !op.Or? {
      if IsNullExpression(l) || IsNullExpression(r) { NullLoosely(k, plan, run, row, x, y, op, z, l, r); }
    } else {
      LogicLoosely(k, plan, run, row, x, y, op, z, l, r);
    }
  }

  lemma CastLoose(k: Kernels, x: Typed, y: Typed, t: DataType)
    requires Lawful(k) && Uniform(k) && Fits(k, x.ty, x.value) && Fits(k, y.ty, y.value) && Loose(x, y)
    requires CastTo(k, x, t).Ok? && CastTo(k, y, t).Ok?
    ensures CastTo(k, x, t) == CastTo(k, y, t)
  {
    hide Lawful; hide Uniform; hide Fits;
    CastWidened(k, x, t);
    CastWidened(k, y, t);
    if x.value.Null? { NullCast(k, x.ty, t); NullCast(k, y.ty, t); }
  }

  lemma NullCast(k: Kernels, s: DataType, t: DataType)
    requires Lawful(k)
    ensures k.cast(s, t, Null) == Null
  {
  }

  /** A cast or a NULL test over a simplified operand. */
  lemma UnaryLoosely(k: Kernels, plan: Schema, run: Schema, row: Row, e: Expr, z: Typed)
    requires Lawful(k) && RowFits(k, run, row) && (e.Cast? || e.IsNull? || e.Literal?) && SimplifyNode(k, plan, e).Ok?
    requires Eval(k, run, row, e).Ok? ==> Loose(z, Eval(k, run, row, e).value)
    requires TypeIn(plan, e).Ok? ==> Drifts(z.ty, TypeIn(plan, e).value)
    ensures StandsLoosely(k, plan, run, row, SimplifyNode(k, plan, e).value, z)
  {
    hide Lawful; hide Eval; hide TypedLiteral; hide Loose; hide TypeIn; hide StandsLoosely;
    if NoColumns(e) && !ContainsAggregate(e) {
      ConstantsEvaluateAnywhere(k, run, row, e);
      EvalRuns(k, [], [], e);
      LiteralStands(k, plan, run, row, Eval(k, [], [], e).value, z);
    } else {
      Unfolded(k, plan, run, row, e, z);
    }
  }

  lemma Unfolded(k: Kernels, plan: Schema, run: Schema, row: Row, e: Expr, z: Typed)
    requires !(NoColumns(e) && !ContainsAggregate(e))
    requires Eval(k, run, row, e).Ok? ==> Loose(z, Eval(k, run, row, e).value)
    requires TypeIn(plan, e).Ok? ==> Drifts(z.ty, TypeIn(plan, e).value)
    ensures StandsLoosely(k, plan, run, row, e, z)
  {
    hide Eval; hide TypeIn; hide Loose;
  }

  lemma ColumnLoosely(k: Kernels, a: Schema, plan: Schema, run: Schema, row: Row, e: Expr)
    requires Compatible(plan, run) && RowBlends(a, run, row) && e.Column? && SimplifyNode(k, plan, e).Ok? && Eval(k, a, row, e).Ok?
    ensures StandsLoosely(k, plan, run, row, SimplifyNode(k, plan, e).value, Eval(k, a, row, e).value)
  {
    hide Resolve;
    SameNamesResolve(a, run, e.name);
  }

  /** Simplified for and evaluated over drifted columns, an expression gives the value it had. */
  lemma {:induction false} SimplifiedLoosely(k: Kernels, a: Schema, plan: Schema, run: Schema, row: Row, e: Expr)
    requires Lawful(k) && Uniform(k) && RowBlends(a, run, row) && RowFits(k, a, row) && RowFits(k, run, row) && Compatible(plan, run)
    requires Simplify(k, plan, e).Ok? && Eval(k, a, row, e).Ok?
    ensures StandsLoosely(k, plan, run, row, Simplify(k, plan, e).value, Eval(k, a, row, e).value)
  {
    hide SimplifyNode; hide StandsLoosely; hide EvalBinary; hide Lawful; hide Uniform; hide Compatible; hide RowBlends; hide RowFits; hide Resolve;
    match e
    case Binary(l, op, r) =>
      SimplifiedLoosely(k, a, plan, run, row, l);
      SimplifiedLoosely(k, a, plan, run, row, r);
      EvalRuns(k, a, row, l);
      EvalRuns(k, a, row, r);
      BinaryLoosely(k, plan, run, row, Eval(k, a, row, l).value, Eval(k, a, row, r).value, op, Eval(k, a, row, e).value,
                    Simplify(k, plan, l).value, Simplify(k, plan, r).value);
    case Cast(x, t) =>
      SimplifiedLoosely(k, a, plan, run, row, x);
      CastLoosely(k, a, plan, run, row, x, t);
    case IsNull(x, negated) =>
      SimplifiedLoosely(k, a, plan, run, row, x);
      NullTestLoosely(k, a, plan, run, row, x, negated);
    case Alias(x, alias) =>
      SimplifiedLoosely(k, a, plan, run, row, x);
      AliasLoosely(k, plan, run, row, Simplify(k, plan, x).value, alias, Eval(k, a, row, x).value);
    case Column(_) => ColumnLoosely(k, a, plan, run, row, e);
    case Literal(_) => UnaryLoosely(k, plan, run, row, e, Eval(k, a, row, e).value);
  }

  lemma CastLoosely(k: Kernels, a: Schema, plan: Schema, run: Schema, row: Row, x: Expr, t: DataType)
    requires Lawful(k) && Uniform(k) && RowFits(k, a, row) && RowFits(k, run, row) && Simplify(k, plan, Cast(x, t)).Ok? && Eval(k, a, row, Cast(x, t)).Ok?
    requires StandsLoosely(k, plan, run, row, Simplify(k, plan, x).value, Eval(k, a, row, x).value)
    ensures StandsLoosely(k, plan, run, row, Simplify(k, plan, Cast(x, t)).value, Eval(k, a, row, Cast(x, t)).value)
  {
    hide SimplifyNode; hide EvalBinary; hide Lawful; hide Uniform; hide RowFits; hide Resolve; hide CastTo; hide Fits;
    var inner := Simplify(k, plan, x).value;
    var node, z := Cast(inner, t), Eval(k, a, row, Cast(x, t)).value;
    assert Simplify(k, plan, Cast(x, t)) == SimplifyNode(k, plan, node);
    CastType(k, Eval(k, a, row, x).value, t);
    if Eval(k, run, row, node).Ok? {
      EvalRuns(k, a, row, x);
      EvalRuns(k, run, row, inner);
      CastLoose(k, Eval(k, a, row, x).value, Eval(k, run, row, inner).value, t);
    }
    UnaryLoosely(k, plan, run, row, node, z);
  }

  lemma CastType(k: Kernels, x: Typed, t: DataType)
    requires CastTo(k, x, t).Ok?
    ensures CastTo(k, x, t).value.ty == t
  {
  }

  lemma NullTestLoosely(k: Kernels, a: Schema, plan: Schema, run: Schema, row: Row, x: Expr, negated: bool)
    requires Lawful(k) && RowFits(k, run, row) && Simplify(k, plan, IsNull(x, negated)).Ok? && Eval(k, a, row, IsNull(x, negated)).Ok?
    requires StandsLoosely(k, plan, run, row, Simplify(k, plan, x).value, Eval(k, a, row, x).value)
    ensures StandsLoosely(k, plan, run, row, Simplify(k, plan, IsNull(x, negated)).value, Eval(k, a, row, IsNull(x, negated)).value)
  {
    hide SimplifyNode; hide EvalBinary; hide Lawful; hide RowFits; hide Resolve;
    var node := IsNull(Simplify(k, plan, x).value, negated);
    assert Simplify(k, plan, IsNull(x, negated)) == SimplifyNode(k, plan, node);
    UnaryLoosely(k, plan, run, row, node, Eval(k, a, row, IsNull(x, negated)).value);
  }

  lemma AliasLoosely(k: Kernels, plan: Schema, run: Schema, row: Row, s: Expr, alias: string, x: Typed)
    requires StandsLoosely(k, plan, run, row, s, x)
    ensures StandsLoosely(k, plan, run, row, Alias(s, alias), x)
  {
  }
}
