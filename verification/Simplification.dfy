/** Expression simplification preserves meaning (src/query/expr.rs, `simplify`). */
module Simplification {
  import opened Basics
  import opened Values
  import opened Expr
  import opened ExprTyping

  /** Simplifying may change the type of a NULL: within a numeric family, or from Boolean to the
      type of a column that holds nothing but NULLs. */
  predicate Drifts(t: DataType, t': DataType) {
    Normalized(t) == Normalized(t') || (t.BooleanType? && t'.NullType?)
  }

  /** The same value; also of the same type, unless it is NULL. */
  predicate Agree(x: Typed, x': Typed) {
    x.value == x'.value && (x.ty == x'.ty || (x.value.Null? && Drifts(x.ty, x'.ty)))
  }

  // ----- operators on values that agree ------------------------------------------------------

  lemma DriftTypes(op: Operator, a: DataType, b: DataType, a': DataType, b': DataType)
    requires ResultType(op, a, b).Some? && Drifts(a, a') && Drifts(b, b')
    ensures ResultType(op, a', b').Some? && Normalized(ResultType(op, a', b').value) == Normalized(ResultType(op, a, b).value)
  {
    hide CommonNumeric;
    CommonOfFamilies(a, b, a', b');
    CommonOfFamilies(a', b', a, b);
  }

  /** AND and OR see only the values; comparisons and arithmetic give NULL on a NULL. */
  lemma BinaryValue(k: Kernels, op: Operator, x: Typed, y: Typed)
    requires Lawful(k) && Fits(k, x.ty, x.value) && Fits(k, y.ty, y.value) && EvalBinary(k, op, x, y).Ok?
    ensures var z := EvalBinary(k, op, x, y).value;
      && (op.And? || op.Or? ==>
            && z.value == Kleene(op, x.value, y.value)
            && (x.ty.BooleanType? || x.ty.NullType?) && (y.ty.BooleanType? || y.ty.NullType?))
      && (!op.And? && !op.Or? && (x.value.Null? || y.value.Null?) ==> z.value.Null?)
  {
    hide Lawful; hide CommonNumeric;
    ArithmeticLaws(k, op);
    CommonOfFamilies(x.ty, y.ty, x.ty, y.ty);
    CastKeeps(k, x);
    CastKeeps(k, y);
  }

  lemma CastKeeps(k: Kernels, x: Typed)
    requires Lawful(k)
    ensures forall t :: k.cast(x.ty, t, Null) == Null
    ensures k.cast(x.ty, x.ty, x.value) == x.value
  {
  }

  /** An operator on operands that agree gives results that agree. */
  lemma AgreeBinary(k: Kernels, op: Operator, x: Typed, y: Typed, x': Typed, y': Typed)
    requires Lawful(k) && Fits(k, x.ty, x.value) && Fits(k, y.ty, y.value) && Fits(k, x'.ty, x'.value) && Fits(k, y'.ty, y'.value)
    requires Agree(x, x') && Agree(y, y') && EvalBinary(k, op, x, y).Ok?
    ensures EvalBinary(k, op, x', y').Ok? && Agree(EvalBinary(k, op, x, y).value, EvalBinary(k, op, x', y').value)
  {
    hide EvalBinary; hide Lawful; hide ResultType; hide Kleene;
    if x.ty != x'.ty || y.ty != y'.ty {
      BinaryRuns(k, op, x, y);
      DriftTypes(op, x.ty, y.ty, x'.ty, y'.ty);
      BinaryRuns(k, op, x', y');
      BinaryValue(k, op, x, y);
      BinaryValue(k, op, x', y');
      BooleanResults(op, x.ty, y.ty);
      BooleanResults(op, x'.ty, y'.ty);
    }
  }

  lemma BooleanResults(op: Operator, a: DataType, b: DataType)
    requires IsArithmetic(op) || ResultType(op, a, b).Some?
    ensures !IsArithmetic(op) ==> ResultType(op, a, b) == Some(BooleanType)
  {
  }

  // ----- constants ---------------------------------------------------------------------------

  lemma {:induction false} ConstantsEvaluateAnywhere(k: Kernels, schema: Schema, row: Row, e: Expr)
    requires NoColumns(e)
    ensures Eval(k, schema, row, e) == Eval(k, [], [], e)
  {
    hide EvalBinary;
    match e
    case Binary(l, _, r) => ConstantsEvaluateAnywhere(k, schema, row, l); ConstantsEvaluateAnywhere(k, schema, row, r);
    case Alias(x, _) => ConstantsEvaluateAnywhere(k, schema, row, x);
    case Cast(x, _) => ConstantsEvaluateAnywhere(k, schema, row, x);
    case IsNull(x, _) => ConstantsEvaluateAnywhere(k, schema, row, x);
    case _ =>
  }

  /** A folded constant evaluates to the value and the type it was folded from. */
  lemma TypedLiteralEvaluates(k: Kernels, plan: Schema, run: Schema, row: Row, x: Typed)
    requires Lawful(k) && Fits(k, x.ty, x.value)
    ensures Eval(k, run, row, TypedLiteral(x.value, x.ty)) == Ok(x)
    ensures TypeIn(plan, TypedLiteral(x.value, x.ty)) == Ok(x.ty)
    ensures NoDoubleAlias(TypedLiteral(x.value, x.ty)) && NoAlias(TypedLiteral(x.value, x.ty))
  {
    if !x.value.Null? {
      assert k.canCast(x.ty, x.ty) == k.canCast(Normalized(x.ty), x.ty);
    }
  }

  lemma {:induction false} EvaluatedHasNoDoubleAlias(k: Kernels, schema: Schema, row: Row, e: Expr)
    requires Eval(k, schema, row, e).Ok?
    ensures NoDoubleAlias(e)
  {
    hide EvalBinary;
    match e
    case Binary(l, _, r) => EvaluatedHasNoDoubleAlias(k, schema, row, l); EvaluatedHasNoDoubleAlias(k, schema, row, r);
    case Alias(x, _) => EvaluatedHasNoDoubleAlias(k, schema, row, x);
    case Cast(x, _) => EvaluatedHasNoDoubleAlias(k, schema, row, x);
    case IsNull(x, _) => EvaluatedHasNoDoubleAlias(k, schema, row, x);
    case _ =>
  }

  lemma {:induction false} NullExpressionsAreNull(k: Kernels, schema: Schema, row: Row, e: Expr)
    requires Lawful(k) && IsNullExpression(e)
    ensures NoDoubleAlias(e)
    ensures Eval(k, schema, row, e).Ok? ==> Eval(k, schema, row, e).value.value.Null?
  {
    match e
    case Alias(x, _) => NullExpressionsAreNull(k, schema, row, x);
    case Cast(x, _) => NullExpressionsAreNull(k, schema, row, x);
    case _ =>
  }

  lemma BooleanLiteralsEvaluate(k: Kernels, schema: Schema, row: Row, e: Expr)
    requires BooleanLiteral(e).Some?
    ensures NoDoubleAlias(e) && Eval(k, schema, row, e) == Ok(Typed(BooleanType, Boolean(BooleanLiteral(e).value)))
  {
  }

  // ----- soundness ---------------------------------------------------------------------------

  /** The simplified form `s` of an expression with value `x`: where it can be evaluated at all it
      agrees with `x`, and its inferred type is the run type up to drift. */
  ghost predicate Stands(k: Kernels, plan: Schema, run: Schema, row: Row, s: Expr, x: Typed) {
    && (NoDoubleAlias(s) ==> Eval(k, run, row, s).Ok? && Agree(x, Eval(k, run, row, s).value))
    && (TypeIn(plan, s).Ok? ==> Drifts(x.ty, TypeIn(plan, s).value))
  }

  lemma FoldStands(k: Kernels, plan: Schema, run: Schema, row: Row, e: Expr, x: Typed)
    requires Lawful(k) && RowFits(k, run, row) && NoColumns(e) && Eval(k, [], [], e).Ok?
    requires Agree(x, Eval(k, [], [], e).value)
    ensures var z := Eval(k, [], [], e).value; Stands(k, plan, run, row, TypedLiteral(z.value, z.ty), x)
  {
    hide Eval; hide TypeIn; hide TypedLiteral; hide Lawful;
    EvalRuns(k, [], [], e);
    TypedLiteralEvaluates(k, plan, run, row, Eval(k, [], [], e).value);
  }

  /** The inferred type of an operator on simplified operands is the run type up to drift. */
  lemma BinaryStandsTyped(op: Operator, a: DataType, b: DataType, ta: DataType, tb: DataType)
    requires ResultType(op, a, b).Some? && Drifts(a, ta) && Drifts(b, tb)
    ensures BinaryType(op, ta, tb).Ok? && Drifts(ResultType(op, a, b).value, BinaryType(op, ta, tb).value)
  {
    hide ResultType; hide BinaryType;
    DriftTypes(op, a, b, ta, tb);
    BinaryTyped(op, ta, tb, ta, tb);
  }

  /** Setting of the proof for one operator: both operands have values and simplified forms. */
  ghost predicate Operands(k: Kernels, plan: Schema, run: Schema, row: Row, x: Typed, y: Typed, op: Operator, z: Typed, l: Expr, r: Expr) {
    && Lawful(k) && RowFits(k, run, row)
    && Fits(k, x.ty, x.value) && Fits(k, y.ty, y.value) && EvalBinary(k, op, x, y) == Ok(z)
    && Stands(k, plan, run, row, l, x) && Stands(k, plan, run, row, r, y)
  }

  lemma KeptBinary(k: Kernels, plan: Schema, run: Schema, row: Row, x: Typed, y: Typed, op: Operator, z: Typed, l: Expr, r: Expr)
    requires Operands(k, plan, run, row, x, y, op, z, l, r)
    ensures Stands(k, plan, run, row, Binary(l, op, r), z)
  {
    hide EvalBinary; hide Lawful; hide ResultType; hide BinaryType; hide Agree; hide Drifts; hide Resolve;
    var s := Binary(l, op, r);
    BinaryRuns(k, op, x, y);
    if NoDoubleAlias(s) {
      EvalRuns(k, run, row, l);
      EvalRuns(k, run, row, r);
      AgreeBinary(k, op, x, y, Eval(k, run, row, l).value, Eval(k, run, row, r).value);
    }
    if TypeIn(plan, s).Ok? {
      BinaryStandsTyped(op, x.ty, y.ty, TypeIn(plan, l).value, TypeIn(plan, r).value);
    }
  }

  lemma FoldedBinary(k: Kernels, plan: Schema, run: Schema, row: Row, x: Typed, y: Typed, op: Operator, z: Typed, l: Expr, r: Expr)
    requires Operands(k, plan, run, row, x, y, op, z, l, r)
    requires NoColumns(Binary(l, op, r)) && Eval(k, [], [], Binary(l, op, r)).Ok?
    ensures var v := Eval(k, [], [], Binary(l, op, r)).value; Stands(k, plan, run, row, TypedLiteral(v.value, v.ty), z)
  {
    hide EvalBinary; hide Lawful; hide Agree; hide TypeIn; hide TypedLiteral;
    var s := Binary(l, op, r);
    ConstantsEvaluateAnywhere(k, run, row, s);
    EvaluatedHasNoDoubleAlias(k, run, row, s);
    KeptBinary(k, plan, run, row, x, y, op, z, l, r);
    FoldStands(k, plan, run, row, s, z);
  }

  /** A comparison or arithmetic with a NULL operand is NULL. */
  lemma NullBinary(k: Kernels, plan: Schema, run: Schema, row: Row, x: Typed, y: Typed, op: Operator, z: Typed, l: Expr, r: Expr)
    requires Operands(k, plan, run, row, x, y, op, z, l, r) && !op.And? && !op.Or?
    requires IsNullExpression(l) || IsNullExpression(r)
    requires TypeIn(plan, Binary(l, op, r)).Ok?
    ensures Stands(k, plan, run, row, TypedLiteral(Null, TypeIn(plan, Binary(l, op, r)).value), z)
  {
    hide EvalBinary; hide Lawful; hide ResultType; hide BinaryType; hide Drifts; hide IsNullExpression; hide Eval; hide TypedLiteral;
    hide Resolve;
    if IsNullExpression(l) {
      NullExpressionsAreNull(k, run, row, l);
    } else {
      NullExpressionsAreNull(k, run, row, r);
    }
    BinaryValue(k, op, x, y);
    KeptBinary(k, plan, run, row, x, y, op, z, l, r);
    TypedLiteralEvaluates(k, plan, run, row, Typed(TypeIn(plan, Binary(l, op, r)).value, Null));
  }

  /** TRUE is neutral for AND, FALSE for OR: the other operand is the result. */
  lemma NeutralBinary(k: Kernels, plan: Schema, run: Schema, row: Row, x: Typed, y: Typed, op: Operator, z: Typed, l: Expr, r: Expr)
    requires Operands(k, plan, run, row, x, y, op, z, l, r) && (op.And? || op.Or?)
    ensures BooleanLiteral(l) == Some(op.And?) ==> Stands(k, plan, run, row, r, z)
    ensures BooleanLiteral(r) == Some(op.And?) ==> Stands(k, plan, run, row, l, z)
  {
    hide EvalBinary; hide Lawful; hide ResultType; hide TypeIn; hide Eval; hide BooleanLiteral;
    if BooleanLiteral(l) == Some(op.And?) { BooleanLiteralsEvaluate(k, run, row, l); }
    if BooleanLiteral(r) == Some(op.And?) { BooleanLiteralsEvaluate(k, run, row, r); }
    BinaryRuns(k, op, x, y);
    BinaryValue(k, op, x, y);
    BooleanResults(op, x.ty, y.ty);
  }

  /** FALSE decides AND, TRUE decides OR. */
  lemma DecidedBinary(k: Kernels, plan: Schema, run: Schema, row: Row, x: Typed, y: Typed, op: Operator, z: Typed, l: Expr, r: Expr)
    requires Operands(k, plan, run, row, x, y, op, z, l, r) && (op.And? || op.Or?)
    requires BooleanLiteral(l) == Some(op.Or?) || BooleanLiteral(r) == Some(op.Or?)
    ensures Stands(k, plan, run, row, Literal(Boolean(op.Or?)), z)
  {
    hide EvalBinary; hide Lawful; hide ResultType; hide BooleanLiteral; hide Eval; hide TypeIn; hide TypedLiteral;
    LiteralForm(Boolean(op.Or?));
    TypedLiteralEvaluates(k, plan, run, row, Typed(BooleanType, Boolean(op.Or?)));
    if BooleanLiteral(l) == Some(op.Or?) { BooleanLiteralsEvaluate(k, run, row, l); }
    if BooleanLiteral(r) == Some(op.Or?) { BooleanLiteralsEvaluate(k, run, row, r); }
    BinaryRuns(k, op, x, y);
    BinaryValue(k, op, x, y);
    BooleanResults(op, x.ty, y.ty);
  }

  lemma BinaryStands(k: Kernels, plan: Schema, run: Schema, row: Row, x: Typed, y: Typed, op: Operator, z: Typed, l: Expr, r: Expr)
    requires Operands(k, plan, run, row, x, y, op, z, l, r)
    requires SimplifyNode(k, plan, Binary(l, op, r)).Ok?
    ensures Stands(k, plan, run, row, SimplifyNode(k, plan, Binary(l, op, r)).value, z)
  {
    hide Operands; hide Stands; hide TypedLiteral; hide Eval; hide IsNullExpression; hide BooleanLiteral; hide TypeIn;
    var e := Binary(l, op, r);
    if NoColumns(e) && !ContainsAggregate(e) {
      FoldedBinary(k, plan, run, row, x, y, op, z, l, r);
    } else if !op.And? && !op.Or? {
      if IsNullExpression(l) || IsNullExpression(r) {
        NullBinary(k, plan, run, row, x, y, op, z, l, r);
      } else {
        KeptBinary(k, plan, run, row, x, y, op, z, l, r);
      }
    } else {
      NeutralBinary(k, plan, run, row, x, y, op, z, l, r);
      if BooleanLiteral(l) == Some(op.Or?) || BooleanLiteral(r) == Some(op.Or?) {
        DecidedBinary(k, plan, run, row, x, y, op, z, l, r);
      }
      KeptBinary(k, plan, run, row, x, y, op, z, l, r);
    }
  }

  lemma CastStands(k: Kernels, plan: Schema, run: Schema, row: Row, x: Typed, t: DataType, z: Typed, s: Expr)
    requires Lawful(k) && RowFits(k, run, row) && CastTo(k, x, t) == Ok(z) && Stands(k, plan, run, row, s, x)
    requires SimplifyNode(k, plan, Cast(s, t)).Ok?
    ensures Stands(k, plan, run, row, SimplifyNode(k, plan, Cast(s, t)).value, z)
  {
    hide TypedLiteral;
    var e := Cast(s, t);
    if NoDoubleAlias(s) {
      var x' := Eval(k, run, row, s).value;
      assert k.canCast(x.ty, t) == k.canCast(Normalized(x.ty), t) && k.canCast(x'.ty, t) == k.canCast(Normalized(x'.ty), t);
    }
    if NoColumns(e) && !ContainsAggregate(e) {
      ConstantsEvaluateAnywhere(k, run, row, e);
      EvaluatedHasNoDoubleAlias(k, run, row, e);
      FoldStands(k, plan, run, row, e, z);
    }
  }

  lemma IsNullStands(k: Kernels, plan: Schema, run: Schema, row: Row, x: Typed, negated: bool, s: Expr)
    requires Lawful(k) && RowFits(k, run, row) && Stands(k, plan, run, row, s, x)
    requires SimplifyNode(k, plan, IsNull(s, negated)).Ok?
    ensures Stands(k, plan, run, row, SimplifyNode(k, plan, IsNull(s, negated)).value,
                   Typed(BooleanType, Boolean(x.value.Null? != negated)))
  {
    hide TypedLiteral; hide Lawful;
    var e := IsNull(s, negated);
    if NoColumns(e) && !ContainsAggregate(e) {
      ConstantsEvaluateAnywhere(k, run, row, e);
      EvaluatedHasNoDoubleAlias(k, run, row, e);
      FoldStands(k, plan, run, row, e, Typed(BooleanType, Boolean(x.value.Null? != negated)));
    }
  }

  lemma LeafStands(k: Kernels, plan: Schema, run: Schema, row: Row, e: Expr)
    requires Lawful(k) && Compatible(plan, run) && RowFits(k, run, row) && (e.Column? || e.Literal?)
    requires SimplifyNode(k, plan, e).Ok? && Eval(k, run, row, e).Ok?
    ensures Stands(k, plan, run, row, SimplifyNode(k, plan, e).value, Eval(k, run, row, e).value)
  {
    hide Lawful;
    if e.Literal? {
      FoldStands(k, plan, run, row, e, Eval(k, run, row, e).value);
    }
  }

  lemma {:induction false} SimplifiedStands(k: Kernels, plan: Schema, run: Schema, row: Row, e: Expr)
    requires Lawful(k) && Compatible(plan, run) && RowFits(k, run, row) && Simplify(k, plan, e).Ok? && Eval(k, run, row, e).Ok?
    ensures Stands(k, plan, run, row, Simplify(k, plan, e).value, Eval(k, run, row, e).value)
  {
    hide SimplifyNode; hide Stands; hide EvalBinary; hide Lawful; hide TypeIn; hide Compatible;
    match e
    case Binary(l, op, r) =>
      SimplifiedStands(k, plan, run, row, l);
      SimplifiedStands(k, plan, run, row, r);
      EvalRuns(k, run, row, l);
      EvalRuns(k, run, row, r);
      var x, y := Eval(k, run, row, l).value, Eval(k, run, row, r).value;
      BinaryStands(k, plan, run, row, x, y, op, Eval(k, run, row, e).value,
                   Simplify(k, plan, l).value, Simplify(k, plan, r).value);
    case Cast(x, t) =>
      SimplifiedStands(k, plan, run, row, x);
      CastStands(k, plan, run, row, Eval(k, run, row, x).value, t, Eval(k, run, row, e).value, Simplify(k, plan, x).value);
    case IsNull(x, negated) =>
      SimplifiedStands(k, plan, run, row, x);
      IsNullStands(k, plan, run, row, Eval(k, run, row, x).value, negated, Simplify(k, plan, x).value);
    case Alias(x, a) =>
      SimplifiedStands(k, plan, run, row, x);
      AliasStands(k, plan, run, row, Simplify(k, plan, x).value, a, Eval(k, run, row, x).value);
    case _ => LeafStands(k, plan, run, row, e);
  }

  lemma AliasStands(k: Kernels, plan: Schema, run: Schema, row: Row, s: Expr, alias: string, x: Typed)
    requires Stands(k, plan, run, row, s, x)
    ensures Stands(k, plan, run, row, Alias(s, alias), x)
  {
  }

  // ----- aliases that come to the surface ------------------------------------------------------

  /** An operand that AND or OR leaves out. */
  predicate IsNeutral(k: Kernels, schema: Schema, op: Operator, e: Expr) {
    match Simplify(k, schema, e) case Ok(s) => BooleanLiteral(s) == Some(op.And?) case Err(_) => false
  }

  /** An operand that decides AND or OR. */
  predicate IsDecisive(k: Kernels, schema: Schema, op: Operator, e: Expr) {
    match Simplify(k, schema, e) case Ok(s) => BooleanLiteral(s) == Some(op.Or?) case Err(_) => false
  }

  predicate IsNullOperand(k: Kernels, schema: Schema, e: Expr) {
    match Simplify(k, schema, e) case Ok(s) => IsNullExpression(s) case Err(_) => false
  }

  predicate IsConstant(k: Kernels, schema: Schema, e: Expr) {
    match Simplify(k, schema, e) case Ok(s) => NoColumns(s) && !ContainsAggregate(s) case Err(_) => false
  }

  /** The expression is an alias, or an AND or OR that leaves out one operand and whose other
      operand surfaces one. */
  predicate Surfaces(k: Kernels, schema: Schema, e: Expr) {
    match e
    case Alias(_, _) => true
    case Binary(l, op, r) =>
      && (op.And? || op.Or?)
      && !(IsConstant(k, schema, l) && IsConstant(k, schema, r))
      && if IsNeutral(k, schema, op, l) then Surfaces(k, schema, r) else IsNeutral(k, schema, op, r) && Surfaces(k, schema, l)
    case _ => false
  }

  /** Some alias that simplification keeps has a body that surfaces another. */
  predicate Exposes(k: Kernels, schema: Schema, e: Expr) {
    match e
    case Alias(x, _) => Surfaces(k, schema, x) || Exposes(k, schema, x)
    case Binary(l, op, r) =>
      if !op.And? && !op.Or? then
        !IsNullOperand(k, schema, l) && !IsNullOperand(k, schema, r) && (Exposes(k, schema, l) || Exposes(k, schema, r))
      else if IsNeutral(k, schema, op, l) then Exposes(k, schema, r)
      else if IsNeutral(k, schema, op, r) then Exposes(k, schema, l)
      else !IsDecisive(k, schema, op, l) && !IsDecisive(k, schema, op, r) && (Exposes(k, schema, l) || Exposes(k, schema, r))
    case IsNull(x, _) => Exposes(k, schema, x)
    case Cast(x, _) => Exposes(k, schema, x)
    case Aggregate(_, x, _) => Exposes(k, schema, x)
    case _ => false
  }

  lemma FoldedAliases(k: Kernels, schema: Schema, e: Expr)
    requires SimplifyNode(k, schema, e).Ok? && NoColumns(e) && !ContainsAggregate(e)
    ensures NoDoubleAlias(e) && NoDoubleAlias(SimplifyNode(k, schema, e).value) && !SimplifyNode(k, schema, e).value.Alias?
  {
    hide Eval; hide TypeIn;
    EvaluatedHasNoDoubleAlias(k, [], [], e);
  }

  lemma UnaryAliases(k: Kernels, schema: Schema, e: Expr)
    requires SimplifyNode(k, schema, e).Ok? && (e.Cast? || e.IsNull?)
    ensures NoDoubleAlias(SimplifyNode(k, schema, e).value) <==> NoDoubleAlias(e)
    ensures !SimplifyNode(k, schema, e).value.Alias?
  {
    hide Eval; hide TypeIn;
    if NoColumns(e) && !ContainsAggregate(e) { FoldedAliases(k, schema, e); }
  }

  /** The expressions that a simplified AND or OR of two operands may still hold. */
  lemma BinaryAliases(k: Kernels, schema: Schema, l: Expr, op: Operator, r: Expr)
    requires SimplifyNode(k, schema, Binary(l, op, r)).Ok?
    ensures var s := SimplifyNode(k, schema, Binary(l, op, r)).value;
      if !op.And? && !op.Or? then
        && !s.Alias?
        && (NoDoubleAlias(s) <==> IsNullExpression(l) || IsNullExpression(r) || (NoDoubleAlias(l) && NoDoubleAlias(r)))
      else
        var neutral, decisive := Some(op.And?), Some(op.Or?);
        var constant := NoColumns(l) && !ContainsAggregate(l) && NoColumns(r) && !ContainsAggregate(r);
        && (s.Alias? <==> !constant && if BooleanLiteral(l) == neutral then r.Alias? else BooleanLiteral(r) == neutral && l.Alias?)
        && (NoDoubleAlias(s) <==>
            if BooleanLiteral(l) == neutral then NoDoubleAlias(r)
            else if BooleanLiteral(r) == neutral then NoDoubleAlias(l)
            else BooleanLiteral(l) == decisive || BooleanLiteral(r) == decisive || (NoDoubleAlias(l) && NoDoubleAlias(r)))
  {
    hide Eval; hide TypeIn; hide BooleanLiteral; hide IsNullExpression;
    var e := Binary(l, op, r);
    if NoColumns(e) && !ContainsAggregate(e) { FoldedAliases(k, schema, e); }
  }

  /** What comes to the surface, told from the expression before simplification. */
  lemma {:induction false} ExposedAliases(k: Kernels, schema: Schema, e: Expr)
    requires Simplify(k, schema, e).Ok?
    ensures Simplify(k, schema, e).value.Alias? <==> Surfaces(k, schema, e)
    ensures NoDoubleAlias(Simplify(k, schema, e).value) <==> !Exposes(k, schema, e)
  {
    hide SimplifyNode; hide BooleanLiteral; hide IsNullExpression;
    match e
    case Binary(l, op, r) =>
      ExposedAliases(k, schema, l);
      ExposedAliases(k, schema, r);
      BinaryAliases(k, schema, Simplify(k, schema, l).value, op, Simplify(k, schema, r).value);
    case IsNull(x, negated) =>
      ExposedAliases(k, schema, x);
      UnaryAliases(k, schema, IsNull(Simplify(k, schema, x).value, negated));
    case Cast(x, t) =>
      ExposedAliases(k, schema, x);
      UnaryAliases(k, schema, Cast(Simplify(k, schema, x).value, t));
    case Alias(x, _) => ExposedAliases(k, schema, x);
    case Aggregate(_, x, _) => ExposedAliases(k, schema, x);
    case _ => LeafAliases(k, schema, e);
  }

  lemma LeafAliases(k: Kernels, schema: Schema, e: Expr)
    requires Simplify(k, schema, e).Ok? && (e.Column? || e.Literal? || e.Wildcard?)
    ensures !Simplify(k, schema, e).value.Alias? && NoDoubleAlias(Simplify(k, schema, e).value)
  {
  }

  /** Simplification is sound: wherever the original evaluates to a value, the simplified form
      evaluates to the same value, and also of the same type unless it is NULL. The one exception
      is an alias whose body surfaces another alias: an alias directly inside an alias cannot be
      evaluated. */
  lemma SimplificationIsSound(k: Kernels, plan: Schema, run: Schema, row: Row, e: Expr)
    requires Lawful(k) && Compatible(plan, run) && RowFits(k, run, row) && Simplify(k, plan, e).Ok? && Eval(k, run, row, e).Ok?
    ensures var s := Simplify(k, plan, e).value;
      && (Eval(k, run, row, s).Ok? <==> !Exposes(k, plan, e))
      && (Eval(k, run, row, s).Ok? <==> NoDoubleAlias(s))
      && (!Exposes(k, plan, e) ==> Agree(Eval(k, run, row, e).value, Eval(k, run, row, s).value))
  {
    SimplifiedStands(k, plan, run, row, e);
    ExposedAliases(k, plan, e);
    hide Simplify; hide Eval; hide Lawful; hide Exposes;
    var s := Simplify(k, plan, e).value;
    if Eval(k, run, row, s).Ok? {
      EvaluatedHasNoDoubleAlias(k, run, row, s);
    }
  }

  /** Neutral operands expose an alias: the original evaluates, the simplified form does not. */
  lemma DoubleAliasExample(k: Kernels, row: Row)
    requires Lawful(k)
    ensures var schema := [Field("c", BooleanType)];
      var e := Alias(Binary(Literal(Boolean(true)), And, Alias(Column("c"), "a")), "b");
      && Simplify(k, schema, e) == Ok(Alias(Alias(Column("c"), "a"), "b"))
      && (RowFits(k, schema, row) ==> Eval(k, schema, row, e).Ok?)
      && Eval(k, schema, row, Alias(Alias(Column("c"), "a"), "b")) == Err(Unreachable)
  {
    hide Resolve;
    var schema := [Field("c", BooleanType)];
    OwnNameResolves(schema, 0);
    assert schema[0].name == "c";
    var c := Alias(Column("c"), "a");
    assert TypeIn(schema, c) == Ok(BooleanType);
    assert Simplify(k, schema, c) == Ok(c);
    assert Simplify(k, schema, Literal(Boolean(true))) == Ok(Literal(Boolean(true)));
    var both := Binary(Literal(Boolean(true)), And, c);
    assert SimplifyNode(k, schema, both) == Ok(c);
    assert Simplify(k, schema, both) == Ok(c);
    if RowFits(k, schema, row) {
      assert Eval(k, schema, row, c) == Ok(Typed(BooleanType, row[0]));
      assert Eval(k, schema, row, both) == EvalBinary(k, And, Typed(BooleanType, Boolean(true)), Typed(BooleanType, row[0]));
    }
  }

  /** Aliases at the root only, as queries are planned, never come to lie inside one another. */
  lemma RootAliasesStayApart(k: Kernels, schema: Schema, e: Expr)
    requires NoAlias(Unalias(e)) && Simplify(k, schema, e).Ok?
    ensures NoDoubleAlias(Simplify(k, schema, e).value)
  {
    SimplifyKeepsNoAlias(k, schema, Unalias(e));
    NoAliasIsNoDouble(Simplify(k, schema, Unalias(e)).value);
  }

  lemma {:induction false} SimplifyKeepsNoAlias(k: Kernels, schema: Schema, e: Expr)
    requires NoAlias(e) && Simplify(k, schema, e).Ok?
    ensures NoAlias(Simplify(k, schema, e).value)
  {
    hide TypeIn; hide Eval; hide IsNullExpression; hide BooleanLiteral;
    match e
    case Binary(l, _, r) => SimplifyKeepsNoAlias(k, schema, l); SimplifyKeepsNoAlias(k, schema, r);
    case Cast(x, _) => SimplifyKeepsNoAlias(k, schema, x);
    case IsNull(x, _) => SimplifyKeepsNoAlias(k, schema, x);
    case Aggregate(_, x, _) => SimplifyKeepsNoAlias(k, schema, x);
    case _ =>
  }

  lemma {:induction false} NoAliasIsNoDouble(e: Expr)
    requires NoAlias(e)
    ensures NoDoubleAlias(e)
  {
    match e
    case Binary(l, _, r) => NoAliasIsNoDouble(l); NoAliasIsNoDouble(r);
    case Cast(x, _) => NoAliasIsNoDouble(x);
    case IsNull(x, _) => NoAliasIsNoDouble(x);
    case Aggregate(_, x, _) => NoAliasIsNoDouble(x);
    case _ =>
  }

  // ----- idempotence -------------------------------------------------------------------------

  lemma ConstantIsFixed(k: Kernels, schema: Schema, x: Typed)
    requires Lawful(k) && Fits(k, x.ty, x.value)
    ensures Simplify(k, schema, TypedLiteral(x.value, x.ty)) == Ok(TypedLiteral(x.value, x.ty))
  {
    hide Lawful;
    TypedLiteralEvaluates(k, [], [], [], x);
  }

  lemma NodeIsFixed(k: Kernels, schema: Schema, e: Expr)
    requires Lawful(k) && SimplifyNode(k, schema, e).Ok? && (e.Column? || e.Literal? || e.Binary? || e.IsNull? || e.Cast?)
    requires e.Binary? ==> Simplify(k, schema, e.left) == Ok(e.left) && Simplify(k, schema, e.right) == Ok(e.right)
    requires e.IsNull? || e.Cast? ==> Simplify(k, schema, e.expr) == Ok(e.expr)
    ensures var s := SimplifyNode(k, schema, e).value; Simplify(k, schema, s) == Ok(s)
  {
    hide Lawful; hide TypedLiteral; hide Eval; hide IsNullExpression; hide BooleanLiteral; hide TypeIn;
    var s := SimplifyNode(k, schema, e).value;
    if NoColumns(e) && !ContainsAggregate(e) {
      EvalRuns(k, [], [], e);
      ConstantIsFixed(k, schema, Eval(k, [], [], e).value);
    } else if e.Binary? && s != e && s != e.left && s != e.right {
      if e.op.And? || e.op.Or? {
        LiteralForm(Boolean(e.op.Or?));
        ConstantIsFixed(k, schema, Typed(BooleanType, Boolean(e.op.Or?)));
      } else {
        ConstantIsFixed(k, schema, Typed(TypeIn(schema, e).value, Null));
      }
    }
  }

  lemma LiteralForm(v: Scalar)
    ensures TypedLiteral(v, TypeOf(v)) == Literal(v)
  {
  }

  /** Simplifying twice is simplifying once. */
  lemma {:induction false} SimplificationIsIdempotent(k: Kernels, schema: Schema, e: Expr)
    requires Lawful(k) && Simplify(k, schema, e).Ok?
    ensures var s := Simplify(k, schema, e).value; Simplify(k, schema, s) == Ok(s)
  {
    hide Lawful; hide SimplifyNode;
    match e
    case Binary(l, op, r) =>
      SimplificationIsIdempotent(k, schema, l);
      SimplificationIsIdempotent(k, schema, r);
      NodeIsFixed(k, schema, Binary(Simplify(k, schema, l).value, op, Simplify(k, schema, r).value));
    case Cast(x, t) =>
      SimplificationIsIdempotent(k, schema, x);
      NodeIsFixed(k, schema, Cast(Simplify(k, schema, x).value, t));
    case IsNull(x, negated) =>
      SimplificationIsIdempotent(k, schema, x);
      NodeIsFixed(k, schema, IsNull(Simplify(k, schema, x).value, negated));
    case Alias(x, _) => SimplificationIsIdempotent(k, schema, x);
    case Aggregate(_, x, _) => SimplificationIsIdempotent(k, schema, x);
    case Wildcard =>
    case _ => NodeIsFixed(k, schema, e);
  }
}
