/** How the run types of expressions move when columns that hold only NULLs change their type and
    when expressions are simplified. */
module ExprDrift {
  import opened Basics
  import opened Values
  import opened Expr
  import opened ExprTyping
  import opened Simplification

  /** A type may grow to 64 bits, and Boolean may become the type of NULL. */
  predicate Grows(t: DataType, t': DataType) {
    t == t' || t' == Normalized(t) || (t.BooleanType? && t'.NullType?)
  }

  lemma GrowTypes(op: Operator, a: DataType, b: DataType, a': DataType, b': DataType)
    requires ResultType(op, a, b).Some? && Grows(a, a') && Grows(b, b')
    ensures ResultType(op, a', b').Some? && Grows(ResultType(op, a, b).value, ResultType(op, a', b').value)
  {
    hide CommonNumeric; hide ResultType;
    DriftTypes(op, a, b, a', b');
    if IsArithmetic(op) {
      ArithmeticTypes(op, a, b);
      ArithmeticTypes(op, a', b');
    } else {
      BooleanResults(op, a, b);
      BooleanResults(op, a', b');
    }
  }

  /** Arithmetic keeps a common type and widens otherwise. */
  lemma ArithmeticTypes(op: Operator, a: DataType, b: DataType)
    requires IsArithmetic(op) && ResultType(op, a, b).Some?
    ensures var t := ResultType(op, a, b).value; IsNumeric(t) && (if a == b then t == a else Normalized(t) == t)
  {
  }

  predicate SameNames(a: Schema, b: Schema) {
    |a| == |b| && forall i | 0 <= i < |a| :: a[i].name == b[i].name
  }

  lemma {:induction false} SameNamesIndices(a: Schema, b: Schema, wanted: string, short: bool)
    requires SameNames(a, b)
    ensures Indices(a, wanted, short) == Indices(b, wanted, short)
  {
    hide Unqualified;
    if a != [] {
      var n := |a| - 1;
      SameNamesIndices(a[..n], b[..n], wanted, short);
    }
  }

  lemma SameNamesResolve(a: Schema, b: Schema, name: string)
    requires SameNames(a, b)
    ensures Resolve(a, name) == Resolve(b, name)
  {
    hide Indices; hide Unqualified; hide Qualified;
    SameNamesIndices(a, b, name, false);
    SameNamesIndices(a, b, Unqualified(name), true);
    assert (exists i :: 0 <= i < |a| && Qualified(a[i].name)) <==> (exists i :: 0 <= i < |b| && Qualified(b[i].name)) by {
      if i :| 0 <= i < |a| && Qualified(a[i].name) { assert Qualified(b[i].name); }
      if i :| 0 <= i < |b| && Qualified(b[i].name) { assert Qualified(a[i].name); }
    }
  }

  /** The same columns, except that some that are NULL in this row have grown. */
  predicate RowGrows(a: Schema, b: Schema, row: Row) {
    && SameNames(a, b) && |row| == |a|
    && forall i | 0 <= i < |a| :: a[i].ty == b[i].ty || (Grows(a[i].ty, b[i].ty) && row[i].Null?)
  }

  predicate SchemaGrows(a: Schema, b: Schema) {
    SameNames(a, b) && forall i | 0 <= i < |a| :: Grows(a[i].ty, b[i].ty)
  }

  lemma GrownRowFits(k: Kernels, a: Schema, b: Schema, row: Row)
    requires RowGrows(a, b, row) && RowFits(k, a, row)
    ensures RowFits(k, b, row)
  {
  }

  /** Values do not depend on the types of columns that are NULL. */
  lemma {:induction false} EvalGrows(k: Kernels, a: Schema, b: Schema, row: Row, e: Expr)
    requires Lawful(k) && RowGrows(a, b, row) && RowFits(k, a, row) && Eval(k, a, row, e).Ok?
    ensures Eval(k, b, row, e).Ok? && Agree(Eval(k, a, row, e).value, Eval(k, b, row, e).value)
  {
    hide EvalBinary; hide Resolve; hide Lawful;
    GrownRowFits(k, a, b, row);
    match e
    case Column(name) => SameNamesResolve(a, b, name);
    case Alias(x, _) => EvalGrows(k, a, b, row, x);
    case Binary(l, op, r) =>
      EvalGrows(k, a, b, row, l);
      EvalGrows(k, a, b, row, r);
      EvalRuns(k, a, row, l);
      EvalRuns(k, a, row, r);
      EvalRuns(k, b, row, l);
      EvalRuns(k, b, row, r);
      AgreeBinary(k, op, Eval(k, a, row, l).value, Eval(k, a, row, r).value, Eval(k, b, row, l).value, Eval(k, b, row, r).value);
    case Cast(x, t) =>
      EvalGrows(k, a, b, row, x);
      CastAgrees(k, Eval(k, a, row, x).value, Eval(k, b, row, x).value, t);
    case IsNull(x, _) => EvalGrows(k, a, b, row, x);
    case Literal(_) =>
  }

  lemma CastAgrees(k: Kernels, x: Typed, y: Typed, t: DataType)
    requires Lawful(k) && Agree(x, y) && CastTo(k, x, t).Ok?
    ensures CastTo(k, y, t).Ok? && CastTo(k, y, t).value == CastTo(k, x, t).value
  {
    assert k.canCast(x.ty, t) == k.canCast(Normalized(x.ty), t) && k.canCast(y.ty, t) == k.canCast(Normalized(y.ty), t);
  }

  lemma CastGrows(k: Kernels, a: DataType, b: DataType, t: DataType)
    requires Lawful(k) && Grows(a, b) && k.canCast(a, t)
    ensures k.canCast(b, t)
  {
    assert k.canCast(a, t) == k.canCast(Normalized(a), t);
  }

  lemma CastDrifts(k: Kernels, a: DataType, b: DataType, t: DataType)
    requires Lawful(k) && Drifts(a, b) && k.canCast(a, t)
    ensures k.canCast(b, t)
  {
    assert k.canCast(a, t) == k.canCast(Normalized(a), t) && k.canCast(b, t) == k.canCast(Normalized(b), t);
  }

  lemma {:induction false} RunTypeGrows(k: Kernels, a: Schema, b: Schema, e: Expr)
    requires Lawful(k) && SchemaGrows(a, b) && RunType(k, a, e).Some?
    ensures RunType(k, b, e).Some? && Grows(RunType(k, a, e).value, RunType(k, b, e).value)
  {
    hide ResultType; hide Resolve; hide Lawful;
    match e
    case Column(name) => SameNamesResolve(a, b, name);
    case Alias(x, _) => RunTypeGrows(k, a, b, x);
    case Binary(l, op, r) =>
      RunTypeGrows(k, a, b, l);
      RunTypeGrows(k, a, b, r);
      GrowTypes(op, RunType(k, a, l).value, RunType(k, a, r).value, RunType(k, b, l).value, RunType(k, b, r).value);
    case Cast(x, t) =>
      RunTypeGrows(k, a, b, x);
      CastGrows(k, RunType(k, a, x).value, RunType(k, b, x).value, t);
    case IsNull(x, _) => RunTypeGrows(k, a, b, x);
    case Literal(_) =>
  }

  // ----- run types of simplified expressions ---------------------------------------------------

  /** The simplified form `s` of an expression with run type `t`. */
  ghost predicate StandsTyped(k: Kernels, plan: Schema, run: Schema, s: Expr, t: DataType) {
    && (NoDoubleAlias(s) ==> RunType(k, run, s).Some? && Grows(t, RunType(k, run, s).value))
    && (TypeIn(plan, s).Ok? ==> Drifts(t, TypeIn(plan, s).value))
  }

  lemma TypedLiteralRuns(k: Kernels, plan: Schema, run: Schema, v: Scalar, t: DataType)
    requires Lawful(k) && Fits(k, t, v)
    ensures var s := TypedLiteral(v, t);
      RunType(k, run, s) == Some(t) && TypeIn(plan, s) == Ok(t) && NoDoubleAlias(s)
  {
    if !v.Null? { assert k.canCast(t, t) == k.canCast(Normalized(t), t); }
  }

  lemma {:induction false} ConstantsRunAnywhere(k: Kernels, run: Schema, e: Expr)
    requires NoColumns(e)
    ensures RunType(k, run, e) == RunType(k, [], e)
  {
    hide ResultType;
    match e
    case Binary(l, _, r) => ConstantsRunAnywhere(k, run, l); ConstantsRunAnywhere(k, run, r);
    case Alias(x, _) => ConstantsRunAnywhere(k, run, x);
    case Cast(x, _) => ConstantsRunAnywhere(k, run, x);
    case IsNull(x, _) => ConstantsRunAnywhere(k, run, x);
    case _ =>
  }

  lemma FoldTyped(k: Kernels, plan: Schema, run: Schema, e: Expr, t: DataType)
    requires Lawful(k) && NoColumns(e) && Eval(k, [], [], e).Ok? && StandsTyped(k, plan, run, e, t)
    ensures var z := Eval(k, [], [], e).value; StandsTyped(k, plan, run, TypedLiteral(z.value, z.ty), t)
  {
    hide Eval; hide TypeIn; hide TypedLiteral; hide Lawful; hide RunType;
    EvaluatedHasNoDoubleAlias(k, [], [], e);
    EvalRuns(k, [], [], e);
    ConstantsRunAnywhere(k, run, e);
    var z := Eval(k, [], [], e).value;
    TypedLiteralRuns(k, plan, run, z.value, z.ty);
    assert Grows(t, z.ty) ==> Drifts(t, z.ty);
  }

  ghost predicate OperandTypes(k: Kernels, plan: Schema, run: Schema, a: DataType, b: DataType, op: Operator, t: DataType, l: Expr, r: Expr) {
    && Lawful(k) && ResultType(op, a, b) == Some(t)
    && StandsTyped(k, plan, run, l, a) && StandsTyped(k, plan, run, r, b)
  }

  lemma KeptTyped(k: Kernels, plan: Schema, run: Schema, a: DataType, b: DataType, op: Operator, t: DataType, l: Expr, r: Expr)
    requires OperandTypes(k, plan, run, a, b, op, t, l, r)
    ensures StandsTyped(k, plan, run, Binary(l, op, r), t)
  {
    hide Lawful; hide ResultType; hide BinaryType; hide Drifts; hide Grows; hide Resolve;
    var s := Binary(l, op, r);
    if NoDoubleAlias(s) {
      GrowTypes(op, a, b, RunType(k, run, l).value, RunType(k, run, r).value);
    }
    if TypeIn(plan, s).Ok? {
      BinaryStandsTyped(op, a, b, TypeIn(plan, l).value, TypeIn(plan, r).value);
    }
  }

  /** The type of a propagated NULL: Boolean for a comparison, else the 64-bit type. */
  lemma NullTyped(k: Kernels, plan: Schema, run: Schema, a: DataType, b: DataType, op: Operator, t: DataType, l: Expr, r: Expr)
    requires OperandTypes(k, plan, run, a, b, op, t, l, r) && !op.And? && !op.Or? && TypeIn(plan, Binary(l, op, r)).Ok?
    ensures StandsTyped(k, plan, run, TypedLiteral(Null, TypeIn(plan, Binary(l, op, r)).value), t)
  {
    hide Lawful; hide ResultType; hide RunType; hide TypedLiteral; hide CommonNumeric; hide Resolve;
    KeptTyped(k, plan, run, a, b, op, t, l, r);
    var ty := TypeIn(plan, Binary(l, op, r)).value;
    CommonOfFamilies(TypeIn(plan, l).value, TypeIn(plan, r).value, a, b);
    TypedLiteralRuns(k, plan, run, Null, ty);
    if !IsArithmetic(op) { BooleanResults(op, a, b); }
    if IsArithmetic(op) { ArithmeticTypes(op, a, b); }
  }

  lemma LogicTyped(k: Kernels, plan: Schema, run: Schema, a: DataType, b: DataType, op: Operator, t: DataType, l: Expr, r: Expr)
    requires OperandTypes(k, plan, run, a, b, op, t, l, r) && (op.And? || op.Or?)
    ensures StandsTyped(k, plan, run, l, t) && StandsTyped(k, plan, run, r, t)
    ensures StandsTyped(k, plan, run, Literal(Boolean(op.Or?)), t)
  {
    hide Lawful; hide Resolve; hide CommonNumeric;
    CommonOfFamilies(a, b, a, b);
    assert t.BooleanType? && (a.BooleanType? || a.NullType?) && (b.BooleanType? || b.NullType?);
  }

  lemma BinaryTypedStands(k: Kernels, plan: Schema, run: Schema, a: DataType, b: DataType, op: Operator, t: DataType, l: Expr, r: Expr)
    requires OperandTypes(k, plan, run, a, b, op, t, l, r) && SimplifyNode(k, plan, Binary(l, op, r)).Ok?
    ensures StandsTyped(k, plan, run, SimplifyNode(k, plan, Binary(l, op, r)).value, t)
  {
    hide OperandTypes; hide StandsTyped; hide TypedLiteral; hide Eval; hide IsNullExpression; hide BooleanLiteral; hide TypeIn; hide Lawful;
    var e := Binary(l, op, r);
    KeptTyped(k, plan, run, a, b, op, t, l, r);
    if NoColumns(e) && !ContainsAggregate(e) {
      LawfulOperands(k, plan, run, a, b, op, t, l, r);
      FoldTyped(k, plan, run, e, t);
    } else if !op.And? && !op.Or? {
      NullTyped(k, plan, run, a, b, op, t, l, r);
    } else {
      LogicTyped(k, plan, run, a, b, op, t, l, r);
    }
  }

  lemma LawfulOperands(k: Kernels, plan: Schema, run: Schema, a: DataType, b: DataType, op: Operator, t: DataType, l: Expr, r: Expr)
    requires OperandTypes(k, plan, run, a, b, op, t, l, r)
    ensures Lawful(k)
  {
  }

  lemma UnaryTypedStands(k: Kernels, plan: Schema, run: Schema, e: Expr, t: DataType)
    requires Lawful(k) && (e.Cast? || e.IsNull?) && StandsTyped(k, plan, run, e, t) && SimplifyNode(k, plan, e).Ok?
    ensures StandsTyped(k, plan, run, SimplifyNode(k, plan, e).value, t)
  {
    hide StandsTyped; hide TypedLiteral; hide Lawful; hide Eval;
    if NoColumns(e) && !ContainsAggregate(e) { FoldTyped(k, plan, run, e, t); }
  }

  lemma CastTyped(k: Kernels, plan: Schema, run: Schema, x: Expr, a: DataType, t: DataType)
    requires Lawful(k) && StandsTyped(k, plan, run, x, a) && k.canCast(a, t)
    ensures StandsTyped(k, plan, run, Cast(x, t), t)
  {
    hide Lawful;
    if NoDoubleAlias(x) { CastGrows(k, a, RunType(k, run, x).value, t); }
  }

  lemma NullTestTyped(k: Kernels, plan: Schema, run: Schema, x: Expr, a: DataType, negated: bool)
    requires StandsTyped(k, plan, run, x, a)
    ensures StandsTyped(k, plan, run, IsNull(x, negated), BooleanType)
  {
  }

  lemma AliasTyped(k: Kernels, plan: Schema, run: Schema, x: Expr, a: DataType, alias: string)
    requires StandsTyped(k, plan, run, x, a)
    ensures StandsTyped(k, plan, run, Alias(x, alias), a)
  {
  }

  lemma LeafTyped(k: Kernels, plan: Schema, run: Schema, e: Expr)
    requires Lawful(k) && Compatible(plan, run) && (e.Column? || e.Literal?) && SimplifyNode(k, plan, e).Ok? && RunType(k, run, e).Some?
    ensures StandsTyped(k, plan, run, SimplifyNode(k, plan, e).value, RunType(k, run, e).value)
  {
    hide Resolve;
    if e.Literal? { TypedLiteralRuns(k, plan, run, e.value, TypeOf(e.value)); }
  }

  /** Simplifying an expression that runs gives one that runs, with the same type or a grown one. */
  lemma {:induction false} SimplifiedRuns(k: Kernels, plan: Schema, run: Schema, e: Expr)
    requires Lawful(k) && Compatible(plan, run) && Simplify(k, plan, e).Ok? && RunType(k, run, e).Some?
    ensures StandsTyped(k, plan, run, Simplify(k, plan, e).value, RunType(k, run, e).value)
  {
    hide SimplifyNode; hide StandsTyped; hide ResultType; hide Lawful; hide Compatible;
    match e
    case Binary(l, op, r) =>
      SimplifiedRuns(k, plan, run, l);
      SimplifiedRuns(k, plan, run, r);
      BinaryTypedStands(k, plan, run, RunType(k, run, l).value, RunType(k, run, r).value, op, RunType(k, run, e).value,
                        Simplify(k, plan, l).value, Simplify(k, plan, r).value);
    case Cast(x, t) =>
      SimplifiedRuns(k, plan, run, x);
      CastTyped(k, plan, run, Simplify(k, plan, x).value, RunType(k, run, x).value, t);
      UnaryTypedStands(k, plan, run, Cast(Simplify(k, plan, x).value, t), t);
    case IsNull(x, negated) =>
      SimplifiedRuns(k, plan, run, x);
      NullTestTyped(k, plan, run, Simplify(k, plan, x).value, RunType(k, run, x).value, negated);
      UnaryTypedStands(k, plan, run, IsNull(Simplify(k, plan, x).value, negated), BooleanType);
    case Alias(x, alias) =>
      SimplifiedRuns(k, plan, run, x);
      AliasTyped(k, plan, run, Simplify(k, plan, x).value, RunType(k, run, x).value, alias);
    case _ => LeafTyped(k, plan, run, e);
  }

  // ----- inferred type and run type ------------------------------------------------------------

  predicate ArithmeticRoot(e: Expr) {
    e.Binary? && IsArithmetic(e.op)
  }

  /** The inferred type is the run type, except that arithmetic is always inferred as 64 bits. */
  lemma {:induction false} InferredOrWidened(k: Kernels, plan: Schema, run: Schema, e: Expr)
    requires Compatible(plan, run) && TypeIn(plan, e).Ok? && RunType(k, run, e).Some?
    ensures var t, r := TypeIn(plan, e).value, RunType(k, run, e).value;
      t == r || (t == Normalized(r) && ArithmeticRoot(Unalias(e)))
  {
    hide Resolve; hide CommonNumeric;
    match e
    case Alias(x, _) => InferredOrWidened(k, plan, run, x);
    case Binary(l, op, r) =>
      InferredOrWidened(k, plan, run, l);
      InferredOrWidened(k, plan, run, r);
      var a, b := RunType(k, run, l).value, RunType(k, run, r).value;
      CommonOfFamilies(TypeIn(plan, l).value, TypeIn(plan, r).value, a, b);
      CommonOfFamilies(a, b, a, b);
    case _ =>
  }

  /** The inferred type is the run type. */
  predicate Exact(k: Kernels, plan: Schema, run: Schema, e: Expr) {
    TypeIn(plan, e).Ok? && RunType(k, run, e) == Some(TypeIn(plan, e).value)
  }

  /** Growing columns keep an exact type exact. */
  lemma GrownExact(k: Kernels, plan: Schema, run: Schema, plan': Schema, run': Schema, e: Expr)
    requires Lawful(k) && Compatible(plan, run) && Compatible(plan', run') && SchemaGrows(run, run')
    requires Exact(k, plan, run, e) && TypeIn(plan', e).Ok?
    ensures Exact(k, plan', run', e)
  {
    hide TypeIn; hide RunType; hide Lawful; hide Compatible;
    RunTypeGrows(k, run, run', e);
    InferredOrWidened(k, plan', run', e);
    if ArithmeticRoot(Unalias(e)) { ArithmeticIsExactWhenWide(k, plan, run, e); }
  }

  lemma ArithmeticIsExactWhenWide(k: Kernels, plan: Schema, run: Schema, e: Expr)
    requires Exact(k, plan, run, e) && ArithmeticRoot(Unalias(e))
    ensures var t := TypeIn(plan, e).value; Normalized(t) == t && IsNumeric(t)
  {
    hide Resolve; hide CommonNumeric;
    var x := Unalias(e);
    assert TypeIn(plan, x).Ok?;
    CommonOfFamilies(TypeIn(plan, x.left).value, TypeIn(plan, x.right).value, NullType, NullType);
  }

  /** Simplifying an exactly typed expression gives an exactly typed one. */
  lemma SimplifiedExact(k: Kernels, plan: Schema, run: Schema, e: Expr)
    requires Lawful(k) && Compatible(plan, run) && Exact(k, plan, run, e) && Simplify(k, plan, e).Ok?
    requires NoDoubleAlias(Simplify(k, plan, e).value) && TypeIn(plan, Simplify(k, plan, e).value).Ok?
    ensures Exact(k, plan, run, Simplify(k, plan, e).value)
  {
    hide TypeIn; hide RunType; hide Lawful; hide Compatible; hide Simplify;
    var s := Simplify(k, plan, e).value;
    SimplifiedRuns(k, plan, run, e);
    InferredOrWidened(k, plan, run, s);
    if ArithmeticRoot(Unalias(s)) {
      ArithmeticRootKept(k, plan, e);
      if ArithmeticRoot(Unalias(e)) {
        ArithmeticIsExactWhenWide(k, plan, run, e);
      } else {
        LogicIsBoolean(k, run, e);
        ArithmeticIsNumeric(k, run, s);
      }
    }
  }

  lemma LogicIsBoolean(k: Kernels, run: Schema, e: Expr)
    requires Unalias(e).Binary? && !IsArithmetic(Unalias(e).op) && RunType(k, run, e).Some?
    ensures RunType(k, run, e) == Some(BooleanType)
  {
    hide ResultType; hide Resolve;
    var x := Unalias(e);
    BooleanResults(x.op, RunType(k, run, x.left).value, RunType(k, run, x.right).value);
  }

  lemma ArithmeticIsNumeric(k: Kernels, run: Schema, e: Expr)
    requires ArithmeticRoot(Unalias(e)) && RunType(k, run, e).Some?
    ensures IsNumeric(RunType(k, run, e).value)
  {
    hide ResultType; hide Resolve;
    var x := Unalias(e);
    ArithmeticTypes(x.op, RunType(k, run, x.left).value, RunType(k, run, x.right).value);
  }

  /** Only an operator simplifies to arithmetic. */
  lemma ArithmeticRootKept(k: Kernels, plan: Schema, e: Expr)
    requires Simplify(k, plan, e).Ok? && ArithmeticRoot(Unalias(Simplify(k, plan, e).value))
    requires NoDoubleAlias(Simplify(k, plan, e).value)
    ensures Unalias(e).Binary?
  {
    hide TypeIn; hide Eval; hide IsNullExpression; hide BooleanLiteral;
  }

  // ----- columns that fade ---------------------------------------------------------------------

  /** A Boolean column may become one of the type of NULL. */
  predicate Fades(t: DataType, t': DataType) {
    t == t' || (t.BooleanType? && t'.NullType?)
  }

  predicate Whole(t: DataType) {
    Normalized(t).Int64Type? || Normalized(t).UInt64Type?
  }

  /** And integers may change their width. */
  predicate Eases(t: DataType, t': DataType) {
    Fades(t, t') || (Whole(t) && Normalized(t) == Normalized(t'))
  }

  predicate Shifts(loose: bool, t: DataType, t': DataType) {
    if loose then Eases(t, t') else Fades(t, t')
  }

  predicate SchemaShifts(loose: bool, a: Schema, b: Schema) {
    SameNames(a, b) && forall i | 0 <= i < |a| :: Shifts(loose, a[i].ty, b[i].ty)
  }

  /** A 64-bit type becomes the 32-bit one of its family. */
  predicate Narrows(t: DataType, t': DataType) {
    t != t' && t == Normalized(t')
  }

  /** Two plans whose columns differ only so: an expression that runs over the first is
      simplified the same way for both, and its simplified form is typed alike. */
  ghost predicate Alike(loose: bool, k: Kernels, plan: Schema, plan': Schema, e: Expr) {
    && Simplify(k, plan', e).Ok? && Simplify(k, plan, e) == Simplify(k, plan', e)
    && var s := Simplify(k, plan', e).value;
       TypeIn(plan', s).Ok? ==> TypeIn(plan, s).Ok? && Shifts(loose, TypeIn(plan, s).value, TypeIn(plan', s).value)
  }

  /** The types of an operator over operands that are typed alike. */
  lemma AlikeTypes(loose: bool, op: Operator, a: DataType, b: DataType, x: DataType, y: DataType, x': DataType, y': DataType)
    requires ResultType(op, a, b).Some? && Drifts(a, x) && Drifts(b, y) && Shifts(loose, x, x') && Shifts(loose, y, y')
    requires BinaryType(op, x', y').Ok?
    ensures BinaryType(op, x, y) == BinaryType(op, x', y')
  {
    hide ResultType; hide CommonNumeric;
    BinaryStandsTyped(op, a, b, x, y);
    CommonOfFamilies(x, y, x', y');
    CommonOfFamilies(x', y', x, y);
  }

  lemma AlikeNode(loose: bool, k: Kernels, plan: Schema, run: Schema, plan': Schema, a: DataType, b: DataType, op: Operator, l: Expr, r: Expr)
    requires Lawful(k) && ResultType(op, a, b).Some? && StandsTyped(k, plan, run, l, a) && StandsTyped(k, plan, run, r, b)
    requires TypeIn(plan', l).Ok? ==> TypeIn(plan, l).Ok? && Shifts(loose, TypeIn(plan, l).value, TypeIn(plan', l).value)
    requires TypeIn(plan', r).Ok? ==> TypeIn(plan, r).Ok? && Shifts(loose, TypeIn(plan, r).value, TypeIn(plan', r).value)
    requires SimplifyNode(k, plan', Binary(l, op, r)).Ok?
    ensures SimplifyNode(k, plan, Binary(l, op, r)) == SimplifyNode(k, plan', Binary(l, op, r))
    ensures var s := SimplifyNode(k, plan', Binary(l, op, r)).value;
      TypeIn(plan', s).Ok? ==> TypeIn(plan, s).Ok? && Shifts(loose, TypeIn(plan, s).value, TypeIn(plan', s).value)
  {
    hide Lawful; hide ResultType; hide BinaryType; hide Eval; hide IsNullExpression; hide BooleanLiteral; hide RunType; hide Drifts; hide Resolve;
    hide TypedLiteral;
    var e := Binary(l, op, r);
    assert TypeIn(plan', e) == BinaryType(op, TypeIn(plan', l).value, TypeIn(plan', r).value);
    AlikeTypes(loose, op, a, b, TypeIn(plan, l).value, TypeIn(plan, r).value, TypeIn(plan', l).value, TypeIn(plan', r).value);
    assert TypeIn(plan, e) == TypeIn(plan', e);
    if NoColumns(e) && !ContainsAggregate(e) {
      var z := Eval(k, [], [], e).value;
      LiteralTyped(plan, plan', z.value, z.ty);
    } else {
      LiteralTyped(plan, plan', Null, TypeIn(plan', e).value);
    }
  }

  lemma LiteralTyped(plan: Schema, plan': Schema, v: Scalar, t: DataType)
    ensures TypeIn(plan, TypedLiteral(v, t)) == TypeIn(plan', TypedLiteral(v, t)) == Ok(t)
  {
  }

  lemma {:induction false} SimplifiedAlike(loose: bool, k: Kernels, plan: Schema, run: Schema, plan': Schema, e: Expr)
    requires Lawful(k) && Compatible(plan, run) && SchemaShifts(loose, plan, plan') && RunType(k, run, e).Some? && Simplify(k, plan', e).Ok?
    ensures Alike(loose, k, plan, plan', e)
  {
    hide Lawful; hide SimplifyNode; hide ResultType; hide Compatible; hide StandsTyped;
    match e
    case Binary(l, op, r) =>
      SimplifiedAlike(loose, k, plan, run, plan', l);
      SimplifiedAlike(loose, k, plan, run, plan', r);
      SimplifiedRuns(k, plan, run, l);
      SimplifiedRuns(k, plan, run, r);
      AlikeNode(loose, k, plan, run, plan', RunType(k, run, l).value, RunType(k, run, r).value, op, Simplify(k, plan', l).value, Simplify(k, plan', r).value);
    case Cast(x, t) =>
      SimplifiedAlike(loose, k, plan, run, plan', x);
      AlikeUnary(k, plan, plan', Cast(Simplify(k, plan', x).value, t));
    case IsNull(x, negated) =>
      SimplifiedAlike(loose, k, plan, run, plan', x);
      AlikeUnary(k, plan, plan', IsNull(Simplify(k, plan', x).value, negated));
    case Alias(x, _) => SimplifiedAlike(loose, k, plan, run, plan', x);
    case Column(name) => AlikeColumn(loose, k, plan, plan', name);
    case Literal(_) => AlikeUnary(k, plan, plan', e);
  }

  lemma AlikeUnary(k: Kernels, plan: Schema, plan': Schema, e: Expr)
    requires e.Cast? || e.IsNull? || e.Literal?
    ensures SimplifyNode(k, plan, e) == SimplifyNode(k, plan', e)
    ensures SimplifyNode(k, plan', e).Ok? ==> var s := SimplifyNode(k, plan', e).value; TypeIn(plan, s) == TypeIn(plan', s)
  {
    hide Eval; hide TypedLiteral;
    if SimplifyNode(k, plan', e).Ok? && NoColumns(e) && !ContainsAggregate(e) {
      var z := Eval(k, [], [], e).value;
      LiteralTyped(plan, plan', z.value, z.ty);
    }
  }

  lemma AlikeColumn(loose: bool, k: Kernels, plan: Schema, plan': Schema, name: string)
    requires SchemaShifts(loose, plan, plan') && SimplifyNode(k, plan', Column(name)).Ok?
    ensures SimplifyNode(k, plan, Column(name)) == SimplifyNode(k, plan', Column(name)) == Ok(Column(name))
    ensures TypeIn(plan, Column(name)).Ok? && Shifts(loose, TypeIn(plan, Column(name)).value, TypeIn(plan', Column(name)).value)
  {
    hide Resolve;
    SameNamesResolve(plan, plan', name);
  }

  /** The run type of an expression shifts as its columns do. */
  lemma {:induction false} RunTypeShifts(loose: bool, k: Kernels, a: Schema, b: Schema, e: Expr)
    requires Lawful(k) && SchemaShifts(loose, a, b) && RunType(k, a, e).Some?
    ensures RunType(k, b, e).Some? && Shifts(loose, RunType(k, a, e).value, RunType(k, b, e).value)
  {
    hide ResultType; hide Resolve; hide Lawful;
    match e
    case Column(name) => SameNamesResolve(a, b, name);
    case Alias(x, _) => RunTypeShifts(loose, k, a, b, x);
    case Binary(l, op, r) =>
      RunTypeShifts(loose, k, a, b, l);
      RunTypeShifts(loose, k, a, b, r);
      ShiftedResult(loose, op, RunType(k, a, l).value, RunType(k, a, r).value, RunType(k, b, l).value, RunType(k, b, r).value);
    case Cast(x, t) =>
      RunTypeShifts(loose, k, a, b, x);
      CastDrifts(k, RunType(k, a, x).value, RunType(k, b, x).value, t);
    case IsNull(x, _) => RunTypeShifts(loose, k, a, b, x);
    case Literal(_) =>
  }

  lemma ShiftedResult(loose: bool, op: Operator, a: DataType, b: DataType, a': DataType, b': DataType)
    requires ResultType(op, a, b).Some? && Shifts(loose, a, a') && Shifts(loose, b, b')
    ensures ResultType(op, a', b').Some? && Shifts(loose, ResultType(op, a, b).value, ResultType(op, a', b').value)
  {
    hide CommonNumeric;
    CommonOfFamilies(a, b, a', b');
    CommonOfFamilies(a', b', a, b);
  }

  /** The inferred type of a simplified expression over shifted columns: it shifts, or arithmetic
      that was folded narrows. */
  lemma InferredShifts(loose: bool, k: Kernels, plan: Schema, run: Schema, plan': Schema, run': Schema, e: Expr, s: Expr)
    requires Lawful(k) && Compatible(plan, run) && Compatible(plan', run') && SchemaShifts(loose, run, run')
    requires NoAlias(Unalias(e)) && Simplify(k, plan', e) == Ok(s) && RunType(k, run, e).Some?
    requires TypeIn(plan, e).Ok? && TypeIn(plan', s).Ok?
    ensures Shifts(loose, TypeIn(plan, e).value, TypeIn(plan', s).value) || Narrows(TypeIn(plan, e).value, TypeIn(plan', s).value)
  {
    hide TypeIn; hide RunType; hide Lawful; hide Compatible; hide Simplify; hide Resolve;
    RunTypeShifts(loose, k, run, run', e);
    SimplifiedRuns(k, plan', run', e);
    InferredOrWidened(k, plan, run, e);
    var t, t' := TypeIn(plan, e).value, TypeIn(plan', s).value;
    if Normalized(t) != t { NarrowRoot(loose, k, plan, run, plan', run', e, s); }
  }

  /** Only columns and casts have a 32-bit inferred type, and simplification keeps it. */
  lemma NarrowRoot(loose: bool, k: Kernels, plan: Schema, run: Schema, plan': Schema, run': Schema, e: Expr, s: Expr)
    requires Compatible(plan, run) && Compatible(plan', run') && SchemaShifts(loose, run, run')
    requires NoAlias(Unalias(e)) && Simplify(k, plan', e) == Ok(s) && RunType(k, run, e).Some? && RunType(k, run', e).Some?
    requires TypeIn(plan, e).Ok? && TypeIn(plan', s).Ok? && Normalized(TypeIn(plan, e).value) != TypeIn(plan, e).value
    ensures Shifts(loose, TypeIn(plan, e).value, TypeIn(plan', s).value)
  {
    hide Resolve; hide Simplify; hide RunType; hide TypeIn;
    var x, y := Unalias(e), Unalias(s);
    UnderAlias(k, plan, run, run', plan', e, s);
    NarrowShape(k, plan, run, x);
    if x.Cast? {
      CastTypeKept(k, plan, plan', x);
    } else {
      NarrowColumn(loose, k, plan, run, plan', run', x);
    }
  }

  lemma UnderAlias(k: Kernels, plan: Schema, run: Schema, run': Schema, plan': Schema, e: Expr, s: Expr)
    requires NoAlias(Unalias(e)) && Simplify(k, plan', e) == Ok(s)
    ensures Simplify(k, plan', Unalias(e)) == Ok(if e.Alias? then Unalias(s) else s)
    ensures TypeIn(plan, Unalias(e)) == TypeIn(plan, e) && RunType(k, run, Unalias(e)) == RunType(k, run, e)
    ensures RunType(k, run', Unalias(e)) == RunType(k, run', e)
    ensures e.Alias? ==> s.Alias? && (TypeIn(plan', s).Ok? ==> TypeIn(plan', Unalias(s)) == TypeIn(plan', s))
  {
    hide SimplifyNode; hide ResultType; hide BinaryType; hide Resolve;
  }

  lemma NarrowShape(k: Kernels, plan: Schema, run: Schema, x: Expr)
    requires NoAlias(x) && RunType(k, run, x).Some? && TypeIn(plan, x).Ok? && Normalized(TypeIn(plan, x).value) != TypeIn(plan, x).value
    ensures x.Column? || x.Cast?
  {
    hide Resolve; hide CommonNumeric; hide ResultType;
    if x.Binary? && TypeIn(plan, x.left).Ok? && TypeIn(plan, x.right).Ok? {
      CommonOfFamilies(TypeIn(plan, x.left).value, TypeIn(plan, x.right).value, NullType, NullType);
    }
  }

  lemma CastTypeKept(k: Kernels, other: Schema, plan: Schema, x: Expr)
    requires x.Cast? && Simplify(k, plan, x).Ok?
    ensures TypeIn(plan, Simplify(k, plan, x).value) == TypeIn(other, x) == Ok(x.ty)
  {
    hide TypedLiteral;
    var inner := Simplify(k, plan, x.expr).value;
    var node := Cast(inner, x.ty);
    assert Simplify(k, plan, x) == SimplifyNode(k, plan, node);
    if NoColumns(node) && !ContainsAggregate(node) {
      LiteralTyped(plan, plan, Eval(k, [], [], node).value.value, x.ty);
    }
  }

  lemma NarrowColumn(loose: bool, k: Kernels, plan: Schema, run: Schema, plan': Schema, run': Schema, x: Expr)
    requires Compatible(plan, run) && Compatible(plan', run') && SchemaShifts(loose, run, run')
    requires x.Column? && RunType(k, run, x).Some? && RunType(k, run', x).Some? && Simplify(k, plan', x).Ok? && TypeIn(plan, x).Ok?
    ensures Simplify(k, plan', x) == Ok(x) && TypeIn(plan', x).Ok? && Shifts(loose, TypeIn(plan, x).value, TypeIn(plan', x).value)
  {
    hide Resolve;
    SameNamesResolve(run, run', x.name);
  }
}
