/** Scalar expressions (src/query/expr.rs): names, types, row-wise evaluation and simplification.
    Casts and arithmetic on column values are library code and enter as `Kernels`. */
module Expr {
  import opened Basics
  import opened Values
  import Agg = Aggregates

  datatype DataType =
    | NullType | BooleanType | Int32Type | Int64Type | UInt32Type | UInt64Type | Float32Type | Float64Type | Utf8Type

  datatype Operator = Eq | NotEq | Lt | LtEq | Gt | GtEq | And | Or | Add | Subtract | Multiply | Divide

  datatype Expr =
    | Column(name: string)
    | Literal(value: Scalar)
    | Binary(left: Expr, op: Operator, right: Expr)
    | IsNull(expr: Expr, negated: bool)
    | Cast(expr: Expr, ty: DataType)
    | Alias(expr: Expr, alias: string)
    | Aggregate(kind: Agg.Function, expr: Expr, distinct: bool)
    | Wildcard

  datatype Field = Field(name: string, ty: DataType)
  type Schema = seq<Field>

  datatype PlanError = Missing | Ambiguous | IllTyped | Unsupported | Unreachable | Failed

  predicate IsComparison(op: Operator) {
    op.Eq? || op.NotEq? || op.Lt? || op.LtEq? || op.Gt? || op.GtEq?
  }

  predicate IsArithmetic(op: Operator) {
    op.Add? || op.Subtract? || op.Multiply? || op.Divide?
  }

  predicate IsNumeric(t: DataType) {
    t.Int32Type? || t.Int64Type? || t.UInt32Type? || t.UInt64Type? || t.Float32Type? || t.Float64Type?
  }

  /** The 64-bit type of the same family. */
  function Normalized(t: DataType): DataType {
    match t
    case Int32Type => Int64Type
    case UInt32Type => UInt64Type
    case Float32Type => Float64Type
    case _ => t
  }

  function TypeOf(v: Scalar): DataType {
    match v
    case Null => NullType
    case Boolean(_) => BooleanType
    case Int64(_) => Int64Type
    case UInt64(_) => UInt64Type
    case Float64(_) => Float64Type
    case Utf8(_) => Utf8Type
  }

  /** The type two numeric operands are brought to. */
  function CommonNumeric(a: DataType, b: DataType): Option<DataType> {
    if a.NullType? && IsNumeric(b) then Some(Normalized(b))
    else if b.NullType? && IsNumeric(a) then Some(Normalized(a))
    else if !IsNumeric(a) || !IsNumeric(b) then None
    else
      var x, y := Normalized(a), Normalized(b);
      if x.Float64Type? || y.Float64Type? then Some(Float64Type)
      else if x == y then Some(x)
      else None
  }

  // ----- names -------------------------------------------------------------------------------

  predicate Qualified(name: string) {
    '.' in name
  }

  /** The part of a name after its last dot. */
  function Unqualified(name: string): (r: string)
    ensures !Qualified(r) && (!Qualified(name) ==> r == name)
  {
    if name == [] then []
    else
      var rest := Unqualified(name[1..]);
      if Qualified(name) then rest else name
  }

  function Indices(schema: Schema, wanted: string, short: bool): (r: seq<nat>)
    ensures forall i | 0 <= i < |r| :: r[i] < |schema|
  {
    if schema == [] then []
    else
      var n := |schema| - 1;
      var name := if short then Unqualified(schema[n].name) else schema[n].name;
      Indices(schema[..n], wanted, short) + (if name == wanted then [n] else [])
  }

  /** `resolve_field_index`: one exact match, or else one match of the unqualified names, unless
      both the name and the schema are qualified. */
  function Resolve(schema: Schema, name: string): (r: Result<nat, PlanError>)
    ensures r.Ok? ==> r.value < |schema|
  {
    var exact := Indices(schema, name, false);
    if |exact| == 1 then Ok(exact[0])
    else if |exact| > 1 then Err(Ambiguous)
    else if Qualified(name) && exists i :: 0 <= i < |schema| && Qualified(schema[i].name) then Err(Missing)
    else
      var short := Indices(schema, Unqualified(name), true);
      if |short| == 1 then Ok(short[0]) else if |short| > 1 then Err(Ambiguous) else Err(Missing)
  }

  function NameAt(schema: Schema, i: nat, short: bool): string
    requires i < |schema|
  {
    if short then Unqualified(schema[i].name) else schema[i].name
  }

  lemma {:induction false} IndicesAre(schema: Schema, wanted: string, short: bool)
    ensures forall i: nat | i < |schema| :: i in Indices(schema, wanted, short) <==> NameAt(schema, i, short) == wanted
    ensures forall a, b | 0 <= a < b < |Indices(schema, wanted, short)| ::
      Indices(schema, wanted, short)[a] < Indices(schema, wanted, short)[b]
  {
    if schema != [] {
      var n := |schema| - 1;
      IndicesAre(schema[..n], wanted, short);
      assert forall i: nat | i < n :: NameAt(schema, i, short) == NameAt(schema[..n], i, short);
    }
  }

  lemma IndexUnique(schema: Schema, wanted: string, short: bool, i: nat)
    requires i < |schema| && NameAt(schema, i, short) == wanted
    requires forall j: nat | j < |schema| && j != i :: NameAt(schema, j, short) != wanted
    ensures Indices(schema, wanted, short) == [i]
  {
    IndicesAre(schema, wanted, short);
    var r := Indices(schema, wanted, short);
    assert i in r;
    forall a | 0 <= a < |r| ensures r[a] == i {
      assert r[a] in r;
    }
    assert r[0] == i && r[|r| - 1] == i;
  }

  /** Looking a field up by its own name finds that field exactly when no other field has it. */
  lemma OwnNameResolves(schema: Schema, i: nat)
    requires i < |schema|
    ensures Resolve(schema, schema[i].name) == Ok(i)
      <==> forall j: nat | j < |schema| && j != i :: schema[j].name != schema[i].name
    ensures Resolve(schema, schema[i].name).Ok? ==> Resolve(schema, schema[i].name) == Ok(i)
  {
    hide Indices; hide Unqualified; hide Qualified;
    var r := Indices(schema, schema[i].name, false);
    IndicesAre(schema, schema[i].name, false);
    assert NameAt(schema, i, false) == schema[i].name;
    assert i in r;
    if forall j: nat | j < |schema| && j != i :: schema[j].name != schema[i].name {
      assert forall j: nat | j < |schema| :: NameAt(schema, j, false) == schema[j].name;
      IndexUnique(schema, schema[i].name, false, i);
    } else {
      var j: nat :| j < |schema| && j != i && schema[j].name == schema[i].name;
      assert NameAt(schema, j, false) == schema[j].name && j in r;
      assert |r| > 1;
    }
  }

  // ----- structure ---------------------------------------------------------------------------

  /** `unalias` removes one alias. */
  function Unalias(e: Expr): Expr {
    if e.Alias? then e.expr else e
  }

  function Name(show: Expr -> string, e: Expr): string {
    match e
    case Column(name) => Unqualified(name)
    case Alias(_, alias) => alias
    case _ => show(e)
  }

  predicate NoColumns(e: Expr) {
    match e
    case Column(_) => false
    case Literal(_) => true
    case Wildcard => true
    case Binary(l, _, r) => NoColumns(l) && NoColumns(r)
    case IsNull(x, _) => NoColumns(x)
    case Cast(x, _) => NoColumns(x)
    case Alias(x, _) => NoColumns(x)
    case Aggregate(_, x, _) => NoColumns(x)
  }

  predicate ContainsAggregate(e: Expr) {
    match e
    case Aggregate(_, _, _) => true
    case Binary(l, _, r) => ContainsAggregate(l) || ContainsAggregate(r)
    case IsNull(x, _) => ContainsAggregate(x)
    case Cast(x, _) => ContainsAggregate(x)
    case Alias(x, _) => ContainsAggregate(x)
    case _ => false
  }

  /** No alias directly inside an alias. */
  predicate NoDoubleAlias(e: Expr) {
    match e
    case Binary(l, _, r) => NoDoubleAlias(l) && NoDoubleAlias(r)
    case IsNull(x, _) => NoDoubleAlias(x)
    case Cast(x, _) => NoDoubleAlias(x)
    case Alias(x, _) => !x.Alias? && NoDoubleAlias(x)
    case Aggregate(_, x, _) => NoDoubleAlias(x)
    case _ => true
  }

  /** No alias anywhere. */
  predicate NoAlias(e: Expr) {
    match e
    case Binary(l, _, r) => NoAlias(l) && NoAlias(r)
    case IsNull(x, _) => NoAlias(x)
    case Cast(x, _) => NoAlias(x)
    case Alias(_, _) => false
    case Aggregate(_, x, _) => NoAlias(x)
    case _ => true
  }

  // ----- type inference ----------------------------------------------------------------------

  function BinaryType(op: Operator, a: DataType, b: DataType): Result<DataType, PlanError> {
    if op.And? || op.Or? then
      if (a.BooleanType? || a.NullType?) && (b.BooleanType? || b.NullType?) then Ok(BooleanType) else Err(IllTyped)
    else if IsComparison(op) then
      if a == b || a.NullType? || b.NullType? || CommonNumeric(a, b).Some? then Ok(BooleanType) else Err(IllTyped)
    else
      match CommonNumeric(a, b)
      case Some(t) => Ok(t)
      case None => Err(IllTyped)
  }

  function AggregateType(kind: Agg.Function, input: Result<DataType, PlanError>): Result<DataType, PlanError> {
    if kind.Count? then Ok(UInt64Type)
    else if input.Err? then input
    else
      match kind
      case SumUInt64 => if input.value.UInt64Type? then Ok(UInt64Type) else Err(IllTyped)
      case Sum => if IsNumeric(input.value) then Ok(Float64Type) else Err(IllTyped)
      case Avg => if IsNumeric(input.value) then Ok(Float64Type) else Err(IllTyped)
      case _ => input
  }

  /** `data_type`: it does not look below a cast or a NULL test. An alias of an alias is a panic. */
  function TypeIn(schema: Schema, e: Expr): Result<DataType, PlanError> {
    match e
    case Alias(x, _) => if x.Alias? then Err(Unreachable) else TypeIn(schema, x)
    case Column(name) => (match Resolve(schema, name) case Ok(i) => Ok(schema[i].ty) case Err(f) => Err(f))
    case Literal(v) => Ok(TypeOf(v))
    case Binary(l, op, r) =>
      (match TypeIn(schema, l)
       case Err(f) => Err(f)
       case Ok(a) =>
         match TypeIn(schema, r)
         case Err(f) => Err(f)
         case Ok(b) => BinaryType(op, a, b))
    case IsNull(_, _) => Ok(BooleanType)
    case Cast(_, t) => Ok(t)
    case Aggregate(kind, x, _) => AggregateType(kind, TypeIn(schema, x))
    case Wildcard => Err(IllTyped)
  }

  // ----- evaluation of one row ---------------------------------------------------------------

  /** A value together with the type of the column it stands in; 32-bit values are held widened. */
  datatype Typed = Typed(ty: DataType, value: Scalar)

  /** Casting and arithmetic of the column library, and the numbers a 32-bit float can hold. A cast
      of a value that does not fit gives NULL; arithmetic may fail. */
  datatype Kernels = Kernels(
    single: real -> bool,
    canCast: (DataType, DataType) -> bool,
    cast: (DataType, DataType, Scalar) -> Scalar,
    arith: (Operator, DataType, Scalar, Scalar) -> Option<Scalar>)

  /** A value a column of this type can hold. */
  predicate Fits(k: Kernels, t: DataType, v: Scalar) {
    v.Null? ||
    match t
    case Int32Type => v.Int64? && -0x8000_0000 <= v.signed < 0x8000_0000
    case UInt32Type => v.UInt64? && v.unsigned <= U32_MAX
    case Float32Type => v.Float64? && k.single(v.number)
    case NullType => false
    case _ => TypeOf(v) == t
  }

  /** What is taken for granted about the column library. */
  ghost predicate Lawful(k: Kernels) {
    && k.single(0.0) && k.single(1.0)
    && (forall t :: k.canCast(NullType, t) && k.canCast(t, t))
    && (forall s, t | IsNumeric(s) && IsNumeric(t) :: k.canCast(s, t))
    && (forall s, t :: k.canCast(s, t) == k.canCast(Normalized(s), t))
    && (forall s, t :: k.cast(s, t, Null) == Null)
    && (forall t, v :: k.cast(t, t, v) == v)
    && (forall t, v | Fits(k, t, v) :: k.cast(Normalized(t), t, v) == v && k.cast(t, Normalized(t), v) == v)
    && (forall s, t, v | k.canCast(s, t) && Fits(k, s, v) :: Fits(k, t, k.cast(s, t, v)))
    && (forall op, t, a: Scalar, b: Scalar | a.Null? || b.Null? :: k.arith(op, t, a, b) == Some(Null))
    && (forall op, t, a, b | IsNumeric(t) && k.arith(op, t, a, b).Some? :: Fits(k, t, k.arith(op, t, a, b).value))
  }

  /** And about widening: it never loses a number, and it keeps the integers a float can hold. */
  ghost predicate Widening(k: Kernels) {
    && (forall s, t, v | IsNumeric(s) && IsNumeric(t) && CommonNumeric(s, t).Some? && Fits(k, s, v) && !v.Null? ::
          !k.cast(s, CommonNumeric(s, t).value, v).Null?)
    && (forall s, n: I64 | IsNumeric(s) && Fits(k, s, Int64(n)) && -0x20_0000_0000_0000 <= n <= 0x20_0000_0000_0000 ::
          k.cast(s, Float64Type, Int64(n)) == Float64(n as real))
    && (forall s, n: U64 | IsNumeric(s) && Fits(k, s, UInt64(n)) && n <= 0x20_0000_0000_0000 ::
          k.cast(s, Float64Type, UInt64(n)) == Float64(n as real))
  }

  function Compare(op: Operator, a: Scalar, b: Scalar): Scalar {
    if a.Null? || b.Null? || !SameKind(a, b) then Null
    else
      Boolean(match op
              case Eq => a == b
              case NotEq => a != b
              case Lt => ScalarLeq(a, b) && a != b
              case LtEq => ScalarLeq(a, b)
              case Gt => ScalarLeq(b, a) && a != b
              case _ => ScalarLeq(b, a))
  }

  /** AND and OR of SQL: NULL is unknown. */
  function Kleene(op: Operator, a: Scalar, b: Scalar): Scalar {
    var decisive := Boolean(op.Or?);
    if a == decisive || b == decisive then decisive
    else if a.Null? || b.Null? then Null
    else Boolean(op.And?)
  }

  function CastTo(k: Kernels, x: Typed, t: DataType): Result<Typed, PlanError> {
    if k.canCast(x.ty, t) then Ok(Typed(t, k.cast(x.ty, t, x.value))) else Err(Unsupported)
  }

  /** Operands of one type. */
  function Apply(k: Kernels, op: Operator, t: DataType, a: Scalar, b: Scalar): Result<Typed, PlanError> {
    if IsComparison(op) then Ok(Typed(BooleanType, Compare(op, a, b)))
    else if op.And? || op.Or? then
      if t.BooleanType? then Ok(Typed(BooleanType, Kleene(op, a, b))) else Err(IllTyped)
    else if !IsNumeric(t) then Err(IllTyped)
    else
      match k.arith(op, t, a, b)
      case Some(v) => Ok(Typed(t, v))
      case None => Err(Failed)
  }

  /** The type both operands are cast to when their types differ. */
  function Target(op: Operator, a: DataType, b: DataType): Option<DataType> {
    if IsArithmetic(op) then CommonNumeric(a, b)
    else if a.NullType? then Some(b)
    else if b.NullType? then Some(a)
    else CommonNumeric(a, b)
  }

  function EvalBinary(k: Kernels, op: Operator, x: Typed, y: Typed): Result<Typed, PlanError> {
    if x.ty.NullType? && y.ty.NullType? then
      if IsArithmetic(op) then Err(IllTyped) else Ok(Typed(BooleanType, Null))
    else if x.ty == y.ty then Apply(k, op, x.ty, x.value, y.value)
    else
      match Target(op, x.ty, y.ty)
      case None => Err(IllTyped)
      case Some(t) =>
        match (CastTo(k, x, t), CastTo(k, y, t))
        case (Ok(a), Ok(b)) => Apply(k, op, t, a.value, b.value)
        case _ => Err(Unsupported)
  }

  /** `evaluate`, on one row. */
  function Eval(k: Kernels, schema: Schema, row: Row, e: Expr): Result<Typed, PlanError> {
    match e
    case Alias(x, _) => if x.Alias? then Err(Unreachable) else Eval(k, schema, row, x)
    case Column(name) =>
      (match Resolve(schema, name)
       case Ok(i) => if i < |row| then Ok(Typed(schema[i].ty, row[i])) else Err(Missing)
       case Err(f) => Err(f))
    case Literal(v) => Ok(Typed(TypeOf(v), v))
    case Binary(l, op, r) =>
      (match Eval(k, schema, row, l)
       case Err(f) => Err(f)
       case Ok(x) =>
         match Eval(k, schema, row, r)
         case Err(f) => Err(f)
         case Ok(y) => EvalBinary(k, op, x, y))
    case Cast(x, t) =>
      (match Eval(k, schema, row, x) case Err(f) => Err(f) case Ok(v) => CastTo(k, v, t))
    case IsNull(x, negated) =>
      (match Eval(k, schema, row, x)
       case Err(f) => Err(f)
       case Ok(v) => Ok(Typed(BooleanType, Boolean(v.value.Null? != negated))))
    case Aggregate(_, _, _) => Err(Unsupported)
    case Wildcard => Err(Unsupported)
  }

  predicate RowFits(k: Kernels, schema: Schema, row: Row) {
    |row| == |schema| && forall i | 0 <= i < |row| :: Fits(k, schema[i].ty, row[i])
  }

  // ----- simplification ----------------------------------------------------------------------

  function TypedLiteral(v: Scalar, t: DataType): Expr {
    if TypeOf(v) == t then Literal(v) else Cast(Literal(v), t)
  }

  predicate IsNullExpression(e: Expr) {
    match e
    case Alias(x, _) => (match x case Literal(v) => v.Null? case Cast(y, _) => IsNullExpression(y) case _ => false)
    case Literal(v) => v.Null?
    case Cast(x, _) => IsNullExpression(x)
    case _ => false
  }

  function BooleanLiteral(e: Expr): Option<bool> {
    var x := Unalias(e);
    if x.Literal? && x.value.Boolean? then Some(x.value.flag) else None
  }

  /** `simplify_node`, on a node whose children are simplified. */
  function SimplifyNode(k: Kernels, schema: Schema, e: Expr): Result<Expr, PlanError> {
    match TypeIn(schema, e)
    case Err(f) => Err(f)
    case Ok(t) =>
      if NoColumns(e) && !ContainsAggregate(e) then
        match Eval(k, [], [], e)
        case Err(f) => Err(f)
        case Ok(x) => Ok(TypedLiteral(x.value, x.ty))
      else if !e.Binary? then Ok(e)
      else if !e.op.And? && !e.op.Or? then
        Ok(if IsNullExpression(e.left) || IsNullExpression(e.right) then TypedLiteral(Null, t) else e)
      else
        var neutral := Some(e.op.And?);
        var decisive := Some(e.op.Or?);
        if BooleanLiteral(e.left) == neutral then Ok(e.right)
        else if BooleanLiteral(e.right) == neutral then Ok(e.left)
        else if BooleanLiteral(e.left) == decisive || BooleanLiteral(e.right) == decisive then
          Ok(Literal(Boolean(e.op.Or?)))
        else Ok(e)
  }

  function Simplify(k: Kernels, schema: Schema, e: Expr): Result<Expr, PlanError> {
    match e
    case Binary(l, op, r) =>
      (match Simplify(k, schema, l)
       case Err(f) => Err(f)
       case Ok(l') =>
         match Simplify(k, schema, r)
         case Err(f) => Err(f)
         case Ok(r') => SimplifyNode(k, schema, Binary(l', op, r')))
    case IsNull(x, negated) =>
      (match Simplify(k, schema, x) case Err(f) => Err(f) case Ok(x') => SimplifyNode(k, schema, IsNull(x', negated)))
    case Cast(x, t) =>
      (match Simplify(k, schema, x) case Err(f) => Err(f) case Ok(x') => SimplifyNode(k, schema, Cast(x', t)))
    case Alias(x, alias) =>
      (match Simplify(k, schema, x) case Err(f) => Err(f) case Ok(x') => Ok(Alias(x', alias)))
    case Aggregate(kind, x, distinct) =>
      (match Simplify(k, schema, x) case Err(f) => Err(f) case Ok(x') => Ok(Aggregate(kind, x', distinct)))
    case Wildcard => Ok(Wildcard)
    case _ => SimplifyNode(k, schema, e)
  }
}
