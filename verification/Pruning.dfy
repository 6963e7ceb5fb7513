/** Row-group pruning (src/storage/pruning.rs) and the scan loop that uses it
    (src/runtime/execution.rs, `execute_scan`). */
module Pruning {
  import opened Basics
  import opened Values
  import opened Expr
  import opened ExprTyping
  import opened Simplification

  datatype TableField = TableField(name: string, ty: DataType, nullable: bool)
  type TableSchema = seq<TableField>

  /** What a row group records about one column. */
  datatype ColumnStats = ColumnStats(min: Option<Scalar>, max: Option<Scalar>, nulls: Option<nat>)

  datatype RowGroup = RowGroup(stats: seq<Option<ColumnStats>>, rows: nat)

  function LowerChar(c: char): char {
    if 'A' <= c <= 'Z' then (c as int + 32) as char else c
  }

  /** ASCII case folding. */
  function Lower(s: string): string {
    seq(|s|, i requires 0 <= i < |s| => LowerChar(s[i]))
  }

  /** The column whose statistics are consulted for a name: the first field that equals the
      unqualified name up to ASCII case. */
  function PickedFrom(schema: TableSchema, name: string, from: nat): (r: Option<nat>)
    requires from <= |schema|
    ensures r.Some? ==> from <= r.value < |schema| && Lower(schema[r.value].name) == Lower(Unqualified(name))
    decreases |schema| - from
  {
    if from == |schema| then None
    else if Lower(schema[from].name) == Lower(Unqualified(name)) then Some(from)
    else PickedFrom(schema, name, from + 1)
  }

  function Picked(schema: TableSchema, name: string): (r: Option<nat>)
    ensures r.Some? ==> r.value < |schema|
  {
    PickedFrom(schema, name, 0)
  }

  function StatsFor(schema: TableSchema, group: RowGroup, name: string): (r: Option<(nat, ColumnStats)>)
    ensures r.Some? ==> Picked(schema, name) == Some(r.value.0) && r.value.0 < |schema|
  {
    match Picked(schema, name)
    case None => None
    case Some(p) =>
      if p < |group.stats| && group.stats[p].Some? then Some((p, group.stats[p].value)) else None
  }

  /** The kind of value the statistics of a column type are read as; unsigned columns have none. */
  function StatType(t: DataType): Option<DataType> {
    match t
    case BooleanType => Some(BooleanType)
    case Int32Type => Some(Int64Type)
    case Int64Type => Some(Int64Type)
    case Float32Type => Some(Float64Type)
    case Float64Type => Some(Float64Type)
    case Utf8Type => Some(Utf8Type)
    case _ => None
  }

  function Bound(t: DataType, raw: Option<Scalar>): Option<Scalar> {
    if raw.Some? && StatType(t) == Some(TypeOf(raw.value)) then raw else None
  }

  function ReverseComparison(op: Operator): Operator {
    match op
    case Lt => Gt
    case LtEq => GtEq
    case Gt => Lt
    case GtEq => LtEq
    case _ => op
  }

  function BoundsMayMatch(t: DataType, op: Operator, min: Option<Scalar>, max: Option<Scalar>, v: Scalar): bool {
    match op
    case Eq =>
      && (min.None? || PartialCompare(v, min.value) != Some(Less))
      && (max.None? || PartialCompare(v, max.value) != Some(Greater))
    case NotEq => t.Float32Type? || t.Float64Type? || !(min == Some(v) && max == Some(v))
    case Lt => min.None? || PartialCompare(min.value, v) !in {Some(Equal), Some(Greater)}
    case LtEq => min.None? || PartialCompare(min.value, v) != Some(Greater)
    case Gt => max.None? || PartialCompare(max.value, v) !in {Some(Equal), Some(Less)}
    case GtEq => max.None? || PartialCompare(max.value, v) != Some(Less)
    case _ => true
  }

  /** `column_literal_may_match`. */
  function ColumnMayMatch(schema: TableSchema, group: RowGroup, name: string, op: Operator, v: Scalar): bool {
    if v.Null? then false
    else
      match StatsFor(schema, group, name)
      case None => true
      case Some((p, s)) => BoundsMayMatch(schema[p].ty, op, Bound(schema[p].ty, s.min), Bound(schema[p].ty, s.max), v)
  }

  function ComparisonMayMatch(schema: TableSchema, group: RowGroup, l: Expr, op: Operator, r: Expr): bool {
    match (Unalias(l), Unalias(r))
    case (Column(name), Literal(v)) => ColumnMayMatch(schema, group, name, op, v)
    case (Literal(v), Column(name)) => ColumnMayMatch(schema, group, name, ReverseComparison(op), v)
    case _ => true
  }

  function NullTestMayMatch(schema: TableSchema, group: RowGroup, x: Expr, negated: bool): bool {
    match Unalias(x)
    case Column(name) =>
      (match StatsFor(schema, group, name)
       case None => true
       case Some((p, s)) =>
         if !schema[p].nullable then negated
         else
           match s.nulls
           case None => true
           case Some(n) => if negated then n < group.rows else n > 0)
    case _ => true
  }

  /** `expression_may_match`. */
  function MayMatch(schema: TableSchema, group: RowGroup, e: Expr): bool {
    match e
    case Alias(x, _) => x.Alias? || MayMatch(schema, group, x)
    case Literal(v) => v == Boolean(true) || !(v.Boolean? || v.Null?)
    case Binary(l, op, r) =>
      if op.And? then MayMatch(schema, group, l) && MayMatch(schema, group, r)
      else if op.Or? then MayMatch(schema, group, l) || MayMatch(schema, group, r)
      else if IsComparison(op) then ComparisonMayMatch(schema, group, l, op, r)
      else true
    case IsNull(x, negated) => NullTestMayMatch(schema, group, x, negated)
    case _ => true
  }

  /** `row_group_may_match`. */
  predicate GroupMayMatch(schema: TableSchema, group: RowGroup, filters: seq<Expr>) {
    forall f | 0 <= f < |filters| :: MayMatch(schema, group, filters[f])
  }

  // ----- the rows behind the statistics ------------------------------------------------------

  /** A projection lists the columns that are read. */
  predicate Projects(schema: TableSchema, columns: seq<nat>) {
    forall c | 0 <= c < |columns| :: columns[c] < |schema|
  }

  function ReadSchema(schema: TableSchema, columns: seq<nat>): Schema
    requires Projects(schema, columns)
  {
    seq(|columns|, c requires 0 <= c < |columns| => Field(schema[columns[c]].name, schema[columns[c]].ty))
  }

  function ReadRow(schema: TableSchema, columns: seq<nat>, row: Row): Row
    requires Projects(schema, columns) && |row| == |schema|
  {
    seq(|columns|, c requires 0 <= c < |columns| => row[columns[c]])
  }

  /** Only a nullable column can have the type of NULL. */
  predicate WellFormed(schema: TableSchema) {
    forall i | 0 <= i < |schema| :: schema[i].ty.NullType? ==> schema[i].nullable
  }

  predicate TableRow(k: Kernels, schema: TableSchema, row: Row) {
    && |row| == |schema|
    && forall i | 0 <= i < |row| :: Fits(k, schema[i].ty, row[i]) && (schema[i].nullable || !row[i].Null?)
  }

  function NullCount(rows: seq<Row>, i: nat): nat {
    if rows == [] then 0
    else
      var last := rows[|rows| - 1];
      NullCount(rows[..|rows| - 1], i) + (if i < |last| && last[i].Null? then 1 else 0)
  }

  /** A bound holds for every value of the column. */
  predicate Below(bound: Option<Scalar>, v: Scalar) {
    bound.None? || v.Null? || (SameKind(bound.value, v) && ScalarLeq(bound.value, v))
  }

  predicate Above(bound: Option<Scalar>, v: Scalar) {
    bound.None? || v.Null? || (SameKind(bound.value, v) && ScalarLeq(v, bound.value))
  }

  predicate BoundsHold(schema: TableSchema, p: nat, s: ColumnStats, row: Row)
    requires p < |schema| == |row|
  {
    Below(Bound(schema[p].ty, s.min), row[p]) && Above(Bound(schema[p].ty, s.max), row[p])
  }

  /** The recorded statistics are true of the rows. */
  predicate TrueStats(k: Kernels, schema: TableSchema, group: RowGroup, rows: seq<Row>) {
    && group.rows == |rows|
    && (forall r | 0 <= r < |rows| :: TableRow(k, schema, rows[r]))
    && forall p | 0 <= p < |schema| && p < |group.stats| && group.stats[p].Some? ::
      var s := group.stats[p].value;
      && (s.nulls.Some? ==> s.nulls.value == NullCount(rows, p))
      && forall r | 0 <= r < |rows| :: BoundsHold(schema, p, s, rows[r])
  }

  /** Taking the statistics of `picked` for those of `read` can rule out a row that matches: one
      of them may be NULL where the other is not, or a literal can be compared with both. */
  predicate Harmful(picked: TableField, read: TableField) {
    || (read.nullable && !picked.ty.NullType?)
    || (picked.nullable && !read.ty.NullType?)
    || (StatType(picked.ty).Some? && ResultType(Eq, read.ty, StatType(picked.ty).value).Some?)
  }

  /** For a name, pruning consults the column that evaluation reads, or a harmless other one. */
  predicate Reads(schema: TableSchema, columns: seq<nat>, name: string)
    requires Projects(schema, columns)
  {
    var r := Resolve(ReadSchema(schema, columns), name);
    r.Ok? && Picked(schema, name).Some? ==>
      var i, p := columns[r.value], Picked(schema, name).value;
      p == i || !Harmful(schema[p], schema[i])
  }

  predicate ReadsAll(schema: TableSchema, columns: seq<nat>, e: Expr)
    requires Projects(schema, columns)
  {
    match e
    case Column(name) => Reads(schema, columns, name)
    case Binary(l, _, r) => ReadsAll(schema, columns, l) && ReadsAll(schema, columns, r)
    case IsNull(x, _) => ReadsAll(schema, columns, x)
    case Cast(x, _) => ReadsAll(schema, columns, x)
    case Alias(x, _) => ReadsAll(schema, columns, x)
    case Aggregate(_, x, _) => ReadsAll(schema, columns, x)
    case _ => true
  }

  /** A row passes a filter when it evaluates to TRUE. */
  predicate Passes(k: Kernels, schema: TableSchema, columns: seq<nat>, row: Row, e: Expr)
    requires Projects(schema, columns) && |row| == |schema|
  {
    var r := Eval(k, ReadSchema(schema, columns), ReadRow(schema, columns, row), e);
    r.Ok? && r.value.value == Boolean(true)
  }

  // ----- pruning never loses a row -----------------------------------------------------------

  lemma ReadRowFits(k: Kernels, schema: TableSchema, columns: seq<nat>, row: Row)
    requires Projects(schema, columns) && TableRow(k, schema, row)
    ensures RowFits(k, ReadSchema(schema, columns), ReadRow(schema, columns, row))
  {
  }

  /** Bounds of a column rule out a comparison only when it is not true. */
  lemma BoundsAreSafe(t: DataType, op: Operator, min: Option<Scalar>, max: Option<Scalar>, v: Scalar, x: Scalar)
    requires IsComparison(op) && !v.Null? && Below(min, x) && Above(max, x) && !BoundsMayMatch(t, op, min, max, v)
    ensures Compare(op, x, v) != Boolean(true)
  {
    hide ScalarLeq;
    if !x.Null? && SameKind(x, v) {
      ScalarLeqTotal(x, v);
      if min.Some? { BetweenBounds(min.value, x, v); }
      if max.Some? { BetweenBounds(x, max.value, v); }
    }
  }

  /** How a third value can lie with respect to two ordered ones. */
  lemma BetweenBounds(low: Scalar, high: Scalar, v: Scalar)
    requires SameKind(low, high) && SameKind(high, v) && ScalarLeq(low, high)
    ensures SameKind(low, v) && (ScalarLeq(v, low) || ScalarLeq(low, v)) && (ScalarLeq(v, high) || ScalarLeq(high, v))
    ensures ScalarLeq(v, low) ==> ScalarLeq(v, high)
    ensures ScalarLeq(high, v) ==> ScalarLeq(low, v)
    ensures ScalarLeq(v, low) && ScalarLeq(low, v) ==> v == low
    ensures ScalarLeq(v, high) && ScalarLeq(high, v) ==> v == high
    ensures ScalarLeq(high, low) ==> low == high
    ensures ScalarLeq(v, v)
  {
    hide ScalarLeq;
    ScalarLeqTotal(low, v);
    ScalarLeqTotal(high, v);
    ScalarLeqTotal(low, high);
    ScalarLeqTotal(v, v);
    if ScalarLeq(v, low) { ScalarLeqTransitive(v, low, high); }
    if ScalarLeq(high, v) { ScalarLeqTransitive(low, high, v); }
  }

  /** A literal of another kind than the statistics rules nothing out. */
  lemma OtherKindsMatch(t: DataType, op: Operator, min: Option<Scalar>, max: Option<Scalar>, v: Scalar)
    requires !v.Null? && (min.Some? ==> !SameKind(min.value, v)) && (max.Some? ==> !SameKind(max.value, v))
    requires min.Some? ==> !min.value.Null?
    requires max.Some? ==> !max.value.Null?
    ensures BoundsMayMatch(t, op, min, max, v)
  {
  }

  lemma ReversedComparison(op: Operator, a: Scalar, b: Scalar)
    requires IsComparison(op)
    ensures Compare(op, a, b) == Compare(ReverseComparison(op), b, a) && IsComparison(ReverseComparison(op))
  {
    if SameKind(a, b) { ScalarLeqTotal(a, b); }
  }

  /** Comparing a column value with a literal of its family compares the values themselves. */
  lemma FamilyComparison(k: Kernels, op: Operator, t: DataType, x: Scalar, v: Scalar)
    requires Lawful(k) && IsComparison(op) && Fits(k, t, x) && !v.Null? && StatType(t) == Some(TypeOf(v))
    ensures EvalBinary(k, op, Typed(t, x), Typed(TypeOf(v), v)) == Ok(Typed(BooleanType, Compare(op, x, v)))
    ensures EvalBinary(k, op, Typed(TypeOf(v), v), Typed(t, x)) == Ok(Typed(BooleanType, Compare(op, v, x)))
  {
    assert Normalized(t) == TypeOf(v) && Fits(k, TypeOf(v), v);
    if t != TypeOf(v) {
      assert CommonNumeric(t, TypeOf(v)) == Some(TypeOf(v)) == CommonNumeric(TypeOf(v), t);
    }
  }

  lemma ColumnValue(k: Kernels, schema: TableSchema, columns: seq<nat>, row: Row, e: Expr)
    requires Projects(schema, columns) && |row| == |schema| && Unalias(e).Column?
    requires Eval(k, ReadSchema(schema, columns), ReadRow(schema, columns, row), e).Ok?
    ensures var r := Resolve(ReadSchema(schema, columns), Unalias(e).name);
      && r.Ok? && r.value < |columns|
      && Eval(k, ReadSchema(schema, columns), ReadRow(schema, columns, row), e).value
         == Typed(schema[columns[r.value]].ty, row[columns[r.value]])
  {
    hide Resolve;
  }

  /** Bounds that rule out a literal are of its kind. */
  lemma RuledOutKind(t: DataType, op: Operator, s: ColumnStats, v: Scalar)
    requires !v.Null? && !BoundsMayMatch(t, op, Bound(t, s.min), Bound(t, s.max), v)
    ensures StatType(t) == Some(TypeOf(v))
  {
    if StatType(t) != Some(TypeOf(v)) {
      OtherKindsMatch(t, op, Bound(t, s.min), Bound(t, s.max), v);
    }
  }

  /** Ruling out a column against a literal: either the comparison cannot be evaluated, or it is
      not true of any row. */
  lemma ColumnComparisonIsSafe(k: Kernels, schema: TableSchema, group: RowGroup, rows: seq<Row>, r: nat,
                               name: string, op: Operator, v: Scalar, i: nat)
    requires Lawful(k) && WellFormed(schema) && TrueStats(k, schema, group, rows) && r < |rows| && IsComparison(op) && i < |schema|
    requires Picked(schema, name).Some? ==>
      Picked(schema, name).value == i || !Harmful(schema[Picked(schema, name).value], schema[i])
    requires !ColumnMayMatch(schema, group, name, op, v)
    ensures var x := Typed(schema[i].ty, rows[r][i]);
      var z := EvalBinary(k, op, x, Typed(TypeOf(v), v));
      z.Ok? ==> z.value.value != Boolean(true)
    ensures var x := Typed(schema[i].ty, rows[r][i]);
      var z := EvalBinary(k, ReverseComparison(op), Typed(TypeOf(v), v), x);
      z.Ok? ==> z.value.value != Boolean(true)
  {
    hide EvalBinary; hide Lawful; hide BoundsMayMatch; hide Compare; hide ResultType;
    var x, y := Typed(schema[i].ty, rows[r][i]), Typed(TypeOf(v), v);
    assert TableRow(k, schema, rows[r]) && Fits(k, x.ty, x.value) && Fits(k, y.ty, y.value);
    if v.Null? {
      NullComparison(k, op, x, y);
    } else {
      var (p, s) := StatsFor(schema, group, name).value;
      RuledOutKind(schema[p].ty, op, s, v);
      if p == i {
        assert BoundsHold(schema, i, s, rows[r]);
        BoundsAreSafe(schema[i].ty, op, Bound(schema[i].ty, s.min), Bound(schema[i].ty, s.max), v, rows[r][i]);
        FamilyComparison(k, op, schema[i].ty, rows[r][i], v);
        ReversedComparison(op, rows[r][i], v);
        FamilyComparison(k, ReverseComparison(op), schema[i].ty, rows[r][i], v);
      } else {
        NoComparison(k, op, x, y);
      }
    }
  }

  lemma NullComparison(k: Kernels, op: Operator, x: Typed, y: Typed)
    requires Lawful(k) && IsComparison(op) && Fits(k, x.ty, x.value) && Fits(k, y.ty, y.value) && y.value.Null?
    ensures EvalBinary(k, op, x, y).Ok? ==> EvalBinary(k, op, x, y).value.value.Null?
    ensures EvalBinary(k, ReverseComparison(op), y, x).Ok? ==> EvalBinary(k, ReverseComparison(op), y, x).value.value.Null?
  {
    hide EvalBinary; hide Lawful;
    if EvalBinary(k, op, x, y).Ok? { BinaryValue(k, op, x, y); }
    if EvalBinary(k, ReverseComparison(op), y, x).Ok? { BinaryValue(k, ReverseComparison(op), y, x); }
  }

  lemma NoComparison(k: Kernels, op: Operator, x: Typed, y: Typed)
    requires Lawful(k) && IsComparison(op) && Fits(k, x.ty, x.value) && Fits(k, y.ty, y.value) && ResultType(Eq, x.ty, y.ty).None?
    ensures EvalBinary(k, op, x, y).Err? && EvalBinary(k, ReverseComparison(op), y, x).Err?
  {
    hide EvalBinary; hide Lawful;
    BinaryRuns(k, op, x, y);
    BinaryRuns(k, ReverseComparison(op), y, x);
    SymmetricTypes(op, x.ty, y.ty);
  }

  lemma SymmetricTypes(op: Operator, a: DataType, b: DataType)
    requires IsComparison(op) && ResultType(Eq, a, b).None?
    ensures ResultType(op, a, b).None? && ResultType(ReverseComparison(op), b, a).None?
  {
    hide Target;
    SymmetricTarget(op, a, b);
  }

  lemma SymmetricTarget(op: Operator, a: DataType, b: DataType)
    requires IsComparison(op)
    ensures Target(op, a, b) == Target(Eq, a, b) == Target(ReverseComparison(op), b, a)
  {
  }

  lemma {:induction false} NullCountBounds(rows: seq<Row>, i: nat)
    ensures NullCount(rows, i) <= |rows|
    ensures NullCount(rows, i) == |rows| ==> forall r | 0 <= r < |rows| :: i < |rows[r]| && rows[r][i].Null?
    ensures NullCount(rows, i) == 0 ==> forall r | 0 <= r < |rows| :: i < |rows[r]| ==> !rows[r][i].Null?
  {
    if rows != [] { NullCountBounds(rows[..|rows| - 1], i); }
  }

  lemma NullTestIsSafe(k: Kernels, schema: TableSchema, columns: seq<nat>, group: RowGroup, rows: seq<Row>, r: nat, x: Expr, negated: bool)
    requires Lawful(k) && WellFormed(schema) && Projects(schema, columns) && TrueStats(k, schema, group, rows) && r < |rows|
    requires ReadsAll(schema, columns, x) && !NullTestMayMatch(schema, group, x, negated)
    ensures |rows[r]| == |schema| && !Passes(k, schema, columns, rows[r], IsNull(x, negated))
  {
    hide Resolve; hide Lawful; hide ResultType; hide Picked;
    assert TableRow(k, schema, rows[r]);
    if Eval(k, ReadSchema(schema, columns), ReadRow(schema, columns, rows[r]), x).Ok? {
      ColumnValue(k, schema, columns, rows[r], x);
      var i := columns[Resolve(ReadSchema(schema, columns), Unalias(x).name).value];
      var (p, s) := StatsFor(schema, group, Unalias(x).name).value;
      NullCountBounds(rows, p);
      assert TableRow(k, schema, rows[r]) && Fits(k, schema[i].ty, rows[r][i]) && Fits(k, schema[p].ty, rows[r][p]);
    }
  }

  lemma ComparisonIsSafe(k: Kernels, schema: TableSchema, columns: seq<nat>, group: RowGroup, rows: seq<Row>, r: nat,
                         left: Expr, op: Operator, right: Expr)
    requires Lawful(k) && WellFormed(schema) && Projects(schema, columns) && TrueStats(k, schema, group, rows) && r < |rows| && IsComparison(op)
    requires ReadsAll(schema, columns, left) && ReadsAll(schema, columns, right)
    requires !ComparisonMayMatch(schema, group, left, op, right)
    ensures |rows[r]| == |schema| && !Passes(k, schema, columns, rows[r], Binary(left, op, right))
  {
    hide Resolve; hide Lawful; hide EvalBinary; hide ResultType; hide Picked; hide ColumnMayMatch; hide Harmful;
    assert TableRow(k, schema, rows[r]);
    var names, row := ReadSchema(schema, columns), ReadRow(schema, columns, rows[r]);
    if Eval(k, names, row, left).Ok? && Eval(k, names, row, right).Ok? {
      if Unalias(left).Column? {
        ColumnValue(k, schema, columns, rows[r], left);
        var i := columns[Resolve(names, Unalias(left).name).value];
        LiteralValue(k, names, row, right);
        ColumnComparisonIsSafe(k, schema, group, rows, r, Unalias(left).name, op, Unalias(right).value, i);
      } else {
        ColumnValue(k, schema, columns, rows[r], right);
        var i := columns[Resolve(names, Unalias(right).name).value];
        LiteralValue(k, names, row, left);
        ReversedComparison(op, Null, Null);
        ColumnComparisonIsSafe(k, schema, group, rows, r, Unalias(right).name, ReverseComparison(op), Unalias(left).value, i);
        assert ReverseComparison(ReverseComparison(op)) == op;
      }
    }
  }

  lemma LiteralValue(k: Kernels, names: Schema, row: Row, e: Expr)
    requires Unalias(e).Literal?
    ensures Eval(k, names, row, e) == Ok(Typed(TypeOf(Unalias(e).value), Unalias(e).value))
  {
  }

  /** A filter that cannot match the statistics is true of no row of the group. */
  lemma {:induction false} FilterIsSafe(k: Kernels, schema: TableSchema, columns: seq<nat>, group: RowGroup, rows: seq<Row>, r: nat, e: Expr)
    requires Lawful(k) && WellFormed(schema) && Projects(schema, columns) && TrueStats(k, schema, group, rows) && r < |rows|
    requires ReadsAll(schema, columns, e) && !MayMatch(schema, group, e)
    ensures |rows[r]| == |schema| && !Passes(k, schema, columns, rows[r], e)
  {
    hide Resolve; hide Lawful; hide EvalBinary; hide NullTestMayMatch; hide ComparisonMayMatch; hide Harmful; hide Picked; hide Compare;
    assert TableRow(k, schema, rows[r]);
    match e
    case Alias(x, _) => FilterIsSafe(k, schema, columns, group, rows, r, x);
    case IsNull(x, negated) => NullTestIsSafe(k, schema, columns, group, rows, r, x, negated);
    case Binary(left, op, right) =>
      if IsComparison(op) {
        ComparisonIsSafe(k, schema, columns, group, rows, r, left, op, right);
      } else {
        if !MayMatch(schema, group, left) { FilterIsSafe(k, schema, columns, group, rows, r, left); }
        if !MayMatch(schema, group, right) { FilterIsSafe(k, schema, columns, group, rows, r, right); }
        LogicIsSafe(k, schema, columns, rows[r], left, op, right);
      }
    case _ =>
  }

  /** AND is true only if both sides are, OR only if one side is. */
  lemma LogicIsSafe(k: Kernels, schema: TableSchema, columns: seq<nat>, row: Row, left: Expr, op: Operator, right: Expr)
    requires Lawful(k) && Projects(schema, columns) && TableRow(k, schema, row) && (op.And? || op.Or?)
    ensures Passes(k, schema, columns, row, Binary(left, op, right)) ==>
      var l, r := Passes(k, schema, columns, row, left), Passes(k, schema, columns, row, right);
      if op.And? then l && r else l || r
  {
    hide Resolve; hide Lawful; hide EvalBinary;
    var names, read := ReadSchema(schema, columns), ReadRow(schema, columns, row);
    ReadRowFits(k, schema, columns, row);
    if Passes(k, schema, columns, row, Binary(left, op, right)) {
      EvalRuns(k, names, read, left);
      EvalRuns(k, names, read, right);
      BinaryValue(k, op, Eval(k, names, read, left).value, Eval(k, names, read, right).value);
    }
  }

  /** Pruning never loses a row: where every name reads the column pruning consults, or a harmless
      other one, a group that is ruled out has no row that passes all the filters. */
  lemma PruningNeverLosesARow(k: Kernels, schema: TableSchema, columns: seq<nat>, group: RowGroup, rows: seq<Row>, r: nat, filters: seq<Expr>)
    requires Lawful(k) && WellFormed(schema) && Projects(schema, columns) && TrueStats(k, schema, group, rows) && r < |rows|
    requires forall f | 0 <= f < |filters| :: ReadsAll(schema, columns, filters[f])
    requires !GroupMayMatch(schema, group, filters)
    ensures |rows[r]| == |schema|
    ensures exists f :: 0 <= f < |filters| && !Passes(k, schema, columns, rows[r], filters[f])
  {
    var f :| 0 <= f < |filters| && !MayMatch(schema, group, filters[f]);
    FilterIsSafe(k, schema, columns, group, rows, r, filters[f]);
  }

  // ----- when names are read as they are pruned ------------------------------------------------

  /** Unqualified names are distinct up to ASCII case. */
  predicate DistinctShortNames(schema: TableSchema) {
    forall i, j | 0 <= i < j < |schema| :: Lower(Unqualified(schema[i].name)) != Lower(Unqualified(schema[j].name))
  }

  lemma LowerKeepsDots(a: string, b: string)
    requires Lower(a) == Lower(b) && !Qualified(b)
    ensures !Qualified(a)
  {
    forall i | 0 <= i < |a| ensures a[i] != '.' {
      assert |Lower(a)| == |a| && |Lower(b)| == |b| && Lower(a)[i] == LowerChar(a[i]) && Lower(b)[i] == LowerChar(b[i]);
      assert b[i] in b;
    }
  }

  /** Whatever a name resolves to has the same unqualified name. */
  lemma ResolvedName(schema: Schema, name: string)
    requires Resolve(schema, name).Ok?
    ensures Unqualified(schema[Resolve(schema, name).value].name) == Unqualified(name)
  {
    hide Indices; hide Unqualified; hide Qualified;
    IndicesAre(schema, name, false);
    IndicesAre(schema, Unqualified(name), true);
    var exact, short := Indices(schema, name, false), Indices(schema, Unqualified(name), true);
    if |exact| == 1 {
      assert exact[0] in exact && NameAt(schema, exact[0], false) == name;
    } else {
      assert short[0] in short && NameAt(schema, short[0], true) == Unqualified(name);
    }
  }

  /** With distinct unqualified names pruning consults the column that evaluation reads. */
  lemma DistinctNamesAreRead(schema: TableSchema, columns: seq<nat>, name: string)
    requires Projects(schema, columns) && DistinctShortNames(schema)
    ensures Reads(schema, columns, name)
  {
    hide Resolve; hide Unqualified; hide Lower; hide Harmful; hide Qualified;
    var r, p := Resolve(ReadSchema(schema, columns), name), Picked(schema, name);
    if r.Ok? && p.Some? {
      ResolvedName(ReadSchema(schema, columns), name);
      LowerKeepsDots(schema[p.value].name, Unqualified(name));
      assert Unqualified(schema[p.value].name) == schema[p.value].name;
    }
  }

  lemma {:induction false} DistinctNamesAreAllRead(schema: TableSchema, columns: seq<nat>, e: Expr)
    requires Projects(schema, columns) && DistinctShortNames(schema)
    ensures ReadsAll(schema, columns, e)
  {
    hide Reads; hide DistinctShortNames;
    match e
    case Column(name) => DistinctNamesAreRead(schema, columns, name);
    case Binary(l, _, r) => DistinctNamesAreAllRead(schema, columns, l); DistinctNamesAreAllRead(schema, columns, r);
    case IsNull(x, _) => DistinctNamesAreAllRead(schema, columns, x);
    case Cast(x, _) => DistinctNamesAreAllRead(schema, columns, x);
    case Alias(x, _) => DistinctNamesAreAllRead(schema, columns, x);
    case Aggregate(_, x, _) => DistinctNamesAreAllRead(schema, columns, x);
    case _ =>
  }

  // ----- a harmful confusion does lose a row ---------------------------------------------------

  function Default(t: DataType): (v: Scalar)
    ensures v.Null? <==> t.NullType?
  {
    match Normalized(t)
    case BooleanType => Boolean(false)
    case Int64Type => Int64(0)
    case UInt64Type => UInt64(0)
    case Float64Type => Float64(0.0)
    case Utf8Type => Utf8("")
    case _ => Null
  }

  /** Another value of the same type. */
  function Other(t: DataType): (w: Scalar)
    requires !t.NullType?
    ensures w != Default(t) && SameKind(Default(t), w)
  {
    match Normalized(t)
    case BooleanType => Boolean(true)
    case Int64Type => Int64(1)
    case UInt64Type => UInt64(1)
    case Float64Type => Float64(1.0)
    case Utf8Type => Utf8("+")
  }

  function DefaultRow(schema: TableSchema): Row {
    seq(|schema|, i requires 0 <= i < |schema| => Default(schema[i].ty))
  }

  lemma DefaultFits(k: Kernels, t: DataType)
    requires Lawful(k)
    ensures Fits(k, t, Default(t)) && (!t.NullType? ==> Fits(k, t, Other(t)))
  {
  }

  lemma DefaultTableRow(k: Kernels, schema: TableSchema)
    requires Lawful(k) && WellFormed(schema)
    ensures TableRow(k, schema, DefaultRow(schema))
  {
    hide Lawful; hide Fits;
    forall i | 0 <= i < |schema| ensures Fits(k, schema[i].ty, DefaultRow(schema)[i]) {
      DefaultFits(k, schema[i].ty);
    }
  }

  lemma TableRowWith(k: Kernels, schema: TableSchema, row: Row, i: nat, v: Scalar)
    requires TableRow(k, schema, row) && i < |schema| && if v.Null? then schema[i].nullable else Fits(k, schema[i].ty, v)
    ensures TableRow(k, schema, row[i := v])
  {
    assert v.Null? ==> Fits(k, schema[i].ty, v);
    hide Fits;
  }

  /** A group of one row, with statistics of one column only. */
  function OneRowGroup(schema: TableSchema, p: nat, s: ColumnStats): RowGroup {
    RowGroup(seq(|schema|, i => if i == p then Some(s) else None), 1)
  }

  /** A value of the read column and a literal of the picked column's kind that compare equal. */
  lemma EqualPair(k: Kernels, read: DataType, picked: DataType, kind: DataType)
    requires Lawful(k) && Widening(k) && !read.NullType? && StatType(picked) == Some(kind)
    requires ResultType(Eq, read, kind).Some?
    ensures !Default(kind).Null? && TypeOf(Default(kind)) == kind
    ensures EvalBinary(k, Eq, Typed(read, Default(read)), Typed(kind, Default(kind))) == Ok(Typed(BooleanType, Boolean(true)))
  {
    hide Lawful; hide Widening; hide EvalBinary; hide Fits; hide Compare;
    if Normalized(read) == kind {
      DefaultFits(k, read);
      assert StatType(read) == Some(kind) && Default(read) == Default(kind);
      EqualToItself(Default(kind));
      FamilyComparison(k, Eq, read, Default(read), Default(kind));
    } else {
      MixedZeros(k, read, kind);
    }
  }

  lemma EqualToItself(v: Scalar)
    requires !v.Null?
    ensures Compare(Eq, v, v) == Boolean(true)
  {
  }

  lemma MixedZeros(k: Kernels, a: DataType, b: DataType)
    requires Lawful(k) && Widening(k) && a != b && CommonNumeric(a, b) == Some(Float64Type) && IsNumeric(a) && IsNumeric(b)
    ensures EvalBinary(k, Eq, Typed(a, Default(a)), Typed(b, Default(b))) == Ok(Typed(BooleanType, Boolean(true)))
  {
    hide Lawful; hide Widening; hide CommonNumeric;
    ZeroIsZero(k, a);
    ZeroIsZero(k, b);
  }

  lemma ZeroIsZero(k: Kernels, t: DataType)
    requires Lawful(k) && Widening(k) && IsNumeric(t)
    ensures k.canCast(t, Float64Type) && k.cast(t, Float64Type, Default(t)) == Float64(0.0)
  {
    assert Fits(k, t, Default(t));
    if t.Float32Type? { assert Normalized(t) == Float64Type; }
  }

  /** A NULL test of a column, or its comparison with a literal. */
  predicate AsksFor(name: string, filter: Expr) {
    match filter
    case IsNull(x, _) => x == Column(name)
    case Binary(l, op, r) => l == Column(name) && op.Eq? && r.Literal? && !r.value.Null?
    case _ => false
  }

  /** Where a name reads one column and pruning consults another one harmfully, there are a row
      group with true statistics, a row of it and a filter such that the row passes the filter but
      the group is ruled out. */
  lemma HarmfulConfusionLosesARow(k: Kernels, schema: TableSchema, columns: seq<nat>, name: string)
    returns (group: RowGroup, row: Row, filter: Expr)
    requires Lawful(k) && Widening(k) && WellFormed(schema) && Projects(schema, columns) && !Reads(schema, columns, name)
    ensures TrueStats(k, schema, group, [row]) && |row| == |schema| && Passes(k, schema, columns, row, filter)
    ensures !GroupMayMatch(schema, group, [filter]) && AsksFor(name, filter)
  {
    hide Resolve; hide Picked; hide Lawful; hide ResultType; hide EvalBinary; hide Widening; hide TableRow; hide Fits;
    var j := Resolve(ReadSchema(schema, columns), name).value;
    var i, p := columns[j], Picked(schema, name).value;
    var a, b := schema[p], schema[i];
    var base := DefaultRow(schema);
    DefaultFits(k, a.ty);
    DefaultFits(k, b.ty);
    DefaultTableRow(k, schema);
    if b.nullable && !a.ty.NullType? {
      row := base[i := Null];
      TableRowWith(k, schema, base, i, Null);
      group := OneRowGroup(schema, p, ColumnStats(None, None, Some(0)));
      filter := IsNull(Column(name), false);
    } else if a.nullable && !b.ty.NullType? {
      row := base[p := Null];
      TableRowWith(k, schema, base, p, Null);
      group := OneRowGroup(schema, p, ColumnStats(None, None, Some(1)));
      filter := IsNull(Column(name), true);
    } else {
      var kind := StatType(a.ty).value;
      var x, v, w := Default(b.ty), Default(kind), Other(a.ty);
      EqualPair(k, b.ty, a.ty, kind);
      row := base[i := x][p := w];
      TableRowWith(k, schema, base, i, x);
      TableRowWith(k, schema, base[i := x], p, w);
      group := OneRowGroup(schema, p, ColumnStats(Some(w), Some(w), None));
      filter := Binary(Column(name), Eq, Literal(v));
      ScalarLeqTotal(w, w);
      ScalarLeqTotal(v, w);
      assert Bound(a.ty, Some(w)) == Some(w);
    }
    OneRowIsTrue(k, schema, p, group.stats[p].value, row);
    ColumnEvaluates(k, schema, columns, row, name);
    var read := Typed(b.ty, row[i]);
    if filter.IsNull? {
      NullTestEvaluates(k, ReadSchema(schema, columns), ReadRow(schema, columns, row), Column(name), read, filter.negated);
    } else {
      EqualityEvaluates(k, ReadSchema(schema, columns), ReadRow(schema, columns, row), Column(name), read, filter.right.value);
    }
    assert filter == [filter][0] && !MayMatch(schema, group, filter);
  }

  lemma ColumnEvaluates(k: Kernels, schema: TableSchema, columns: seq<nat>, row: Row, name: string)
    requires Projects(schema, columns) && |row| == |schema| && Resolve(ReadSchema(schema, columns), name).Ok?
    ensures var i := columns[Resolve(ReadSchema(schema, columns), name).value];
      Eval(k, ReadSchema(schema, columns), ReadRow(schema, columns, row), Column(name)) == Ok(Typed(schema[i].ty, row[i]))
  {
    hide Resolve;
  }

  lemma NullTestEvaluates(k: Kernels, names: Schema, row: Row, e: Expr, x: Typed, negated: bool)
    requires Eval(k, names, row, e) == Ok(x)
    ensures Eval(k, names, row, IsNull(e, negated)) == Ok(Typed(BooleanType, Boolean(x.value.Null? != negated)))
  {
  }

  lemma EqualityEvaluates(k: Kernels, names: Schema, row: Row, e: Expr, x: Typed, v: Scalar)
    requires Eval(k, names, row, e) == Ok(x)
    ensures Eval(k, names, row, Binary(e, Eq, Literal(v))) == EvalBinary(k, Eq, x, Typed(TypeOf(v), v))
  {
    hide EvalBinary;
  }

  lemma OneRowIsTrue(k: Kernels, schema: TableSchema, p: nat, s: ColumnStats, row: Row)
    requires p < |schema| && TableRow(k, schema, row) && BoundsHold(schema, p, s, row)
    requires s.nulls.Some? ==> s.nulls.value == if row[p].Null? then 1 else 0
    ensures TrueStats(k, schema, OneRowGroup(schema, p, s), [row])
  {
    assert [row][..0] == [];
    assert NullCount([row], p) == if row[p].Null? then 1 else 0;
  }

  /** A column whose name has a dot is read by its full name but pruned by its last part. */
  lemma DottedNameExample()
    ensures var schema := [TableField("a.b", Int64Type, false), TableField("b", Int64Type, false)];
      WellFormed(schema) && Projects(schema, [0, 1]) && !Reads(schema, [0, 1], "a.b")
  {
    hide Resolve; hide Lower;
    var schema := [TableField("a.b", Int64Type, false), TableField("b", Int64Type, false)];
    var names := ReadSchema(schema, [0, 1]);
    assert names[0].name == "a.b" && names[1].name == "b";
    OwnNameResolves(names, 0);
    LastPart();
    assert PickedFrom(schema, "a.b", 1) == Some(1);
    DifferentLengths("a.b", "b");
    assert Picked(schema, "a.b") == Some(1);
    assert ResultType(Eq, Int64Type, Int64Type).Some?;
  }

  lemma LastPart()
    ensures Unqualified("a.b") == "b"
  {
    assert "b"[1..] == "" && ".b"[1..] == "b" && "a.b"[1..] == ".b";
    assert Unqualified("b") == "b";
    assert Unqualified(".b") == "b";
  }

  lemma DifferentLengths(a: string, b: string)
    requires |a| != |b|
    ensures Lower(a) != Lower(b)
  {
    assert |Lower(a)| == |a| && |Lower(b)| == |b|;
  }

  // ----- the scan loop ------------------------------------------------------------------------

  /** One filter over the rows read so far: every row must evaluate to a Boolean. */
  function FilterRows(k: Kernels, names: Schema, e: Expr, rows: seq<Row>): Option<seq<Row>> {
    if rows == [] then Some([])
    else
      var last := rows[|rows| - 1];
      match (FilterRows(k, names, e, rows[..|rows| - 1]), Eval(k, names, last, e))
      case (Some(kept), Ok(x)) =>
        if !x.ty.BooleanType? then None else Some(if x.value == Boolean(true) then kept + [last] else kept)
      case _ => None
  }

  /** All filters, one after the other. */
  function FilterAll(k: Kernels, names: Schema, filters: seq<Expr>, rows: seq<Row>): Option<seq<Row>> {
    if filters == [] then Some(rows)
    else
      match FilterAll(k, names, filters[..|filters| - 1], rows)
      case None => None
      case Some(kept) => FilterRows(k, names, filters[|filters| - 1], kept)
  }

  /** Kept rows are rows of the input that the filter is true of. */
  lemma {:induction false} KeptRowsPass(k: Kernels, names: Schema, e: Expr, rows: seq<Row>)
    requires FilterRows(k, names, e, rows).Some?
    ensures forall i | 0 <= i < |FilterRows(k, names, e, rows).value| ::
      var row := FilterRows(k, names, e, rows).value[i];
      row in rows && Eval(k, names, row, e).Ok? && Eval(k, names, row, e).value.value == Boolean(true)
  {
    hide Eval;
    if rows != [] { KeptRowsPass(k, names, e, rows[..|rows| - 1]); }
  }

  lemma {:induction false} RowsPassAllFilters(k: Kernels, names: Schema, filters: seq<Expr>, rows: seq<Row>, f: nat)
    requires FilterAll(k, names, filters, rows).Some? && f < |filters|
    ensures forall i | 0 <= i < |FilterAll(k, names, filters, rows).value| ::
      var row := FilterAll(k, names, filters, rows).value[i];
      row in rows && Eval(k, names, row, filters[f]).Ok? && Eval(k, names, row, filters[f]).value.value == Boolean(true)
  {
    hide Eval; hide FilterRows;
    var n := |filters| - 1;
    var before := FilterAll(k, names, filters[..n], rows).value;
    KeptRowsPass(k, names, filters[n], before);
    if f < n {
      RowsPassAllFilters(k, names, filters[..n], rows, f);
    } else {
      SomeRowsOf(k, names, filters[..n], rows);
    }
  }

  lemma {:induction false} SomeRowsOf(k: Kernels, names: Schema, filters: seq<Expr>, rows: seq<Row>)
    requires FilterAll(k, names, filters, rows).Some?
    ensures forall i | 0 <= i < |FilterAll(k, names, filters, rows).value| :: FilterAll(k, names, filters, rows).value[i] in rows
  {
    hide FilterRows;
    if filters != [] {
      var n := |filters| - 1;
      SomeRowsOf(k, names, filters[..n], rows);
      KeptRowsPass(k, names, filters[n], FilterAll(k, names, filters[..n], rows).value);
    }
  }

  function ReadRows(schema: TableSchema, columns: seq<nat>, rows: seq<Row>): seq<Row>
    requires Projects(schema, columns) && forall r | 0 <= r < |rows| :: |rows[r]| == |schema|
  {
    seq(|rows|, r requires 0 <= r < |rows| => ReadRow(schema, columns, rows[r]))
  }

  /** Scanning a group that is ruled out would have given nothing. */
  lemma PrunedGroupIsEmpty(k: Kernels, schema: TableSchema, columns: seq<nat>, group: RowGroup, rows: seq<Row>, filters: seq<Expr>)
    requires Lawful(k) && WellFormed(schema) && Projects(schema, columns) && TrueStats(k, schema, group, rows)
    requires forall f | 0 <= f < |filters| :: ReadsAll(schema, columns, filters[f])
    requires !GroupMayMatch(schema, group, filters)
    requires forall r | 0 <= r < |rows| :: |rows[r]| == |schema|
    requires FilterAll(k, ReadSchema(schema, columns), filters, ReadRows(schema, columns, rows)).Some?
    ensures FilterAll(k, ReadSchema(schema, columns), filters, ReadRows(schema, columns, rows)).value == []
  {
    hide Eval; hide FilterAll; hide MayMatch; hide ReadsAll; hide Lawful; hide WellFormed; hide TrueStats;
    var names, read := ReadSchema(schema, columns), ReadRows(schema, columns, rows);
    var kept := FilterAll(k, names, filters, read).value;
    var f :| 0 <= f < |filters| && !MayMatch(schema, group, filters[f]);
    RowsPassAllFilters(k, names, filters, read, f);
    if kept != [] {
      assert kept[0] in read;
      var r :| 0 <= r < |read| && read[r] == kept[0];
      FilterIsSafe(k, schema, columns, group, rows, r, filters[f]);
      assert false;
    }
  }

  datatype Table = Table(schema: TableSchema, groups: seq<RowGroup>, rows: seq<seq<Row>>)

  predicate TableOk(k: Kernels, t: Table) {
    && WellFormed(t.schema) && |t.groups| == |t.rows|
    && (forall g | 0 <= g < |t.groups| :: TrueStats(k, t.schema, t.groups[g], t.rows[g]))
    && forall g, r | 0 <= g < |t.rows| && 0 <= r < |t.rows[g]| :: |t.rows[g][r]| == |t.schema|
  }

  /** A scan that looks at every group. */
  function FullScan(k: Kernels, t: Table, columns: seq<nat>, filters: seq<Expr>, n: nat): Option<seq<Row>>
    requires TableOk(k, t) && Projects(t.schema, columns) && n <= |t.rows|
  {
    if n == 0 then Some([])
    else
      match (FullScan(k, t, columns, filters, n - 1),
             FilterAll(k, ReadSchema(t.schema, columns), filters, ReadRows(t.schema, columns, t.rows[n - 1])))
      case (Some(before), Some(kept)) => Some(before + kept)
      case _ => None
  }

  /** The scan loop skips the groups that are ruled out. Whenever scanning every group succeeds,
      so does the pruned scan, with the same rows. */
  method PrunedScan(k: Kernels, t: Table, columns: seq<nat>, filters: seq<Expr>) returns (r: Option<seq<Row>>)
    requires TableOk(k, t) && Projects(t.schema, columns) && Lawful(k)
    requires forall f | 0 <= f < |filters| :: ReadsAll(t.schema, columns, filters[f])
    ensures FullScan(k, t, columns, filters, |t.rows|).Some? ==> r == FullScan(k, t, columns, filters, |t.rows|)
  {
    hide FilterAll; hide MayMatch; hide ReadsAll; hide Lawful; hide TrueStats; hide WellFormed; hide ReadRows; hide ReadSchema;
    var output := [];
    var g := 0;
    while g < |t.groups|
      invariant 0 <= g <= |t.groups|
      invariant FullScan(k, t, columns, filters, |t.rows|).Some? ==> FullScan(k, t, columns, filters, g) == Some(output)
    {
      ghost var all := FullScan(k, t, columns, filters, |t.rows|);
      if all.Some? { ScanPrefix(k, t, columns, filters, g + 1); }
      if GroupMayMatch(t.schema, t.groups[g], filters) {
        var kept := FilterAll(k, ReadSchema(t.schema, columns), filters, ReadRows(t.schema, columns, t.rows[g]));
        if kept.None? { return None; }
        output := output + kept.value;
      } else if all.Some? {
        PrunedGroupIsEmpty(k, t.schema, columns, t.groups[g], t.rows[g], filters);
        assert output + [] == output;
      }
      g := g + 1;
    }
    r := Some(output);
  }

  lemma {:induction false} ScanPrefix(k: Kernels, t: Table, columns: seq<nat>, filters: seq<Expr>, n: nat)
    requires TableOk(k, t) && Projects(t.schema, columns) && n <= |t.rows|
    requires FullScan(k, t, columns, filters, |t.rows|).Some?
    ensures FullScan(k, t, columns, filters, n).Some?
    decreases |t.rows| - n
  {
    hide FilterAll; hide TrueStats; hide ReadRows; hide ReadSchema;
    if n < |t.rows| { ScanPrefix(k, t, columns, filters, n + 1); }
  }
}
