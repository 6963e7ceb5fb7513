/** The wire trees of physical plans (src/cluster/plan_codec.rs) and the check a coordinator runs
    on a fragment without a catalog. Protobuf bytes are not modelled: a message is the tree it
    encodes, in which every nested message may be missing and every enumeration is a number. */
module WireFormat {
  import opened Basics

  const MAX_PLAN_DEPTH: nat := 128

  datatype WireScalar =
    | NoScalar
    | WireNull(marker: bool)
    | WireBoolean(flag: bool)
    | WireInt64(signed: int)
    | WireUInt64(unsigned: nat)
    | WireFloat64(number: real)
    | WireUtf8(text: string)

  datatype WireExpr =
    | NoExpr
    | WireColumn(name: string)
    | WireLiteral(value: WireScalar)
    | WireBinary(left: Option<WireExpr>, operator: int, right: Option<WireExpr>)
    | WireIsNull(expr: Option<WireExpr>, negated: bool)
    | WireCast(expr: Option<WireExpr>, dataType: int)
    | WireAlias(expr: Option<WireExpr>, alias: string)
    | WireAggregate(kind: int, expr: Option<WireExpr>, distinct: bool)
    | WireWildcard(marker: bool)

  datatype WireSort = WireSort(expr: Option<WireExpr>, ascending: bool, nullsFirst: bool)

  datatype KeyValue = KeyValue(key: string, value: string)

  datatype WireField = WireField(name: string, dataType: int, nullable: bool, metadata: seq<KeyValue>)

  datatype WireSchema = WireSchema(fields: seq<WireField>, metadata: seq<KeyValue>)

  datatype WirePlan =
    | NoPlan
    | WireScan(id: U32, table: string, hasProjection: bool, projection: seq<U32>, filters: seq<WireExpr>, schema: Option<WireSchema>)
    | WireProjection(id: U32, input: Option<WirePlan>, exprs: seq<WireExpr>, schema: Option<WireSchema>)
    | WireFilter(id: U32, input: Option<WirePlan>, condition: Option<WireExpr>, schema: Option<WireSchema>)
    | WireHashAggregate(id: U32, input: Option<WirePlan>, groups: seq<WireExpr>, aggregates: seq<WireExpr>, schema: Option<WireSchema>)
    | WireSorted(id: U32, input: Option<WirePlan>, keys: seq<WireSort>, schema: Option<WireSchema>)
    | WireTopK(id: U32, input: Option<WirePlan>, keys: seq<WireSort>, limit: U64, schema: Option<WireSchema>)
    | WireLimit(id: U32, input: Option<WirePlan>, limit: U64, schema: Option<WireSchema>)
    | WireHashJoin(id: U32, left: Option<WirePlan>, right: Option<WirePlan>, joinType: int,
                   leftOn: seq<WireExpr>, rightOn: seq<WireExpr>, schema: Option<WireSchema>)

  // ----- what is well formed on its own ----------------------------------------------------------

  predicate ScalarOk(w: WireScalar) {
    match w
    case NoScalar => false
    case WireNull(marker) => marker
    case WireInt64(n) => -0x8000_0000_0000_0000 <= n <= 0x7FFF_FFFF_FFFF_FFFF
    case WireUInt64(n) => n <= U64_MAX
    case _ => true
  }

  predicate ExprOk(w: WireExpr) {
    match w
    case NoExpr => false
    case WireColumn(name) => !Blank(name)
    case WireLiteral(v) => ScalarOk(v)
    case WireBinary(l, op, r) => l.Some? && ExprOk(l.value) && 0 <= op <= 11 && r.Some? && ExprOk(r.value)
    case WireIsNull(x, _) => x.Some? && ExprOk(x.value)
    case WireCast(x, t) => x.Some? && ExprOk(x.value) && 0 <= t <= 8
    case WireAlias(x, alias) => !Blank(alias) && x.Some? && ExprOk(x.value)
    case WireAggregate(kind, x, _) => 0 <= kind <= 5 && x.Some? && ExprOk(x.value)
    case WireWildcard(marker) => marker
  }

  predicate ExprsOk(ws: seq<WireExpr>) {
    forall i | 0 <= i < |ws| :: ExprOk(ws[i])
  }

  predicate SortsOk(ws: seq<WireSort>) {
    ws != [] && forall i | 0 <= i < |ws| :: ws[i].expr.Some? && ExprOk(ws[i].expr.value)
  }

  /** No key appears twice. */
  predicate DistinctKeys(entries: seq<KeyValue>) {
    forall i, j | 0 <= i < j < |entries| :: entries[i].key != entries[j].key
  }

  predicate SchemaOk(w: Option<WireSchema>) {
    && w.Some? && DistinctKeys(w.value.metadata)
    && forall i | 0 <= i < |w.value.fields| :: 0 <= w.value.fields[i].dataType <= 8 && DistinctKeys(w.value.fields[i].metadata)
  }

  predicate ProjectionOk(hasProjection: bool, indices: seq<U32>) {
    hasProjection || indices == []
  }

  /** `validate_wire_plan`. */
  predicate PlanOk(w: WirePlan, depth: nat)
    decreases w
  {
    depth < MAX_PLAN_DEPTH &&
    match w
    case NoPlan => false
    case WireScan(_, table, has, projection, filters, schema) =>
      !Blank(table) && ProjectionOk(has, projection) && SchemaOk(schema) && ExprsOk(filters)
    case WireProjection(_, input, exprs, schema) =>
      input.Some? && PlanOk(input.value, depth + 1) && SchemaOk(schema) && ExprsOk(exprs)
    case WireFilter(_, input, condition, schema) =>
      input.Some? && PlanOk(input.value, depth + 1) && SchemaOk(schema) && condition.Some? && ExprOk(condition.value)
    case WireHashAggregate(_, input, groups, aggregates, schema) =>
      input.Some? && PlanOk(input.value, depth + 1) && SchemaOk(schema) && ExprsOk(groups) && ExprsOk(aggregates)
    case WireSorted(_, input, keys, schema) =>
      input.Some? && PlanOk(input.value, depth + 1) && SchemaOk(schema) && SortsOk(keys)
    case WireTopK(_, input, keys, _, schema) =>
      input.Some? && PlanOk(input.value, depth + 1) && SchemaOk(schema) && SortsOk(keys)
    case WireLimit(_, input, _, schema) => input.Some? && PlanOk(input.value, depth + 1) && SchemaOk(schema)
    case WireHashJoin(_, left, right, joinType, leftOn, rightOn, schema) =>
      && left.Some? && PlanOk(left.value, depth + 1) && right.Some? && PlanOk(right.value, depth + 1)
      && 0 <= joinType <= 1 && SchemaOk(schema) && |leftOn| == |rightOn| && ExprsOk(leftOn) && ExprsOk(rightOn)
  }

  /** `validate_fragment`, on the root of a decoded envelope. */
  predicate ValidFragment(root: WirePlan) {
    PlanOk(root, 0)
  }
}
