/** Encoding physical plans to wire trees and decoding them against a worker's catalog
    (src/cluster/plan_codec.rs). */
module PlanCodec {
  import opened Basics
  import opened Values
  import opened Expr
  import opened Plans
  import opened Physical
  import opened WireFormat
  import Agg = Aggregates
  import J = Join
  import Pruning

  // ----- enumerations ----------------------------------------------------------------------------

  function OperatorCode(op: Operator): int {
    match op
    case Eq => 0 case NotEq => 1 case Lt => 2 case LtEq => 3 case Gt => 4 case GtEq => 5
    case And => 6 case Or => 7 case Add => 8 case Subtract => 9 case Multiply => 10 case Divide => 11
  }

  function OperatorOf(code: int): Option<Operator> {
    match code
    case 0 => Some(Eq) case 1 => Some(NotEq) case 2 => Some(Lt) case 3 => Some(LtEq) case 4 => Some(Gt) case 5 => Some(GtEq)
    case 6 => Some(And) case 7 => Some(Or) case 8 => Some(Add) case 9 => Some(Subtract) case 10 => Some(Multiply)
    case 11 => Some(Divide) case _ => None
  }

  function TypeCode(t: DataType): int {
    match t
    case NullType => 0 case BooleanType => 1 case Int32Type => 2 case Int64Type => 3 case UInt32Type => 4
    case UInt64Type => 5 case Float32Type => 6 case Float64Type => 7 case Utf8Type => 8
  }

  function TypeOfCode(code: int): Option<DataType> {
    match code
    case 0 => Some(NullType) case 1 => Some(BooleanType) case 2 => Some(Int32Type) case 3 => Some(Int64Type)
    case 4 => Some(UInt32Type) case 5 => Some(UInt64Type) case 6 => Some(Float32Type) case 7 => Some(Float64Type)
    case 8 => Some(Utf8Type) case _ => None
  }

  function FunctionCode(f: Agg.Function): int {
    match f
    case Count => 0 case Sum => 1 case Min => 2 case Max => 3 case Avg => 4 case SumUInt64 => 5
  }

  function FunctionOf(code: int): Option<Agg.Function> {
    match code
    case 0 => Some(Agg.Count) case 1 => Some(Agg.Sum) case 2 => Some(Agg.Min) case 3 => Some(Agg.Max)
    case 4 => Some(Agg.Avg) case 5 => Some(Agg.SumUInt64) case _ => None
  }

  function JoinCode(kind: J.JoinType): int {
    if kind == J.Inner then 0 else 1
  }

  function JoinOf(code: int): Option<J.JoinType> {
    match code case 0 => Some(J.Inner) case 1 => Some(J.Left) case _ => None
  }

  lemma CodesRoundTrip(op: Operator, t: DataType, f: Agg.Function, kind: J.JoinType)
    ensures OperatorOf(OperatorCode(op)) == Some(op) && TypeOfCode(TypeCode(t)) == Some(t)
    ensures FunctionOf(FunctionCode(f)) == Some(f) && JoinOf(JoinCode(kind)) == Some(kind)
  {
  }

  lemma KnownCodes(code: int)
    ensures OperatorOf(code).Some? <==> 0 <= code <= 11
    ensures TypeOfCode(code).Some? <==> 0 <= code <= 8
    ensures FunctionOf(code).Some? <==> 0 <= code <= 5
    ensures JoinOf(code).Some? <==> 0 <= code <= 1
  {
  }

  // ----- scalars and expressions -----------------------------------------------------------------

  function EncodeScalar(v: Scalar): WireScalar {
    match v
    case Null => WireNull(true)
    case Boolean(b) => WireBoolean(b)
    case Int64(n) => WireInt64(n)
    case UInt64(n) => WireUInt64(n)
    case Float64(x) => WireFloat64(x)
    case Utf8(s) => WireUtf8(s)
  }

  function DecodeScalar(w: WireScalar): Option<Scalar> {
    match w
    case NoScalar => None
    case WireNull(marker) => if marker then Some(Null) else None
    case WireBoolean(b) => Some(Boolean(b))
    case WireInt64(n) => if I64_MIN <= n <= I64_MAX then Some(Int64(n)) else None
    case WireUInt64(n) => if n <= U64_MAX then Some(UInt64(n)) else None
    case WireFloat64(x) => Some(Float64(x))
    case WireUtf8(s) => Some(Utf8(s))
  }

  function EncodeExpr(e: Expr): WireExpr {
    match e
    case Column(name) => WireColumn(name)
    case Literal(v) => WireLiteral(EncodeScalar(v))
    case Binary(l, op, r) => WireBinary(Some(EncodeExpr(l)), OperatorCode(op), Some(EncodeExpr(r)))
    case IsNull(x, negated) => WireIsNull(Some(EncodeExpr(x)), negated)
    case Cast(x, t) => WireCast(Some(EncodeExpr(x)), TypeCode(t))
    case Alias(x, alias) => WireAlias(Some(EncodeExpr(x)), alias)
    case Aggregate(kind, x, distinct) => WireAggregate(FunctionCode(kind), Some(EncodeExpr(x)), distinct)
    case Wildcard => WireWildcard(true)
  }

  function DecodeExpr(w: WireExpr): Option<Expr> {
    match w
    case NoExpr => None
    case WireColumn(name) => if Blank(name) then None else Some(Column(name))
    case WireLiteral(v) => (match DecodeScalar(v) case None => None case Some(s) => Some(Literal(s)))
    case WireBinary(l, op, r) =>
      if l.None? || r.None? then None
      else
        (match (DecodeExpr(l.value), OperatorOf(op), DecodeExpr(r.value))
         case (Some(x), Some(o), Some(y)) => Some(Binary(x, o, y))
         case _ => None)
    case WireIsNull(x, negated) =>
      if x.None? then None
      else (match DecodeExpr(x.value) case None => None case Some(e) => Some(IsNull(e, negated)))
    case WireCast(x, t) =>
      if x.None? then None
      else (match (DecodeExpr(x.value), TypeOfCode(t)) case (Some(e), Some(ty)) => Some(Cast(e, ty)) case _ => None)
    case WireAlias(x, alias) =>
      if Blank(alias) || x.None? then None
      else (match DecodeExpr(x.value) case None => None case Some(e) => Some(Alias(e, alias)))
    case WireAggregate(kind, x, distinct) =>
      if x.None? then None
      else (match (FunctionOf(kind), DecodeExpr(x.value)) case (Some(f), Some(e)) => Some(Aggregate(f, e, distinct)) case _ => None)
    case WireWildcard(marker) => if marker then Some(Wildcard) else None
  }

  /** Columns and aliases have names. */
  predicate Named(e: Expr) {
    match e
    case Column(name) => !Blank(name)
    case Binary(l, _, r) => Named(l) && Named(r)
    case IsNull(x, _) => Named(x)
    case Cast(x, _) => Named(x)
    case Alias(x, alias) => !Blank(alias) && Named(x)
    case Aggregate(_, x, _) => Named(x)
    case _ => true
  }

  predicate AllNamed(exprs: seq<Expr>) {
    forall i | 0 <= i < |exprs| :: Named(exprs[i])
  }

  /** An expression survives the trip exactly when all its names are non-blank. */
  lemma {:induction false} ExprRoundTrip(e: Expr)
    ensures DecodeExpr(EncodeExpr(e)) == if Named(e) then Some(e) else None
  {
    hide Blank; hide OperatorOf; hide OperatorCode; hide TypeOfCode; hide TypeCode; hide FunctionOf; hide FunctionCode;
    match e
    case Binary(l, op, r) =>
      ExprRoundTrip(l);
      ExprRoundTrip(r);
      CodesRoundTrip(op, NullType, Agg.Count, J.Inner);
    case IsNull(x, _) => ExprRoundTrip(x);
    case Cast(x, t) =>
      ExprRoundTrip(x);
      CodesRoundTrip(Eq, t, Agg.Count, J.Inner);
    case Alias(x, _) => ExprRoundTrip(x);
    case Aggregate(kind, x, _) =>
      ExprRoundTrip(x);
      CodesRoundTrip(Eq, NullType, kind, J.Inner);
    case _ =>
  }

  /** Decoding an expression succeeds exactly on the trees that pass the check. */
  lemma {:induction false} DecodesExprs(w: WireExpr)
    ensures DecodeExpr(w).Some? <==> ExprOk(w)
  {
    hide Blank; hide OperatorOf; hide TypeOfCode; hide FunctionOf;
    match w
    case WireBinary(l, op, r) =>
      if l.Some? { DecodesExprs(l.value); }
      if r.Some? { DecodesExprs(r.value); }
      KnownCodes(op);
    case WireIsNull(x, _) => if x.Some? { DecodesExprs(x.value); }
    case WireCast(x, t) =>
      if x.Some? { DecodesExprs(x.value); }
      KnownCodes(t);
    case WireAlias(x, _) => if x.Some? { DecodesExprs(x.value); }
    case WireAggregate(kind, x, _) =>
      if x.Some? { DecodesExprs(x.value); }
      KnownCodes(kind);
    case _ =>
  }

  function EncodeExprs(exprs: seq<Expr>): seq<WireExpr> {
    seq(|exprs|, i requires 0 <= i < |exprs| => EncodeExpr(exprs[i]))
  }

  function DecodeExprs(ws: seq<WireExpr>): (r: Option<seq<Expr>>)
    ensures r.Some? ==> |r.value| == |ws|
    ensures r.Some? <==> forall i | 0 <= i < |ws| :: DecodeExpr(ws[i]).Some?
    ensures r.Some? ==> forall i | 0 <= i < |ws| :: DecodeExpr(ws[i]) == Some(r.value[i])
  {
    hide DecodeExpr;
    if ws == [] then Some([])
    else
      match (DecodeExprs(ws[..|ws| - 1]), DecodeExpr(ws[|ws| - 1]))
      case (Some(before), Some(e)) => Some(before + [e])
      case _ => None
  }

  lemma ExprsRoundTrip(exprs: seq<Expr>)
    ensures DecodeExprs(EncodeExprs(exprs)) == if AllNamed(exprs) then Some(exprs) else None
  {
    hide DecodeExpr; hide EncodeExpr; hide Named; hide DecodeExprs;
    forall i | 0 <= i < |exprs| ensures DecodeExpr(EncodeExprs(exprs)[i]) == if Named(exprs[i]) then Some(exprs[i]) else None {
      ExprRoundTrip(exprs[i]);
    }
    if AllNamed(exprs) {
      assert DecodeExprs(EncodeExprs(exprs)).value == exprs;
    }
  }

  function EncodeSorts(keys: seq<SortKey>): seq<WireSort> {
    seq(|keys|, i requires 0 <= i < |keys| => WireSort(Some(EncodeExpr(keys[i].expr)), keys[i].ascending, keys[i].nullsFirst))
  }

  function SortExprs(ws: seq<WireSort>): seq<WireExpr> {
    seq(|ws|, i requires 0 <= i < |ws| => if ws[i].expr.Some? then ws[i].expr.value else NoExpr)
  }

  /** `decode_sort_exprs`: at least one key, and every key has a type. */
  function DecodeSorts(ws: seq<WireSort>, schema: Schema): Option<seq<SortKey>> {
    if ws == [] then None
    else
      match DecodeExprs(SortExprs(ws))
      case None => None
      case Some(exprs) =>
        if forall i | 0 <= i < |exprs| :: TypeIn(schema, exprs[i]).Ok? then
          Some(seq(|ws|, i requires 0 <= i < |ws| && i < |exprs| => SortKey(exprs[i], ws[i].ascending, ws[i].nullsFirst)))
        else None
  }

  predicate SortsWellFormed(keys: seq<SortKey>, schema: Schema) {
    keys != [] && forall i | 0 <= i < |keys| :: Named(keys[i].expr) && TypeIn(schema, keys[i].expr).Ok?
  }

  lemma SortsRoundTrip(keys: seq<SortKey>, schema: Schema)
    ensures DecodeSorts(EncodeSorts(keys), schema) == if SortsWellFormed(keys, schema) then Some(keys) else None
  {
    hide DecodeExpr; hide EncodeExpr; hide Named; hide TypeIn; hide DecodeExprs;
    var ws, exprs := EncodeSorts(keys), KeyExprs(keys);
    assert SortExprs(ws) == EncodeExprs(exprs);
    ExprsRoundTrip(exprs);
    if AllNamed(exprs) && (forall i | 0 <= i < |exprs| :: TypeIn(schema, exprs[i]).Ok?) && keys != [] {
      var back := DecodeSorts(ws, schema).value;
      assert forall i | 0 <= i < |keys| :: back[i] == keys[i];
      assert back == keys;
    }
  }

  lemma DecodesSorts(ws: seq<WireSort>, schema: Schema)
    ensures DecodeSorts(ws, schema).Some? ==> SortsOk(ws)
  {
    hide DecodeExpr; hide ExprOk; hide TypeIn; hide DecodeExprs;
    var exprs := SortExprs(ws);
    forall i | 0 <= i < |ws| ensures DecodeExpr(exprs[i]).Some? ==> ws[i].expr.Some? && ExprOk(ws[i].expr.value) {
      DecodesExprs(exprs[i]);
      NothingIsNotOk();
    }
  }

  lemma NothingIsNotOk()
    ensures !ExprOk(NoExpr)
  {
  }

  lemma DecodesExprLists(ws: seq<WireExpr>)
    ensures DecodeExprs(ws).Some? <==> ExprsOk(ws)
  {
    hide DecodeExpr; hide ExprOk; hide DecodeExprs;
    forall i | 0 <= i < |ws| ensures DecodeExpr(ws[i]).Some? <==> ExprOk(ws[i]) {
      DecodesExprs(ws[i]);
    }
  }

  // ----- metadata and schemas --------------------------------------------------------------------

  /** Metadata in ascending order of its keys. */
  ghost function EncodeMetadata(m: Metadata): seq<KeyValue> {
    var keys := Sorted(m.Keys);
    seq(|keys|, i requires 0 <= i < |keys| => KeyValue(keys[i], if keys[i] in m then m[keys[i]] else ""))
  }

  function DecodedMetadata(entries: seq<KeyValue>): Option<Metadata> {
    if entries == [] then Some(map[])
    else
      var last := entries[|entries| - 1];
      match DecodedMetadata(entries[..|entries| - 1])
      case None => None
      case Some(m) => if last.key in m then None else Some(m[last.key := last.value])
  }

  /** `decode_metadata`: a repeated key is refused. */
  method DecodeMetadata(entries: seq<KeyValue>) returns (r: Option<Metadata>)
    ensures r == DecodedMetadata(entries)
    ensures r.Some? <==> DistinctKeys(entries)
  {
    MetadataDecodes(entries);
    var m: Metadata := map[];
    var i := 0;
    while i < |entries|
      invariant 0 <= i <= |entries| && DecodedMetadata(entries[..i]) == Some(m)
    {
      assert entries[..i + 1][..i] == entries[..i];
      if entries[i].key in m {
        MetadataPrefix(entries, i + 1);
        return None;
      }
      m := m[entries[i].key := entries[i].value];
      i := i + 1;
    }
    assert entries[..i] == entries;
    r := Some(m);
  }

  lemma {:induction false} MetadataPrefix(entries: seq<KeyValue>, n: nat)
    requires n <= |entries| && DecodedMetadata(entries[..n]).None?
    ensures DecodedMetadata(entries).None?
    decreases |entries| - n
  {
    if n == |entries| {
      assert entries[..n] == entries;
    } else {
      assert entries[..n + 1][..n] == entries[..n];
      MetadataPrefix(entries, n + 1);
    }
  }

  function KeySet(entries: seq<KeyValue>): set<string> {
    set i | 0 <= i < |entries| :: entries[i].key
  }

  lemma KeySetPush(entries: seq<KeyValue>)
    requires entries != []
    ensures var n := |entries| - 1;
      && KeySet(entries) == KeySet(entries[..n]) + {entries[n].key}
      && (DistinctKeys(entries) <==> DistinctKeys(entries[..n]) && entries[n].key !in KeySet(entries[..n]))
  {
    var n := |entries| - 1;
    var init := entries[..n];
    assert forall i | 0 <= i < n :: init[i] == entries[i];
    forall i | 0 <= i < n ensures entries[i].key in KeySet(init) {
      assert init[i].key in KeySet(init);
    }
  }

  lemma {:induction false} MetadataDecodes(entries: seq<KeyValue>)
    ensures DecodedMetadata(entries).Some? <==> DistinctKeys(entries)
    ensures DecodedMetadata(entries).Some? ==> DecodedMetadata(entries).value.Keys == KeySet(entries)
    ensures DecodedMetadata(entries).Some? ==>
      forall i | 0 <= i < |entries| :: entries[i].key in DecodedMetadata(entries).value && DecodedMetadata(entries).value[entries[i].key] == entries[i].value
  {
    if entries != [] {
      hide DistinctKeys; hide KeySet;
      var n := |entries| - 1;
      MetadataDecodes(entries[..n]);
      KeySetPush(entries);
      if DecodedMetadata(entries).Some? {
        var m, whole := DecodedMetadata(entries[..n]).value, DecodedMetadata(entries).value;
        forall i | 0 <= i < n ensures entries[i].key in whole && whole[entries[i].key] == entries[i].value {
          assert entries[..n][i] == entries[i];
        }
      }
    }
  }

  lemma MetadataRoundTrip(m: Metadata)
    ensures DecodedMetadata(EncodeMetadata(m)) == Some(m)
  {
    hide DecodedMetadata; hide Sorted;
    var keys, entries := Sorted(m.Keys), EncodeMetadata(m);
    MetadataDecodes(entries);
    assert DistinctKeys(entries);
    var back := DecodedMetadata(entries).value;
    forall key | key in m ensures key in KeySet(entries) {
      assert key in keys;
      var i :| 0 <= i < |keys| && keys[i] == key;
      assert entries[i].key == key;
    }
    forall i | 0 <= i < |entries| ensures entries[i].key in m {
      assert keys[i] in keys;
    }
    assert KeySet(entries) == m.Keys;
    forall key | key in m ensures back[key] == m[key] {
      assert key in keys;
      var i :| 0 <= i < |keys| && keys[i] == key;
      assert entries[i] == KeyValue(key, m[key]);
    }
    assert back == m;
  }

  ghost function EncodeField(f: FullField): WireField {
    WireField(f.name, TypeCode(f.ty), f.nullable, EncodeMetadata(f.metadata))
  }

  function DecodeField(w: WireField): Option<FullField> {
    match (TypeOfCode(w.dataType), DecodedMetadata(w.metadata))
    case (Some(t), Some(m)) => Some(FullField(w.name, t, w.nullable, m))
    case _ => None
  }

  ghost function EncodeSchema(s: FullSchema): WireSchema {
    WireSchema(seq(|s.fields|, i requires 0 <= i < |s.fields| => EncodeField(s.fields[i])), EncodeMetadata(s.metadata))
  }

  function DecodeFields(ws: seq<WireField>): (r: Option<seq<FullField>>)
    ensures r.Some? ==> |r.value| == |ws|
    ensures r.Some? <==> forall i | 0 <= i < |ws| :: DecodeField(ws[i]).Some?
    ensures r.Some? ==> forall i | 0 <= i < |ws| :: DecodeField(ws[i]) == Some(r.value[i])
  {
    hide DecodeField;
    if ws == [] then Some([])
    else
      match (DecodeFields(ws[..|ws| - 1]), DecodeField(ws[|ws| - 1]))
      case (Some(before), Some(f)) => Some(before + [f])
      case _ => None
  }

  function DecodeSchema(w: Option<WireSchema>): Option<FullSchema> {
    if w.None? then None
    else
      match (DecodeFields(w.value.fields), DecodedMetadata(w.value.metadata))
      case (Some(fields), Some(m)) => Some(FullSchema(fields, m))
      case _ => None
  }

  /** Every schema survives the trip. */
  lemma SchemaRoundTrip(s: FullSchema)
    ensures DecodeSchema(Some(EncodeSchema(s))) == Some(s)
  {
    hide DecodedMetadata; hide EncodeMetadata; hide TypeOfCode; hide TypeCode; hide DecodeFields;
    var ws := EncodeSchema(s).fields;
    forall i | 0 <= i < |s.fields| ensures DecodeField(ws[i]) == Some(s.fields[i]) {
      MetadataRoundTrip(s.fields[i].metadata);
      CodesRoundTrip(Eq, s.fields[i].ty, Agg.Count, J.Inner);
    }
    MetadataRoundTrip(s.metadata);
    assert DecodeFields(ws).value == s.fields;
  }

  lemma DecodesSchemas(w: Option<WireSchema>)
    ensures DecodeSchema(w).Some? <==> SchemaOk(w)
  {
    hide DecodedMetadata; hide TypeOfCode; hide DecodeFields;
    if w.Some? {
      MetadataDecodes(w.value.metadata);
      forall i | 0 <= i < |w.value.fields|
        ensures DecodeField(w.value.fields[i]).Some? <==>
          0 <= w.value.fields[i].dataType <= 8 && DistinctKeys(w.value.fields[i].metadata)
      {
        MetadataDecodes(w.value.fields[i].metadata);
        KnownCodes(w.value.fields[i].dataType);
      }
    }
  }

  // ----- plans -------------------------------------------------------------------------------------

  predicate SmallIndices(projection: Option<seq<nat>>) {
    projection.Some? ==> forall i | 0 <= i < |projection.value| :: projection.value[i] <= U32_MAX
  }

  function EncodeIndices(projection: Option<seq<nat>>): seq<U32>
    requires SmallIndices(projection)
  {
    if projection.None? then []
    else seq(|projection.value|, i requires 0 <= i < |projection.value| => projection.value[i])
  }

  function DecodeProjection(has: bool, indices: seq<U32>): Option<Option<seq<nat>>> {
    if !has then if indices == [] then Some(None) else None
    else Some(Some(seq(|indices|, i requires 0 <= i < |indices| => indices[i])))
  }

  /** `encode_plan`. */
  ghost function EncodePlan(p: PhysicalPlan, depth: nat): Option<WirePlan>
    decreases p
  {
    if depth >= MAX_PLAN_DEPTH then None
    else
      match p
      case PScan(id, table, _, projection, filters, schema) =>
        if SmallIndices(projection) then
          Some(WireScan(id, table, projection.Some?, EncodeIndices(projection), EncodeExprs(filters), Some(EncodeSchema(schema))))
        else None
      case PProjection(id, input, exprs, schema) =>
        (match EncodePlan(input, depth + 1)
         case None => None
         case Some(i) => Some(WireProjection(id, Some(i), EncodeExprs(exprs), Some(EncodeSchema(schema)))))
      case PFilter(id, input, condition, schema) =>
        (match EncodePlan(input, depth + 1)
         case None => None
         case Some(i) => Some(WireFilter(id, Some(i), Some(EncodeExpr(condition)), Some(EncodeSchema(schema)))))
      case PHashAggregate(id, input, groups, aggregates, schema) =>
        (match EncodePlan(input, depth + 1)
         case None => None
         case Some(i) =>
           Some(WireHashAggregate(id, Some(i), EncodeExprs(groups), EncodeExprs(aggregates), Some(EncodeSchema(schema)))))
      case PSort(id, input, keys, schema) =>
        (match EncodePlan(input, depth + 1)
         case None => None
         case Some(i) => Some(WireSorted(id, Some(i), EncodeSorts(keys), Some(EncodeSchema(schema)))))
      case PTopK(id, input, keys, limit, schema) =>
        (match EncodePlan(input, depth + 1)
         case None => None
         case Some(i) => Some(WireTopK(id, Some(i), EncodeSorts(keys), limit, Some(EncodeSchema(schema)))))
      case PLimit(id, input, limit, schema) =>
        (match EncodePlan(input, depth + 1)
         case None => None
         case Some(i) => Some(WireLimit(id, Some(i), limit, Some(EncodeSchema(schema)))))
      case PHashJoin(id, left, right, kind, leftOn, rightOn, schema) =>
        (match (EncodePlan(left, depth + 1), EncodePlan(right, depth + 1))
         case (Some(l), Some(r)) =>
           Some(WireHashJoin(id, Some(l), Some(r), JoinCode(kind), EncodeExprs(leftOn), EncodeExprs(rightOn), Some(EncodeSchema(schema))))
         case _ => None)
  }

  function ProjectedFields(schema: FullSchema, projection: Option<seq<nat>>): Option<seq<FullField>> {
    if projection.None? then Some(schema.fields)
    else if forall i | 0 <= i < |projection.value| :: projection.value[i] < |schema.fields| then
      Some(seq(|projection.value|, i requires 0 <= i < |projection.value| && projection.value[i] < |schema.fields| =>
                 schema.fields[projection.value[i]]))
    else None
  }

  predicate FieldMatches(a: FullField, b: FullField) {
    Unqualified(a.name) == Unqualified(b.name) && a.ty == b.ty && a.nullable == b.nullable && a.metadata == b.metadata
  }

  /** `validate_scan_schema`: the worker's table still provides the fields of the fragment. */
  predicate ScanMatches(provider: Provider, projection: Option<seq<nat>>, schema: FullSchema) {
    match ProjectedFields(provider.schema, projection)
    case None => false
    case Some(fields) =>
      |fields| == |schema.fields| && forall i | 0 <= i < |fields| :: FieldMatches(schema.fields[i], fields[i])
  }

  /** Catalog names ignore ASCII case. */
  function TableOf(catalog: Catalog, name: string): Option<Provider> {
    var key := Pruning.Lower(name);
    if key in catalog then Some(catalog[key]) else None
  }

  /** What `decode_plan` demands of a node, given its decoded inputs. */
  predicate NodeOk(show: Expr -> string, catalog: Catalog, p: PhysicalPlan) {
    match p
    case PScan(_, table, _, projection, _, schema) =>
      !Blank(table) && TableOf(catalog, table).Some? && ScanMatches(TableOf(catalog, table).value, projection, schema)
    case PProjection(_, input, exprs, schema) =>
      ExprFields(show, Typing(input.schema), exprs) == Some(schema.fields) && schema.metadata == map[]
    case PFilter(_, input, condition, schema) =>
      TypeIn(Typing(input.schema), condition) == Ok(BooleanType) && schema == input.schema
    case PHashAggregate(_, input, groups, aggregates, schema) =>
      ExprFields(show, Typing(input.schema), groups + aggregates) == Some(schema.fields) && schema.metadata == map[]
    case PSort(_, input, _, schema) => schema == input.schema
    case PTopK(_, input, _, _, schema) => schema == input.schema
    case PLimit(_, input, _, schema) => schema == input.schema
    case PHashJoin(_, left, right, kind, leftOn, rightOn, schema) =>
      && KeyTypesMatch(Typing(left.schema), Typing(right.schema), leftOn, rightOn)
      && schema == FullSchema(JoinedFields(left.schema.fields, right.schema.fields, kind), map[])
  }

  function Checked(show: Expr -> string, catalog: Catalog, p: PhysicalPlan): Option<PhysicalPlan> {
    if NodeOk(show, catalog, p) then Some(p) else None
  }

  /** `decode_plan`. */
  function DecodePlan(show: Expr -> string, catalog: Catalog, w: WirePlan, depth: nat): Option<PhysicalPlan>
    decreases w
  {
    if depth >= MAX_PLAN_DEPTH then None
    else
      match w
      case NoPlan => None
      case WireScan(id, table, has, indices, filters, schema) =>
        (match (TableOf(catalog, table), DecodeProjection(has, indices), DecodeExprs(filters), DecodeSchema(schema))
         case (Some(provider), Some(projection), Some(f), Some(s)) =>
           Checked(show, catalog, PScan(id, table, provider, projection, f, s))
         case _ => None)
      case WireProjection(id, input, exprs, schema) =>
        if input.None? then None
        else
          (match (DecodePlan(show, catalog, input.value, depth + 1), DecodeExprs(exprs), DecodeSchema(schema))
           case (Some(i), Some(es), Some(s)) => Checked(show, catalog, PProjection(id, i, es, s))
           case _ => None)
      case WireFilter(id, input, condition, schema) =>
        if input.None? || condition.None? then None
        else
          (match (DecodePlan(show, catalog, input.value, depth + 1), DecodeExpr(condition.value), DecodeSchema(schema))
           case (Some(i), Some(e), Some(s)) => Checked(show, catalog, PFilter(id, i, e, s))
           case _ => None)
      case WireHashAggregate(id, input, groups, aggregates, schema) =>
        if input.None? then None
        else
          (match (DecodePlan(show, catalog, input.value, depth + 1), DecodeExprs(groups), DecodeExprs(aggregates), DecodeSchema(schema))
           case (Some(i), Some(g), Some(a), Some(s)) => Checked(show, catalog, PHashAggregate(id, i, g, a, s))
           case _ => None)
      case WireSorted(id, input, keys, schema) =>
        if input.None? then None
        else
          (match DecodePlan(show, catalog, input.value, depth + 1)
           case None => None
           case Some(i) =>
             match (DecodeSorts(keys, Typing(i.schema)), DecodeSchema(schema))
             case (Some(ks), Some(s)) => Checked(show, catalog, PSort(id, i, ks, s))
             case _ => None)
      case WireTopK(id, input, keys, limit, schema) =>
        if input.None? then None
        else
          (match DecodePlan(show, catalog, input.value, depth + 1)
           case None => None
           case Some(i) =>
             match (DecodeSorts(keys, Typing(i.schema)), DecodeSchema(schema))
             case (Some(ks), Some(s)) => Checked(show, catalog, PTopK(id, i, ks, limit, s))
             case _ => None)
      case WireLimit(id, input, limit, schema) =>
        if input.None? then None
        else
          (match (DecodePlan(show, catalog, input.value, depth + 1), DecodeSchema(schema))
           case (Some(i), Some(s)) => Checked(show, catalog, PLimit(id, i, limit, s))
           case _ => None)
      case WireHashJoin(id, left, right, joinType, leftOn, rightOn, schema) =>
        if left.None? || right.None? then None
        else
          (match (DecodePlan(show, catalog, left.value, depth + 1), DecodePlan(show, catalog, right.value, depth + 1), JoinOf(joinType))
           case (Some(l), Some(r), Some(kind)) =>
             (match (DecodeExprs(leftOn), DecodeExprs(rightOn), DecodeSchema(schema))
              case (Some(lo), Some(ro), Some(s)) => Checked(show, catalog, PHashJoin(id, l, r, kind, lo, ro, s))
              case _ => None)
           case _ => None)
  }

  // ----- the round trip ----------------------------------------------------------------------------

  /** The plan with its scans bound to the tables of another catalog. */
  function Rebound(catalog: Catalog, p: PhysicalPlan): (r: PhysicalPlan)
    ensures r.schema == p.schema
  {
    match p
    case PScan(id, table, provider, projection, filters, schema) =>
      PScan(id, table, if TableOf(catalog, table).Some? then TableOf(catalog, table).value else provider, projection, filters, schema)
    case PProjection(id, input, exprs, schema) => PProjection(id, Rebound(catalog, input), exprs, schema)
    case PFilter(id, input, condition, schema) => PFilter(id, Rebound(catalog, input), condition, schema)
    case PHashAggregate(id, input, groups, aggregates, schema) =>
      PHashAggregate(id, Rebound(catalog, input), groups, aggregates, schema)
    case PSort(id, input, keys, schema) => PSort(id, Rebound(catalog, input), keys, schema)
    case PTopK(id, input, keys, limit, schema) => PTopK(id, Rebound(catalog, input), keys, limit, schema)
    case PLimit(id, input, limit, schema) => PLimit(id, Rebound(catalog, input), limit, schema)
    case PHashJoin(id, left, right, kind, leftOn, rightOn, schema) =>
      PHashJoin(id, Rebound(catalog, left), Rebound(catalog, right), kind, leftOn, rightOn, schema)
  }

  /** A plan the codec carries: names and sort lists are not empty, every schema is the one its
      operator computes, and the worker's catalog still has the scanned fields. */
  predicate Portable(show: Expr -> string, catalog: Catalog, p: PhysicalPlan) {
    && NodeOk(show, catalog, p)
    && match p
       case PScan(_, _, _, _, filters, _) => AllNamed(filters)
       case PProjection(_, input, exprs, _) => Portable(show, catalog, input) && AllNamed(exprs)
       case PFilter(_, input, condition, _) => Portable(show, catalog, input) && Named(condition)
       case PHashAggregate(_, input, groups, aggregates, _) =>
         Portable(show, catalog, input) && AllNamed(groups) && AllNamed(aggregates)
       case PSort(_, input, keys, _) => Portable(show, catalog, input) && SortsWellFormed(keys, Typing(input.schema))
       case PTopK(_, input, keys, _, _) => Portable(show, catalog, input) && SortsWellFormed(keys, Typing(input.schema))
       case PLimit(_, input, _, _) => Portable(show, catalog, input)
       case PHashJoin(_, left, right, _, leftOn, rightOn, _) =>
         Portable(show, catalog, left) && Portable(show, catalog, right) && AllNamed(leftOn) && AllNamed(rightOn)
  }

  lemma ProjectionRoundTrip(projection: Option<seq<nat>>)
    requires SmallIndices(projection)
    ensures DecodeProjection(projection.Some?, EncodeIndices(projection)) == Some(projection)
  {
    if projection.Some? {
      var back := DecodeProjection(true, EncodeIndices(projection)).value.value;
      assert forall i | 0 <= i < |back| :: back[i] == projection.value[i];
      assert back == projection.value;
    }
  }

  lemma RebindingKeepsNodes(show: Expr -> string, catalog: Catalog, p: PhysicalPlan)
    ensures NodeOk(show, catalog, Rebound(catalog, p)) == NodeOk(show, catalog, p)
  {
    hide ScanMatches; hide TableOf; hide ExprFields; hide TypeIn; hide KeyTypesMatch; hide JoinedFields; hide Blank; hide Typing;
  }

  lemma ScanRoundTrip(show: Expr -> string, catalog: Catalog, p: PhysicalPlan, depth: nat)
    requires p.PScan? && EncodePlan(p, depth).Some?
    ensures DecodePlan(show, catalog, EncodePlan(p, depth).value, depth) == if Portable(show, catalog, p) then Some(Rebound(catalog, p)) else None
  {
    hide DecodeExprs; hide EncodeExprs; hide DecodeSchema; hide EncodeSchema; hide DecodeProjection; hide EncodeIndices; hide ScanMatches;
    hide TableOf; hide Blank; hide AllNamed;
    ExprsRoundTrip(p.filters);
    SchemaRoundTrip(p.schema);
    ProjectionRoundTrip(p.projection);
  }

  lemma JoinRoundTrip(show: Expr -> string, catalog: Catalog, p: PhysicalPlan, depth: nat, l: WirePlan, r: WirePlan)
    requires p.PHashJoin? && depth < MAX_PLAN_DEPTH
    requires DecodePlan(show, catalog, l, depth + 1) == if Portable(show, catalog, p.left) then Some(Rebound(catalog, p.left)) else None
    requires DecodePlan(show, catalog, r, depth + 1) == if Portable(show, catalog, p.right) then Some(Rebound(catalog, p.right)) else None
    ensures DecodePlan(show, catalog, WireHashJoin(p.id, Some(l), Some(r), JoinCode(p.kind), EncodeExprs(p.leftOn), EncodeExprs(p.rightOn),
                                                   Some(EncodeSchema(p.schema))), depth)
      == if Portable(show, catalog, p) then Some(Rebound(catalog, p)) else None
  {
    hide DecodeExprs; hide EncodeExprs; hide DecodeSchema; hide EncodeSchema; hide AllNamed; hide JoinOf; hide JoinCode; hide NodeOk;
    RebindingKeepsNodes(show, catalog, p);
    ExprsRoundTrip(p.leftOn);
    ExprsRoundTrip(p.rightOn);
    SchemaRoundTrip(p.schema);
    CodesRoundTrip(Eq, NullType, Agg.Count, p.kind);
  }

  lemma ComputingRoundTrip(show: Expr -> string, catalog: Catalog, p: PhysicalPlan, depth: nat, i: WirePlan)
    requires (p.PProjection? || p.PFilter? || p.PHashAggregate?) && depth < MAX_PLAN_DEPTH && EncodePlan(p.input, depth + 1) == Some(i)
    requires DecodePlan(show, catalog, i, depth + 1) == if Portable(show, catalog, p.input) then Some(Rebound(catalog, p.input)) else None
    ensures EncodePlan(p, depth).Some?
    ensures DecodePlan(show, catalog, EncodePlan(p, depth).value, depth) == if Portable(show, catalog, p) then Some(Rebound(catalog, p)) else None
  {
    hide DecodeExprs; hide EncodeExprs; hide DecodeExpr; hide EncodeExpr; hide DecodeSchema; hide EncodeSchema; hide AllNamed; hide Named;
    hide DecodeSorts; hide EncodeSorts; hide SortsWellFormed; hide NodeOk;
    RebindingKeepsNodes(show, catalog, p);
    SchemaRoundTrip(p.schema);
    match p {
      case PProjection(_, _, exprs, _) => ExprsRoundTrip(exprs);
      case PFilter(_, _, condition, _) => ExprRoundTrip(condition);
      case PHashAggregate(_, _, groups, aggregates, _) =>
        ExprsRoundTrip(groups);
        ExprsRoundTrip(aggregates);
    }
  }

  lemma OrderingRoundTrip(show: Expr -> string, catalog: Catalog, p: PhysicalPlan, depth: nat, i: WirePlan)
    requires (p.PSort? || p.PTopK? || p.PLimit?) && depth < MAX_PLAN_DEPTH && EncodePlan(p.input, depth + 1) == Some(i)
    requires DecodePlan(show, catalog, i, depth + 1) == if Portable(show, catalog, p.input) then Some(Rebound(catalog, p.input)) else None
    ensures EncodePlan(p, depth).Some?
    ensures DecodePlan(show, catalog, EncodePlan(p, depth).value, depth) == if Portable(show, catalog, p) then Some(Rebound(catalog, p)) else None
  {
    hide DecodeExprs; hide EncodeExprs; hide DecodeExpr; hide EncodeExpr; hide DecodeSchema; hide EncodeSchema; hide AllNamed; hide Named;
    hide DecodeSorts; hide EncodeSorts; hide SortsWellFormed; hide NodeOk;
    RebindingKeepsNodes(show, catalog, p);
    SchemaRoundTrip(p.schema);
    if !p.PLimit? { SortsRoundTrip(p.keys, Typing(p.input.schema)); }
  }

  /** The round trip: what was encoded is decoded to the same plan, bound to the worker's tables,
      exactly when the plan is portable; every other plan is refused. */
  lemma {:induction false} PlanRoundTrip(show: Expr -> string, catalog: Catalog, p: PhysicalPlan, depth: nat)
    requires EncodePlan(p, depth).Some?
    ensures DecodePlan(show, catalog, EncodePlan(p, depth).value, depth) == if Portable(show, catalog, p) then Some(Rebound(catalog, p)) else None
    decreases p
  {
    hide DecodePlan; hide Portable; hide Rebound; hide EncodeExprs; hide EncodeSchema; hide EncodeSorts; hide EncodeExpr;
    if p.PScan? {
      ScanRoundTrip(show, catalog, p, depth);
    } else if p.PHashJoin? {
      PlanRoundTrip(show, catalog, p.left, depth + 1);
      PlanRoundTrip(show, catalog, p.right, depth + 1);
      JoinRoundTrip(show, catalog, p, depth, EncodePlan(p.left, depth + 1).value, EncodePlan(p.right, depth + 1).value);
    } else {
      PlanRoundTrip(show, catalog, p.input, depth + 1);
      if p.PProjection? || p.PFilter? || p.PHashAggregate? {
        ComputingRoundTrip(show, catalog, p, depth, EncodePlan(p.input, depth + 1).value);
      } else {
        OrderingRoundTrip(show, catalog, p, depth, EncodePlan(p.input, depth + 1).value);
      }
    }
  }

  /** How many operators deep a plan is. */
  function Height(p: PhysicalPlan): nat {
    match p
    case PScan(_, _, _, _, _, _) => 1
    case PHashJoin(_, left, right, _, _, _, _) => 1 + Max(Height(left), Height(right))
    case PProjection(_, input, _, _) => 1 + Height(input)
    case PFilter(_, input, _, _) => 1 + Height(input)
    case PHashAggregate(_, input, _, _, _) => 1 + Height(input)
    case PSort(_, input, _, _) => 1 + Height(input)
    case PTopK(_, input, _, _, _) => 1 + Height(input)
    case PLimit(_, input, _, _) => 1 + Height(input)
  }

  predicate SmallProjections(p: PhysicalPlan) {
    match p
    case PScan(_, _, _, projection, _, _) => SmallIndices(projection)
    case PHashJoin(_, left, right, _, _, _, _) => SmallProjections(left) && SmallProjections(right)
    case PProjection(_, input, _, _) => SmallProjections(input)
    case PFilter(_, input, _, _) => SmallProjections(input)
    case PHashAggregate(_, input, _, _, _) => SmallProjections(input)
    case PSort(_, input, _, _) => SmallProjections(input)
    case PTopK(_, input, _, _, _) => SmallProjections(input)
    case PLimit(_, input, _, _) => SmallProjections(input)
  }

  /** Encoding fails only on plans that are too deep or whose projections do not fit 32 bits. */
  lemma {:induction false} EncodesWithinTheDepthLimit(p: PhysicalPlan, depth: nat)
    ensures EncodePlan(p, depth).Some? <==> depth + Height(p) <= MAX_PLAN_DEPTH && SmallProjections(p)
    decreases p
  {
    hide EncodeExprs; hide EncodeSchema; hide EncodeSorts; hide EncodeExpr; hide SmallIndices;
    match p {
      case PScan(_, _, _, _, _, _) =>
      case PHashJoin(_, left, right, _, _, _, _) =>
        EncodesWithinTheDepthLimit(left, depth + 1);
        EncodesWithinTheDepthLimit(right, depth + 1);
      case _ => EncodesWithinTheDepthLimit(p.input, depth + 1);
    }
  }

  /** A wire tree that a worker can decode is one that the coordinator accepts. */
  lemma {:induction false} DecodableIsValid(show: Expr -> string, catalog: Catalog, w: WirePlan, depth: nat)
    requires DecodePlan(show, catalog, w, depth).Some?
    ensures PlanOk(w, depth)
    decreases w
  {
    hide DecodeExprs; hide DecodeExpr; hide DecodeSchema; hide DecodeSorts; hide SchemaOk; hide ExprsOk; hide ExprOk; hide SortsOk; hide TypeIn;
    hide ScanMatches; hide ExprFields; hide JoinedFields; hide Blank; hide TableOf; hide Typing;
    DecodesSchemas(w.schema);
    match w {
      case WireScan(_, _, _, _, filters, _) => DecodesExprLists(filters);
      case WireProjection(_, input, exprs, _) =>
        DecodableIsValid(show, catalog, input.value, depth + 1);
        DecodesExprLists(exprs);
      case WireFilter(_, input, condition, _) =>
        DecodableIsValid(show, catalog, input.value, depth + 1);
        DecodesExprs(condition.value);
      case WireHashAggregate(_, input, groups, aggregates, _) =>
        DecodableIsValid(show, catalog, input.value, depth + 1);
        DecodesExprLists(groups);
        DecodesExprLists(aggregates);
      case WireSorted(_, input, keys, _) =>
        DecodableIsValid(show, catalog, input.value, depth + 1);
        DecodesSorts(keys, Typing(DecodePlan(show, catalog, input.value, depth + 1).value.schema));
      case WireTopK(_, input, keys, _, _) =>
        DecodableIsValid(show, catalog, input.value, depth + 1);
        DecodesSorts(keys, Typing(DecodePlan(show, catalog, input.value, depth + 1).value.schema));
      case WireLimit(_, input, _, _) => DecodableIsValid(show, catalog, input.value, depth + 1);
      case WireHashJoin(_, left, right, joinType, leftOn, rightOn, _) =>
        DecodableIsValid(show, catalog, left.value, depth + 1);
        DecodableIsValid(show, catalog, right.value, depth + 1);
        DecodesExprLists(leftOn);
        DecodesExprLists(rightOn);
        KnownCodes(joinType);
    }
  }

  /** Together: a portable plan within the depth limit makes a fragment the coordinator accepts and
      the worker decodes to the same plan. */
  lemma PortablePlansTravel(show: Expr -> string, catalog: Catalog, p: PhysicalPlan)
    requires Portable(show, catalog, p) && Height(p) <= MAX_PLAN_DEPTH && SmallProjections(p)
    ensures EncodePlan(p, 0).Some? && ValidFragment(EncodePlan(p, 0).value)
    ensures DecodePlan(show, catalog, EncodePlan(p, 0).value, 0) == Some(Rebound(catalog, p))
  {
    hide EncodePlan; hide DecodePlan; hide Portable; hide PlanOk; hide Rebound;
    EncodesWithinTheDepthLimit(p, 0);
    PlanRoundTrip(show, catalog, p, 0);
    DecodableIsValid(show, catalog, EncodePlan(p, 0).value, 0);
  }
}
