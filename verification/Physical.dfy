/** Physical plans (src/runtime/execution.rs) as they are sent to workers. */
module Physical {
  import opened Basics
  import opened Values
  import opened Expr
  import opened Plans
  import J = Join

  type Metadata = map<string, string>

  datatype FullField = FullField(name: string, ty: DataType, nullable: bool, metadata: Metadata)

  datatype FullSchema = FullSchema(fields: seq<FullField>, metadata: Metadata)

  /** Names and types, which is what expressions are planned against. */
  function Typing(s: FullSchema): Schema {
    seq(|s.fields|, i requires 0 <= i < |s.fields| => Field(s.fields[i].name, s.fields[i].ty))
  }

  /** A table in a catalog. */
  datatype Provider = Provider(tag: nat, schema: FullSchema, partitions: nat)

  /** Tables by name. */
  type Catalog = map<string, Provider>

  datatype PhysicalPlan =
    | PScan(id: U32, table: string, provider: Provider, projection: Option<seq<nat>>, filters: seq<Expr>, schema: FullSchema)
    | PProjection(id: U32, input: PhysicalPlan, exprs: seq<Expr>, schema: FullSchema)
    | PFilter(id: U32, input: PhysicalPlan, condition: Expr, schema: FullSchema)
    | PHashAggregate(id: U32, input: PhysicalPlan, groups: seq<Expr>, aggregates: seq<Expr>, schema: FullSchema)
    | PSort(id: U32, input: PhysicalPlan, keys: seq<SortKey>, schema: FullSchema)
    | PTopK(id: U32, input: PhysicalPlan, keys: seq<SortKey>, limit: U64, schema: FullSchema)
    | PLimit(id: U32, input: PhysicalPlan, limit: U64, schema: FullSchema)
    | PHashJoin(id: U32, left: PhysicalPlan, right: PhysicalPlan, kind: J.JoinType, leftOn: seq<Expr>, rightOn: seq<Expr>, schema: FullSchema)

  // ----- the schemas operators compute -----------------------------------------------------------

  /** `schema_for_exprs`: nullable columns without metadata. */
  function ExprFields(show: Expr -> string, input: Schema, exprs: seq<Expr>): Option<seq<FullField>> {
    match FieldsOf(show, input, exprs)
    case Err(_) => None
    case Ok(fields) =>
      Some(seq(|fields|, i requires 0 <= i < |fields| => FullField(fields[i].name, fields[i].ty, true, map[])))
  }

  /** One more right field of a join: nullable in a left join, renamed if its name is taken. */
  function JoinedField(fields: seq<FullField>, f: FullField, kind: J.JoinType): FullField {
    var g := if kind == J.Left then f.(nullable := true) else f;
    if exists i :: 0 <= i < |fields| && fields[i].name == g.name then g.(name := "right." + g.name) else g
  }

  function JoinedFields(left: seq<FullField>, right: seq<FullField>, kind: J.JoinType): (r: seq<FullField>)
    ensures left <= r && |r| == |left| + |right|
    ensures forall i | 0 <= i < |right| ::
      r[|left| + i].ty == right[i].ty && r[|left| + i].metadata == right[i].metadata
      && r[|left| + i].nullable == (right[i].nullable || kind == J.Left)
      && (r[|left| + i].name == right[i].name || r[|left| + i].name == "right." + right[i].name)
  {
    if right == [] then left
    else
      var n := |right| - 1;
      var before := JoinedFields(left, right[..n], kind);
      before + [JoinedField(before, right[n], kind)]
  }

  lemma OneMoreField(left: seq<FullField>, right: seq<FullField>, kind: J.JoinType, i: nat)
    requires i < |right|
    ensures var before := JoinedFields(left, right[..i], kind);
      JoinedFields(left, right[..i + 1], kind) == before + [JoinedField(before, right[i], kind)]
  {
    assert right[..i + 1][..i] == right[..i];
  }

  lemma NoMoreFields(left: seq<FullField>, right: seq<FullField>, kind: J.JoinType)
    ensures JoinedFields(left, right[..0], kind) == left
  {
  }

  /** `join_schema`. */
  method JoinSchema(left: FullSchema, right: FullSchema, kind: J.JoinType) returns (schema: FullSchema)
    ensures schema == FullSchema(JoinedFields(left.fields, right.fields, kind), map[])
  {
    hide JoinedFields;
    var fields := left.fields;
    NoMoreFields(left.fields, right.fields, kind);
    var i := 0;
    while i < |right.fields|
      invariant 0 <= i <= |right.fields|
      invariant fields == JoinedFields(left.fields, right.fields[..i], kind)
    {
      var output := right.fields[i];
      if kind == J.Left {
        output := output.(nullable := true);
      }
      if exists j :: 0 <= j < |fields| && fields[j].name == output.name {
        output := output.(name := "right." + output.name);
      }
      OneMoreField(left.fields, right.fields, kind, i);
      fields := fields + [output];
      i := i + 1;
    }
    assert right.fields[..i] == right.fields;
    schema := FullSchema(fields, map[]);
  }
}
