/** Logical plans (src/query/logical.rs) and what running one yields. Row order within ties of a
    sort, and the order in which groups come out, belong to library code and are functions of the
    database here. */
module Plans {
  import opened Basics
  import opened Values
  import opened Expr
  import opened ExprTyping
  import Agg = Aggregates
  import G = GroupBy
  import J = Join
  import Pruning

  datatype SortKey = SortKey(expr: Expr, ascending: bool, nullsFirst: bool)

  datatype Plan =
    | Scan(table: string, projection: Option<seq<string>>, filters: seq<Expr>, schema: Schema)
    | Projection(input: Plan, exprs: seq<Expr>, schema: Schema)
    | Filter(input: Plan, condition: Expr, schema: Schema)
    | Aggregation(input: Plan, groups: seq<Expr>, aggregates: seq<Expr>, schema: Schema)
    | Sort(input: Plan, keys: seq<SortKey>, schema: Schema)
    | Limit(input: Plan, limit: nat, schema: Schema)
    | Join(left: Plan, right: Plan, kind: J.JoinType, leftOn: seq<Expr>, rightOn: seq<Expr>, schema: Schema)

  // ----- constructors --------------------------------------------------------------------------

  /** The output fields of a list of expressions. */
  function FieldsOf(show: Expr -> string, schema: Schema, exprs: seq<Expr>): (r: Result<Schema, PlanError>)
    ensures r.Ok? <==> forall i | 0 <= i < |exprs| :: TypeIn(schema, exprs[i]).Ok?
    ensures r.Ok? ==> |r.value| == |exprs|
    ensures r.Ok? ==> forall i | 0 <= i < |exprs| ::
      r.value[i].name == Name(show, exprs[i]) && TypeIn(schema, exprs[i]) == Ok(r.value[i].ty)
  {
    if exprs == [] then Ok([])
    else
      var last := exprs[|exprs| - 1];
      match FieldsOf(show, schema, exprs[..|exprs| - 1])
      case Err(f) => Err(f)
      case Ok(fields) =>
        match TypeIn(schema, last)
        case Err(f) => Err(f)
        case Ok(t) => Ok(fields + [Field(Name(show, last), t)])
  }

  /** A wildcard stands for all columns. */
  function Expand(exprs: seq<Expr>, schema: Schema): seq<Expr> {
    if exprs == [] then []
    else
      var last := exprs[|exprs| - 1];
      Expand(exprs[..|exprs| - 1], schema)
        + (if last.Wildcard? then seq(|schema|, i requires 0 <= i < |schema| => Column(schema[i].name)) else [last])
  }

  function Project(show: Expr -> string, input: Plan, exprs: seq<Expr>): Result<Plan, PlanError> {
    var expanded := Expand(exprs, input.schema);
    match FieldsOf(show, input.schema, expanded)
    case Err(f) => Err(f)
    case Ok(fields) => Ok(Projection(input, expanded, fields))
  }

  function MakeFilter(input: Plan, condition: Expr): Result<Plan, PlanError> {
    match TypeIn(input.schema, condition)
    case Err(f) => Err(f)
    case Ok(t) => if t.BooleanType? then Ok(Filter(input, condition, input.schema)) else Err(IllTyped)
  }

  function MakeAggregation(show: Expr -> string, input: Plan, groups: seq<Expr>, aggregates: seq<Expr>): Result<Plan, PlanError> {
    match FieldsOf(show, input.schema, groups + aggregates)
    case Err(f) => Err(f)
    case Ok(fields) => Ok(Aggregation(input, groups, aggregates, fields))
  }

  function MakeSort(input: Plan, keys: seq<SortKey>): Result<Plan, PlanError> {
    if forall i | 0 <= i < |keys| :: TypeIn(input.schema, keys[i].expr).Ok? then Ok(Sort(input, keys, input.schema))
    else Err(IllTyped)
  }

  function MakeLimit(input: Plan, limit: nat): Plan {
    Limit(input, limit, input.schema)
  }

  /** The fields of a join: a right field whose name is taken gets the prefix `right.`. */
  function JoinFields(fields: Schema, right: Schema): Schema
    decreases |right|
  {
    if right == [] then fields
    else
      var f := right[0];
      var taken := exists i :: 0 <= i < |fields| && fields[i].name == f.name;
      JoinFields(fields + [if taken then Field("right." + f.name, f.ty) else f], right[1..])
  }

  predicate KeyTypesMatch(left: Schema, right: Schema, leftOn: seq<Expr>, rightOn: seq<Expr>) {
    && |leftOn| == |rightOn| && leftOn != []
    && forall i | 0 <= i < |leftOn| :: TypeIn(left, leftOn[i]).Ok? && TypeIn(left, leftOn[i]) == TypeIn(right, rightOn[i])
  }

  function MakeJoin(left: Plan, right: Plan, kind: J.JoinType, leftOn: seq<Expr>, rightOn: seq<Expr>): Result<Plan, PlanError> {
    if KeyTypesMatch(left.schema, right.schema, leftOn, rightOn) then
      Ok(Join(left, right, kind, leftOn, rightOn, JoinFields(left.schema, right.schema)))
    else Err(IllTyped)
  }

  // ----- the database --------------------------------------------------------------------------

  /** A partition of a table: its rows, whether it hands on a batch of them, and for a row group of
      a file what the file records about it. */
  datatype Chunk = Chunk(rows: seq<Row>, sent: bool, group: Option<Pruning.RowGroup>)

  /** A table, with its partitions in the order in which they arrive. A file hands on the columns it
      is asked for in its own order. */
  datatype Stored = Stored(schema: Schema, nullable: seq<bool>, chunks: seq<Chunk>, fileOrder: bool)

  datatype Database = Database(
    tables: map<string, Stored>,
    order: (seq<(bool, bool)>, seq<Row>) -> seq<nat>,         // positions in sorted order
    top: (seq<(bool, bool)>, seq<Row>, nat) -> seq<nat>,      // the first positions, selected without sorting all
    sorts: DataType -> bool,                                  // types that can be sorted by
    listing: set<seq<Scalar>> -> seq<seq<Scalar>>)            // groups in output order

  function Described(t: Stored): (r: Pruning.TableSchema)
    ensures |r| == |t.schema|
  {
    seq(|t.schema|, i requires 0 <= i < |t.schema| =>
          Pruning.TableField(t.schema[i].name, t.schema[i].ty, i < |t.nullable| ==> t.nullable[i]))
  }

  predicate ChunkOk(k: Kernels, t: Stored, c: Chunk) {
    && (c.rows != [] ==> c.sent)
    && (forall r | 0 <= r < |c.rows| :: RowFits(k, t.schema, c.rows[r]))
    && (c.group.Some? ==> Pruning.TrueStats(k, Described(t), c.group.value, c.rows))
  }

  predicate StoredOk(k: Kernels, t: Stored) {
    Pruning.WellFormed(Described(t)) && forall c | 0 <= c < |t.chunks| :: ChunkOk(k, t, t.chunks[c])
  }

  ghost predicate LawfulDb(k: Kernels, db: Database) {
    && (forall keys, i | 0 <= i < |db.listing(keys)| :: db.listing(keys)[i] in keys)
    && (forall ty: DataType | !ty.NullType? :: db.sorts(ty))
    && (forall t | t in db.tables :: StoredOk(k, db.tables[t]))
  }

  /** The columns a list of names stands for. */
  function ResolveAll(schema: Schema, names: seq<string>): (r: Option<seq<nat>>)
    ensures r.Some? ==> |r.value| == |names|
    ensures r.Some? ==> forall i | 0 <= i < |names| :: Resolve(schema, names[i]) == Ok(r.value[i])
  {
    if names == [] then Some([])
    else
      match (ResolveAll(schema, names[..|names| - 1]), Resolve(schema, names[|names| - 1]))
      case (Some(before), Ok(i)) => Some(before + [i])
      case _ => None
  }

  /** The columns below `n` that are asked for, in the order of the file. */
  function Ascending(columns: seq<nat>, n: nat): (r: seq<nat>)
    ensures forall i | 0 <= i < |r| :: r[i] < n && r[i] in columns
    ensures forall i, j | 0 <= i < j < |r| :: r[i] < r[j]
  {
    if n == 0 then [] else Ascending(columns, n - 1) + (if n - 1 in columns then [n - 1] else [])
  }

  /** The table columns a scan reads, in the order of its batches. */
  function ScanColumns(db: Database, table: string, projection: Option<seq<string>>): (r: Option<seq<nat>>)
    ensures r.Some? ==> table in db.tables && forall i | 0 <= i < |r.value| :: r.value[i] < |db.tables[table].schema|
  {
    if table !in db.tables then None
    else
      var stored := db.tables[table].schema;
      match projection
      case None => Some(seq(|stored|, i => i))
      case Some(names) =>
        match ResolveAll(stored, names)
        case None => None
        case Some(columns) => Some(if db.tables[table].fileOrder then Ascending(columns, |stored|) else columns)
  }

  function TakeFields(schema: Schema, columns: seq<nat>): Schema
    requires forall i | 0 <= i < |columns| :: columns[i] < |schema|
  {
    seq(|columns|, i requires 0 <= i < |columns| => schema[columns[i]])
  }

  function TakeRow(columns: seq<nat>, row: Row): Row {
    seq(|columns|, i requires 0 <= i < |columns| => if columns[i] < |row| then row[columns[i]] else Null)
  }

  function TakeRows(columns: seq<nat>, rows: seq<Row>): seq<Row> {
    seq(|rows|, r requires 0 <= r < |rows| => TakeRow(columns, rows[r]))
  }

  /** The names and types of the batches a plan produces. A scan hands on the table's own names,
      and filters and limits leave them alone. */
  function Out(db: Database, p: Plan): Schema {
    match p
    case Scan(table, projection, _, _) =>
      (match ScanColumns(db, table, projection)
       case None => []
       case Some(columns) => TakeFields(db.tables[table].schema, columns))
    case Filter(input, _, _) => Out(db, input)
    case Limit(input, _, _) => Out(db, input)
    case _ => p.schema
  }

  // ----- running -------------------------------------------------------------------------------

  function EvalAll(k: Kernels, names: Schema, row: Row, exprs: seq<Expr>): (r: Option<Row>)
    ensures r.Some? ==> |r.value| == |exprs|
  {
    if exprs == [] then Some([])
    else
      match (EvalAll(k, names, row, exprs[..|exprs| - 1]), Eval(k, names, row, exprs[|exprs| - 1]))
      case (Some(before), Ok(x)) => Some(before + [x.value])
      case _ => None
  }

  function MapRows(k: Kernels, names: Schema, exprs: seq<Expr>, rows: seq<Row>): (r: Option<seq<Row>>)
    ensures r.Some? ==> |r.value| == |rows|
  {
    if rows == [] then Some([])
    else
      match (MapRows(k, names, exprs, rows[..|rows| - 1]), EvalAll(k, names, rows[|rows| - 1], exprs))
      case (Some(before), Some(values)) => Some(before + [values])
      case _ => None
  }

  predicate Runs(k: Kernels, names: Schema, exprs: seq<Expr>) {
    forall i | 0 <= i < |exprs| :: RunType(k, names, exprs[i]).Some?
  }

  /** The columns an expression list produces have the declared types. */
  predicate RunAs(k: Kernels, names: Schema, exprs: seq<Expr>, fields: Schema) {
    && |exprs| <= |fields|
    && forall i | 0 <= i < |exprs| :: RunType(k, names, exprs[i]) == Some(fields[i].ty)
  }

  predicate AllBoolean(k: Kernels, names: Schema, filters: seq<Expr>) {
    forall f | 0 <= f < |filters| :: RunType(k, names, filters[f]) == Some(BooleanType)
  }

  /** The filters of a scan rule the partition out. */
  predicate Skipped(t: Stored, c: Chunk, filters: seq<Expr>) {
    c.group.Some? && !Pruning.GroupMayMatch(Described(t), c.group.value, filters)
  }

  predicate Delivers(t: Stored, filters: seq<Expr>) {
    exists c :: 0 <= c < |t.chunks| && t.chunks[c].sent && !Skipped(t, t.chunks[c], filters)
  }

  /** What a scan reads from the first `n` partitions. */
  function Scanned(k: Kernels, names: Schema, columns: seq<nat>, t: Stored, filters: seq<Expr>, n: nat): Option<seq<Row>>
    requires n <= |t.chunks|
  {
    if n == 0 then Some([])
    else
      var c := t.chunks[n - 1];
      match (Scanned(k, names, columns, t, filters, n - 1),
             if Skipped(t, c, filters) then Some([]) else Pruning.FilterAll(k, names, filters, TakeRows(columns, c.rows)))
      case (Some(before), Some(kept)) => Some(before + kept)
      case _ => None
  }

  function Dedup(vs: seq<Scalar>): seq<Scalar> {
    if vs == [] then []
    else
      var before, last := Dedup(vs[..|vs| - 1]), vs[|vs| - 1];
      if last in before then before else before + [last]
  }

  datatype Spec = Spec(kind: Agg.Function, arg: Expr, distinct: bool)

  function SpecOf(e: Expr): Option<Spec> {
    var x := Unalias(e);
    if x.Aggregate? then Some(Spec(x.kind, if x.expr.Wildcard? then Literal(Boolean(true)) else x.expr, x.distinct)) else None
  }

  function Specs(aggregates: seq<Expr>): (r: Option<seq<Spec>>)
    ensures r.Some? ==> |r.value| == |aggregates|
    ensures r.Some? <==> forall i | 0 <= i < |aggregates| :: SpecOf(aggregates[i]).Some?
    ensures r.Some? ==> forall i | 0 <= i < |aggregates| :: SpecOf(aggregates[i]) == Some(r.value[i])
  {
    if aggregates == [] then Some([])
    else
      match (Specs(aggregates[..|aggregates| - 1]), SpecOf(aggregates[|aggregates| - 1]))
      case (Some(before), Some(s)) => Some(before + [s])
      case _ => None
  }

  function ArgsOf(specs: seq<Spec>): seq<Expr> {
    seq(|specs|, i requires 0 <= i < |specs| => specs[i].arg)
  }

  function Tuples(keys: seq<Row>, args: seq<Row>): seq<G.Tuple>
    requires |keys| == |args|
  {
    seq(|keys|, r requires 0 <= r < |keys| => G.Tuple(keys[r], args[r]))
  }

  function SpecColumn(spec: Spec, group: seq<G.Tuple>, i: nat): seq<Scalar> {
    if spec.distinct then Dedup(G.Column(group, i)) else G.Column(group, i)
  }

  predicate SpecsAccept(specs: seq<Spec>, group: seq<G.Tuple>) {
    forall i | 0 <= i < |specs| :: Agg.Accepts(specs[i].kind, SpecColumn(specs[i], group, i))
  }

  function SpecValues(specs: seq<Spec>, group: seq<G.Tuple>): Row {
    seq(|specs|, i requires 0 <= i < |specs| => Agg.Meaning(specs[i].kind, SpecColumn(specs[i], group, i)))
  }

  function AggregateRows(db: Database, specs: seq<Spec>, grouped: bool, tuples: seq<G.Tuple>): Option<seq<Row>> {
    var keys := G.GroupKeys(grouped, tuples);
    if forall key | key in keys :: SpecsAccept(specs, G.Of(tuples, key)) then
      var listed := db.listing(keys);
      Some(seq(|listed|, i requires 0 <= i < |listed| => listed[i] + SpecValues(specs, G.Of(tuples, listed[i]))))
    else None
  }

  function Reorder(rows: seq<Row>, order: seq<nat>): Option<seq<Row>> {
    if forall i | 0 <= i < |order| :: order[i] < |rows| then
      Some(seq(|order|, i requires 0 <= i < |order| && order[i] < |rows| => rows[order[i]]))
    else None
  }

  /** The right rows whose key is this one; a key with a NULL in it matches nothing. */
  function KeyMatches(key: Row, keys: seq<Row>, rows: seq<Row>): seq<Row>
    requires |keys| == |rows|
  {
    if rows == [] then []
    else
      var n := |rows| - 1;
      KeyMatches(key, keys[..n], rows[..n]) + (if !HasNull(key) && keys[n] == key then [rows[n]] else [])
  }

  function JoinRows(kind: J.JoinType, rightWidth: nat, leftKeys: seq<Row>, lefts: seq<Row>, rightKeys: seq<Row>, rights: seq<Row>): seq<Row>
    requires |leftKeys| == |lefts| && |rightKeys| == |rights|
  {
    if lefts == [] then []
    else
      var n := |lefts| - 1;
      JoinRows(kind, rightWidth, leftKeys[..n], lefts[..n], rightKeys, rights)
        + J.JoinedRow(kind, rightWidth, lefts[n], KeyMatches(leftKeys[n], rightKeys, rights))
  }

  /** The key columns of both sides have the same types. */
  predicate KeysRun(k: Kernels, left: Schema, leftOn: seq<Expr>, right: Schema, rightOn: seq<Expr>) {
    && |leftOn| == |rightOn|
    && forall i | 0 <= i < |leftOn| ::
      RunType(k, left, leftOn[i]).Some? && RunType(k, left, leftOn[i]) == RunType(k, right, rightOn[i])
  }

  /** The keys of a side are looked at only when it hands on a batch. */
  predicate KeysFit(k: Kernels, left: Schema, leftOn: seq<Expr>, sentLeft: bool, right: Schema, rightOn: seq<Expr>, sentRight: bool) {
    && (sentLeft ==> Runs(k, left, leftOn))
    && (sentRight ==> Runs(k, right, rightOn))
    && (sentLeft && sentRight ==> KeysRun(k, left, leftOn, right, rightOn))
  }

  /** Columns of the type of NULL cannot be built from values. */
  predicate Builds(fields: Schema, from: nat) {
    forall i | from <= i < |fields| :: !fields[i].ty.NullType?
  }

  predicate Sortable(k: Kernels, db: Database, names: Schema, exprs: seq<Expr>) {
    exprs != [] && forall i | 0 <= i < |exprs| :: RunType(k, names, exprs[i]).Some? && db.sorts(RunType(k, names, exprs[i]).value)
  }

  function KeyExprs(keys: seq<SortKey>): seq<Expr> {
    seq(|keys|, i requires 0 <= i < |keys| => keys[i].expr)
  }

  function KeyFlags(keys: seq<SortKey>): seq<(bool, bool)> {
    seq(|keys|, i requires 0 <= i < |keys| => (keys[i].ascending, keys[i].nullsFirst))
  }

  /** A limit above a sort selects its rows itself. */
  function TopRows(k: Kernels, db: Database, keys: seq<SortKey>, limit: nat, schema: Schema, rows: seq<Row>): Option<seq<Row>> {
    match MapRows(k, schema, KeyExprs(keys), rows)
    case None => None
    case Some(values) => Reorder(rows, db.top(KeyFlags(keys), values, if limit < |rows| then limit else |rows|))
  }

  /** The plan hands on a batch, if only one without rows. Sorts, aggregations and joins always do,
      a limit only for the rows it takes. */
  predicate Sends(k: Kernels, db: Database, p: Plan)
    decreases p, 0
  {
    match p
    case Scan(table, _, filters, _) =>
      table in db.tables && Delivers(db.tables[table], filters)
    case Projection(input, _, _) => Sends(k, db, input)
    case Filter(input, _, _) => Sends(k, db, input)
    case Limit(input, limit, _) => input.Sort? || (limit > 0 && Run(k, db, input).Some? && Run(k, db, input).value != [])
    case _ => true
  }

  /** The rows a plan yields, or nothing if some operator fails. What an operator demands of types is
      looked at with the first batch. */
  function Run(k: Kernels, db: Database, p: Plan): Option<seq<Row>>
    decreases p, 1
  {
    match p
    case Scan(table, projection, filters, _) =>
      (match ScanColumns(db, table, projection)
       case None => None
       case Some(columns) =>
         if Sends(k, db, p) ==> AllBoolean(k, Out(db, p), filters) then
           Scanned(k, Out(db, p), columns, db.tables[table], filters, |db.tables[table].chunks|)
         else None)
    case Projection(input, exprs, schema) =>
      (match Run(k, db, input)
       case None => None
       case Some(rows) =>
         if Sends(k, db, input) ==> RunAs(k, Out(db, input), exprs, schema) then MapRows(k, Out(db, input), exprs, rows) else None)
    case Filter(input, condition, _) =>
      (match Run(k, db, input)
       case None => None
       case Some(rows) =>
         if Sends(k, db, input) ==> RunType(k, Out(db, input), condition) == Some(BooleanType) then
           Pruning.FilterRows(k, Out(db, input), condition, rows)
         else None)
    case Aggregation(input, groups, aggregates, schema) =>
      (match (Run(k, db, input), Specs(aggregates))
       case (Some(rows), Some(specs)) =>
         var names := Out(db, input);
         if Builds(schema, |groups|) && (Sends(k, db, input) ==> RunAs(k, names, groups, schema) && Runs(k, names, ArgsOf(specs))) then
           (match (MapRows(k, names, groups, rows), MapRows(k, names, ArgsOf(specs), rows))
            case (Some(keys), Some(args)) => AggregateRows(db, specs, groups != [], Tuples(keys, args))
            case _ => None)
         else None
       case _ => None)
    case Sort(input, keys, schema) =>
      (match Run(k, db, input)
       case None => None
       case Some(rows) =>
         if !Sends(k, db, input) then Some([])
         else if !Sortable(k, db, schema, KeyExprs(keys)) then None
         else
           match MapRows(k, schema, KeyExprs(keys), rows)
           case None => None
           case Some(values) => Reorder(rows, db.order(KeyFlags(keys), values)))
    case Limit(input, limit, schema) =>
      (match Run(k, db, input)
       case None => None
       case Some(rows) =>
         if !input.Sort? then Some(if limit < |rows| then rows[..limit] else rows)
         else
           match Run(k, db, input.input)
           case None => None
           case Some(unsorted) =>
             if limit == 0 || !Sends(k, db, input.input) then Some([]) else TopRows(k, db, input.keys, limit, schema, unsorted))
    case Join(left, right, kind, leftOn, rightOn, schema) =>
      (match (Run(k, db, left), Run(k, db, right))
       case (Some(lefts), Some(rights)) =>
         var l, r := Out(db, left), Out(db, right);
         if !Builds(schema, 0) || !KeysFit(k, l, leftOn, Sends(k, db, left), r, rightOn, Sends(k, db, right)) then None
         else
           (match (MapRows(k, l, leftOn, lefts), MapRows(k, r, rightOn, rights))
            case (Some(leftKeys), Some(rightKeys)) =>
              Some(JoinRows(kind, |right.schema|, leftKeys, lefts, rightKeys, rights))
            case _ => None)
       case _ => None)
  }

  // ----- rows come in batches --------------------------------------------------------------------

  lemma {:induction false} ScannedIsSent(k: Kernels, names: Schema, columns: seq<nat>, t: Stored, filters: seq<Expr>, n: nat)
    requires StoredOk(k, t) && n <= |t.chunks| && Scanned(k, names, columns, t, filters, n).Some?
    requires Scanned(k, names, columns, t, filters, n).value != []
    ensures Delivers(t, filters)
  {
    hide Skipped; hide Pruning.FilterAll; hide Pruning.WellFormed; hide Pruning.TrueStats; hide TakeRows;
    if Scanned(k, names, columns, t, filters, n - 1).value != [] {
      ScannedIsSent(k, names, columns, t, filters, n - 1);
    } else {
      var c := t.chunks[n - 1];
      assert !Skipped(t, c, filters);
      var kept := Pruning.FilterAll(k, names, filters, TakeRows(columns, c.rows)).value;
      Pruning.SomeRowsOf(k, names, filters, TakeRows(columns, c.rows));
      assert kept[0] in TakeRows(columns, c.rows);
      TakenRows(columns, c.rows);
      assert ChunkOk(k, t, c) && c.sent;
    }
  }

  lemma TakenRows(columns: seq<nat>, rows: seq<Row>)
    ensures |TakeRows(columns, rows)| == |rows|
  {
  }

  /** A plan that yields a row hands on a batch. */
  lemma {:induction false} RowsAreSent(k: Kernels, db: Database, p: Plan)
    requires LawfulDb(k, db) && Run(k, db, p).Some? && Run(k, db, p).value != []
    ensures Sends(k, db, p)
  {
    hide Scanned; hide MapRows; hide RunType; hide StoredOk; hide Pruning.FilterRows; hide RunAs; hide AllBoolean;
    match p
    case Scan(table, projection, filters, _) =>
      var t := db.tables[table];
      ScannedIsSent(k, Out(db, p), ScanColumns(db, table, projection).value, t, filters, |t.chunks|);
    case Projection(input, _, _) => RowsAreSent(k, db, input);
    case Filter(input, condition, _) =>
      Pruning.KeptRowsPass(k, Out(db, input), condition, Run(k, db, input).value);
      assert Run(k, db, p).value[0] in Run(k, db, input).value;
      RowsAreSent(k, db, input);
    case _ =>
  }

  /** Without a batch there are no rows. */
  lemma NothingSent(k: Kernels, db: Database, p: Plan)
    requires LawfulDb(k, db) && Run(k, db, p).Some? && !Sends(k, db, p)
    ensures Run(k, db, p) == Some([])
  {
    hide Run; hide Sends; hide LawfulDb;
    if Run(k, db, p).value != [] { RowsAreSent(k, db, p); }
  }
}
