/** Planning a join as three remote stages (src/cluster/join.rs), and what running them yields. */
module JoinPlan {
  import opened Basics
  import opened Values
  import opened Expr
  import opened Exchange
  import opened Physical
  import Plans
  import J = Join

  // ----- the planner -----------------------------------------------------------------------------

  datatype Refusal = BadPartitions | BadKeys | NotRemote | BadColumn(error: PlanError) | KeyTypes

  datatype Routing = Routing(columns: seq<nat>, count: U32)

  /** A stage before its plan is encoded. */
  datatype Stage = Stage(id: U32, inputs: seq<U32>, partitions: U32, plan: PhysicalPlan, exchange: Option<Routing>, partitionedInput: bool)

  predicate ContainsJoin(p: PhysicalPlan) {
    match p
    case PHashJoin(_, _, _, _, _, _, _) => true
    case PScan(_, _, _, _, _, _) => false
    case PProjection(_, input, _, _) => ContainsJoin(input)
    case PFilter(_, input, _, _) => ContainsJoin(input)
    case PHashAggregate(_, input, _, _, _) => ContainsJoin(input)
    case PSort(_, input, _, _) => ContainsJoin(input)
    case PTopK(_, input, _, _, _) => ContainsJoin(input)
    case PLimit(_, input, _, _) => ContainsJoin(input)
  }

  function LocalPartitions(p: PhysicalPlan): (r: Result<U32, Refusal>)
    ensures r.Ok? <==> Source(p).Some? && 0 < Source(p).value.partitions <= U32_MAX
    ensures r.Ok? ==> r.value == Source(p).value.partitions
  {
    match p
    case PScan(_, _, provider, _, _, _) =>
      if 0 < provider.partitions <= U32_MAX then Ok(provider.partitions) else Err(BadPartitions)
    case PProjection(_, input, _, _) => LocalPartitions(input)
    case PFilter(_, input, _, _) => LocalPartitions(input)
    case _ => Err(NotRemote)
  }

  /** The table below a chain of filters and projections. */
  function Source(p: PhysicalPlan): Option<Provider> {
    match p
    case PScan(_, _, provider, _, _, _) => Some(provider)
    case PFilter(_, input, _, _) => Source(input)
    case PProjection(_, input, _, _) => Source(input)
    case _ => None
  }

  /** A pair of keys a remote join can route by: columns of one type. */
  predicate Routable(left: Schema, right: Schema, l: Expr, r: Expr) {
    && l.Column? && r.Column? && Resolve(left, l.name).Ok? && Resolve(right, r.name).Ok?
    && left[Resolve(left, l.name).value].ty == right[Resolve(right, r.name).value].ty
  }

  /** One more pair of keys. */
  function AddKey(left: Schema, right: Schema, keys: J.Keys, l: Expr, r: Expr): Result<J.Keys, Refusal> {
    if !l.Column? || !r.Column? then Err(NotRemote)
    else
      match Resolve(left, l.name)
      case Err(e) => Err(BadColumn(e))
      case Ok(i) =>
        match Resolve(right, r.name)
        case Err(e) => Err(BadColumn(e))
        case Ok(j) => if left[i].ty == right[j].ty then Ok(J.Keys(keys.left + [i], keys.right + [j])) else Err(KeyTypes)
  }

  function KeyColumns(left: Schema, right: Schema, leftOn: seq<Expr>, rightOn: seq<Expr>): (r: Result<J.Keys, Refusal>)
    requires |leftOn| == |rightOn|
    ensures r.Ok? ==> |r.value.left| == |r.value.right| == |leftOn|
  {
    hide Resolve;
    if leftOn == [] then Ok(J.Keys([], []))
    else
      var n := |leftOn| - 1;
      match KeyColumns(left, right, leftOn[..n], rightOn[..n])
      case Err(f) => Err(f)
      case Ok(keys) => AddKey(left, right, keys, leftOn[n], rightOn[n])
  }

  /** Keys are found exactly when every pair is routable, and they are the columns the pairs name. */
  lemma {:induction false} KeysAreColumns(left: Schema, right: Schema, leftOn: seq<Expr>, rightOn: seq<Expr>)
    requires |leftOn| == |rightOn|
    ensures KeyColumns(left, right, leftOn, rightOn).Ok? <==> AllRoutable(left, right, leftOn, rightOn)
    ensures KeyColumns(left, right, leftOn, rightOn).Ok? ==>
      var keys := KeyColumns(left, right, leftOn, rightOn).value;
      forall i | 0 <= i < |leftOn| :: Names(left, leftOn[i], keys.left[i]) && Names(right, rightOn[i], keys.right[i])
  {
    hide Resolve;
    if leftOn != [] {
      var n := |leftOn| - 1;
      KeysAreColumns(left, right, leftOn[..n], rightOn[..n]);
      assert leftOn == leftOn[..n] + [leftOn[n]] && rightOn == rightOn[..n] + [rightOn[n]];
      RoutablePush(left, right, leftOn[..n], rightOn[..n], leftOn[n], rightOn[n]);
    }
  }

  predicate Names(schema: Schema, e: Expr, column: nat) {
    e.Column? && Resolve(schema, e.name) == Ok(column)
  }

  predicate AllRoutable(left: Schema, right: Schema, leftOn: seq<Expr>, rightOn: seq<Expr>)
    requires |leftOn| == |rightOn|
  {
    forall i | 0 <= i < |leftOn| :: Routable(left, right, leftOn[i], rightOn[i])
  }

  lemma RoutablePush(left: Schema, right: Schema, leftOn: seq<Expr>, rightOn: seq<Expr>, l: Expr, r: Expr)
    requires |leftOn| == |rightOn|
    ensures AllRoutable(left, right, leftOn + [l], rightOn + [r]) <==> AllRoutable(left, right, leftOn, rightOn) && Routable(left, right, l, r)
  {
    hide Routable;
    var ls, rs := leftOn + [l], rightOn + [r];
    assert ls[|leftOn|] == l && rs[|leftOn|] == r;
    assert forall i | 0 <= i < |leftOn| :: ls[i] == leftOn[i] && rs[i] == rightOn[i];
  }

  /** The scan of what a producer stage published: one empty partition under the stage's table name. */
  function DependencyScan(input: PhysicalPlan, stage: U32): PhysicalPlan {
    PScan(input.id, StageTable(stage), Provider(0, input.schema, 1), None, [], input.schema)
  }

  function StageTable(stage: U32): string {
    if stage == 0 then "__sparkx_stage_input_0" else "__sparkx_stage_input_1"
  }

  /** What `rewrite` makes of a join: the final join over two published inputs, and the two
      stages that publish them. */
  function SplitJoin(p: PhysicalPlan): (r: Result<(PhysicalPlan, seq<Stage>), Refusal>)
    requires p.PHashJoin?
  {
    var l := LocalPartitions(p.left);
    var r := LocalPartitions(p.right);
    if l.Err? then Err(l.error)
    else if r.Err? then Err(r.error)
    else if p.leftOn == [] || |p.leftOn| != |p.rightOn| then Err(BadKeys)
    else
      match KeyColumns(Typing(p.left.schema), Typing(p.right.schema), p.leftOn, p.rightOn)
      case Err(f) => Err(f)
      case Ok(keys) =>
        var count: U32 := if l.value <= r.value then r.value else l.value;
        Ok((PHashJoin(p.id, DependencyScan(p.left, 0), DependencyScan(p.right, 1), p.kind, p.leftOn, p.rightOn, p.schema),
            [Stage(0, [], l.value, p.left, Some(Routing(keys.left, count)), false),
             Stage(1, [], r.value, p.right, Some(Routing(keys.right, count)), false)]))
  }

  /** The plan of the final stage, and the producer stages. */
  function Rewritten(p: PhysicalPlan): Result<(PhysicalPlan, seq<Stage>), Refusal> {
    match p
    case PProjection(id, input, exprs, schema) =>
      (match Rewritten(input) case Err(f) => Err(f) case Ok((i, stages)) => Ok((PProjection(id, i, exprs, schema), stages)))
    case PFilter(id, input, condition, schema) =>
      (match Rewritten(input) case Err(f) => Err(f) case Ok((i, stages)) => Ok((PFilter(id, i, condition, schema), stages)))
    case PHashJoin(_, _, _, _, _, _, _) => SplitJoin(p)
    case _ => Err(NotRemote)
  }

  /** The three stages of a plan with a join. */
  function Planned(p: PhysicalPlan): Result<Option<seq<Stage>>, Refusal> {
    if !ContainsJoin(p) then Ok(None)
    else
      match Rewritten(p)
      case Err(f) => Err(f)
      case Ok((downstream, producers)) =>
        if |producers| == 0 || producers[0].exchange.None? then Ok(None)
        else Ok(Some(producers + [Stage(2, [0, 1], producers[0].exchange.value.count, downstream, None, true)]))
  }

  /** The loop over the key pairs. */
  method CollectKeys(left: Schema, right: Schema, leftOn: seq<Expr>, rightOn: seq<Expr>) returns (r: Result<J.Keys, Refusal>)
    requires |leftOn| == |rightOn|
    ensures r == KeyColumns(left, right, leftOn, rightOn)
  {
    hide Resolve;
    var keys := J.Keys([], []);
    var i := 0;
    while i < |leftOn|
      invariant 0 <= i <= |leftOn|
      invariant KeyColumns(left, right, leftOn[..i], rightOn[..i]) == Ok(keys)
    {
      assert leftOn[..i + 1][..i] == leftOn[..i] && rightOn[..i + 1][..i] == rightOn[..i];
      var next := AddKey(left, right, keys, leftOn[i], rightOn[i]);
      if next.Err? {
        RefusedKeyRefuses(left, right, leftOn, rightOn, i + 1);
        return Err(next.error);
      }
      keys, i := next.value, i + 1;
    }
    assert leftOn[..i] == leftOn && rightOn[..i] == rightOn;
    r := Ok(keys);
  }

  /** The first refused pair decides. */
  lemma {:induction false} RefusedKeyRefuses(left: Schema, right: Schema, leftOn: seq<Expr>, rightOn: seq<Expr>, n: nat)
    requires |leftOn| == |rightOn| && n <= |leftOn|
    requires KeyColumns(left, right, leftOn[..n], rightOn[..n]).Err?
    ensures KeyColumns(left, right, leftOn, rightOn) == KeyColumns(left, right, leftOn[..n], rightOn[..n])
  {
    hide Resolve;
    if n == |leftOn| {
      assert leftOn[..n] == leftOn && rightOn[..n] == rightOn;
    } else {
      var m := |leftOn| - 1;
      assert leftOn[..m][..n] == leftOn[..n] && rightOn[..m][..n] == rightOn[..n];
      RefusedKeyRefuses(left, right, leftOn[..m], rightOn[..m], n);
    }
  }

  /** `rewrite`, which pushes the producers onto the caller's stages. */
  method Rewrite(p: PhysicalPlan, before: seq<Stage>) returns (r: Result<PhysicalPlan, Refusal>, stages: seq<Stage>)
    ensures match Rewritten(p)
            case Err(f) => r == Err(f)
            case Ok((plan, producers)) => r == Ok(plan) && stages == before + producers
  {
    hide KeyColumns; hide LocalPartitions;
    stages := before;
    match p
    case PProjection(id, input, exprs, schema) =>
      var i;
      i, stages := Rewrite(input, stages);
      r := match i case Err(f) => Err(f) case Ok(plan) => Ok(PProjection(id, plan, exprs, schema));
    case PFilter(id, input, condition, schema) =>
      var i;
      i, stages := Rewrite(input, stages);
      r := match i case Err(f) => Err(f) case Ok(plan) => Ok(PFilter(id, plan, condition, schema));
    case PHashJoin(id, left, right, kind, leftOn, rightOn, schema) =>
      var leftCount, rightCount := LocalPartitions(left), LocalPartitions(right);
      if leftCount.Err? { return Err(leftCount.error), stages; }
      if rightCount.Err? { return Err(rightCount.error), stages; }
      if leftOn == [] || |leftOn| != |rightOn| { return Err(BadKeys), stages; }
      var keys := CollectKeys(Typing(left.schema), Typing(right.schema), leftOn, rightOn);
      if keys.Err? { return Err(keys.error), stages; }
      var count: U32 := if leftCount.value <= rightCount.value then rightCount.value else leftCount.value;
      stages := stages + [Stage(0, [], leftCount.value, left, Some(Routing(keys.value.left, count)), false)];
      stages := stages + [Stage(1, [], rightCount.value, right, Some(Routing(keys.value.right, count)), false)];
      r := Ok(PHashJoin(id, DependencyScan(left, 0), DependencyScan(right, 1), kind, leftOn, rightOn, schema));
    case _ =>
      r := Err(NotRemote);
  }

  // ----- which plans are accepted ------------------------------------------------------------------

  /** The join below the filters and projections of a plan. */
  function JoinBelow(p: PhysicalPlan): (r: Option<PhysicalPlan>)
    ensures r.Some? ==> r.value.PHashJoin?
  {
    match p
    case PHashJoin(_, _, _, _, _, _, _) => Some(p)
    case PFilter(_, input, _, _) => JoinBelow(input)
    case PProjection(_, input, _, _) => JoinBelow(input)
    case _ => None
  }

  /** One equi-join of two chains over tables with partitions, on columns of equal types. */
  predicate Remotable(j: PhysicalPlan)
    requires j.PHashJoin?
  {
    && Source(j.left).Some? && 0 < Source(j.left).value.partitions <= U32_MAX
    && Source(j.right).Some? && 0 < Source(j.right).value.partitions <= U32_MAX
    && 0 < |j.leftOn| == |j.rightOn|
    && AllRoutable(Typing(j.left.schema), Typing(j.right.schema), j.leftOn, j.rightOn)
  }

  lemma {:induction false} JoinBelowIsContained(p: PhysicalPlan)
    requires JoinBelow(p).Some?
    ensures ContainsJoin(p)
  {
    match p
    case PFilter(_, input, _, _) => JoinBelowIsContained(input);
    case PProjection(_, input, _, _) => JoinBelowIsContained(input);
    case PHashJoin(_, _, _, _, _, _, _) =>
  }

  /** Rewriting succeeds exactly for a remotable join under filters and projections, and its
      producers are those of the join. */
  lemma {:induction false} RewritesExactly(p: PhysicalPlan)
    ensures Rewritten(p).Ok? <==> JoinBelow(p).Some? && Remotable(JoinBelow(p).value)
    ensures Rewritten(p).Ok? ==> SplitJoin(JoinBelow(p).value).Ok? && Rewritten(p).value.1 == SplitJoin(JoinBelow(p).value).value.1
    ensures Rewritten(p).Ok? ==> JoinBelow(Rewritten(p).value.0) == Some(SplitJoin(JoinBelow(p).value).value.0)
  {
    hide AllRoutable; hide KeyColumns;
    match p
    case PFilter(_, input, _, _) => RewritesExactly(input);
    case PProjection(_, input, _, _) => RewritesExactly(input);
    case PHashJoin(_, left, right, _, leftOn, rightOn, _) =>
      if |leftOn| == |rightOn| { KeysAreColumns(Typing(left.schema), Typing(right.schema), leftOn, rightOn); }
    case _ =>
  }

  /** A plan without a join is left to its caller, one with a remotable join under filters and
      projections is planned, and every other plan with a join is refused before any stage exists. */
  lemma PlannedExactly(p: PhysicalPlan)
    ensures Planned(p) == Ok(None) <==> !ContainsJoin(p)
    ensures Planned(p).Ok? && Planned(p).value.Some? <==> JoinBelow(p).Some? && Remotable(JoinBelow(p).value)
  {
    hide Rewritten; hide Remotable; hide ContainsJoin; hide JoinBelow;
    RewritesExactly(p);
    if JoinBelow(p).Some? { JoinBelowIsContained(p); }
  }

  // ----- one row at a time -------------------------------------------------------------------------

  datatype Outcome = Broken | Dropped | Kept(row: Row)

  /** The names of the batches an operator hands on. */
  function BatchNames(p: PhysicalPlan): Schema {
    match p
    case PScan(_, _, provider, projection, _, _) =>
      var all := Typing(provider.schema);
      if projection.None? then all
      else seq(|projection.value|, i requires 0 <= i < |projection.value| =>
                 if projection.value[i] < |all| then all[projection.value[i]] else Field("", NullType))
    case PFilter(_, input, _, _) => BatchNames(input)
    case PLimit(_, input, _, _) => BatchNames(input)
    case _ => Typing(p.schema)
  }

  function FilterRow(k: Kernels, names: Schema, e: Expr, row: Row): Outcome {
    match Eval(k, names, row, e)
    case Ok(x) => if !x.ty.BooleanType? then Broken else if x.value == Boolean(true) then Kept(row) else Dropped
    case Err(_) => Broken
  }

  function FilterRowAll(k: Kernels, names: Schema, filters: seq<Expr>, row: Row): Outcome {
    if filters == [] then Kept(row)
    else
      match FilterRowAll(k, names, filters[..|filters| - 1], row)
      case Kept(r) => FilterRow(k, names, filters[|filters| - 1], r)
      case other => other
  }

  /** One row through one operator. An aggregate evaluates its groups and arguments. */
  function OperatorRow(k: Kernels, p: PhysicalPlan, row: Row): Outcome {
    match p
    case PScan(_, _, _, projection, filters, _) =>
      FilterRowAll(k, BatchNames(p), filters, if projection.None? then row else Plans.TakeRow(projection.value, row))
    case PFilter(_, input, condition, _) => FilterRow(k, BatchNames(input), condition, row)
    case PProjection(_, input, exprs, _) => Evaluated(k, BatchNames(input), exprs, row)
    case PHashAggregate(_, input, groups, aggregates, _) =>
      (match Plans.Specs(aggregates)
       case Some(specs) => Evaluated(k, BatchNames(input), groups + Plans.ArgsOf(specs), row)
       case None => Broken)
    case PSort(_, _, keys, schema) => if Evaluated(k, Typing(schema), Plans.KeyExprs(keys), row).Kept? then Kept(row) else Broken
    case PTopK(_, _, keys, _, schema) => if Evaluated(k, Typing(schema), Plans.KeyExprs(keys), row).Kept? then Kept(row) else Broken
    case PLimit(_, _, _, _) => Kept(row)
    case PHashJoin(_, _, _, _, _, _, _) => Kept(row)
  }

  function Evaluated(k: Kernels, names: Schema, exprs: seq<Expr>, row: Row): Outcome {
    match Plans.EvalAll(k, names, row, exprs) case Some(values) => Kept(values) case None => Broken
  }

  /** One row through the filters and projections above a scan or a join. */
  function RowThrough(k: Kernels, p: PhysicalPlan, row: Row): Outcome {
    if p.PScan? || p.PHashJoin? then OperatorRow(k, p, row)
    else if p.PFilter? || p.PProjection? then
      match RowThrough(k, p.input, row) case Kept(r) => OperatorRow(k, p, r) case other => other
    else Broken
  }

  /** What becomes of each row, in order. The first row that fails fails them all. */
  function Each(step: Row -> Outcome, rows: seq<Row>): Option<seq<Row>> {
    if rows == [] then Some([])
    else
      match Each(step, rows[..|rows| - 1])
      case None => None
      case Some(before) =>
        match step(rows[|rows| - 1])
        case Broken => None
        case Dropped => Some(before)
        case Kept(r) => Some(before + [r])
  }

  function Chain(k: Kernels, p: PhysicalPlan): Row -> Outcome {
    row => RowThrough(k, p, row)
  }

  /** All rows through a chain. */
  function Through(k: Kernels, p: PhysicalPlan, rows: seq<Row>): Option<seq<Row>> {
    Each(Chain(k, p), rows)
  }

  lemma EachPush(step: Row -> Outcome, rows: seq<Row>, row: Row)
    ensures Each(step, rows + [row]) ==
      match Each(step, rows)
      case None => None
      case Some(before) =>
        match step(row) case Broken => None case Dropped => Some(before) case Kept(r) => Some(before + [r])
  {
    assert (rows + [row])[..|rows|] == rows;
  }

  lemma {:induction false} EachConcat(step: Row -> Outcome, a: seq<Row>, b: seq<Row>)
    ensures Each(step, a + b) ==
      if Each(step, a).Some? && Each(step, b).Some? then Some(Each(step, a).value + Each(step, b).value) else None
  {
    if b == [] {
      assert a + b == a;
      if Each(step, a).Some? { assert Each(step, a).value + [] == Each(step, a).value; }
    } else {
      var n := |b| - 1;
      assert a + b == (a + b[..n]) + [b[n]] && b == b[..n] + [b[n]];
      EachConcat(step, a, b[..n]);
      EachPush(step, a + b[..n], b[n]);
      EachPush(step, b[..n], b[n]);
      if Each(step, a).Some? && Each(step, b).Some? {
        var l, m, r := Each(step, a).value, Each(step, b[..n]).value, step(b[n]);
        if r.Kept? { assert (l + m) + [r.row] == l + (m + [r.row]); }
      }
    }
  }

  /** What one row adds to the output. */
  function Added(o: Outcome): multiset<Row> {
    if o.Kept? then multiset{o.row} else multiset{}
  }

  /** A row in the middle of the input adds its own output to that of the other rows. */
  lemma EachMiddle(step: Row -> Outcome, before: seq<Row>, row: Row, after: seq<Row>)
    ensures Each(step, before + [row] + after).Some? <==> Each(step, before + after).Some? && !step(row).Broken?
    ensures Each(step, before + [row] + after).Some? ==>
      multiset(Each(step, before + [row] + after).value) == multiset(Each(step, before + after).value) + Added(step(row))
  {
    hide Each;
    EachConcat(step, before, after);
    EachPush(step, before, row);
    EachConcat(step, before + [row], after);
  }

  /** Row-wise operators do not care about the order of their input. */
  lemma {:induction false} EachPermuted(step: Row -> Outcome, a: seq<Row>, b: seq<Row>)
    requires multiset(a) == multiset(b)
    ensures Each(step, a).Some? <==> Each(step, b).Some?
    ensures Each(step, a).Some? ==> multiset(Each(step, a).value) == multiset(Each(step, b).value)
  {
    hide Each;
    if a == [] {
      assert |multiset(b)| == 0;
      assert b == [];
    } else {
      var n, x := |a| - 1, a[|a| - 1];
      var i := TakenOut(a, b);
      EachPermuted(step, a[..n], b[..i] + b[i + 1..]);
      EachMiddle(step, a[..n], x, []);
      assert a[..n] + [x] + [] == a && a[..n] + [] == a[..n];
      EachMiddle(step, b[..i], x, b[i + 1..]);
    }
  }

  // ----- running natively and remotely -------------------------------------------------------------

  /** The rows of each partition of each table. */
  type Storage = map<nat, seq<seq<Row>>>

  /** Every table below the plan is stored, in as many partitions as it says. */
  predicate Stored(storage: Storage, p: PhysicalPlan) {
    Source(p).Some? ==> Source(p).value.tag in storage && |storage[Source(p).value.tag]| == Source(p).value.partitions
  }

  function Partition(storage: Storage, p: PhysicalPlan, i: nat): seq<Row> {
    if Source(p).Some? && Source(p).value.tag in storage && i < |storage[Source(p).value.tag]|
    then storage[Source(p).value.tag][i] else []
  }

  function Table(storage: Storage, p: PhysicalPlan): seq<Row> {
    if Source(p).Some? && Source(p).value.tag in storage then Concat(storage[Source(p).value.tag]) else []
  }

  /** What a join computes from the rows of its two sides. */
  function JoinRows(j: PhysicalPlan, lefts: seq<Row>, rights: seq<Row>): Option<seq<Row>>
    requires j.PHashJoin?
  {
    if |j.leftOn| != |j.rightOn| then None
    else
      match KeyColumns(Typing(j.left.schema), Typing(j.right.schema), j.leftOn, j.rightOn)
      case Err(_) => None
      case Ok(keys) => Some(J.Joined(j.kind, keys, |j.right.schema.fields|, lefts, rights))
  }

  /** The join below a plan, and the operators above it. */
  function JoinThrough(k: Kernels, p: PhysicalPlan, lefts: seq<Row>, rights: seq<Row>): Option<seq<Row>> {
    match JoinBelow(p)
    case None => None
    case Some(j) => match JoinRows(j, lefts, rights) case None => None case Some(rows) => Through(k, p, rows)
  }

  /** A native run: one join over all rows of both tables. */
  function Native(k: Kernels, storage: Storage, p: PhysicalPlan): Option<seq<Row>> {
    match JoinBelow(p)
    case None => None
    case Some(j) =>
      match (Through(k, j.left, Table(storage, j.left)), Through(k, j.right, Table(storage, j.right)))
      case (Some(lefts), Some(rights)) => JoinThrough(k, p, lefts, rights)
      case _ => None
  }

  /** The rows the tasks of a producer stage below `n` put out, in order. */
  function Produced(k: Kernels, storage: Storage, stage: Stage, n: nat): Option<seq<Row>> {
    if n == 0 then Some([])
    else
      match (Produced(k, storage, stage, n - 1), Through(k, stage.plan, Partition(storage, stage.plan, n - 1)))
      case (Some(before), Some(rows)) => Some(before + rows)
      case _ => None
  }

  /** Two producers that route, and a final stage. */
  predicate Graph(stages: seq<Stage>) {
    && |stages| == 3 && stages[0].exchange.Some? && stages[1].exchange.Some?
    && 0 < stages[0].exchange.value.count && 0 < stages[1].exchange.value.count
  }

  /** What the tasks of the final stage below `n` put out. Task `d` reads what both producers
      routed to `d`. */
  function Tasks(k: Kernels, c: KeyCodec, stages: seq<Stage>, lefts: seq<Row>, rights: seq<Row>, n: nat): Option<seq<Row>>
    requires Graph(stages)
  {
    if n == 0 then Some([])
    else
      var l, r := stages[0].exchange.value, stages[1].exchange.value;
      match (Tasks(k, c, stages, lefts, rights, n - 1),
             JoinThrough(k, stages[2].plan, Routed(c, l.columns, l.count, lefts, n - 1), Routed(c, r.columns, r.count, rights, n - 1)))
      case (Some(before), Some(out)) => Some(before + out)
      case _ => None
  }

  /** A remote run of the three stages. */
  function Remote(k: Kernels, c: KeyCodec, storage: Storage, stages: seq<Stage>): Option<seq<Row>>
    requires Graph(stages)
  {
    match (Produced(k, storage, stages[0], stages[0].partitions), Produced(k, storage, stages[1], stages[1].partitions))
    case (Some(lefts), Some(rights)) => Tasks(k, c, stages, lefts, rights, stages[2].partitions)
    case _ => None
  }

  // ----- the stages do what the plan does ----------------------------------------------------------

  /** Running a chain partition by partition is running it on all rows before `n`. */
  lemma {:induction false} ProducedPrefix(k: Kernels, storage: Storage, stage: Stage, n: nat)
    requires Stored(storage, stage.plan) && Source(stage.plan).Some? && n <= Source(stage.plan).value.partitions
    ensures Produced(k, storage, stage, n) == Through(k, stage.plan, Concat(storage[Source(stage.plan).value.tag][..n]))
  {
    hide RowThrough;
    var parts := storage[Source(stage.plan).value.tag];
    if n > 0 {
      ProducedPrefix(k, storage, stage, n - 1);
      assert parts[..n][..n - 1] == parts[..n - 1];
      EachConcat(Chain(k, stage.plan), Concat(parts[..n - 1]), parts[n - 1]);
    }
  }

  lemma ProducedIsTable(k: Kernels, storage: Storage, stage: Stage)
    requires Stored(storage, stage.plan) && Source(stage.plan).Some? && stage.partitions == Source(stage.plan).value.partitions
    ensures Produced(k, storage, stage, stage.partitions) == Through(k, stage.plan, Table(storage, stage.plan))
  {
    hide Through;
    ProducedPrefix(k, storage, stage, stage.partitions);
    var parts := storage[Source(stage.plan).value.tag];
    assert parts[..stage.partitions] == parts;
  }

  /** The rewritten plan treats a joined row as the original does. */
  lemma {:induction false} RewrittenRow(k: Kernels, p: PhysicalPlan, row: Row)
    requires Rewritten(p).Ok?
    ensures RowThrough(k, Rewritten(p).value.0, row) == RowThrough(k, p, row) && BatchNames(Rewritten(p).value.0) == BatchNames(p)
  {
    hide KeyColumns; hide LocalPartitions; hide FilterRow;
    match p
    case PFilter(_, input, _, _) => RewrittenRow(k, input, row);
    case PProjection(_, input, _, _) => RewrittenRow(k, input, row);
    case PHashJoin(_, _, _, _, _, _, _) =>
  }

  lemma {:induction false} RewrittenRows(k: Kernels, p: PhysicalPlan, rows: seq<Row>)
    requires Rewritten(p).Ok?
    ensures Through(k, Rewritten(p).value.0, rows) == Through(k, p, rows)
  {
    hide RowThrough; hide Rewritten;
    if rows != [] {
      RewrittenRows(k, p, rows[..|rows| - 1]);
      RewrittenRow(k, p, rows[|rows| - 1]);
    }
  }

  /** The rewritten plan joins any two inputs as the original does. */
  lemma RewrittenJoin(k: Kernels, p: PhysicalPlan, lefts: seq<Row>, rights: seq<Row>)
    requires Rewritten(p).Ok?
    ensures JoinThrough(k, Rewritten(p).value.0, lefts, rights) == JoinThrough(k, p, lefts, rights)
  {
    hide Rewritten; hide KeyColumns; hide Through; hide JoinBelow; hide J.Joined; hide LocalPartitions;
    RewritesExactly(p);
    var j, split := JoinBelow(p).value, JoinBelow(Rewritten(p).value.0).value;
    assert JoinRows(split, lefts, rights) == JoinRows(j, lefts, rights);
    if JoinRows(j, lefts, rights).Some? {
      RewrittenRows(k, p, JoinRows(j, lefts, rights).value);
    }
  }

  lemma ThroughConcat(k: Kernels, p: PhysicalPlan, a: seq<Row>, b: seq<Row>)
    ensures Through(k, p, []) == Some([])
    ensures Through(k, p, a + b) ==
      if Through(k, p, a).Some? && Through(k, p, b).Some? then Some(Through(k, p, a).value + Through(k, p, b).value) else None
  {
    hide Chain;
    EachConcat(Chain(k, p), a, b);
  }

  /** The final tasks together treat the rows of the spread join. */
  lemma {:induction false} TasksThrough(k: Kernels, c: KeyCodec, p: PhysicalPlan, stages: seq<Stage>, keys: J.Keys,
                                        lefts: seq<Row>, rights: seq<Row>, n: nat)
    requires Graph(stages) && Rewritten(p).Ok? && stages[2].plan == Rewritten(p).value.0 && JoinBelow(p).Some?
    requires var j := JoinBelow(p).value;
      |j.leftOn| == |j.rightOn| && KeyColumns(Typing(j.left.schema), Typing(j.right.schema), j.leftOn, j.rightOn) == Ok(keys)
    requires stages[0].exchange.value.columns == keys.left && stages[1].exchange.value.columns == keys.right
    requires stages[0].exchange.value.count == stages[1].exchange.value.count
    ensures var j := JoinBelow(p).value;
      Tasks(k, c, stages, lefts, rights, n)
        == Through(k, p, J.Spread(c, j.kind, keys, |j.right.schema.fields|, stages[0].exchange.value.count, lefts, rights, n))
  {
    hide J.Joined; hide Routed; hide Rewritten; hide KeyColumns; hide JoinBelow; hide Through; hide Chain;
    var j, count := JoinBelow(p).value, stages[0].exchange.value.count;
    var width := |j.right.schema.fields|;
    if n == 0 {
      ThroughConcat(k, p, [], []);
    } else {
      TasksThrough(k, c, p, stages, keys, lefts, rights, n - 1);
      var l, r := Routed(c, keys.left, count, lefts, n - 1), Routed(c, keys.right, count, rights, n - 1);
      RewrittenJoin(k, p, l, r);
      ThroughConcat(k, p, J.Spread(c, j.kind, keys, width, count, lefts, rights, n - 1), J.Joined(j.kind, keys, width, l, r));
    }
  }

  /** What a planned graph consists of. */
  lemma PlannedGraph(p: PhysicalPlan)
    requires Planned(p).Ok? && Planned(p).value.Some?
    ensures Rewritten(p).Ok? && JoinBelow(p).Some? && Remotable(JoinBelow(p).value)
    ensures var stages, j := Planned(p).value.value, JoinBelow(p).value;
      && Graph(stages) && stages[0].plan == j.left && stages[1].plan == j.right && stages[2].plan == Rewritten(p).value.0
      && stages[0].partitions == Source(j.left).value.partitions && stages[1].partitions == Source(j.right).value.partitions
      && stages[2].partitions == stages[0].exchange.value.count == stages[1].exchange.value.count
      && stages[2].partitions == Max(stages[0].partitions, stages[1].partitions)
      && KeyColumns(Typing(j.left.schema), Typing(j.right.schema), j.leftOn, j.rightOn)
         == Ok(J.Keys(stages[0].exchange.value.columns, stages[1].exchange.value.columns))
      && stages[0].inputs == [] && stages[1].inputs == [] && stages[2].inputs == [stages[0].id, stages[1].id]
      && stages[2].partitionedInput && stages[2].exchange.None?
  {
    hide Rewritten; hide AllRoutable; hide KeyColumns; hide JoinBelow; hide ContainsJoin;
    RewritesExactly(p);
  }

  /** Planning a join remotely does not change it: where stages are planned, running them fails
      exactly when the native run fails, and otherwise yields the same rows, each as often, for all
      table contents and partitions and every hash. */
  lemma RemoteRunIsNativeRun(k: Kernels, c: KeyCodec, storage: Storage, p: PhysicalPlan)
    requires Planned(p).Ok? && Planned(p).value.Some?
    requires JoinBelow(p).Some? ==> Stored(storage, JoinBelow(p).value.left) && Stored(storage, JoinBelow(p).value.right)
    ensures Graph(Planned(p).value.value)
    ensures var remote, native := Remote(k, c, storage, Planned(p).value.value), Native(k, storage, p);
      && (remote.Some? <==> native.Some?)
      && (remote.Some? ==> multiset(remote.value) == multiset(native.value))
  {
    hide Through; hide J.Joined; hide J.Spread; hide Routed; hide KeyColumns; hide Rewritten; hide Tasks; hide Planned; hide Remotable;
    hide JoinBelow; hide Produced; hide Table; hide Stored; hide AllRoutable;
    PlannedGraph(p);
    var j, stages := JoinBelow(p).value, Planned(p).value.value;
    assert Source(j.left).Some? && Source(j.right).Some? && |j.leftOn| == |j.rightOn| by { RemotableParts(j); }
    ProducedIsTable(k, storage, stages[0]);
    ProducedIsTable(k, storage, stages[1]);
    var lefts, rights := Through(k, j.left, Table(storage, j.left)), Through(k, j.right, Table(storage, j.right));
    if lefts.Some? && rights.Some? {
      JoinedRemotely(k, c, p, stages, lefts.value, rights.value);
    }
  }

  lemma RemotableParts(j: PhysicalPlan)
    requires j.PHashJoin? && Remotable(j)
    ensures Source(j.left).Some? && Source(j.right).Some? && |j.leftOn| == |j.rightOn|
  {
  }

  /** The final stage joins what the producers routed as one join of all their rows. */
  lemma JoinedRemotely(k: Kernels, c: KeyCodec, p: PhysicalPlan, stages: seq<Stage>, lefts: seq<Row>, rights: seq<Row>)
    requires Planned(p).Ok? && Planned(p).value == Some(stages)
    ensures Graph(stages)
    ensures var remote, native := Tasks(k, c, stages, lefts, rights, stages[2].partitions), JoinThrough(k, p, lefts, rights);
      && (remote.Some? <==> native.Some?)
      && (remote.Some? ==> multiset(remote.value) == multiset(native.value))
  {
    hide Each; hide J.Joined; hide J.Spread; hide Routed; hide KeyColumns; hide Rewritten; hide Tasks; hide Planned; hide Remotable;
    hide JoinBelow;
    PlannedGraph(p);
    var j, count := JoinBelow(p).value, stages[0].exchange.value.count;
    RemotableParts(j);
    var keys, width := J.Keys(stages[0].exchange.value.columns, stages[1].exchange.value.columns), |j.right.schema.fields|;
    TasksThrough(k, c, p, stages, keys, lefts, rights, count);
    J.SpreadIsJoin(c, j.kind, keys, width, count, lefts, rights);
    EachPermuted(Chain(k, p), J.Spread(c, j.kind, keys, width, count, lefts, rights, count), J.Joined(j.kind, keys, width, lefts, rights));
  }
}
