/** The logical optimizer (src/query/optimizer.rs). */
module Optimizer {
  import opened Basics
  import opened Values
  import opened Expr
  import opened Plans

  function SimplifyAll(k: Kernels, schema: Schema, exprs: seq<Expr>): (r: Result<seq<Expr>, PlanError>)
    ensures r.Ok? ==> |r.value| == |exprs|
    ensures r.Ok? ==> forall i | 0 <= i < |exprs| :: Simplify(k, schema, exprs[i]) == Ok(r.value[i])
  {
    hide Simplify;
    if exprs == [] then Ok([])
    else
      var init, last := exprs[..|exprs| - 1], Simplify(k, schema, exprs[|exprs| - 1]);
      match SimplifyAll(k, schema, init)
      case Err(f) => Err(f)
      case Ok(before) =>
        match last
        case Err(f) => Err(f)
        case Ok(s) =>
          assert forall i | 0 <= i < |init| :: exprs[i] == init[i];
          Ok(before + [s])
  }

  /** `simplify_expressions`. */
  function SimplifyExpressions(k: Kernels, show: Expr -> string, p: Plan): Result<Plan, PlanError> {
    match p
    case Scan(table, projection, filters, schema) =>
      (match SimplifyAll(k, schema, filters)
       case Err(f) => Err(f)
       case Ok(simple) => Ok(Scan(table, projection, simple, schema)))
    case Projection(input, exprs, _) =>
      (match SimplifyAll(k, input.schema, exprs) case Err(f) => Err(f) case Ok(simple) => Project(show, input, simple))
    case Filter(input, condition, _) =>
      (match Simplify(k, input.schema, condition) case Err(f) => Err(f) case Ok(s) => MakeFilter(input, s))
    case Aggregation(input, groups, aggregates, _) =>
      (match (SimplifyAll(k, input.schema, groups), SimplifyAll(k, input.schema, aggregates))
       case (Ok(g), Ok(a)) => MakeAggregation(show, input, g, a)
       case _ => Err(IllTyped))
    case Sort(input, keys, _) =>
      (match SimplifyAll(k, input.schema, KeyExprs(keys))
       case Err(f) => Err(f)
       case Ok(simple) => MakeSort(input, seq(|keys|, i requires 0 <= i < |keys| => keys[i].(expr := simple[i]))))
    case Limit(input, limit, _) => Ok(MakeLimit(input, limit))
    case Join(left, right, kind, leftOn, rightOn, _) =>
      (match (SimplifyAll(k, left.schema, leftOn), SimplifyAll(k, right.schema, rightOn))
       case (Ok(l), Ok(r)) => MakeJoin(left, right, kind, l, r)
       case _ => Err(IllTyped))
  }

  /** `push_filter_into_scan`. */
  function PushFilter(p: Plan): Result<Plan, PlanError> {
    if !p.Filter? then Ok(p)
    else if p.input.Scan? then Ok(p.input.(filters := p.input.filters + [p.condition]))
    else MakeFilter(p.input, p.condition)
  }

  /** The unqualified names of the columns an expression mentions. */
  function ColumnNames(e: Expr): set<string> {
    match e
    case Column(name) => {Unqualified(name)}
    case Binary(l, _, r) => ColumnNames(l) + ColumnNames(r)
    case IsNull(x, _) => ColumnNames(x)
    case Cast(x, _) => ColumnNames(x)
    case Alias(x, _) => ColumnNames(x)
    case Aggregate(_, x, _) => ColumnNames(x)
    case _ => {}
  }

  function AllColumnNames(exprs: seq<Expr>): set<string> {
    if exprs == [] then {} else AllColumnNames(exprs[..|exprs| - 1]) + ColumnNames(exprs[|exprs| - 1])
  }

  /** `push_projection_into_scan`: the scan reads only the columns that the expressions and its own
      filters mention. */
  ghost function PushProjection(show: Expr -> string, p: Plan): Result<Plan, PlanError> {
    if !p.Projection? then Ok(p)
    else if !p.input.Scan? then Project(show, p.input, p.exprs)
    else
      var scan := p.input;
      var required := AllColumnNames(p.exprs + scan.filters);
      if required == {} then Project(show, scan, p.exprs)
      else
        match ResolveAll(scan.schema, Sorted(required))
        case None => Err(Missing)
        case Some(indices) => Project(show, Narrowed(scan, indices), p.exprs)
  }

  /** The scan restricted to some of its columns. */
  function Narrowed(scan: Plan, indices: seq<nat>): Plan
    requires scan.Scan? && forall i | 0 <= i < |indices| :: indices[i] < |scan.schema|
  {
    Scan(scan.table,
         Some(seq(|indices|, i requires 0 <= i < |indices| => scan.schema[indices[i]].name)),
         scan.filters,
         TakeFields(scan.schema, indices))
  }

  /** Every expression is the column it replaces, under the same name. */
  predicate IdentityProjection(show: Expr -> string, schema: Schema, exprs: seq<Expr>) {
    && |exprs| == |schema|
    && forall i | 0 <= i < |exprs| ::
      var x := Unalias(exprs[i]);
      x.Column? && Name(show, exprs[i]) == schema[i].name && Unqualified(x.name) == schema[i].name
  }

  /** `eliminate_identity_projection`. */
  function EliminateIdentity(show: Expr -> string, p: Plan): Result<Plan, PlanError> {
    if !p.Projection? then Ok(p)
    else if IdentityProjection(show, p.input.schema, p.exprs) then Ok(p.input)
    else Project(show, p.input, p.exprs)
  }

  /** The rules that follow the children, in order. */
  ghost function Rules(k: Kernels, show: Expr -> string, p: Plan): Result<Plan, PlanError> {
    match SimplifyExpressions(k, show, p)
    case Err(f) => Err(f)
    case Ok(simplified) =>
      match PushFilter(simplified)
      case Err(f) => Err(f)
      case Ok(filtered) =>
        match PushProjection(show, filtered)
        case Err(f) => Err(f)
        case Ok(projected) => EliminateIdentity(show, projected)
  }

  /** `optimize`. */
  ghost function Optimize(k: Kernels, show: Expr -> string, p: Plan): Result<Plan, PlanError>
    decreases p, 1
  {
    match OptimizeChildren(k, show, p)
    case Err(f) => Err(f)
    case Ok(rebuilt) => Rules(k, show, rebuilt)
  }

  ghost function OptimizeChildren(k: Kernels, show: Expr -> string, p: Plan): Result<Plan, PlanError>
    decreases p, 0
  {
    match p
    case Scan(_, _, _, _) => Ok(p)
    case Projection(input, exprs, _) =>
      (match Optimize(k, show, input) case Err(f) => Err(f) case Ok(i) => Project(show, i, exprs))
    case Filter(input, condition, _) =>
      (match Optimize(k, show, input) case Err(f) => Err(f) case Ok(i) => MakeFilter(i, condition))
    case Aggregation(input, groups, aggregates, _) =>
      (match Optimize(k, show, input) case Err(f) => Err(f) case Ok(i) => MakeAggregation(show, i, groups, aggregates))
    case Sort(input, keys, _) =>
      (match Optimize(k, show, input) case Err(f) => Err(f) case Ok(i) => MakeSort(i, keys))
    case Limit(input, limit, _) =>
      (match Optimize(k, show, input) case Err(f) => Err(f) case Ok(i) => Ok(MakeLimit(i, limit)))
    case Join(left, right, kind, leftOn, rightOn, _) =>
      (match Optimize(k, show, left)
       case Err(f) => Err(f)
       case Ok(l) =>
         match Optimize(k, show, right)
         case Err(f) => Err(f)
         case Ok(r) => MakeJoin(l, r, kind, leftOn, rightOn))
  }
}
