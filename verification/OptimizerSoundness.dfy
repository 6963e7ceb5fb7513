/** The optimizer preserves the rows of a query. */
module OptimizerSoundness {
  import opened Basics
  import opened Values
  import opened Expr
  import opened ExprTyping
  import opened Simplification
  import opened ExprDrift
  import opened Plans
  import opened PlanRelation
  import opened PlanTyping
  import opened Optimizer
  import opened ScanNarrowing
  import opened ScanFiltering
  import Agg = Aggregates
  import G = GroupBy
  import Pruning

  // ----- what an optimized operator needs --------------------------------------------------------

  /** The simplified keys of a join, pair by pair, do not run with two widths of one number. */
  predicate KeysKept(k: Kernels, plan: Schema, run: Schema, leftOn: seq<Expr>, plan2: Schema, run2: Schema, rightOn: seq<Expr>) {
    |leftOn| == |rightOn| ==> forall i | 0 <= i < |leftOn| :: KeyKept(k, plan, run, leftOn[i], plan2, run2, rightOn[i])
  }

  predicate KeyKept(k: Kernels, plan: Schema, run: Schema, l: Expr, plan2: Schema, run2: Schema, r: Expr) {
    Simplify(k, plan, l).Ok? && Simplify(k, plan2, r).Ok? ==>
      var a, b := RunType(k, run, Simplify(k, plan, l).value), RunType(k, run2, Simplify(k, plan2, r).value);
      a.Some? && b.Some? && Normalized(a.value) == Normalized(b.value) ==> a == b
  }

  /** Nothing is read differently: a scan that replaces an operator hands on the columns in their
      order and prunes by the columns that its new filter reads, and a limit comes to select the rows
      of a sort only where it did before. */
  predicate ReadsAlike(db: Database, p: Plan, p': Plan) {
    && (p'.Scan? ==>
          && (p.Projection? ==> Ordered(db, p'))
          && (p.Filter? && p'.filters != [] ==> FilterReads(db, p', p'.filters[|p'.filters| - 1])))
    && (p.Limit? && p'.Limit? && p'.input.Sort? ==> p.input.Sort?)
  }

  /** The operator that replaces `p` runs: an aggregation and a join can build their columns, the keys
      of a join have the same types on both sides once both hand on a batch, and those of a sort
      have types that can be sorted by. */
  predicate Admits(k: Kernels, db: Database, p: Plan, p': Plan) {
    && (p.Aggregation? && p'.Aggregation? ==> Builds(p'.schema, |p'.groups|))
    && (p.Join? && p'.Join? ==>
          && Builds(p'.schema, 0)
          && (Sends(k, db, p'.left) && Sends(k, db, p'.right) ==>
                KeysKept(k, p.left.schema, Out(db, p.left), p.leftOn, p.right.schema, Out(db, p.right), p.rightOn)))
    && (p.Sort? && p'.Sort? && Sends(k, db, p'.input) ==> Sortable(k, db, p'.schema, KeyExprs(p'.keys)))
  }

  /** The operators above find what they found: no type narrows where a batch is made of it. */
  predicate HandsOn(p: Plan, p': Plan) {
    p.Aggregation? || p.Sort? || p.Join? ==> SchemaShifts(false, p.schema, p'.schema)
  }

  /** A plan all of whose operators survive optimization. */
  ghost predicate Steady(k: Kernels, show: Expr -> string, db: Database, p: Plan)
    decreases p, 1
  {
    && SteadyInputs(k, show, db, p)
    && (Optimize(k, show, p).Ok? ==>
          var p' := Optimize(k, show, p).value; ReadsAlike(db, p, p') && Admits(k, db, p, p') && HandsOn(p, p'))
  }

  ghost predicate SteadyInputs(k: Kernels, show: Expr -> string, db: Database, p: Plan)
    decreases p, 0
  {
    match p
    case Scan(_, _, _, _) => true
    case Join(left, right, _, _, _, _) => Steady(k, show, db, left) && Steady(k, show, db, right)
    case _ => Steady(k, show, db, p.input)
  }

  /** `p'` yields the rows of `p`, under the same names, and describes them alike where `p` hands on
      a batch. */
  ghost predicate Preserved(k: Kernels, db: Database, p: Plan, p': Plan, rows: seq<Row>) {
    && Run(k, db, p') == Some(rows)
    && SameNames(p.schema, p'.schema)
    && Linked(p'.schema, Out(db, p'))
    && (p'.Scan? ==> ScanOk(db, p'))
    && (Sends(k, db, p') ==> Sends(k, db, p))
    && (Sends(k, db, p) ==> Related(Out(db, p), Out(db, p'), rows))
  }

  /** An input and what it became. */
  ghost predicate Input(k: Kernels, db: Database, c: Plan, c': Plan, rows: seq<Row>) {
    Run(k, db, c) == Some(rows) && Sound(k, db, c, rows) && Preserved(k, db, c, c', rows)
  }

  lemma QuietInput(k: Kernels, db: Database, c: Plan, c': Plan, rows: seq<Row>)
    requires LawfulDb(k, db) && Input(k, db, c, c', rows)
    ensures !Sends(k, db, c') ==> rows == []
    ensures !Sends(k, db, c) ==> rows == [] && !Sends(k, db, c')
  {
    hide Run; hide Sends; hide LawfulDb; hide Related; hide Linked; hide AllFit; hide Out; hide ScanOk;
    if !Sends(k, db, c') { NothingSent(k, db, c'); }
    if !Sends(k, db, c) { NothingSent(k, db, c); }
  }

  lemma NothingRelated(a: Schema, b: Schema, rows: seq<Row>)
    requires SchemaShifts(false, a, b) && rows == []
    ensures Related(a, b, rows)
  {
  }

  lemma NoRowsMapped(k: Kernels, names: Schema, exprs: seq<Expr>)
    ensures MapRows(k, names, exprs, []) == Some([])
  {
  }

  // ----- names and wildcards -------------------------------------------------------------------------

  lemma SimplifiedPlain(k: Kernels, show: Expr -> string, plan: Schema, e: Expr, s: Expr)
    requires Plain(e) && Simplify(k, plan, e) == Ok(s)
    ensures !s.Wildcard? && Name(show, s) == Name(show, e) && NoAlias(Unalias(e))
  {
    hide Eval;
    if e.Literal? { assert Eval(k, [], [], e) == Ok(Typed(TypeOf(e.value), e.value)) by { LiteralEvaluates(k, e); } }
    if e.Aggregate? && e.expr.Column? { ColumnIsFixed(k, plan, e.expr); }
  }

  lemma LiteralEvaluates(k: Kernels, e: Expr)
    requires e.Literal?
    ensures Eval(k, [], [], e) == Ok(Typed(TypeOf(e.value), e.value))
  {
  }

  lemma ColumnIsFixed(k: Kernels, plan: Schema, e: Expr)
    requires e.Column? && Simplify(k, plan, e).Ok?
    ensures Simplify(k, plan, e) == Ok(e)
  {
  }

  lemma {:induction false} NothingToExpand(exprs: seq<Expr>, schema: Schema)
    requires forall i | 0 <= i < |exprs| :: !exprs[i].Wildcard?
    ensures Expand(exprs, schema) == exprs
  {
    if exprs != [] {
      NothingToExpand(exprs[..|exprs| - 1], schema);
      assert exprs == exprs[..|exprs| - 1] + [exprs[|exprs| - 1]];
    }
  }

  lemma TypedIsNoWildcard(show: Expr -> string, plan: Schema, exprs: seq<Expr>)
    requires FieldsOf(show, plan, exprs).Ok?
    ensures forall i | 0 <= i < |exprs| :: !exprs[i].Wildcard?
  {
    hide FieldsOf;
    forall i | 0 <= i < |exprs| ensures !exprs[i].Wildcard? { assert TypeIn(plan, exprs[i]).Ok?; }
  }

  lemma SimplifiedIsNoWildcard(k: Kernels, plan: Schema, exprs: seq<Expr>, simple: seq<Expr>)
    requires RootAliases(exprs) && SimplifyAll(k, plan, exprs) == Ok(simple) && forall i | 0 <= i < |exprs| :: !exprs[i].Wildcard?
    ensures forall i | 0 <= i < |simple| :: !simple[i].Wildcard?
  {
    hide Simplify; hide SimplifyAll; hide NoAlias;
    forall i | 0 <= i < |simple| ensures !simple[i].Wildcard? {
      if exprs[i].Alias? { AliasIsKept(k, plan, exprs[i]); } else { NotAWildcard(k, plan, exprs[i]); }
    }
  }

  lemma AliasIsKept(k: Kernels, plan: Schema, e: Expr)
    requires e.Alias? && Simplify(k, plan, e).Ok?
    ensures Simplify(k, plan, e).value.Alias?
  {
  }

  /** Simplified outputs keep their names. */
  lemma SimplifiedNames(k: Kernels, show: Expr -> string, plan: Schema, plan': Schema, exprs: seq<Expr>, simple: seq<Expr>, fields: Schema, fields': Schema)
    requires PlainAll(exprs) && |simple| == |exprs| && forall i | 0 <= i < |exprs| :: Simplify(k, plan', exprs[i]) == Ok(simple[i])
    requires FieldsOf(show, plan, exprs) == Ok(fields) && FieldsOf(show, plan', simple) == Ok(fields')
    ensures SameNames(fields, fields')
  {
    hide Simplify; hide Plain; hide FieldsOf; hide Name; hide TypeIn;
    forall i | 0 <= i < |fields| ensures fields[i].name == fields'[i].name {
      SimplifiedPlain(k, show, plan', exprs[i], simple[i]);
    }
  }

  // ----- computed columns ----------------------------------------------------------------------------

  /** A list of simplified expressions carries the values of the original list. */
  lemma ListCarries(k: Kernels, run: Schema, plan': Schema, run': Schema, exprs: seq<Expr>, simple: seq<Expr>, rows: seq<Row>)
    requires Lawful(k) && Related(run, run', rows) && AllFit(k, run, rows) && Compatible(plan', run')
    requires RootAliases(exprs) && SimplifyAll(k, plan', exprs) == Ok(simple)
    ensures CarriesAll(k, run, run', exprs, simple, rows)
  {
    hide Lawful; hide Related; hide AllFit; hide Compatible; hide Carries; hide Simplify; hide NoAlias;
    forall i | 0 <= i < |exprs| ensures Carries(k, run, run', exprs[i], simple[i], rows) {
      ExpressionCarries(k, run, plan', run', exprs[i], simple[i], rows);
    }
  }

  lemma ListStaysExact(k: Kernels, plan: Schema, run: Schema, plan': Schema, run': Schema, exprs: seq<Expr>, simple: seq<Expr>, rows: seq<Row>)
    requires Lawful(k) && Related(run, run', rows) && Compatible(plan, run) && Compatible(plan', run')
    requires RootAliases(exprs) && SimplifyAll(k, plan', exprs) == Ok(simple) && ExactAll(k, plan, run, exprs)
    requires forall i | 0 <= i < |exprs| :: TypeIn(plan', exprs[i]).Ok? && TypeIn(plan', simple[i]).Ok?
    ensures ExactAll(k, plan', run', simple)
  {
    hide Lawful; hide Related; hide Compatible; hide Exact; hide Simplify; hide NoAlias; hide TypeIn;
    forall i | 0 <= i < |exprs| ensures Exact(k, plan', run', simple[i]) {
      ExpressionStaysExact(k, plan, run, plan', run', exprs[i], simple[i], rows);
    }
  }

  lemma PlainHasRootAliases(exprs: seq<Expr>)
    requires PlainAll(exprs)
    ensures RootAliases(exprs)
  {
  }

  /** Inferred types fade, or narrow, when a list is simplified. */
  predicate ListFades(plan: Schema, exprs: seq<Expr>, plan': Schema, simple: seq<Expr>) {
    |simple| == |exprs| && forall i | 0 <= i < |exprs| :: TypeFades(plan, exprs[i], plan', simple[i])
  }

  predicate TypeFades(plan: Schema, e: Expr, plan': Schema, s: Expr) {
    TypeIn(plan, e).Ok? && TypeIn(plan', s).Ok? ==>
      var t, t' := TypeIn(plan, e).value, TypeIn(plan', s).value;
      Fades(t, t') || Narrows(t, t')
  }

  lemma ListsFade(k: Kernels, plan: Schema, run: Schema, plan': Schema, run': Schema, exprs: seq<Expr>, simple: seq<Expr>, rows: seq<Row>)
    requires Lawful(k) && Related(run, run', rows) && Compatible(plan, run) && Compatible(plan', run')
    requires RootAliases(exprs) && SimplifyAll(k, plan', exprs) == Ok(simple) && Runs(k, run, exprs)
    ensures ListFades(plan, exprs, plan', simple)
  {
    hide Lawful; hide Compatible; hide Simplify; hide NoAlias; hide TypeIn; hide RunType; hide Fades; hide Narrows; hide Related;
    RelatedGrows(run, run', rows);
    forall i | 0 <= i < |exprs| ensures TypeFades(plan, exprs[i], plan', simple[i]) {
      if TypeIn(plan, exprs[i]).Ok? && TypeIn(plan', simple[i]).Ok? {
        InferredShifts(false, k, plan, run, plan', run', exprs[i], simple[i]);
      }
    }
  }

  /** Computed columns of related inputs are related. */
  lemma ComputedRelated(k: Kernels, show: Expr -> string, plan: Schema, run: Schema, plan': Schema, run': Schema,
                        exprs: seq<Expr>, simple: seq<Expr>, fields: Schema, fields': Schema, rows: seq<Row>)
    requires CarriesAll(k, run, run', exprs, simple, rows) && MapRows(k, run, exprs, rows).Some?
    requires FieldsOf(show, plan, exprs) == Ok(fields) && FieldsOf(show, plan', simple) == Ok(fields')
    requires ExactAll(k, plan, run, exprs) && ExactAll(k, plan', run', simple)
    requires SameNames(fields, fields')
    requires ListFades(plan, exprs, plan', simple)
    ensures Related(fields, fields', MapRows(k, run, exprs, rows).value)
  {
    hide MapRows; hide RunType; hide TypeIn; hide Eval; hide FieldsOf; hide Name; hide NullColumn;
    var out := MapRows(k, run, exprs, rows).value;
    forall i | 0 <= i < |fields|
      ensures fields[i].ty == fields'[i].ty || (Fades(fields[i].ty, fields'[i].ty) && NullColumn(out, i))
      ensures fields[i].name == fields'[i].name
    {
      assert Exact(k, plan, run, exprs[i]) && Exact(k, plan', run', simple[i]) && Carries(k, run, run', exprs[i], simple[i], rows);
      if fields[i].ty != fields'[i].ty { MappedColumn(k, run, run', exprs, simple, rows, i); }
    }
  }

  lemma CarriesType(k: Kernels, run: Schema, run': Schema, e: Expr, s: Expr, rows: seq<Row>)
    requires Carries(k, run, run', e, s, rows) && RunType(k, run, e).Some?
    ensures RunType(k, run', s).Some?
  {
  }

  /** Expressions that run over an input give the same values, simplified, over what it became. */
  lemma ListKept(k: Kernels, db: Database, c: Plan, c': Plan, exprs: seq<Expr>, simple: seq<Expr>, rows: seq<Row>)
    requires Lawful(k) && LawfulDb(k, db) && Input(k, db, c, c', rows) && RootAliases(exprs) && SimplifyAll(k, c'.schema, exprs) == Ok(simple)
    requires MapRows(k, Out(db, c), exprs, rows).Some?
    ensures MapRows(k, Out(db, c'), simple, rows) == MapRows(k, Out(db, c), exprs, rows)
    ensures Sends(k, db, c) ==> CarriesAll(k, Out(db, c), Out(db, c'), exprs, simple, rows)
    ensures Sends(k, db, c') && Runs(k, Out(db, c), exprs) ==> Runs(k, Out(db, c'), simple)
  {
    hide Lawful; hide LawfulDb; hide Related; hide AllFit; hide Compatible; hide Carries; hide Simplify; hide NoAlias; hide RootAliases; hide Linked;
    hide MapRows; hide Run; hide RunType; hide Out; hide ScanOk; hide SimplifyAll; hide Sends;
    QuietInput(k, db, c, c', rows);
    LinkedIsCompatible(c'.schema, Out(db, c'));
    if Sends(k, db, c) {
      ListCarries(k, Out(db, c), c'.schema, Out(db, c'), exprs, simple, rows);
      MapRowsCarries(k, Out(db, c), Out(db, c'), exprs, simple, rows);
      if Runs(k, Out(db, c), exprs) {
        forall i | 0 <= i < |simple| ensures RunType(k, Out(db, c'), simple[i]).Some? {
          assert Carries(k, Out(db, c), Out(db, c'), exprs[i], simple[i], rows);
          CarriesType(k, Out(db, c), Out(db, c'), exprs[i], simple[i], rows);
        }
      }
    } else {
      NoRowsMapped(k, Out(db, c), exprs);
      NoRowsMapped(k, Out(db, c'), simple);
    }
  }

  // ----- projections ---------------------------------------------------------------------------------

  /** A projection of an input that hands on a batch: the simplified expressions run as declared, and
      the columns are described alike. */
  lemma ProjectionRuns(k: Kernels, show: Expr -> string, db: Database, p: Plan, c': Plan, simple: seq<Expr>, rows: seq<Row>, out: seq<Row>)
    requires Lawful(k) && LawfulDb(k, db) && p.Projection? && RootAliases(p.exprs) && FieldsOf(show, p.input.schema, p.exprs) == Ok(p.schema)
    requires Input(k, db, p.input, c', rows) && Run(k, db, p) == Some(out) && Sends(k, db, p.input)
    requires FieldsOf(show, c'.schema, p.exprs).Ok? && SimplifyAll(k, c'.schema, p.exprs) == Ok(simple) && FieldsOf(show, c'.schema, simple).Ok?
    ensures RunAs(k, Out(db, c'), simple, FieldsOf(show, c'.schema, simple).value)
    ensures SameNames(p.schema, FieldsOf(show, c'.schema, simple).value) ==> Related(p.schema, FieldsOf(show, c'.schema, simple).value, out)
  {
    hide MapRows; hide RunType; hide TypeIn; hide Eval; hide Lawful; hide LawfulDb; hide Simplify; hide Linked; hide Related;
    hide AllFit; hide ScanOk; hide Sends; hide FieldsOf; hide SimplifyAll; hide CarriesAll; hide RootAliases; hide ListFades;
    var run, run', fields' := Out(db, p.input), Out(db, c'), FieldsOf(show, c'.schema, simple).value;
    ListKept(k, db, p.input, c', p.exprs, simple, rows);
    LinkedIsCompatible(p.input.schema, run);
    LinkedIsCompatible(c'.schema, run');
    assert ExactAll(k, p.input.schema, run, p.exprs);
    assert Runs(k, run, p.exprs) by { ExactRuns(k, p.input.schema, run, p.exprs); }
    ListsFade(k, p.input.schema, run, c'.schema, run', p.exprs, simple, rows);
    ListStaysExact(k, p.input.schema, run, c'.schema, run', p.exprs, simple, rows);
    if SameNames(p.schema, fields') {
      ComputedRelated(k, show, p.input.schema, run, c'.schema, run', p.exprs, simple, p.schema, fields', rows);
    }
    forall i | 0 <= i < |simple| ensures RunType(k, run', simple[i]) == Some(fields'[i].ty) {
      assert Exact(k, c'.schema, run', simple[i]);
    }
  }

  /** Projection, rebuilt on the optimized input with simplified expressions. */
  lemma ProjectionPreserved(k: Kernels, show: Expr -> string, db: Database, p: Plan, c': Plan, simple: seq<Expr>, rows: seq<Row>, out: seq<Row>)
    requires Lawful(k) && LawfulDb(k, db) && p.Projection? && RootAliases(p.exprs) && FieldsOf(show, p.input.schema, p.exprs) == Ok(p.schema)
    requires Input(k, db, p.input, c', rows) && Run(k, db, p) == Some(out)
    requires FieldsOf(show, c'.schema, p.exprs).Ok? && SimplifyAll(k, c'.schema, p.exprs) == Ok(simple) && FieldsOf(show, c'.schema, simple).Ok?
    ensures var p' := Projection(c', simple, FieldsOf(show, c'.schema, simple).value);
      && Run(k, db, p') == Some(out) && Sends(k, db, p') == Sends(k, db, c') && Out(db, p') == p'.schema
      && (PlainAll(p.exprs) ==> Preserved(k, db, p, p', out))
  {
    hide MapRows; hide RunType; hide Eval; hide Lawful; hide LawfulDb; hide Linked; hide Related; hide RunAs; hide Simplify;
    hide AllFit; hide ScanOk; hide FieldsOf; hide SimplifyAll; hide CarriesAll; hide RootAliases; hide PlainAll; hide Runs;
    var fields' := FieldsOf(show, c'.schema, simple).value;
    ListKept(k, db, p.input, c', p.exprs, simple, rows);
    QuietInput(k, db, p.input, c', rows);
    if Sends(k, db, p.input) { ProjectionRuns(k, show, db, p, c', simple, rows, out); }
    if PlainAll(p.exprs) {
      SimplifiedNames(k, show, p.input.schema, c'.schema, p.exprs, simple, p.schema, fields');
      LinkedToItself(fields');
    }
  }

  /** `q` yields the rows of `p` in the same batches, described by the same columns. */
  ghost predicate Same(k: Kernels, db: Database, p: Plan, q: Plan, rows: seq<Row>) {
    && Run(k, db, q) == Some(rows) && Out(db, q) == Out(db, p) && Sends(k, db, q) == Sends(k, db, p)
    && SameNames(p.schema, q.schema) && Linked(q.schema, Out(db, q))
    && (q.Scan? ==> ScanOk(db, q))
  }

  lemma SamePreserved(k: Kernels, db: Database, p: Plan, q: Plan, p': Plan, rows: seq<Row>)
    requires Preserved(k, db, p, q, rows) && Same(k, db, q, p', rows)
    ensures Preserved(k, db, p, p', rows)
  {
    hide Run; hide Related; hide Linked; hide ScanOk; hide Sends; hide Out;
  }

  /** Narrowing the scan below a projection changes nothing above it. */
  lemma NarrowingPreserves(k: Kernels, show: Expr -> string, db: Database, q: Plan, indices: seq<nat>, out: seq<Row>)
    requires q.Projection? && q.input.Scan? && ScanOk(db, q.input) && FieldsOf(show, q.input.schema, q.exprs) == Ok(q.schema)
    requires Run(k, db, q) == Some(out)
    requires ResolveAll(q.input.schema, Sorted(AllColumnNames(q.exprs + q.input.filters))) == Some(indices)
    requires forall i | 0 <= i < |indices| :: indices[i] < |q.input.schema|
    requires FieldsOf(show, Narrowed(q.input, indices).schema, q.exprs).Ok?
    ensures var narrow, fields := Narrowed(q.input, indices), FieldsOf(show, Narrowed(q.input, indices).schema, q.exprs).value;
      && fields == q.schema && Same(k, db, q, Projection(narrow, q.exprs, fields), out) && Run(k, db, narrow).Some?
      && (Linked(narrow.schema, Out(db, narrow)) <==> Ordered(db, narrow)) && (Ordered(db, narrow) ==> ScanOk(db, narrow))
      && forall r | 0 <= r < |Run(k, db, narrow).value| :: |Run(k, db, narrow).value[r]| == |Out(db, narrow)|
  {
    hide ResolveAll; hide Sorted; hide AllColumnNames; hide MapRows; hide RunType; hide TypeIn; hide ScanOk; hide ColumnNames;
    hide Linked; hide Name; hide Scanned; hide Delivers; hide Ordered; hide AllBoolean; hide TakeRow; hide ScanColumns; hide FieldsOf; hide Out;
    var scan, narrow := q.input, Narrowed(q.input, indices);
    var names := Sorted(AllColumnNames(q.exprs + scan.filters));
    RequiredNarrowing(db, scan, q.exprs, indices);
    NarrowedScan(db, scan, names, indices);
    NarrowedNames(db, scan, names, indices);
    NarrowedRows(k, db, scan, names, indices);
    var handed := FileOrderNarrowing(db, scan, names, indices);
    var rows, eff := Run(k, db, scan).value, InFileOrder(db, scan, indices);
    ScanRowsWidth(eff, rows);
    CoversMore(names, handed, q.exprs);
    MapRowsNarrowed(k, db, scan, handed, eff, q.exprs, rows);
    var fields := FieldsOf(show, narrow.schema, q.exprs).value;
    forall i | 0 <= i < |q.exprs| ensures fields[i] == q.schema[i] {
      TypeInNarrowed(db, scan, names, indices, q.exprs[i]);
    }
    assert fields == q.schema;
    if Sends(k, db, scan) {
      forall i | 0 <= i < |q.exprs| ensures RunType(k, Out(db, narrow), q.exprs[i]) == Some(fields[i].ty) {
        RunTypeNarrowed(k, db, scan, handed, eff, q.exprs[i]);
      }
    }
    ProjectionOut(db, q);
    ProjectionOut(db, Projection(narrow, q.exprs, fields));
    LinkedToItself(fields);
  }

  lemma CoversMore(names: seq<string>, more: seq<string>, exprs: seq<Expr>)
    requires Covers(names, exprs) && forall x | x in names :: x in more
    ensures Covers(more, exprs)
  {
    hide ColumnNames;
  }

  lemma ProjectionOut(db: Database, q: Plan)
    requires q.Projection?
    ensures Out(db, q) == q.schema
  {
  }

  /** A projection that the optimizer takes for the identity does return its input rows. */
  lemma {:induction false} IdentityRow(k: Kernels, run: Schema, row: Row, exprs: seq<Expr>)
    requires |exprs| <= |run| == |row|
    requires forall i | 0 <= i < |run| :: !Qualified(run[i].name)
    requires forall i | 0 <= i < |exprs| :: Unalias(exprs[i]).Column? && Unqualified(Unalias(exprs[i]).name) == run[i].name
    requires EvalAll(k, run, row, exprs).Some?
    ensures EvalAll(k, run, row, exprs) == Some(row[..|exprs|])
  {
    hide Resolve; hide Qualified; hide Unqualified;
    if exprs != [] {
      var n := |exprs| - 1;
      IdentityRow(k, run, row, exprs[..n]);
      var name := Unalias(exprs[n]).name;
      assert Eval(k, run, row, exprs[n]).Ok?;
      var i := Resolve(run, name).value;
      ResolvesUniquely(run, name, i);
      assert row[..n + 1] == row[..n] + [row[n]];
    }
  }

  /** Dropping an identity projection keeps rows, names and batches where the input below hands on
      its columns under the names of its plan. */
  lemma IdentityPreserves(k: Kernels, show: Expr -> string, db: Database, q: Plan, out: seq<Row>)
    requires q.Projection? && IdentityProjection(show, q.input.schema, q.exprs) && FieldsOf(show, q.input.schema, q.exprs) == Ok(q.schema)
    requires Linked(q.input.schema, Out(db, q.input)) && (q.input.Scan? ==> ScanOk(db, q.input))
    requires Run(k, db, q) == Some(out)
    requires Run(k, db, q.input).Some? && forall r | 0 <= r < |Run(k, db, q.input).value| :: |Run(k, db, q.input).value[r]| == |Out(db, q.input)|
    ensures Same(k, db, q, q.input, out)
  {
    hide MapRows; hide RunType; hide Qualified; hide Unqualified; hide ScanOk; hide EvalAll; hide Resolve; hide RunAs; hide FieldsOf;
    var plan, run, rows := q.input.schema, Out(db, q.input), Run(k, db, q.input).value;
    IdentityNames(show, plan, run, q.exprs);
    forall r | 0 <= r < |rows| ensures out[r] == rows[r] {
      MapRowsAt(k, run, q.exprs, rows, r);
      IdentityRow(k, run, rows[r], q.exprs);
      assert rows[r][..|q.exprs|] == rows[r];
    }
    assert out == rows;
    forall i | 0 <= i < |plan| ensures q.schema[i] == run[i] {
      IdentityType(plan, q.exprs[i], i);
    }
    assert q.schema == run;
  }

  lemma IdentityNames(show: Expr -> string, plan: Schema, run: Schema, exprs: seq<Expr>)
    requires IdentityProjection(show, plan, exprs) && Linked(plan, run)
    ensures SameNames(plan, run) && forall i | 0 <= i < |run| :: !Qualified(run[i].name)
  {
    hide Qualified; hide Unqualified;
    forall i | 0 <= i < |plan| ensures !Qualified(plan[i].name) {
      assert Unqualified(Unalias(exprs[i]).name) == plan[i].name;
      PlainName(Unalias(exprs[i]).name);
    }
    if !SameNames(plan, run) {
      var q :| Qualifies(q, plan, run);
      if |plan| > 0 {
        LastPartOf(q, run[0].name);
        assert false;
      }
    }
  }

  lemma IdentityType(plan: Schema, e: Expr, i: nat)
    requires i < |plan| && forall j | 0 <= j < |plan| :: !Qualified(plan[j].name)
    requires Unalias(e).Column? && Unqualified(Unalias(e).name) == plan[i].name && TypeIn(plan, e).Ok?
    ensures TypeIn(plan, e) == Ok(plan[i].ty)
  {
    hide Resolve; hide Qualified; hide Unqualified;
    var name := Unalias(e).name;
    assert TypeIn(plan, Column(name)).Ok?;
    ResolvesUniquely(plan, name, Resolve(plan, name).value);
  }

  /** The two projection rules after the expressions have been simplified. */
  lemma ProjectionRules(k: Kernels, show: Expr -> string, db: Database, q: Plan, q2: Plan, p': Plan, rows: seq<Row>, out: seq<Row>)
    requires q.Projection? && (forall i | 0 <= i < |q.exprs| :: !q.exprs[i].Wildcard?)
    requires FieldsOf(show, q.input.schema, q.exprs) == Ok(q.schema) && Run(k, db, q) == Some(out)
    requires Run(k, db, q.input) == Some(rows) && Linked(q.input.schema, Out(db, q.input)) && (q.input.Scan? ==> ScanOk(db, q.input))
    requires forall r | 0 <= r < |rows| :: |rows[r]| == |Out(db, q.input)|
    requires PushProjection(show, q) == Ok(q2) && EliminateIdentity(show, q2) == Ok(p')
    ensures (p'.Scan? ==> Ordered(db, p')) ==> Same(k, db, q, p', out)
  {
    hide FieldsOf; hide Same; hide Linked; hide ScanOk; hide Run; hide Out; hide Sorted; hide AllColumnNames; hide ResolveAll; hide Narrowed;
    hide IdentityProjection; hide Ordered;
    NothingToExpand(q.exprs, q.input.schema);
    if q2 == q {
      if IdentityProjection(show, q.input.schema, q.exprs) { IdentityPreserves(k, show, db, q, out); } else { SameAsItself(k, db, q, out); }
    } else {
      var scan := q.input;
      var indices := ResolveAll(scan.schema, Sorted(AllColumnNames(q.exprs + scan.filters))).value;
      var narrow := Narrowed(scan, indices);
      assert narrow.Scan? by { NarrowedIsScan(scan, indices); }
      NothingToExpand(q.exprs, narrow.schema);
      NarrowingPreserves(k, show, db, q, indices, out);
      if IdentityProjection(show, narrow.schema, q.exprs) && Ordered(db, narrow) {
        SameRuns(k, db, q, q2, out);
        IdentityPreserves(k, show, db, q2, out);
        SameTwice(k, db, q, q2, p', out);
      }
    }
  }

  lemma NarrowedIsScan(scan: Plan, indices: seq<nat>)
    requires scan.Scan? && forall i | 0 <= i < |indices| :: indices[i] < |scan.schema|
    ensures Narrowed(scan, indices).Scan?
  {
  }

  lemma SameAsItself(k: Kernels, db: Database, q: Plan, out: seq<Row>)
    requires q.Projection? && Run(k, db, q) == Some(out)
    ensures Same(k, db, q, q, out)
  {
    hide Run; hide Sends;
    LinkedToItself(q.schema);
  }

  lemma SameRuns(k: Kernels, db: Database, q: Plan, q2: Plan, out: seq<Row>)
    requires Same(k, db, q, q2, out)
    ensures Run(k, db, q2) == Some(out)
  {
  }

  lemma SameTwice(k: Kernels, db: Database, a: Plan, b: Plan, c: Plan, out: seq<Row>)
    requires Same(k, db, a, b, out) && Same(k, db, b, c, out)
    ensures Same(k, db, a, c, out)
  {
    hide Run; hide Linked; hide ScanOk; hide Sends; hide Out;
  }

  lemma ExactRuns(k: Kernels, plan: Schema, run: Schema, exprs: seq<Expr>)
    requires ExactAll(k, plan, run, exprs)
    ensures Runs(k, run, exprs)
  {
    hide RunType; hide TypeIn;
    forall i | 0 <= i < |exprs| ensures RunType(k, run, exprs[i]).Some? { assert Exact(k, plan, run, exprs[i]); }
  }

  lemma InputFacts(k: Kernels, db: Database, c: Plan, c': Plan, rows: seq<Row>)
    requires LawfulDb(k, db) && Input(k, db, c, c', rows)
    ensures Run(k, db, c') == Some(rows) && Linked(c'.schema, Out(db, c')) && (c'.Scan? ==> ScanOk(db, c'))
    ensures forall r | 0 <= r < |rows| :: |rows[r]| == |Out(db, c')|
  {
    hide Linked; hide ScanOk; hide Run; hide Related; hide LawfulDb; hide Sends;
    QuietInput(k, db, c, c', rows);
    if Sends(k, db, c) { AllRelatedFit(k, Out(db, c), Out(db, c'), rows); }
  }

  /** A projection above an input whose optimized form is preserved. Its rows are kept whatever its
      outputs are called, and its names where they are columns or aliased. */
  lemma OptimizedProjection(k: Kernels, show: Expr -> string, db: Database, p: Plan, c': Plan, rows: seq<Row>, out: seq<Row>)
    requires Lawful(k) && LawfulDb(k, db) && p.Projection? && RootAliases(p.exprs) && FieldsOf(show, p.input.schema, p.exprs) == Ok(p.schema)
    requires Input(k, db, p.input, c', rows) && Run(k, db, p) == Some(out)
    requires Optimize(k, show, p.input) == Ok(c') && Optimize(k, show, p).Ok? && ReadsAlike(db, p, Optimize(k, show, p).value)
    ensures Run(k, db, Optimize(k, show, p).value) == Some(out)
    ensures PlainAll(p.exprs) ==> Preserved(k, db, p, Optimize(k, show, p).value, out)
  {
    hide FieldsOf; hide Preserved; hide Linked; hide ScanOk; hide Run; hide SimplifyAll; hide Plain; hide PushProjection; hide EliminateIdentity;
    hide Lawful; hide LawfulDb; hide AllFit; hide Related; hide RootAliases; hide Same; hide Ordered; hide FilterReads; hide Input;
    hide Out; hide Sends;
    var p' := Optimize(k, show, p).value;
    TypedIsNoWildcard(show, p.input.schema, p.exprs);
    NothingToExpand(p.exprs, c'.schema);
    var rebuilt := Project(show, c', p.exprs).value;
    var simple := SimplifyAll(k, c'.schema, p.exprs).value;
    SimplifiedIsNoWildcard(k, c'.schema, p.exprs, simple);
    NothingToExpand(simple, c'.schema);
    var q := Projection(c', simple, FieldsOf(show, c'.schema, simple).value);
    assert SimplifyExpressions(k, show, rebuilt) == Ok(q);
    var q2 := PushProjection(show, q).value;
    ProjectionPreserved(k, show, db, p, c', simple, rows, out);
    InputFacts(k, db, p.input, c', rows);
    ProjectionRules(k, show, db, q, q2, p', rows, out);
    SameRuns(k, db, q, p', out);
    if PlainAll(p.exprs) { SamePreserved(k, db, p, q, p', out); }
  }

  // ----- filters, limits and sorts -------------------------------------------------------------------

  /** A part of the rows is described as the whole. */
  lemma SomeRowsRelated(k: Kernels, a: Schema, b: Schema, rows: seq<Row>, some: seq<Row>)
    requires Related(a, b, rows) && AllFit(k, a, rows) && forall r | 0 <= r < |some| :: some[r] in rows
    ensures Related(a, b, some) && AllFit(k, a, some)
  {
    hide Fades; hide RowFits;
    forall i | 0 <= i < |a| && NullColumn(rows, i) ensures NullColumn(some, i) {
      forall r | 0 <= r < |some| ensures i < |some[r]| && some[r][i].Null? {
        var q :| 0 <= q < |rows| && rows[q] == some[r];
      }
    }
    forall r | 0 <= r < |some| ensures RowFits(k, a, some[r]) {
      var q :| 0 <= q < |rows| && rows[q] == some[r];
    }
  }

  lemma {:induction false} FilterCarries(k: Kernels, run: Schema, run': Schema, e: Expr, s: Expr, all: seq<Row>, n: nat)
    requires Lawful(k) && Carries(k, run, run', e, s, all) && n <= |all| && RunType(k, run', s) == Some(BooleanType)
    requires AllFit(k, run', all) && Pruning.FilterRows(k, run, e, all[..n]).Some?
    ensures Pruning.FilterRows(k, run', s, all[..n]) == Pruning.FilterRows(k, run, e, all[..n])
  {
    hide Eval; hide RunType; hide Lawful; hide Grows; hide RowFits;
    if n > 0 {
      assert all[..n][..n - 1] == all[..n - 1];
      FilterCarries(k, run, run', e, s, all, n - 1);
      EvalRuns(k, run', all[n - 1], s);
    }
  }

  lemma AllRelatedFit(k: Kernels, a: Schema, b: Schema, rows: seq<Row>)
    requires Related(a, b, rows) && AllFit(k, a, rows)
    ensures AllFit(k, b, rows)
  {
    hide Related; hide RowFits;
    forall r | 0 <= r < |rows| ensures RowFits(k, b, rows[r]) {
      RelatedRows(k, a, b, rows, r);
    }
  }

  lemma BooleanRuns(k: Kernels, plan: Schema, run: Schema, s: Expr)
    requires Compatible(plan, run) && TypeIn(plan, s) == Ok(BooleanType) && RunType(k, run, s).Some?
    ensures RunType(k, run, s) == Some(BooleanType)
  {
    hide TypeIn; hide RunType; hide Compatible;
    InferredOrWidened(k, plan, run, s);
  }

  /** A filter above an input that hands on a batch. */
  lemma FilterRuns(k: Kernels, db: Database, p: Plan, c': Plan, s: Expr, rows: seq<Row>, out: seq<Row>)
    requires Lawful(k) && LawfulDb(k, db) && p.Filter? && NoAlias(Unalias(p.condition)) && Input(k, db, p.input, c', rows) && Run(k, db, p) == Some(out)
    requires Simplify(k, c'.schema, p.condition) == Ok(s) && TypeIn(c'.schema, s) == Ok(BooleanType) && Sends(k, db, p.input)
    ensures RunType(k, Out(db, c'), s) == Some(BooleanType) && Pruning.FilterRows(k, Out(db, c'), s, rows) == Some(out)
    ensures Related(Out(db, p.input), Out(db, c'), out)
  {
    hide Eval; hide RunType; hide TypeIn; hide Lawful; hide LawfulDb; hide Simplify; hide Linked; hide Related; hide AllFit;
    hide Compatible; hide ScanOk;
    hide Pruning.FilterRows; hide NoAlias; hide Sends; hide Out; hide Carries;
    var run, run' := Out(db, p.input), Out(db, c');
    LinkedIsCompatible(c'.schema, run');
    ExpressionCarries(k, run, c'.schema, run', p.condition, s, rows);
    CarriesType(k, run, run', p.condition, s, rows);
    BooleanRuns(k, c'.schema, run', s);
    AllRelatedFit(k, run, run', rows);
    assert rows[..|rows|] == rows;
    FilterCarries(k, run, run', p.condition, s, rows, |rows|);
    Pruning.KeptRowsPass(k, run, p.condition, rows);
    SomeRowsRelated(k, run, run', rows, out);
  }

  /** A filter with a simplified condition keeps the same rows, and so does one pushed into a scan
      that prunes by the columns it reads. */
  lemma FilterPreserved(k: Kernels, db: Database, p: Plan, c': Plan, s: Expr, rows: seq<Row>, out: seq<Row>)
    requires Lawful(k) && LawfulDb(k, db) && p.Filter? && p.schema == p.input.schema && NoAlias(Unalias(p.condition))
    requires Input(k, db, p.input, c', rows) && Run(k, db, p) == Some(out)
    requires Simplify(k, c'.schema, p.condition) == Ok(s) && TypeIn(c'.schema, s) == Ok(BooleanType)
    ensures Preserved(k, db, p, Filter(c', s, c'.schema), out)
    ensures c'.Scan? && FilterReads(db, c', s) ==> Preserved(k, db, p, c'.(filters := c'.filters + [s]), out)
  {
    hide RunType; hide TypeIn; hide Lawful; hide LawfulDb; hide Simplify; hide Linked; hide Related; hide AllFit; hide NoAlias;
    hide Pruning.FilterRows; hide ScanOk; hide FilterReads; hide Scanned; hide Delivers;
    QuietInput(k, db, p.input, c', rows);
    if Sends(k, db, p.input) {
      FilterRuns(k, db, p, c', s, rows, out);
    } else {
      NothingFiltered(k, Out(db, p.input), p.condition);
      NothingFiltered(k, Out(db, c'), s);
    }
    assert Out(db, p) == Out(db, p.input) && Out(db, Filter(c', s, c'.schema)) == Out(db, c');
    if c'.Scan? && FilterReads(db, c', s) { PushedFilter(k, db, c', s, rows, out); }
  }

  lemma NothingFiltered(k: Kernels, names: Schema, e: Expr)
    ensures Pruning.FilterRows(k, names, e, []) == Some([])
  {
  }

  /** What a limit does that is not above a sort. */
  lemma LimitedRows(k: Kernels, db: Database, p: Plan, rows: seq<Row>)
    requires p.Limit? && !p.input.Sort? && Run(k, db, p.input) == Some(rows)
    ensures Run(k, db, p) == Some(if p.limit < |rows| then rows[..p.limit] else rows) && Out(db, p) == Out(db, p.input)
    ensures Sends(k, db, p) == (p.limit > 0 && rows != [])
  {
  }

  lemma LimitPreserved(k: Kernels, db: Database, p: Plan, c': Plan, rows: seq<Row>, out: seq<Row>)
    requires LawfulDb(k, db) && p.Limit? && p.schema == p.input.schema && Input(k, db, p.input, c', rows) && Run(k, db, p) == Some(out)
    requires !p.input.Sort? && !c'.Sort?
    ensures Preserved(k, db, p, Limit(c', p.limit, c'.schema), out)
  {
    hide Run; hide Sends; hide Linked; hide Related; hide AllFit; hide ScanOk; hide LawfulDb;
    var p' := Limit(c', p.limit, c'.schema);
    LimitedRows(k, db, p, rows);
    LimitedRows(k, db, p', rows);
    if rows != [] { RowsAreSent(k, db, p.input); }
    if Sends(k, db, p.input) { SomeRowsRelated(k, Out(db, p.input), Out(db, c'), rows, out); }
  }

  /** A limit above a sort selects the same rows by the simplified keys. */
  lemma TopPreserved(k: Kernels, db: Database, p: Plan, c': Plan, simple: seq<Expr>, rows: seq<Row>, sorted: seq<Row>, out: seq<Row>)
    requires Lawful(k) && LawfulDb(k, db) && p.Limit? && p.input.Sort? && p.schema == p.input.schema == p.input.input.schema
    requires RootAliases(KeyExprs(p.input.keys)) && SimplifyAll(k, c'.schema, KeyExprs(p.input.keys)) == Ok(simple)
    requires Input(k, db, p.input.input, c', rows) && Run(k, db, p.input) == Some(sorted) && Run(k, db, p) == Some(out)
    requires var sort := Sort(c', seq(|p.input.keys|, i requires 0 <= i < |p.input.keys| => p.input.keys[i].(expr := simple[i])), c'.schema);
      Preserved(k, db, p.input, sort, sorted)
    ensures var sort := Sort(c', seq(|p.input.keys|, i requires 0 <= i < |p.input.keys| => p.input.keys[i].(expr := simple[i])), c'.schema);
      Preserved(k, db, p, Limit(sort, p.limit, c'.schema), out)
  {
    hide Run; hide Sends; hide Out; hide Reorder; hide Lawful; hide LawfulDb; hide Linked; hide Related; hide AllFit; hide ScanOk; hide MapRows;
    hide RootAliases; hide SimplifyAll; hide KeyFlags;
    var keys := seq(|p.input.keys|, i requires 0 <= i < |p.input.keys| => p.input.keys[i].(expr := simple[i]));
    var sort := Sort(c', keys, c'.schema);
    SimplifiedKeys(p.input.keys, simple);
    SortedRun(k, db, p.input, rows);
    SortedRun(k, db, sort, rows);
    SelectedRows(k, db, p, rows);
    SelectedRows(k, db, Limit(sort, p.limit, c'.schema), rows);
    QuietInput(k, db, p.input.input, c', rows);
    if Sends(k, db, p.input.input) {
      KeysCarried(k, db, p.input, c', simple, rows, sorted);
      if p.limit > 0 {
        SelectedFrom(k, db, p.input.keys, p.limit, p.schema, rows, out);
        PlanRelated(k, db, p.input.input, c', rows);
        SomeRowsRelated(k, p.schema, c'.schema, rows, out);
        if rows == [] { NothingSorted(db.top(KeyFlags(p.input.keys), MapRows(k, p.schema, KeyExprs(p.input.keys), rows).value, 0)); }
      }
    }
    RelatedGrows(p.schema, c'.schema, sorted);
    if out == [] { NothingRelated(p.schema, c'.schema, out); }
    LinkedToItself(c'.schema);
  }

  /** Related batches make related plans: the plan schema has the types of the batches. */
  lemma PlanRelated(k: Kernels, db: Database, c: Plan, c': Plan, rows: seq<Row>)
    requires Input(k, db, c, c', rows) && Sends(k, db, c)
    ensures Related(c.schema, c'.schema, rows) && AllFit(k, c.schema, rows)
  {
    hide Run; hide Out; hide Related; hide AllFit; hide Linked; hide Sends;
    LinkedTypes(c.schema, Out(db, c));
    LinkedTypes(c'.schema, Out(db, c'));
    RetypedRelated(k, c.schema, Out(db, c), c'.schema, Out(db, c'), rows);
  }

  lemma RetypedRelated(k: Kernels, a: Schema, n: Schema, b: Schema, m: Schema, rows: seq<Row>)
    requires |a| == |n| && forall i | 0 <= i < |a| :: a[i].ty == n[i].ty
    requires |b| == |m| && forall i | 0 <= i < |b| :: b[i].ty == m[i].ty
    requires SameNames(a, b) && Related(n, m, rows) && AllFit(k, n, rows)
    ensures Related(a, b, rows) && AllFit(k, a, rows)
  {
    hide Fades; hide NullColumn; hide Fits;
    forall r | 0 <= r < |rows| ensures RowFits(k, a, rows[r]) {
      assert RowFits(k, n, rows[r]);
    }
  }

  lemma SimplifiedKeys(keys: seq<SortKey>, simple: seq<Expr>)
    requires |simple| == |keys|
    ensures var keys' := seq(|keys|, i requires 0 <= i < |keys| => keys[i].(expr := simple[i]));
      KeyExprs(keys') == simple && KeyFlags(keys') == KeyFlags(keys)
  {
  }

  /** Sort keys over the plan schemas of an input and of what it became. */
  lemma KeysCarried(k: Kernels, db: Database, p: Plan, c': Plan, simple: seq<Expr>, rows: seq<Row>, out: seq<Row>)
    requires Lawful(k) && LawfulDb(k, db) && p.Sort? && p.schema == p.input.schema && RootAliases(KeyExprs(p.keys)) && Sends(k, db, p.input)
    requires Input(k, db, p.input, c', rows) && Run(k, db, p) == Some(out) && SimplifyAll(k, c'.schema, KeyExprs(p.keys)) == Ok(simple)
    ensures MapRows(k, c'.schema, simple, rows).Some? && MapRows(k, c'.schema, simple, rows) == MapRows(k, p.schema, KeyExprs(p.keys), rows)
    ensures Reorder(rows, db.order(KeyFlags(p.keys), MapRows(k, c'.schema, simple, rows).value)) == Some(out)
    ensures Related(p.schema, c'.schema, out)
  {
    hide Eval; hide RunType; hide Lawful; hide LawfulDb; hide Simplify; hide Linked; hide Related; hide AllFit; hide Compatible;
    hide MapRows; hide Sortable;
    hide RootAliases; hide ScanOk; hide SimplifyAll; hide CarriesAll; hide Sends; hide Out;
    PlanRelated(k, db, p.input, c', rows);
    CompatibleWithItself(c'.schema);
    ListCarries(k, p.schema, c'.schema, c'.schema, KeyExprs(p.keys), simple, rows);
    MapRowsCarries(k, p.schema, c'.schema, KeyExprs(p.keys), simple, rows);
    SomeRowsRelated(k, p.schema, c'.schema, rows, out);
  }

  lemma NothingSorted(order: seq<nat>)
    ensures Reorder([], order) == if order == [] then Some([]) else None
  {
    if order == [] {
      assert |Reorder([], order).value| == 0;
    } else {
      assert order[0] >= 0;
    }
  }

  /** What a sort does. */
  lemma SortedRun(k: Kernels, db: Database, p: Plan, rows: seq<Row>)
    requires p.Sort? && Run(k, db, p.input) == Some(rows)
    ensures Out(db, p) == p.schema && Sends(k, db, p)
    ensures !Sends(k, db, p.input) ==> Run(k, db, p) == Some([])
    ensures Sends(k, db, p.input) && !Sortable(k, db, p.schema, KeyExprs(p.keys)) ==> Run(k, db, p) == None
    ensures Sends(k, db, p.input) && Sortable(k, db, p.schema, KeyExprs(p.keys)) ==>
      Run(k, db, p) == match MapRows(k, p.schema, KeyExprs(p.keys), rows)
                       case None => None
                       case Some(values) => Reorder(rows, db.order(KeyFlags(p.keys), values))
  {
    hide MapRows; hide Sortable; hide KeyExprs; hide KeyFlags; hide Reorder;
  }

  /** A sort by simplified keys runs exactly when it can sort by their types or gets no batch, and
      then yields the same rows in the same order. */
  lemma SortPreserved(k: Kernels, db: Database, p: Plan, c': Plan, simple: seq<Expr>, rows: seq<Row>, out: seq<Row>)
    requires Lawful(k) && LawfulDb(k, db) && p.Sort? && p.schema == p.input.schema && RootAliases(KeyExprs(p.keys))
    requires Input(k, db, p.input, c', rows) && Run(k, db, p) == Some(out)
    requires SimplifyAll(k, c'.schema, KeyExprs(p.keys)) == Ok(simple)
    ensures var p' := Sort(c', seq(|p.keys|, i requires 0 <= i < |p.keys| => p.keys[i].(expr := simple[i])), c'.schema);
      && (Run(k, db, p').Some? <==> Admits(k, db, p, p'))
      && (Admits(k, db, p, p') ==> Run(k, db, p') == Some(out))
      && (Admits(k, db, p, p') && HandsOn(p, p') ==> Preserved(k, db, p, p', out))
  {
    hide Run; hide Sends; hide Out; hide Reorder;
    hide RunType; hide Lawful; hide LawfulDb; hide Linked; hide Related; hide AllFit; hide MapRows; hide Sortable; hide SchemaShifts;
    hide RootAliases; hide ScanOk; hide SimplifyAll; hide KeyFlags;
    var keys := seq(|p.keys|, i requires 0 <= i < |p.keys| => p.keys[i].(expr := simple[i]));
    SimplifiedKeys(p.keys, simple);
    SortedRun(k, db, p, rows);
    SortedRun(k, db, Sort(c', keys, c'.schema), rows);
    QuietInput(k, db, p.input, c', rows);
    if Sends(k, db, p.input) { KeysCarried(k, db, p, c', simple, rows, out); }
    if rows == [] && Sends(k, db, p.input) { NothingSorted(db.order(KeyFlags(p.keys), MapRows(k, c'.schema, simple, rows).value)); }
    if SchemaShifts(false, p.schema, c'.schema) && rows == [] { NothingRelated(p.schema, c'.schema, out); }
    LinkedToItself(c'.schema);
  }

  // ----- joins ---------------------------------------------------------------------------------------

  lemma {:induction false} JoinFieldNames(a: Schema, b: Schema, right: Schema, right': Schema)
    requires SameNames(a, b) && SameNames(right, right')
    ensures SameNames(JoinFields(a, right), JoinFields(b, right'))
    decreases |right|
  {
    if right != [] {
      var f, g := right[0], right'[0];
      var taken := exists i :: 0 <= i < |a| && a[i].name == f.name;
      var taken' := exists i :: 0 <= i < |b| && b[i].name == g.name;
      assert taken == taken' by {
        if i :| 0 <= i < |a| && a[i].name == f.name { assert b[i].name == g.name; }
        if i :| 0 <= i < |b| && b[i].name == g.name { assert a[i].name == f.name; }
      }
      JoinFieldNames(a + [if taken then Field("right." + f.name, f.ty) else f],
                     b + [if taken' then Field("right." + g.name, g.ty) else g], right[1..], right'[1..]);
    }
  }

  /** One pair of keys: over the optimized inputs its simplified forms run with one type exactly
      when they do not run with two widths over the original inputs. */
  lemma KeyPair(k: Kernels, plan: Schema, run: Schema, plan': Schema, run': Schema, l: Expr, l': Expr,
                plan2: Schema, run2: Schema, plan2': Schema, run2': Schema, r: Expr, r': Expr)
    requires Lawful(k) && Compatible(plan, run) && Compatible(plan', run') && SchemaShifts(false, plan, plan') && SchemaShifts(false, run, run')
    requires Compatible(plan2, run2) && Compatible(plan2', run2') && SchemaShifts(false, plan2, plan2') && SchemaShifts(false, run2, run2')
    requires NoAlias(Unalias(l)) && NoAlias(Unalias(r)) && RunType(k, run, l).Some? && RunType(k, run2, r).Some?
    requires Simplify(k, plan', l) == Ok(l') && Simplify(k, plan2', r) == Ok(r')
    requires TypeIn(plan', l').Ok? && TypeIn(plan', l') == TypeIn(plan2', r')
    ensures RunType(k, run', l').Some? && RunType(k, run2', r').Some?
    ensures RunType(k, run', l') == RunType(k, run2', r') <==> KeyKept(k, plan, run, l, plan2, run2, r)
  {
    hide Lawful; hide Compatible; hide SchemaShifts; hide RunType; hide Simplify; hide TypeIn; hide NoAlias;
    KeySide(k, plan, run, plan', run', l, l');
    KeySide(k, plan2, run2, plan2', run2', r, r');
    InferredOrWidened(k, plan', run', l');
    InferredOrWidened(k, plan2', run2', r');
  }

  lemma KeySide(k: Kernels, plan: Schema, run: Schema, plan': Schema, run': Schema, e: Expr, s: Expr)
    requires Lawful(k) && Compatible(plan, run) && SchemaShifts(false, plan, plan') && SchemaShifts(false, run, run')
    requires NoAlias(Unalias(e)) && RunType(k, run, e).Some? && Simplify(k, plan', e) == Ok(s)
    ensures Simplify(k, plan, e) == Ok(s) && RunType(k, run, s).Some? && RunType(k, run', s).Some?
    ensures Fades(RunType(k, run, s).value, RunType(k, run', s).value)
  {
    hide Lawful; hide Compatible; hide SchemaShifts; hide RunType; hide Simplify; hide TypeIn; hide NoAlias;
    SimplifiedAlike(false, k, plan, run, plan', e);
    SimplifiedRuns(k, plan, run, e);
    RootAliasesStayApart(k, plan, e);
    RunTypeShifts(false, k, run, run', s);
  }

  /** Setting of the proof for a join: the original, and its simplified keys over what its inputs
      became. */
  ghost predicate Joining(k: Kernels, db: Database, p: Plan, p': Plan, lefts: seq<Row>, rights: seq<Row>, out: seq<Row>) {
    && p.Join? && p'.Join? && p.kind == p'.kind && RootAliases(p.leftOn) && RootAliases(p.rightOn)
    && p.schema == JoinFields(p.left.schema, p.right.schema) && p'.schema == JoinFields(p'.left.schema, p'.right.schema)
    && Input(k, db, p.left, p'.left, lefts) && Input(k, db, p.right, p'.right, rights) && Run(k, db, p) == Some(out)
    && SimplifyAll(k, p'.left.schema, p.leftOn) == Ok(p'.leftOn) && SimplifyAll(k, p'.right.schema, p.rightOn) == Ok(p'.rightOn)
    && KeyTypesMatch(p'.left.schema, p'.right.schema, p'.leftOn, p'.rightOn)
  }

  /** Where both sides hand on a batch, the keys have the same types exactly when they are kept. */
  lemma JoinKeysRun(k: Kernels, db: Database, p: Plan, p': Plan, lefts: seq<Row>, rights: seq<Row>, out: seq<Row>)
    requires Lawful(k) && Joining(k, db, p, p', lefts, rights, out) && Sends(k, db, p.left) && Sends(k, db, p.right)
    ensures KeysRun(k, Out(db, p'.left), p'.leftOn, Out(db, p'.right), p'.rightOn)
      <==> KeysKept(k, p.left.schema, Out(db, p.left), p.leftOn, p.right.schema, Out(db, p.right), p.rightOn)
  {
    hide Eval; hide RunType; hide Lawful; hide Simplify; hide Linked; hide Related; hide AllFit; hide Compatible; hide MapRows; hide KeyKept;
    hide ScanOk; hide SimplifyAll; hide TypeIn; hide JoinRows; hide JoinFields; hide NoAlias; hide SchemaShifts; hide Sends; hide Out; hide Builds;
    var l', r', leftOn, rightOn := p'.left, p'.right, p'.leftOn, p'.rightOn;
    var run, run2, run', run2' := Out(db, p.left), Out(db, p.right), Out(db, l'), Out(db, r');
    LinkedIsCompatible(p.left.schema, run);
    LinkedIsCompatible(p.right.schema, run2);
    LinkedIsCompatible(l'.schema, run');
    LinkedIsCompatible(r'.schema, run2');
    PlanRelated(k, db, p.left, l', lefts);
    PlanRelated(k, db, p.right, r', rights);
    RelatedGrows(p.left.schema, l'.schema, lefts);
    RelatedGrows(p.right.schema, r'.schema, rights);
    RelatedGrows(run, run', lefts);
    RelatedGrows(run2, run2', rights);
    forall i | 0 <= i < |leftOn|
      ensures RunType(k, run', leftOn[i]).Some? && RunType(k, run2', rightOn[i]).Some?
      ensures RunType(k, run', leftOn[i]) == RunType(k, run2', rightOn[i])
        <==> KeyKept(k, p.left.schema, run, p.leftOn[i], p.right.schema, run2, p.rightOn[i])
    {
      KeyPair(k, p.left.schema, run, l'.schema, run', p.leftOn[i], leftOn[i], p.right.schema, run2, r'.schema, run2', p.rightOn[i], rightOn[i]);
    }
  }

  lemma JoinWidth(k: Kernels, db: Database, p: Plan, p': Plan, lefts: seq<Row>, rights: seq<Row>, out: seq<Row>)
    requires Joining(k, db, p, p', lefts, rights, out)
    ensures |p.right.schema| == |p'.right.schema| && SameNames(p.schema, p'.schema)
  {
    hide Run; hide Sends; hide Linked; hide Related; hide AllFit; hide JoinFields; hide RootAliases; hide SimplifyAll; hide KeyTypesMatch;
    hide Out; hide ScanOk;
    JoinFieldNames(p.left.schema, p'.left.schema, p.right.schema, p'.right.schema);
  }

  lemma JoinRuns(k: Kernels, db: Database, p: Plan, p': Plan, lefts: seq<Row>, rights: seq<Row>, out: seq<Row>)
    requires Lawful(k) && LawfulDb(k, db) && Joining(k, db, p, p', lefts, rights, out)
    ensures Run(k, db, p').Some? <==> Admits(k, db, p, p')
    ensures Admits(k, db, p, p') ==> Run(k, db, p') == Some(out)
  {
    hide RunType; hide Lawful; hide LawfulDb; hide Linked; hide Related; hide AllFit; hide MapRows; hide KeysKept; hide Runs; hide KeysRun;
    hide Builds; hide CarriesAll;
    hide RootAliases; hide ScanOk; hide SimplifyAll; hide TypeIn; hide JoinRows; hide JoinFields; hide Sends; hide Out; hide KeyTypesMatch;
    hide Sound; hide SameNames;
    ListKept(k, db, p.left, p'.left, p.leftOn, p'.leftOn, lefts);
    ListKept(k, db, p.right, p'.right, p.rightOn, p'.rightOn, rights);
    JoinWidth(k, db, p, p', lefts, rights, out);
    if Sends(k, db, p'.left) && Sends(k, db, p'.right) { JoinKeysRun(k, db, p, p', lefts, rights, out); }
  }

  /** Columns that fade cannot be built, so those that can be are typed as before. */
  lemma BuiltAlike(a: Schema, b: Schema, rows: seq<Row>)
    requires SchemaShifts(false, a, b) && Builds(b, 0)
    ensures Related(a, b, rows)
  {
    hide NullColumn;
  }

  /** A join with simplified keys over what its inputs became: it runs exactly when its columns can be
      built and the keys are kept wherever both sides hand on a batch, and then yields the same rows. */
  lemma JoinPreserved(k: Kernels, db: Database, p: Plan, p': Plan, lefts: seq<Row>, rights: seq<Row>, out: seq<Row>)
    requires Lawful(k) && LawfulDb(k, db) && Joining(k, db, p, p', lefts, rights, out)
    ensures Run(k, db, p').Some? <==> Admits(k, db, p, p')
    ensures Admits(k, db, p, p') ==> Run(k, db, p') == Some(out)
    ensures Admits(k, db, p, p') && HandsOn(p, p') ==> Preserved(k, db, p, p', out)
  {
    hide Run; hide Lawful; hide LawfulDb; hide Input; hide Linked; hide Related; hide KeysKept; hide SchemaShifts; hide Builds;
    hide RootAliases; hide SimplifyAll;
    hide KeyTypesMatch; hide JoinFields;
    JoinRuns(k, db, p, p', lefts, rights, out);
    JoinWidth(k, db, p, p', lefts, rights, out);
    if Admits(k, db, p, p') && HandsOn(p, p') {
      BuiltAlike(p.schema, p'.schema, out);
      LinkedToItself(p'.schema);
    }
  }

  // ----- aggregations --------------------------------------------------------------------------------

  /** A simplified aggregate is the same aggregate of the simplified argument. */
  lemma SimplifiedSpec(k: Kernels, plan: Schema, e: Expr, s: Expr)
    requires Plain(e) && SpecOf(e).Some? && Simplify(k, plan, e) == Ok(s)
    ensures SpecOf(s).Some? && SpecOf(s).value.kind == SpecOf(e).value.kind && SpecOf(s).value.distinct == SpecOf(e).value.distinct
    ensures Simplify(k, plan, SpecOf(e).value.arg) == Ok(SpecOf(s).value.arg) && NoAlias(Unalias(SpecOf(e).value.arg))
    ensures Unalias(s).Aggregate? && Unalias(s).expr.Wildcard? == Unalias(e).expr.Wildcard?
  {
    hide Eval; hide TypeIn;
    var x := Unalias(e).expr;
    assert Simplify(k, plan, Unalias(e)) == Ok(Unalias(s));
    assert Simplify(k, plan, x).Ok? && Unalias(s) == Aggregate(Unalias(e).kind, Simplify(k, plan, x).value, Unalias(e).distinct);
    if x.Wildcard? {
      ConstantTrue(k, plan);
    } else {
      NotAWildcard(k, plan, x);
    }
  }

  lemma ConstantTrue(k: Kernels, plan: Schema)
    ensures Simplify(k, plan, Literal(Boolean(true))) == Ok(Literal(Boolean(true)))
  {
  }

  lemma NotAWildcard(k: Kernels, plan: Schema, x: Expr)
    requires !x.Wildcard? && NoAlias(x) && Simplify(k, plan, x).Ok?
    ensures !Simplify(k, plan, x).value.Wildcard?
  {
    hide Eval; hide TypeIn; hide IsNullExpression; hide BooleanLiteral;
    if x.Binary? {
      WildcardHasNoType(k, plan, x.left);
      WildcardHasNoType(k, plan, x.right);
      NodeTyped(k, plan, Binary(Simplify(k, plan, x.left).value, x.op, Simplify(k, plan, x.right).value));
    }
  }

  lemma WildcardHasNoType(k: Kernels, plan: Schema, x: Expr)
    ensures TypeIn(plan, Wildcard).Err?
  {
  }

  lemma NodeTyped(k: Kernels, plan: Schema, e: Expr)
    requires e.Binary? && SimplifyNode(k, plan, e).Ok?
    ensures TypeIn(plan, e.left).Ok? && TypeIn(plan, e.right).Ok?
  {
    hide Eval;
  }

  lemma {:induction false} SimplifyAllBuild(k: Kernels, plan: Schema, exprs: seq<Expr>, simple: seq<Expr>)
    requires |simple| == |exprs| && forall i | 0 <= i < |exprs| :: Simplify(k, plan, exprs[i]) == Ok(simple[i])
    ensures SimplifyAll(k, plan, exprs) == Ok(simple)
  {
    hide Simplify;
    if exprs != [] {
      var n := |exprs| - 1;
      SimplifyAllBuild(k, plan, exprs[..n], simple[..n]);
      assert simple == simple[..n] + [simple[n]];
    }
  }

  predicate SameKinds(a: seq<Spec>, b: seq<Spec>) {
    |a| == |b| && forall i | 0 <= i < |a| :: a[i].kind == b[i].kind && a[i].distinct == b[i].distinct
  }

  /** The specifications of simplified aggregates: the same kinds of the simplified arguments. */
  lemma SimplifiedSpecs(k: Kernels, plan: Schema, aggregates: seq<Expr>, simple: seq<Expr>)
    requires PlainAll(aggregates) && Specs(aggregates).Some? && SimplifyAll(k, plan, aggregates) == Ok(simple)
    ensures Specs(simple).Some? && SameKinds(Specs(aggregates).value, Specs(simple).value)
    ensures RootAliases(ArgsOf(Specs(aggregates).value))
    ensures SimplifyAll(k, plan, ArgsOf(Specs(aggregates).value)) == Ok(ArgsOf(Specs(simple).value))
  {
    hide Simplify; hide SpecOf; hide Plain; hide Specs; hide NoAlias;
    forall i | 0 <= i < |aggregates|
      ensures SpecOf(simple[i]).Some? && SpecOf(simple[i]).value.kind == SpecOf(aggregates[i]).value.kind
      ensures SpecOf(simple[i]).value.distinct == SpecOf(aggregates[i]).value.distinct
      ensures Simplify(k, plan, SpecOf(aggregates[i]).value.arg) == Ok(SpecOf(simple[i]).value.arg)
      ensures NoAlias(Unalias(SpecOf(aggregates[i]).value.arg))
    {
      SimplifiedSpec(k, plan, aggregates[i], simple[i]);
    }
    var specs, specs' := Specs(aggregates).value, Specs(simple).value;
    SimplifyAllBuild(k, plan, ArgsOf(specs), ArgsOf(specs'));
  }

  lemma SameKindsAggregate(db: Database, a: seq<Spec>, b: seq<Spec>, grouped: bool, tuples: seq<G.Tuple>)
    requires SameKinds(a, b)
    ensures AggregateRows(db, a, grouped, tuples) == AggregateRows(db, b, grouped, tuples)
  {
    hide G.Of; hide Agg.Meaning; hide Agg.Accepts; hide G.GroupKeys;
    forall group ensures SpecsAccept(a, group) == SpecsAccept(b, group) && SpecValues(a, group) == SpecValues(b, group) {
      forall i | 0 <= i < |a| ensures SpecColumn(a[i], group, i) == SpecColumn(b[i], group, i) {
      }
    }
    var x, y := AggregateRows(db, a, grouped, tuples), AggregateRows(db, b, grouped, tuples);
    if x.Some? {
      assert |x.value| == |y.value| && forall i | 0 <= i < |x.value| :: x.value[i] == y.value[i];
      assert x.value == y.value;
    }
  }

  lemma KeyColumnNull(k: Kernels, db: Database, specs: seq<Spec>, g: nat, keys: seq<Row>, args: seq<Row>, out: seq<Row>, c: nat)
    requires LawfulDb(k, db) && |keys| == |args| && Width(keys, g) && c < g && NullColumn(keys, c)
    requires AggregateRows(db, specs, g > 0, Tuples(keys, args)) == Some(out)
    ensures NullColumn(out, c)
  {
    hide AggregateRows; hide SpecValues; hide SpecsAccept; hide G.Of;
    forall i | 0 <= i < |out| ensures c < |out[i]| && out[i][c].Null? {
      var key := OutputRow(k, db, specs, g, keys, args, out, i);
      var t :| 0 <= t < |keys| && keys[t] == key;
      assert out[i][c] == key[c];
    }
  }

  /** Setting of the proof for an aggregation: the original, and its simplified form over what its
      input became. */
  ghost predicate Aggregating(k: Kernels, show: Expr -> string, db: Database, p: Plan, p': Plan, rows: seq<Row>, out: seq<Row>) {
    && p.Aggregation? && p'.Aggregation? && PlainAll(p.groups) && PlainAll(p.aggregates)
    && FieldsOf(show, p.input.schema, p.groups + p.aggregates) == Ok(p.schema)
    && FieldsOf(show, p'.input.schema, p.groups + p.aggregates).Ok? && FieldsOf(show, p'.input.schema, p'.groups + p'.aggregates) == Ok(p'.schema)
    && SimplifyAll(k, p'.input.schema, p.groups) == Ok(p'.groups) && SimplifyAll(k, p'.input.schema, p.aggregates) == Ok(p'.aggregates)
    && Input(k, db, p.input, p'.input, rows) && Run(k, db, p) == Some(out)
  }

  /** The outputs of an aggregation keep their names. */
  lemma AggregatedNames(k: Kernels, show: Expr -> string, p: Plan, q: Plan)
    requires p.Aggregation? && q.Aggregation? && PlainAll(p.groups) && PlainAll(p.aggregates)
    requires FieldsOf(show, p.input.schema, p.groups + p.aggregates) == Ok(p.schema)
    requires FieldsOf(show, q.input.schema, q.groups + q.aggregates) == Ok(q.schema)
    requires SimplifyAll(k, q.input.schema, p.groups) == Ok(q.groups) && SimplifyAll(k, q.input.schema, p.aggregates) == Ok(q.aggregates)
    ensures SameNames(p.schema, q.schema)
  {
    hide FieldsOf; hide SimplifyAll; hide PlainAll; hide Simplify; hide SameNames;
    SimplifiedTogether(k, q.input.schema, p.groups, p.aggregates, q.groups, q.aggregates);
    PlainTogether(p.groups, p.aggregates);
    SimplifiedNames(k, show, p.input.schema, q.input.schema, p.groups + p.aggregates, q.groups + q.aggregates, p.schema, q.schema);
  }

  lemma SimplifiedTogether(k: Kernels, plan: Schema, a: seq<Expr>, b: seq<Expr>, a': seq<Expr>, b': seq<Expr>)
    requires SimplifyAll(k, plan, a) == Ok(a') && SimplifyAll(k, plan, b) == Ok(b')
    ensures |a'| == |a| && |b'| == |b| && forall i | 0 <= i < |a + b| :: Simplify(k, plan, (a + b)[i]) == Ok((a' + b')[i])
  {
    hide SimplifyAll; hide Simplify;
  }

  lemma PlainTogether(a: seq<Expr>, b: seq<Expr>)
    requires PlainAll(a) && PlainAll(b)
    ensures PlainAll(a + b)
  {
    hide Plain;
  }

  /** The groups of an input that hands on a batch: simplified, they run as declared, and a group
      column whose type has changed holds only NULLs. */
  lemma GroupsRun(k: Kernels, show: Expr -> string, db: Database, p: Plan, p': Plan, rows: seq<Row>, out: seq<Row>)
    requires Lawful(k) && LawfulDb(k, db) && Aggregating(k, show, db, p, p', rows, out) && Sends(k, db, p.input)
    ensures RunAs(k, Out(db, p'.input), p'.groups, p'.schema) && MapRows(k, Out(db, p.input), p.groups, rows).Some?
    ensures forall i: nat | i < |p.groups| && p.schema[i].ty != p'.schema[i].ty :: NullColumn(MapRows(k, Out(db, p.input), p.groups, rows).value, i)
  {
    hide MapRows; hide RunType; hide TypeIn; hide Eval; hide FieldsOf; hide AggregateRows; hide ScanOk; hide NullColumn; hide Builds; hide Carries;
    hide Simplify; hide Lawful; hide LawfulDb; hide Linked; hide Related; hide AllFit; hide SimplifyAll; hide Specs; hide PlainAll;
    hide RootAliases; hide Sends; hide Out; hide Compatible;
    var plan, run, plan', run' := p.input.schema, Out(db, p.input), p'.input.schema, Out(db, p'.input);
    var all, all' := p.groups + p.aggregates, p'.groups + p'.aggregates;
    LinkedIsCompatible(plan, run);
    LinkedIsCompatible(plan', run');
    PlainHasRootAliases(p.groups);
    ListKept(k, db, p.input, p'.input, p.groups, p'.groups, rows);
    GroupsExact(k, show, plan, run, p.groups, p.aggregates, p.schema);
    forall i | 0 <= i < |p.groups| ensures TypeIn(plan', p.groups[i]).Ok? && TypeIn(plan', p'.groups[i]).Ok? {
      assert all[i] == p.groups[i] && all'[i] == p'.groups[i];
    }
    ListStaysExact(k, plan, run, plan', run', p.groups, p'.groups, rows);
    forall i: nat | i < |p.groups|
      ensures RunType(k, run', p'.groups[i]) == Some(p'.schema[i].ty) && RunType(k, run, p.groups[i]) == Some(p.schema[i].ty)
    {
      assert all[i] == p.groups[i] && all'[i] == p'.groups[i];
      assert Exact(k, plan, run, p.groups[i]) && Exact(k, plan', run', p'.groups[i]);
    }
    forall i: nat | i < |p.groups| && p.schema[i].ty != p'.schema[i].ty ensures NullColumn(MapRows(k, run, p.groups, rows).value, i) {
      MappedColumn(k, run, run', p.groups, p'.groups, rows, i);
    }
  }

  lemma AggregationRuns(k: Kernels, show: Expr -> string, db: Database, p: Plan, p': Plan, rows: seq<Row>, out: seq<Row>)
    requires Lawful(k) && LawfulDb(k, db) && Aggregating(k, show, db, p, p', rows, out)
    ensures Run(k, db, p').Some? <==> Admits(k, db, p, p')
    ensures Admits(k, db, p, p') ==> Run(k, db, p') == Some(out)
  {
    hide MapRows; hide RunType; hide TypeIn; hide Eval; hide FieldsOf; hide AggregateRows; hide ScanOk; hide CarriesAll; hide RunAs;
    hide Runs; hide Builds;
    hide Simplify; hide Lawful; hide LawfulDb; hide Linked; hide Related; hide AllFit; hide SimplifyAll; hide Specs; hide PlainAll;
    hide RootAliases; hide Sends; hide Out;
    hide SameKinds;
    PlainHasRootAliases(p.groups);
    SimplifiedSpecs(k, p'.input.schema, p.aggregates, p'.aggregates);
    var run, specs, specs' := Out(db, p.input), Specs(p.aggregates).value, Specs(p'.aggregates).value;
    ListKept(k, db, p.input, p'.input, p.groups, p'.groups, rows);
    ListKept(k, db, p.input, p'.input, ArgsOf(specs), ArgsOf(specs'), rows);
    SameKindsAggregate(db, specs, specs', |p.groups| > 0, Tuples(MapRows(k, run, p.groups, rows).value, MapRows(k, run, ArgsOf(specs), rows).value));
    QuietInput(k, db, p.input, p'.input, rows);
    if Sends(k, db, p.input) { GroupsRun(k, show, db, p, p', rows, out); }
  }

  /** The columns of an aggregation are described alike: aggregates that can be built are typed as
      before, and groups that fade hold only NULLs. */
  lemma AggregationRelated(k: Kernels, show: Expr -> string, db: Database, p: Plan, p': Plan, rows: seq<Row>, out: seq<Row>)
    requires Lawful(k) && LawfulDb(k, db) && Aggregating(k, show, db, p, p', rows, out)
    requires Builds(p'.schema, |p'.groups|) && SchemaShifts(false, p.schema, p'.schema)
    ensures Related(p.schema, p'.schema, out)
  {
    hide MapRows; hide FieldsOf; hide AggregateRows; hide ScanOk; hide NullColumn; hide RunAs; hide Runs;
    hide Lawful; hide LawfulDb; hide Linked; hide Related; hide AllFit; hide SimplifyAll; hide Specs; hide PlainAll; hide Sends; hide Out;
    QuietInput(k, db, p.input, p'.input, rows);
    var specs := Specs(p.aggregates).value;
    var keys, args := MapRows(k, Out(db, p.input), p.groups, rows).value, MapRows(k, Out(db, p.input), ArgsOf(specs), rows).value;
    if Sends(k, db, p.input) { GroupsRun(k, show, db, p, p', rows, out); }
    MappedWidth(k, Out(db, p.input), p.groups, rows);
    forall i: nat | i < |p.schema| ensures p.schema[i].ty == p'.schema[i].ty || NullColumn(out, i) {
      if p.schema[i].ty != p'.schema[i].ty {
        assert i < |p.groups|;
        if !Sends(k, db, p.input) { NothingIsNull(keys, i); }
        KeyColumnNull(k, db, specs, |p.groups|, keys, args, out, i);
      }
    }
    FadedRelated(p.schema, p'.schema, out);
  }

  lemma NothingIsNull(rows: seq<Row>, i: nat)
    requires rows == []
    ensures NullColumn(rows, i)
  {
  }

  lemma FadedRelated(a: Schema, b: Schema, rows: seq<Row>)
    requires SchemaShifts(false, a, b) && forall i: nat | i < |a| :: a[i].ty == b[i].ty || NullColumn(rows, i)
    ensures Related(a, b, rows)
  {
    hide NullColumn;
  }

  /** An aggregation with simplified arguments runs exactly when its aggregates can be built, and then
      yields the same rows. */
  lemma AggregationPreserved(k: Kernels, show: Expr -> string, db: Database, p: Plan, p': Plan, rows: seq<Row>, out: seq<Row>)
    requires Lawful(k) && LawfulDb(k, db) && Aggregating(k, show, db, p, p', rows, out)
    ensures Run(k, db, p').Some? <==> Admits(k, db, p, p')
    ensures Admits(k, db, p, p') ==> Run(k, db, p') == Some(out)
    ensures Admits(k, db, p, p') && HandsOn(p, p') ==> Preserved(k, db, p, p', out)
  {
    hide Run; hide Lawful; hide LawfulDb; hide Input; hide Linked; hide Related; hide Builds; hide PlainAll; hide FieldsOf; hide SimplifyAll;
    AggregationRuns(k, show, db, p, p', rows, out);
    if Admits(k, db, p, p') && HandsOn(p, p') {
      AggregationRelated(k, show, db, p, p', rows, out);
      LinkedToItself(p'.schema);
    }
  }

  // ----- whole plans ---------------------------------------------------------------------------------

  lemma ScanIsFixed(k: Kernels, show: Expr -> string, p: Plan)
    requires p.Scan? && p.filters == []
    ensures Optimize(k, show, p) == Ok(p)
  {
  }

  lemma ScanPreserved(k: Kernels, db: Database, p: Plan, out: seq<Row>)
    requires p.Scan? && ScanOk(db, p) && Run(k, db, p) == Some(out)
    ensures Preserved(k, db, p, p, out)
  {
    hide Linked; hide Run; hide Sends;
  }

  lemma OptimizedFilter(k: Kernels, show: Expr -> string, db: Database, p: Plan, c': Plan, rows: seq<Row>, out: seq<Row>)
    requires Lawful(k) && LawfulDb(k, db) && p.Filter? && p.schema == p.input.schema && NoAlias(Unalias(p.condition))
    requires Input(k, db, p.input, c', rows) && Run(k, db, p) == Some(out)
    requires Optimize(k, show, p.input) == Ok(c') && Optimize(k, show, p).Ok? && ReadsAlike(db, p, Optimize(k, show, p).value)
    ensures Preserved(k, db, p, Optimize(k, show, p).value, out)
  {
    hide Preserved; hide Sound; hide Run; hide Simplify; hide TypeIn; hide Lawful; hide LawfulDb; hide NoAlias; hide SimplifyAll; hide Project;
    hide FilterReads; hide Input; hide Ordered;
    var s := Simplify(k, c'.schema, p.condition).value;
    FilterPreserved(k, db, p, c', s, rows, out);
    if c'.Scan? {
      var pushed := c'.(filters := c'.filters + [s]);
      assert Optimize(k, show, p) == Ok(pushed) && pushed.filters[|pushed.filters| - 1] == s;
      SameReads(db, c', pushed, s);
    }
  }

  lemma SameReads(db: Database, scan: Plan, pushed: Plan, s: Expr)
    requires scan.Scan? && pushed.Scan? && pushed.table == scan.table && pushed.projection == scan.projection
    ensures FilterReads(db, scan, s) == FilterReads(db, pushed, s)
  {
  }

  lemma OptimizedSort(k: Kernels, show: Expr -> string, db: Database, p: Plan, c': Plan, rows: seq<Row>, out: seq<Row>)
    requires Lawful(k) && LawfulDb(k, db) && p.Sort? && p.schema == p.input.schema && RootAliases(KeyExprs(p.keys))
    requires Input(k, db, p.input, c', rows) && Run(k, db, p) == Some(out)
    requires Optimize(k, show, p.input) == Ok(c') && Optimize(k, show, p).Ok?
    ensures Survives(k, db, p, Optimize(k, show, p).value, out)
  {
    hide Preserved; hide Sound; hide Run; hide Simplify; hide TypeIn; hide Lawful; hide LawfulDb; hide SimplifyAll; hide Project;
    hide RootAliases; hide Input;
    hide Admits; hide HandsOn;
    SortPreserved(k, db, p, c', SimplifyAll(k, c'.schema, KeyExprs(p.keys)).value, rows, out);
  }

  lemma OptimizedAggregation(k: Kernels, show: Expr -> string, db: Database, p: Plan, c': Plan, rows: seq<Row>, out: seq<Row>)
    requires Lawful(k) && LawfulDb(k, db) && p.Aggregation? && Source(show, db, p) && Input(k, db, p.input, c', rows)
    requires Run(k, db, p) == Some(out) && Optimize(k, show, p.input) == Ok(c') && Optimize(k, show, p).Ok?
    ensures Survives(k, db, p, Optimize(k, show, p).value, out)
  {
    hide Preserved; hide Sound; hide Run; hide Simplify; hide TypeIn; hide Lawful; hide LawfulDb; hide SimplifyAll; hide Project;
    hide FieldsOf; hide Input;
    hide PlainAll; hide Out; hide Admits; hide HandsOn;
    AggregationPreserved(k, show, db, p, Optimize(k, show, p).value, rows, out);
  }

  lemma JoinIsRebuilt(k: Kernels, show: Expr -> string, p: Plan, l': Plan, r': Plan)
    requires p.Join? && Optimize(k, show, p.left) == Ok(l') && Optimize(k, show, p.right) == Ok(r') && Optimize(k, show, p).Ok?
    ensures SimplifyAll(k, l'.schema, p.leftOn).Ok? && SimplifyAll(k, r'.schema, p.rightOn).Ok?
    ensures var leftOn, rightOn := SimplifyAll(k, l'.schema, p.leftOn).value, SimplifyAll(k, r'.schema, p.rightOn).value;
      && KeyTypesMatch(l'.schema, r'.schema, leftOn, rightOn)
      && Optimize(k, show, p) == Ok(Join(l', r', p.kind, leftOn, rightOn, JoinFields(l'.schema, r'.schema)))
  {
    hide SimplifyAll; hide KeyTypesMatch; hide JoinFields; hide Project; hide Simplify;
  }

  lemma OptimizedJoin(k: Kernels, show: Expr -> string, db: Database, p: Plan, l': Plan, r': Plan, lefts: seq<Row>, rights: seq<Row>, out: seq<Row>)
    requires Lawful(k) && LawfulDb(k, db) && p.Join? && Source(show, db, p)
    requires Input(k, db, p.left, l', lefts) && Input(k, db, p.right, r', rights)
    requires Optimize(k, show, p.left) == Ok(l') && Optimize(k, show, p.right) == Ok(r')
    requires Run(k, db, p) == Some(out) && Optimize(k, show, p).Ok?
    ensures Survives(k, db, p, Optimize(k, show, p).value, out)
  {
    hide Preserved; hide Sound; hide Run; hide Simplify; hide TypeIn; hide Lawful; hide LawfulDb; hide SimplifyAll; hide Project;
    hide FieldsOf; hide Input;
    hide RootAliases; hide Out; hide JoinFields; hide KeyTypesMatch; hide Admits; hide HandsOn; hide Optimize;
    JoinIsRebuilt(k, show, p, l', r');
    JoinPreserved(k, db, p, Optimize(k, show, p).value, lefts, rights, out);
  }

  /** The operator runs exactly when it is admitted, then yields the same rows, and is preserved if it
      hands on what is expected above. */
  ghost predicate Survives(k: Kernels, db: Database, p: Plan, p': Plan, rows: seq<Row>) {
    && (Run(k, db, p').Some? <==> Admits(k, db, p, p'))
    && (Admits(k, db, p, p') ==> Run(k, db, p') == Some(rows))
    && (Admits(k, db, p, p') && HandsOn(p, p') ==> Preserved(k, db, p, p', rows))
  }

  lemma InputsOptimize(k: Kernels, show: Expr -> string, p: Plan)
    requires Optimize(k, show, p).Ok?
    ensures p.Projection? || p.Filter? || p.Aggregation? || p.Sort? || p.Limit? ==> Optimize(k, show, p.input).Ok?
    ensures p.Join? ==> Optimize(k, show, p.left).Ok? && Optimize(k, show, p.right).Ok?
  {
    hide Rules; hide Project; hide MakeFilter; hide MakeAggregation; hide MakeSort; hide MakeJoin;
  }

  /** Every operator above inputs whose operators all survive: the optimized one runs exactly when it
      is admitted, and then yields the same rows. */
  lemma OptimizedOperator(k: Kernels, show: Expr -> string, db: Database, p: Plan)
    requires Lawful(k) && LawfulDb(k, db) && Source(show, db, p) && SteadyInputs(k, show, db, p) && Run(k, db, p).Some? && Optimize(k, show, p).Ok?
    requires ReadsAlike(db, p, Optimize(k, show, p).value)
    ensures Survives(k, db, p, Optimize(k, show, p).value, Run(k, db, p).value)
    decreases p, 1
  {
    hide Optimize; hide Run; hide Lawful; hide LawfulDb; hide Preserved; hide Sound; hide ScanOk; hide Out; hide FieldsOf; hide Admits;
    hide HandsOn; hide ReadsAlike;
    hide PlainAll; hide NoAlias; hide RootAliases; hide JoinFields; hide Survives; hide Steady;
    var out := Run(k, db, p).value;
    InputsRun(k, db, p);
    InputsOptimize(k, show, p);
    if p.Scan? {
      ScanIsFixed(k, show, p);
      ScanPreserved(k, db, p, out);
      PreservedSurvives(k, db, p, p, out);
    } else if p.Join? {
      OptimizedInput(k, show, db, p.left);
      OptimizedInput(k, show, db, p.right);
      OptimizedJoin(k, show, db, p, Optimize(k, show, p.left).value, Optimize(k, show, p.right).value,
                    Run(k, db, p.left).value, Run(k, db, p.right).value, out);
    } else {
      OptimizedInput(k, show, db, p.input);
      var c', rows := Optimize(k, show, p.input).value, Run(k, db, p.input).value;
      if p.Limit? && p.input.Sort? {
        InputsRun(k, db, p.input);
        InputsOptimize(k, show, p.input);
        SteadyBelow(k, show, db, p.input);
        OptimizedInput(k, show, db, p.input.input);
        OptimizedTop(k, show, db, p, c', Optimize(k, show, p.input.input).value, Run(k, db, p.input.input).value, rows, out);
      } else {
        OptimizedUnary(k, show, db, p, c', rows, out);
      }
    }
  }

  lemma SteadyBelow(k: Kernels, show: Expr -> string, db: Database, p: Plan)
    requires p.Sort? && Steady(k, show, db, p)
    ensures Steady(k, show, db, p.input)
  {
    hide Optimize; hide ReadsAlike; hide Admits; hide HandsOn;
  }

  lemma SortIsRebuilt(k: Kernels, show: Expr -> string, p: Plan, c': Plan)
    requires p.Sort? && Optimize(k, show, p.input) == Ok(c') && Optimize(k, show, p).Ok?
    ensures SimplifyAll(k, c'.schema, KeyExprs(p.keys)).Ok?
    ensures var simple := SimplifyAll(k, c'.schema, KeyExprs(p.keys)).value;
      Optimize(k, show, p) == Ok(Sort(c', seq(|p.keys|, i requires 0 <= i < |p.keys| => p.keys[i].(expr := simple[i])), c'.schema))
  {
    hide SimplifyAll; hide Project; hide Simplify; hide TypeIn;
  }

  lemma OptimizedTop(k: Kernels, show: Expr -> string, db: Database, p: Plan, sort: Plan, c': Plan, rows: seq<Row>, sorted: seq<Row>, out: seq<Row>)
    requires Lawful(k) && LawfulDb(k, db) && Source(show, db, p) && p.Limit? && p.input.Sort?
    requires Input(k, db, p.input.input, c', rows) && Input(k, db, p.input, sort, sorted) && Run(k, db, p) == Some(out)
    requires Optimize(k, show, p.input.input) == Ok(c') && Optimize(k, show, p.input) == Ok(sort) && Optimize(k, show, p).Ok?
    ensures Survives(k, db, p, Optimize(k, show, p).value, out)
  {
    hide Optimize; hide Run; hide Lawful; hide LawfulDb; hide Preserved; hide Sound; hide Out; hide FieldsOf; hide Admits; hide HandsOn;
    hide Survives; hide ScanOk;
    hide PlainAll; hide NoAlias; hide RootAliases; hide SimplifyAll;
    SortIsRebuilt(k, show, p.input, c');
    LimitIsRebuilt(k, show, p, sort);
    TopPreserved(k, db, p, c', SimplifyAll(k, c'.schema, KeyExprs(p.input.keys)).value, rows, sorted, out);
    PreservedRuns(k, db, p, Optimize(k, show, p).value, out);
    PreservedSurvives(k, db, p, Optimize(k, show, p).value, out);
  }

  lemma OptimizedInput(k: Kernels, show: Expr -> string, db: Database, p: Plan)
    requires Lawful(k) && LawfulDb(k, db) && Source(show, db, p) && Steady(k, show, db, p) && Run(k, db, p).Some? && Optimize(k, show, p).Ok?
    ensures Input(k, db, p, Optimize(k, show, p).value, Run(k, db, p).value)
    decreases p, 2
  {
    hide Optimize; hide Run; hide Lawful; hide LawfulDb; hide Source; hide SteadyInputs; hide Admits; hide HandsOn; hide ReadsAlike;
    hide Preserved; hide Sound;
    OptimizedOperator(k, show, db, p);
    PlansAreSound(k, show, db, p);
  }

  /** Operators that ask for nothing. */
  lemma PreservedSurvives(k: Kernels, db: Database, p: Plan, p': Plan, out: seq<Row>)
    requires !p.Aggregation? && !p.Sort? && !p.Join? && Run(k, db, p') == Some(out)
    requires HandsOn(p, p') ==> Preserved(k, db, p, p', out)
    ensures Survives(k, db, p, p', out)
  {
    hide Run; hide Preserved; hide HandsOn;
  }

  lemma PreservedRuns(k: Kernels, db: Database, p: Plan, p': Plan, out: seq<Row>)
    requires Preserved(k, db, p, p', out)
    ensures Run(k, db, p') == Some(out)
  {
  }

  lemma SelectsAsBefore(db: Database, p: Plan, p': Plan)
    requires ReadsAlike(db, p, p') && p.Limit? && p'.Limit? && !p.input.Sort?
    ensures !p'.input.Sort?
  {
  }

  lemma OptimizedUnary(k: Kernels, show: Expr -> string, db: Database, p: Plan, c': Plan, rows: seq<Row>, out: seq<Row>)
    requires Lawful(k) && LawfulDb(k, db) && Source(show, db, p) && !p.Scan? && !p.Join? && !(p.Limit? && p.input.Sort?)
    requires Input(k, db, p.input, c', rows)
    requires Run(k, db, p) == Some(out) && Optimize(k, show, p.input) == Ok(c') && Optimize(k, show, p).Ok? && ReadsAlike(db, p, Optimize(k, show, p).value)
    ensures Survives(k, db, p, Optimize(k, show, p).value, out)
  {
    hide Optimize; hide Run; hide Lawful; hide LawfulDb; hide Preserved; hide Input; hide Out; hide FieldsOf; hide Admits; hide HandsOn;
    hide ReadsAlike; hide Survives;
    hide PlainAll; hide NoAlias; hide RootAliases;
    var p' := Optimize(k, show, p).value;
    match p
    case Projection(_, exprs, _) =>
      PlainHasRootAliases(exprs);
      OptimizedProjection(k, show, db, p, c', rows, out);
      PreservedSurvives(k, db, p, p', out);
    case Filter(_, _, _) =>
      OptimizedFilter(k, show, db, p, c', rows, out);
      PreservedRuns(k, db, p, p', out);
      PreservedSurvives(k, db, p, p', out);
    case Aggregation(_, _, _, _) => OptimizedAggregation(k, show, db, p, c', rows, out);
    case Sort(_, _, _) => OptimizedSort(k, show, db, p, c', rows, out);
    case Limit(_, _, _) =>
      LimitIsRebuilt(k, show, p, c');
      assert !c'.Sort? by { SelectsAsBefore(db, p, p'); }
      LimitPreserved(k, db, p, c', rows, out);
      PreservedRuns(k, db, p, p', out);
      PreservedSurvives(k, db, p, p', out);
  }

  lemma LimitIsRebuilt(k: Kernels, show: Expr -> string, p: Plan, c': Plan)
    requires p.Limit? && Optimize(k, show, p.input) == Ok(c')
    ensures Optimize(k, show, p) == Ok(Limit(c', p.limit, c'.schema))
  {
  }

  /** The optimizer preserves meaning: when it accepts a query plan all of whose operators survive, and
      the plan itself runs without an error, the optimized plan runs too and yields the same rows,
      column by column and in the same order, under the same names. */
  lemma OptimizerPreservesRows(k: Kernels, show: Expr -> string, db: Database, p: Plan)
    requires Lawful(k) && LawfulDb(k, db) && Source(show, db, p) && Steady(k, show, db, p) && Run(k, db, p).Some? && Optimize(k, show, p).Ok?
    ensures var p' := Optimize(k, show, p).value;
      && Run(k, db, p') == Run(k, db, p)
      && SameNames(p.schema, p'.schema)
      && Preserved(k, db, p, p', Run(k, db, p).value)
  {
    hide Optimize; hide Run; hide Lawful; hide LawfulDb; hide Source; hide Steady; hide Related; hide Linked; hide Sound; hide Sends;
    hide Out; hide ScanOk;
    OptimizedInput(k, show, db, p);
  }

  /** The outermost operator hands its types on to nothing: above inputs whose operators survive, the
      optimized plan runs exactly when it is admitted, and then yields the same rows. */
  lemma OptimizedQueryRunsExactlyWhen(k: Kernels, show: Expr -> string, db: Database, p: Plan)
    requires Lawful(k) && LawfulDb(k, db) && Source(show, db, p) && SteadyInputs(k, show, db, p) && Run(k, db, p).Some? && Optimize(k, show, p).Ok?
    requires ReadsAlike(db, p, Optimize(k, show, p).value)
    ensures var p' := Optimize(k, show, p).value;
      && (Run(k, db, p').Some? <==> Admits(k, db, p, p'))
      && (Admits(k, db, p, p') ==> Run(k, db, p') == Run(k, db, p))
  {
    hide Optimize; hide Run; hide Lawful; hide LawfulDb; hide Source; hide SteadyInputs; hide Admits; hide HandsOn; hide ReadsAlike; hide Preserved;
    OptimizedOperator(k, show, db, p);
  }

  /** Outputs that are computed and not named may be renamed, but as the outermost operator a
      projection keeps its rows all the same. */
  lemma UnnamedOutputsKeepRows(k: Kernels, show: Expr -> string, db: Database, p: Plan)
    requires Lawful(k) && LawfulDb(k, db) && p.Projection? && Source(show, db, p.input) && Steady(k, show, db, p.input)
    requires RootAliases(p.exprs) && FieldsOf(show, p.input.schema, p.exprs) == Ok(p.schema)
    requires Run(k, db, p).Some? && Optimize(k, show, p).Ok? && ReadsAlike(db, p, Optimize(k, show, p).value)
    ensures Run(k, db, Optimize(k, show, p).value) == Run(k, db, p)
  {
    hide Optimize; hide Run; hide Lawful; hide LawfulDb; hide Source; hide Steady; hide Input; hide RootAliases; hide FieldsOf;
    hide PlainAll; hide Preserved; hide ReadsAlike;
    InputsRun(k, db, p);
    InputsOptimize(k, show, p);
    OptimizedInput(k, show, db, p.input);
    OptimizedProjection(k, show, db, p, Optimize(k, show, p.input).value, Run(k, db, p.input).value, Run(k, db, p).value);
  }
}
