/** An optimized plan that runs yields the rows of the original, also where simplification has
    changed the width of integers. */
module OptimizerAgreement {
  import opened Basics
  import opened Values
  import opened Expr
  import opened ExprTyping
  import opened Simplification
  import opened ExprDrift
  import opened ExprAgreement
  import opened Plans
  import opened PlanRelation
  import opened PlanTyping
  import opened Optimizer
  import opened OptimizerSoundness
  import G = GroupBy
  import ScanNarrowing
  import Pruning

  // ----- descriptions of the same rows -----------------------------------------------------------

  /** The same rows, described by columns that may have drifted where they hold only NULLs or
      integers. */
  predicate Blends(a: Schema, b: Schema, rows: seq<Row>) {
    SameNames(a, b) && forall i: nat | i < |a| :: ColumnBlends(a[i].ty, b[i].ty, NullColumn(rows, i))
  }

  lemma RelatedBlends(a: Schema, b: Schema, rows: seq<Row>)
    requires Related(a, b, rows)
    ensures Blends(a, b, rows)
  {
    hide NullColumn;
  }

  lemma BlendedRow(k: Kernels, a: Schema, b: Schema, rows: seq<Row>, r: nat)
    requires Blends(a, b, rows) && AllFit(k, a, rows) && AllFit(k, b, rows) && r < |rows|
    ensures RowBlends(a, b, rows[r]) && RowFits(k, a, rows[r]) && RowFits(k, b, rows[r])
  {
    hide Fits; hide Drifts;
  }

  lemma BlendShifts(a: Schema, b: Schema, rows: seq<Row>)
    requires Blends(a, b, rows)
    ensures SchemaShifts(true, a, b)
  {
    hide NullColumn;
  }

  lemma SomeRowsBlend(k: Kernels, a: Schema, b: Schema, rows: seq<Row>, some: seq<Row>)
    requires Blends(a, b, rows) && AllFit(k, b, rows) && forall r | 0 <= r < |some| :: some[r] in rows
    ensures Blends(a, b, some) && AllFit(k, b, some)
  {
    hide Drifts; hide RowFits;
    forall i: nat | i < |a| && NullColumn(rows, i) ensures NullColumn(some, i) {
      forall r | 0 <= r < |some| ensures i < |some[r]| && some[r][i].Null? {
        var q :| 0 <= q < |rows| && rows[q] == some[r];
      }
    }
    forall r | 0 <= r < |some| ensures RowFits(k, b, some[r]) {
      var q :| 0 <= q < |rows| && rows[q] == some[r];
    }
  }

  /** An expression and its simplified form: equal values wherever both evaluate. */
  ghost predicate Echoes(k: Kernels, a: Schema, b: Schema, e: Expr, s: Expr, rows: seq<Row>) {
    && (forall r | 0 <= r < |rows| && Eval(k, a, rows[r], e).Ok? && Eval(k, b, rows[r], s).Ok? ::
          Loose(Eval(k, a, rows[r], e).value, Eval(k, b, rows[r], s).value))
    && (RunType(k, a, e).Some? ==>
          && RunType(k, b, e).Some? && Shifts(true, RunType(k, a, e).value, RunType(k, b, e).value)
          && RunType(k, b, s).Some? && Grows(RunType(k, b, e).value, RunType(k, b, s).value))
  }

  ghost predicate EchoesAll(k: Kernels, a: Schema, b: Schema, exprs: seq<Expr>, simple: seq<Expr>, rows: seq<Row>) {
    |simple| == |exprs| && forall i | 0 <= i < |exprs| :: Echoes(k, a, b, exprs[i], simple[i], rows)
  }

  lemma ExpressionEchoes(k: Kernels, a: Schema, plan: Schema, b: Schema, e: Expr, s: Expr, rows: seq<Row>)
    requires Lawful(k) && Uniform(k) && Blends(a, b, rows) && AllFit(k, a, rows) && AllFit(k, b, rows) && Compatible(plan, b)
    requires NoAlias(Unalias(e)) && Simplify(k, plan, e) == Ok(s)
    ensures Echoes(k, a, b, e, s, rows)
  {
    hide Eval; hide Simplify; hide Lawful; hide Uniform; hide Compatible; hide RunType; hide Blends; hide AllFit; hide Loose; hide NoAlias;
    hide TypeIn; hide Shifts; hide Grows;
    forall r | 0 <= r < |rows| && Eval(k, a, rows[r], e).Ok? && Eval(k, b, rows[r], s).Ok?
      ensures Loose(Eval(k, a, rows[r], e).value, Eval(k, b, rows[r], s).value)
    {
      BlendedRow(k, a, b, rows, r);
      SimplifiedLoosely(k, a, plan, b, rows[r], e);
    }
    if RunType(k, a, e).Some? {
      BlendShifts(a, b, rows);
      RunTypeShifts(true, k, a, b, e);
      RootAliasesStayApart(k, plan, e);
      SimplifiedRuns(k, plan, b, e);
    }
  }

  lemma ListEchoes(k: Kernels, a: Schema, plan: Schema, b: Schema, exprs: seq<Expr>, simple: seq<Expr>, rows: seq<Row>)
    requires Lawful(k) && Uniform(k) && Blends(a, b, rows) && AllFit(k, a, rows) && AllFit(k, b, rows) && Compatible(plan, b)
    requires RootAliases(exprs) && SimplifyAll(k, plan, exprs) == Ok(simple)
    ensures EchoesAll(k, a, b, exprs, simple, rows)
  {
    hide Lawful; hide Uniform; hide Blends; hide AllFit; hide Compatible; hide Echoes; hide Simplify; hide NoAlias;
    forall i | 0 <= i < |exprs| ensures Echoes(k, a, b, exprs[i], simple[i], rows) {
      ExpressionEchoes(k, a, plan, b, exprs[i], simple[i], rows);
    }
  }

  lemma EchoedRow(k: Kernels, a: Schema, b: Schema, exprs: seq<Expr>, simple: seq<Expr>, rows: seq<Row>, r: nat)
    requires EchoesAll(k, a, b, exprs, simple, rows) && r < |rows| && EvalAll(k, a, rows[r], exprs).Some? && EvalAll(k, b, rows[r], simple).Some?
    ensures EvalAll(k, a, rows[r], exprs) == EvalAll(k, b, rows[r], simple)
  {
    hide Eval; hide RunType; hide EvalAll;
    var x: Row, y: Row := EvalAll(k, a, rows[r], exprs).value, EvalAll(k, b, rows[r], simple).value;
    forall i: nat | i < |exprs| ensures x[i] == y[i] {
      EvalAllAt(k, a, rows[r], exprs, i);
      EvalAllAt(k, b, rows[r], simple, i);
      assert Echoes(k, a, b, exprs[i], simple[i], rows);
    }
    assert x == y;
  }

  lemma EchoedRows(k: Kernels, a: Schema, b: Schema, exprs: seq<Expr>, simple: seq<Expr>, rows: seq<Row>)
    requires EchoesAll(k, a, b, exprs, simple, rows) && MapRows(k, a, exprs, rows).Some? && MapRows(k, b, simple, rows).Some?
    ensures MapRows(k, a, exprs, rows) == MapRows(k, b, simple, rows)
  {
    hide EvalAll; hide MapRows; hide EchoesAll;
    var x: seq<Row>, y: seq<Row> := MapRows(k, a, exprs, rows).value, MapRows(k, b, simple, rows).value;
    forall r: nat | r < |rows| ensures x[r] == y[r] {
      MapRowsAt(k, a, exprs, rows, r);
      MapRowsAt(k, b, simple, rows, r);
      EchoedRow(k, a, b, exprs, simple, rows, r);
    }
    assert x == y;
  }

  /** A computed column whose type has changed holds only NULLs, or integers. */
  lemma EchoedColumn(k: Kernels, a: Schema, b: Schema, exprs: seq<Expr>, simple: seq<Expr>, rows: seq<Row>, i: nat)
    requires Lawful(k) && EchoesAll(k, a, b, exprs, simple, rows) && AllFit(k, a, rows) && AllFit(k, b, rows) && i < |exprs|
    requires MapRows(k, a, exprs, rows).Some? && MapRows(k, b, simple, rows).Some? && RunType(k, a, exprs[i]).Some?
    ensures RunType(k, b, simple[i]).Some?
    ensures RunType(k, a, exprs[i]) == RunType(k, b, simple[i]) || Whole(RunType(k, a, exprs[i]).value)
            || NullColumn(MapRows(k, a, exprs, rows).value, i)
  {
    hide EvalAll; hide MapRows; hide RunType; hide Eval; hide Lawful; hide AllFit; hide Drifts; hide Fits; hide Shifts; hide Grows;
    assert Echoes(k, a, b, exprs[i], simple[i], rows);
    var t, t' := RunType(k, a, exprs[i]).value, RunType(k, b, simple[i]).value;
    if t != t' && !Whole(t) {
      var out: seq<Row> := MapRows(k, a, exprs, rows).value;
      forall r: nat | r < |out| ensures i < |out[r]| && out[r][i].Null? {
        MapRowsAt(k, a, exprs, rows, r);
        MapRowsAt(k, b, simple, rows, r);
        EvalAllAt(k, a, rows[r], exprs, i);
        EvalAllAt(k, b, rows[r], simple, i);
        AllFits(k, a, rows, r);
        AllFits(k, b, rows, r);
        EvalRuns(k, a, rows[r], exprs[i]);
        EvalRuns(k, b, rows[r], simple[i]);
      }
      assert NullColumn(out, i);
    }
  }

  /** Inferred types that are run types on both sides do not narrow, except integers. */
  lemma ExactEases(k: Kernels, plan: Schema, a: Schema, plan': Schema, b: Schema, e: Expr, s: Expr, rows: seq<Row>)
    requires Lawful(k) && Compatible(plan, a) && Compatible(plan', b) && SchemaShifts(true, a, b) && Echoes(k, a, b, e, s, rows)
    requires NoAlias(Unalias(e)) && Simplify(k, plan', e) == Ok(s) && Exact(k, plan, a, e) && Exact(k, plan', b, s)
    ensures Eases(TypeIn(plan, e).value, TypeIn(plan', s).value)
  {
    hide TypeIn; hide RunType; hide Lawful; hide Compatible; hide Simplify; hide Eval; hide SchemaShifts; hide Loose; hide NoAlias;
    InferredShifts(true, k, plan, a, plan', b, e, s);
  }

  // ----- plans ---------------------------------------------------------------------------------------

  /** `p'` runs to the rows of `p`, under the same names. */
  ghost predicate Matches(k: Kernels, db: Database, p: Plan, p': Plan, rows: seq<Row>) {
    && Run(k, db, p') == Some(rows)
    && SameNames(p.schema, p'.schema) && Linked(p'.schema, Out(db, p')) && AllFit(k, Out(db, p'), rows)
    && (rows != [] ==> Blends(Out(db, p), Out(db, p'), rows))
  }

  /** `p'` fails, or it matches `p`. */
  ghost predicate Agrees(k: Kernels, db: Database, p: Plan, p': Plan, rows: seq<Row>) {
    Run(k, db, p') == None || Matches(k, db, p, p', rows)
  }

  /** An input and what it became. */
  ghost predicate Matched(k: Kernels, db: Database, c: Plan, c': Plan, rows: seq<Row>) {
    Run(k, db, c) == Some(rows) && Sound(k, db, c, rows) && Matches(k, db, c, c', rows)
  }

  lemma PreservedAgrees(k: Kernels, db: Database, p: Plan, p': Plan, rows: seq<Row>)
    requires LawfulDb(k, db) && Input(k, db, p, p', rows)
    ensures Agrees(k, db, p, p', rows)
  {
    hide Related; hide Linked; hide AllFit; hide Run; hide Blends; hide LawfulDb; hide Sends; hide Out;
    if rows != [] {
      RowsAreSent(k, db, p);
      RelatedBlends(Out(db, p), Out(db, p'), rows);
      AllRelatedFit(k, Out(db, p), Out(db, p'), rows);
    } else {
      NothingFits(k, Out(db, p'), rows);
    }
  }

  /** Both inputs hand on a batch where there is a row. */
  lemma MatchedSend(k: Kernels, db: Database, c: Plan, c': Plan, rows: seq<Row>)
    requires LawfulDb(k, db) && Matched(k, db, c, c', rows) && rows != []
    ensures Sends(k, db, c) && Sends(k, db, c')
  {
    hide Run; hide Sends; hide LawfulDb; hide Blends; hide Linked; hide AllFit; hide Out;
    RowsAreSent(k, db, c);
    RowsAreSent(k, db, c');
  }

  /** Expressions over an input and, simplified, over what it became: equal values where both run. */
  lemma ListMatches(k: Kernels, db: Database, c: Plan, c': Plan, exprs: seq<Expr>, simple: seq<Expr>, rows: seq<Row>)
    requires Lawful(k) && Uniform(k) && Matched(k, db, c, c', rows) && RootAliases(exprs) && SimplifyAll(k, c'.schema, exprs) == Ok(simple)
    requires MapRows(k, Out(db, c), exprs, rows).Some? && MapRows(k, Out(db, c'), simple, rows).Some?
    ensures MapRows(k, Out(db, c), exprs, rows) == MapRows(k, Out(db, c'), simple, rows)
    ensures rows != [] ==> EchoesAll(k, Out(db, c), Out(db, c'), exprs, simple, rows)
  {
    hide Run; hide Lawful; hide Uniform; hide Blends; hide AllFit; hide Linked; hide RootAliases; hide SimplifyAll; hide MapRows;
    hide EchoesAll; hide Out;
    if rows != [] {
      LinkedIsCompatible(c'.schema, Out(db, c'));
      ListEchoes(k, Out(db, c), c'.schema, Out(db, c'), exprs, simple, rows);
      EchoedRows(k, Out(db, c), Out(db, c'), exprs, simple, rows);
    } else {
      NoRowsMapped(k, Out(db, c), exprs);
      NoRowsMapped(k, Out(db, c'), simple);
    }
  }

  lemma ProjectionMatches(k: Kernels, show: Expr -> string, db: Database, p: Plan, c': Plan, simple: seq<Expr>, rows: seq<Row>, out: seq<Row>)
    requires Lawful(k) && LawfulDb(k, db) && Uniform(k) && p.Projection? && PlainAll(p.exprs) && FieldsOf(show, p.input.schema, p.exprs) == Ok(p.schema)
    requires Matched(k, db, p.input, c', rows) && Run(k, db, p) == Some(out)
    requires SimplifyAll(k, c'.schema, p.exprs) == Ok(simple) && FieldsOf(show, c'.schema, simple).Ok?
    ensures Agrees(k, db, p, Projection(c', simple, FieldsOf(show, c'.schema, simple).value), out)
  {
    hide MapRows; hide RunType; hide TypeIn; hide Eval; hide Name; hide Lawful; hide LawfulDb; hide Uniform; hide Simplify; hide Linked;
    hide Blends; hide AllFit;
    hide FieldsOf; hide PlainAll; hide EchoesAll; hide SimplifyAll; hide Sends; hide Compatible; hide SchemaShifts;
    var run, run', fields' := Out(db, p.input), Out(db, c'), FieldsOf(show, c'.schema, simple).value;
    var p' := Projection(c', simple, fields');
    if Run(k, db, p').Some? {
      PlainHasRootAliases(p.exprs);
      ListMatches(k, db, p.input, c', p.exprs, simple, rows);
      SimplifiedNames(k, show, p.input.schema, c'.schema, p.exprs, simple, p.schema, fields');
      LinkedToItself(fields');
      if rows != [] {
        MatchedSend(k, db, p.input, c', rows);
        LinkedIsCompatible(p.input.schema, run);
        LinkedIsCompatible(c'.schema, run');
        MappedFits(k, run', simple, rows, fields');
        BlendShifts(run, run', rows);
        ComputedBlends(k, show, p.input.schema, run, c'.schema, run', p.exprs, simple, p.schema, fields', rows);
      } else {
        NothingFits(k, fields', out);
      }
    }
  }

  lemma ComputedBlends(k: Kernels, show: Expr -> string, plan: Schema, run: Schema, plan': Schema, run': Schema, exprs: seq<Expr>, simple: seq<Expr>,
                       fields: Schema, fields': Schema, rows: seq<Row>)
    requires Lawful(k) && EchoesAll(k, run, run', exprs, simple, rows) && AllFit(k, run, rows) && AllFit(k, run', rows)
    requires Compatible(plan, run) && Compatible(plan', run') && SchemaShifts(true, run, run')
    requires PlainAll(exprs) && SimplifyAll(k, plan', exprs) == Ok(simple)
    requires FieldsOf(show, plan, exprs) == Ok(fields) && FieldsOf(show, plan', simple) == Ok(fields')
    requires RunAs(k, run, exprs, fields) && RunAs(k, run', simple, fields')
    requires MapRows(k, run, exprs, rows).Some? && MapRows(k, run', simple, rows).Some?
    ensures Blends(fields, fields', MapRows(k, run, exprs, rows).value)
  {
    hide MapRows; hide RunType; hide Eval; hide Name; hide Lawful; hide Simplify; hide AllFit; hide SimplifyAll; hide TypeIn; hide Compatible;
    hide Plain; hide NullColumn; hide FieldsOf; hide SchemaShifts; hide Echoes; hide NoAlias;
    forall i: nat | i < |fields|
      ensures fields[i].name == fields'[i].name
      ensures ColumnBlends(fields[i].ty, fields'[i].ty, NullColumn(MapRows(k, run, exprs, rows).value, i))
    {
      SimplifiedPlain(k, show, plan', exprs[i], simple[i]);
      EchoedColumn(k, run, run', exprs, simple, rows, i);
      ExactEases(k, plan, run, plan', run', exprs[i], simple[i], rows);
    }
  }

  /** An identity projection runs whenever its input does, and returns its rows. */
  lemma IdentityRuns(k: Kernels, show: Expr -> string, db: Database, q: Plan, rows: seq<Row>)
    requires q.Projection? && IdentityProjection(show, q.input.schema, q.exprs) && FieldsOf(show, q.input.schema, q.exprs) == Ok(q.schema)
    requires Linked(q.input.schema, Out(db, q.input)) && Run(k, db, q.input) == Some(rows) && AllFit(k, Out(db, q.input), rows)
    ensures Run(k, db, q) == Some(rows) && q.schema == Out(db, q.input)
  {
    hide MapRows; hide RunType; hide Qualified; hide Unqualified; hide EvalAll; hide Resolve; hide Fits; hide Sends;
    var plan, run := q.input.schema, Out(db, q.input);
    IdentityNames(show, plan, run, q.exprs);
    forall i: nat | i < |plan| ensures q.schema[i] == run[i] && RunType(k, run, q.exprs[i]) == Some(run[i].ty) {
      IdentityType(plan, q.exprs[i], i);
      IdentityColumn(k, plan, run, q.exprs[i], i, []);
    }
    assert q.schema == run;
    forall r: nat | r < |rows| ensures EvalAll(k, run, rows[r], q.exprs) == Some(rows[r]) {
      IdentityEvaluates(k, plan, run, rows[r], q.exprs);
      IdentityRow(k, run, rows[r], q.exprs);
      assert rows[r][..|q.exprs|] == rows[r];
    }
    MapRowsBuild(k, run, q.exprs, rows, rows);
  }

  lemma IdentityColumn(k: Kernels, plan: Schema, run: Schema, e: Expr, i: nat, row: Row)
    requires SameNames(plan, run) && i < |plan| && (forall j | 0 <= j < |run| :: !Qualified(run[j].name)) && (|row| == |run| || row == [])
    requires Unalias(e).Column? && Unqualified(Unalias(e).name) == plan[i].name && TypeIn(plan, e).Ok?
    ensures RunType(k, run, e) == Some(run[i].ty)
    ensures |row| == |run| ==> Eval(k, run, row, e) == Ok(Typed(run[i].ty, row[i]))
  {
    hide Resolve; hide Qualified; hide Unqualified;
    var name := Unalias(e).name;
    assert TypeIn(plan, Column(name)).Ok?;
    SameNamesResolve(plan, run, name);
    ResolvesUniquely(run, name, Resolve(run, name).value);
    assert RunType(k, run, Column(name)) == Some(run[i].ty);
    if |row| == |run| { assert Eval(k, run, row, Column(name)) == Ok(Typed(run[i].ty, row[i])); }
  }

  lemma {:induction false} IdentityEvaluates(k: Kernels, plan: Schema, run: Schema, row: Row, exprs: seq<Expr>)
    requires SameNames(plan, run) && (forall j | 0 <= j < |run| :: !Qualified(run[j].name)) && |row| == |run| && |exprs| <= |plan|
    requires forall i | 0 <= i < |exprs| ::
      Unalias(exprs[i]).Column? && Unqualified(Unalias(exprs[i]).name) == plan[i].name && TypeIn(plan, exprs[i]).Ok?
    ensures EvalAll(k, run, row, exprs).Some?
  {
    hide Eval; hide TypeIn; hide Qualified; hide Unqualified;
    if exprs != [] {
      var n := |exprs| - 1;
      IdentityEvaluates(k, plan, run, row, exprs[..n]);
      IdentityColumn(k, plan, run, exprs[n], n, row);
    }
  }

  /** A projection above an input that agrees and is no scan. */
  lemma ProjectionAgrees(k: Kernels, show: Expr -> string, db: Database, p: Plan, c': Plan, rows: seq<Row>, out: seq<Row>)
    requires Lawful(k) && LawfulDb(k, db) && Uniform(k) && p.Projection? && PlainAll(p.exprs) && FieldsOf(show, p.input.schema, p.exprs) == Ok(p.schema) && !c'.Scan?
    requires Run(k, db, p.input) == Some(rows) && Sound(k, db, p.input, rows) && Agrees(k, db, p.input, c', rows)
    requires Run(k, db, p) == Some(out) && Optimize(k, show, p.input) == Ok(c') && Optimize(k, show, p).Ok?
    ensures Agrees(k, db, p, Optimize(k, show, p).value, out) && !Optimize(k, show, p).value.Scan?
  {
    hide FieldsOf; hide Matches; hide Sound; hide Run; hide SimplifyAll; hide Plain; hide IdentityProjection; hide RootAliases;
    hide Lawful; hide LawfulDb; hide Uniform; hide Out;
    PlainHasRootAliases(p.exprs);
    TypedIsNoWildcard(show, p.input.schema, p.exprs);
    NothingToExpand(p.exprs, c'.schema);
    var simple := SimplifyAll(k, c'.schema, p.exprs).value;
    SimplifiedIsNoWildcard(k, c'.schema, p.exprs, simple);
    NothingToExpand(simple, c'.schema);
    var q := Projection(c', simple, FieldsOf(show, c'.schema, simple).value);
    assert SimplifyExpressions(k, show, Project(show, c', p.exprs).value) == Ok(q);
    if Run(k, db, q).Some? { InputsRun(k, db, q); }
    if Run(k, db, c').Some? {
      ProjectionMatches(k, show, db, p, c', simple, rows, out);
      if IdentityProjection(show, c'.schema, simple) {
        IdentityMatches(k, show, db, p, q, rows, out);
      }
    }
  }

  lemma IdentityMatches(k: Kernels, show: Expr -> string, db: Database, p: Plan, q: Plan, rows: seq<Row>, out: seq<Row>)
    requires q.Projection? && IdentityProjection(show, q.input.schema, q.exprs) && FieldsOf(show, q.input.schema, q.exprs) == Ok(q.schema)
    requires p.Projection? && Matches(k, db, p.input, q.input, rows) && Agrees(k, db, p, q, out)
    ensures Matches(k, db, p, q.input, out)
  {
    hide FieldsOf; hide IdentityProjection; hide Blends; hide AllFit; hide Linked; hide Run; hide Out;
    IdentityRuns(k, show, db, q, rows);
    ProjectionOut(db, q);
    LinkedNames(show, db, q);
  }

  lemma LinkedNames(show: Expr -> string, db: Database, q: Plan)
    requires q.Projection? && IdentityProjection(show, q.input.schema, q.exprs) && Linked(q.input.schema, Out(db, q.input))
    ensures SameNames(q.input.schema, Out(db, q.input))
  {
    hide IdentityProjection; hide Linked; hide Out;
    IdentityNames(show, q.input.schema, Out(db, q.input), q.exprs);
  }

  // ----- filters, limits and sorts -------------------------------------------------------------------

  lemma {:induction false} FilterEchoes(k: Kernels, a: Schema, b: Schema, e: Expr, s: Expr, all: seq<Row>, n: nat)
    requires Echoes(k, a, b, e, s, all) && n <= |all|
    requires Pruning.FilterRows(k, a, e, all[..n]).Some? && Pruning.FilterRows(k, b, s, all[..n]).Some?
    ensures Pruning.FilterRows(k, a, e, all[..n]) == Pruning.FilterRows(k, b, s, all[..n])
  {
    hide Eval; hide RunType;
    if n > 0 {
      assert all[..n][..n - 1] == all[..n - 1];
      FilterEchoes(k, a, b, e, s, all, n - 1);
    }
  }

  lemma FilterAgrees(k: Kernels, show: Expr -> string, db: Database, p: Plan, c': Plan, rows: seq<Row>, out: seq<Row>)
    requires Lawful(k) && LawfulDb(k, db) && Uniform(k) && p.Filter? && p.schema == p.input.schema && NoAlias(Unalias(p.condition)) && !c'.Scan?
    requires Run(k, db, p.input) == Some(rows) && Sound(k, db, p.input, rows) && Agrees(k, db, p.input, c', rows)
    requires Run(k, db, p) == Some(out) && Optimize(k, show, p.input) == Ok(c') && Optimize(k, show, p).Ok?
    ensures Agrees(k, db, p, Optimize(k, show, p).value, out) && !Optimize(k, show, p).value.Scan?
  {
    hide Matches; hide Sound; hide Run; hide Simplify; hide TypeIn; hide Lawful; hide LawfulDb; hide Uniform; hide NoAlias;
    hide SimplifyAll; hide Project; hide Out;
    var s := Simplify(k, c'.schema, p.condition).value;
    var q := Filter(c', s, c'.schema);
    if Run(k, db, q).Some? { InputsRun(k, db, q); }
    if Run(k, db, c').Some? { FilterMatches(k, db, p, c', s, rows, out); }
  }

  lemma FilterMatches(k: Kernels, db: Database, p: Plan, c': Plan, s: Expr, rows: seq<Row>, out: seq<Row>)
    requires Lawful(k) && LawfulDb(k, db) && Uniform(k) && p.Filter? && p.schema == p.input.schema && NoAlias(Unalias(p.condition))
    requires Matched(k, db, p.input, c', rows) && Run(k, db, p) == Some(out) && Simplify(k, c'.schema, p.condition) == Ok(s)
    ensures Agrees(k, db, p, Filter(c', s, c'.schema), out)
  {
    hide Eval; hide RunType; hide Lawful; hide LawfulDb; hide Uniform; hide Simplify; hide Linked; hide Blends; hide AllFit;
    hide Compatible; hide NoAlias;
    hide Pruning.FilterRows; hide Echoes; hide Sends;
    var run, run' := Out(db, p.input), Out(db, c');
    assert Out(db, p) == run && Out(db, Filter(c', s, c'.schema)) == run';
    if rows != [] {
      LinkedIsCompatible(c'.schema, run');
      ExpressionEchoes(k, run, c'.schema, run', p.condition, s, rows);
      assert rows[..|rows|] == rows;
      if Run(k, db, Filter(c', s, c'.schema)).Some? {
        FilterEchoes(k, run, run', p.condition, s, rows, |rows|);
        Pruning.KeptRowsPass(k, run, p.condition, rows);
        SomeRowsBlend(k, run, run', rows, out);
      }
    } else {
      NothingFiltered(k, run, p.condition);
      NothingFiltered(k, run', s);
    }
  }

  lemma LimitAgrees(k: Kernels, db: Database, p: Plan, c': Plan, rows: seq<Row>, out: seq<Row>)
    requires p.Limit? && p.schema == p.input.schema && Sound(k, db, p.input, rows) && Agrees(k, db, p.input, c', rows)
    requires Run(k, db, p.input) == Some(rows) && Run(k, db, p) == Some(out) && !p.input.Sort? && !c'.Sort?
    ensures Agrees(k, db, p, Limit(c', p.limit, c'.schema), out)
  {
    hide Linked; hide Blends; hide AllFit; hide Sends; hide Run; hide Out;
    var p' := Limit(c', p.limit, c'.schema);
    if Run(k, db, p').Some? { InputsRun(k, db, p'); }
    if Run(k, db, c').Some? {
      LimitedRows(k, db, p, rows);
      LimitedRows(k, db, p', rows);
      if rows != [] { SomeRowsBlend(k, Out(db, p.input), Out(db, c'), rows, out); }
    }
  }

  /** The plan schemas of matching plans blend as their batches do. */
  lemma PlanBlends(k: Kernels, db: Database, c: Plan, c': Plan, rows: seq<Row>)
    requires Matched(k, db, c, c', rows)
    ensures AllFit(k, c.schema, rows) && AllFit(k, c'.schema, rows) && (rows != [] ==> Blends(c.schema, c'.schema, rows))
  {
    hide Run; hide Out; hide Linked; hide ColumnBlends; hide NullColumn;
    LinkedTypes(c.schema, Out(db, c));
    LinkedTypes(c'.schema, Out(db, c'));
    RetypedFits(k, c.schema, Out(db, c), rows);
    RetypedFits(k, c'.schema, Out(db, c'), rows);
  }

  lemma SortAgrees(k: Kernels, show: Expr -> string, db: Database, p: Plan, c': Plan, rows: seq<Row>, out: seq<Row>)
    requires Lawful(k) && LawfulDb(k, db) && Uniform(k) && p.Sort? && p.schema == p.input.schema && RootAliases(KeyExprs(p.keys))
    requires Run(k, db, p.input) == Some(rows) && Sound(k, db, p.input, rows) && Agrees(k, db, p.input, c', rows)
    requires Run(k, db, p) == Some(out) && Optimize(k, show, p.input) == Ok(c') && Optimize(k, show, p).Ok?
    ensures Agrees(k, db, p, Optimize(k, show, p).value, out) && !Optimize(k, show, p).value.Scan?
  {
    hide Matches; hide Sound; hide Run; hide Simplify; hide TypeIn; hide Lawful; hide LawfulDb; hide Uniform; hide SimplifyAll;
    hide Project; hide RootAliases; hide Out;
    var simple := SimplifyAll(k, c'.schema, KeyExprs(p.keys)).value;
    var q := Sort(c', seq(|p.keys|, i requires 0 <= i < |p.keys| => p.keys[i].(expr := simple[i])), c'.schema);
    if Run(k, db, q).Some? { InputsRun(k, db, q); }
    if Run(k, db, c').Some? { SortMatches(k, db, p, c', simple, rows, out); }
  }

  /** What a sort that runs has done. */
  lemma SortedRows(k: Kernels, db: Database, p: Plan, rows: seq<Row>, out: seq<Row>)
    requires LawfulDb(k, db) && p.Sort? && Run(k, db, p.input) == Some(rows) && Run(k, db, p) == Some(out)
    ensures rows == [] ==> out == []
    ensures rows != [] ==>
      && MapRows(k, p.schema, KeyExprs(p.keys), rows).Some?
      && Reorder(rows, db.order(KeyFlags(p.keys), MapRows(k, p.schema, KeyExprs(p.keys), rows).value)) == Some(out)
  {
    hide Run; hide MapRows; hide Sortable; hide Sends; hide LawfulDb; hide KeyExprs; hide KeyFlags; hide Reorder; hide Out;
    SortedRun(k, db, p, rows);
    if rows != [] {
      RowsAreSent(k, db, p.input);
    } else if Sends(k, db, p.input) {
      NothingSorted(db.order(KeyFlags(p.keys), MapRows(k, p.schema, KeyExprs(p.keys), rows).value));
    }
  }

  lemma SortMatches(k: Kernels, db: Database, p: Plan, c': Plan, simple: seq<Expr>, rows: seq<Row>, out: seq<Row>)
    requires Lawful(k) && LawfulDb(k, db) && Uniform(k) && p.Sort? && p.schema == p.input.schema && RootAliases(KeyExprs(p.keys))
    requires Matched(k, db, p.input, c', rows) && Run(k, db, p) == Some(out) && SimplifyAll(k, c'.schema, KeyExprs(p.keys)) == Ok(simple)
    ensures var keys := seq(|p.keys|, i requires 0 <= i < |p.keys| => p.keys[i].(expr := simple[i]));
      Agrees(k, db, p, Sort(c', keys, c'.schema), out)
  {
    hide Run; hide Eval; hide RunType; hide Lawful; hide LawfulDb; hide Uniform; hide Simplify; hide Linked; hide Blends; hide AllFit;
    hide Compatible; hide MapRows;
    hide RootAliases; hide SimplifyAll; hide EchoesAll; hide KeyFlags;
    var keys := seq(|p.keys|, i requires 0 <= i < |p.keys| => p.keys[i].(expr := simple[i]));
    var q := Sort(c', keys, c'.schema);
    SimplifiedKeys(p.keys, simple);
    if Run(k, db, q).Some? {
      SortedRows(k, db, p, rows, out);
      SortedRows(k, db, q, rows, Run(k, db, q).value);
      LinkedToItself(c'.schema);
      if rows != [] {
        PlanBlends(k, db, p.input, c', rows);
        CompatibleWithItself(c'.schema);
        ListEchoes(k, p.schema, c'.schema, c'.schema, KeyExprs(p.keys), simple, rows);
        EchoedRows(k, p.schema, c'.schema, KeyExprs(p.keys), simple, rows);
        SomeRowsBlend(k, p.schema, c'.schema, rows, out);
      } else {
        NothingFits(k, c'.schema, out);
      }
    }
  }

  /** What a limit above a sort that runs has done. */
  lemma TopSelected(k: Kernels, db: Database, p: Plan, rows: seq<Row>, out: seq<Row>)
    requires LawfulDb(k, db) && p.Limit? && p.input.Sort? && Run(k, db, p.input).Some? && Run(k, db, p.input.input) == Some(rows) && Run(k, db, p) == Some(out)
    ensures rows == [] || p.limit == 0 ==> out == []
    ensures rows != [] && p.limit > 0 ==> TopRows(k, db, p.input.keys, p.limit, p.schema, rows) == Some(out)
  {
    hide Run; hide MapRows; hide Sends; hide LawfulDb; hide KeyExprs; hide KeyFlags; hide Reorder; hide Out;
    SelectedRows(k, db, p, rows);
    if rows != [] {
      RowsAreSent(k, db, p.input.input);
    } else if Sends(k, db, p.input.input) && p.limit > 0 {
      NothingSorted(db.top(KeyFlags(p.input.keys), MapRows(k, p.schema, KeyExprs(p.input.keys), rows).value, 0));
    }
  }

  lemma TopMatches(k: Kernels, db: Database, p: Plan, c': Plan, simple: seq<Expr>, rows: seq<Row>, out: seq<Row>)
    requires Lawful(k) && LawfulDb(k, db) && Uniform(k) && p.Limit? && p.input.Sort? && p.schema == p.input.schema == p.input.input.schema
    requires RootAliases(KeyExprs(p.input.keys)) && SimplifyAll(k, c'.schema, KeyExprs(p.input.keys)) == Ok(simple)
    requires Matched(k, db, p.input.input, c', rows) && Run(k, db, p.input).Some? && Run(k, db, p) == Some(out)
    ensures var keys := seq(|p.input.keys|, i requires 0 <= i < |p.input.keys| => p.input.keys[i].(expr := simple[i]));
      Agrees(k, db, p, Limit(Sort(c', keys, c'.schema), p.limit, c'.schema), out)
  {
    hide Run; hide Eval; hide RunType; hide Lawful; hide LawfulDb; hide Uniform; hide Simplify; hide Linked; hide Blends; hide AllFit;
    hide Compatible; hide MapRows;
    hide RootAliases; hide SimplifyAll; hide EchoesAll; hide KeyFlags; hide Reorder; hide Sends;
    var keys := seq(|p.input.keys|, i requires 0 <= i < |p.input.keys| => p.input.keys[i].(expr := simple[i]));
    var sort := Sort(c', keys, c'.schema);
    var q := Limit(sort, p.limit, c'.schema);
    SimplifiedKeys(p.input.keys, simple);
    if Run(k, db, q).Some? {
      InputsRun(k, db, q);
      TopSelected(k, db, p, rows, out);
      TopSelected(k, db, q, rows, Run(k, db, q).value);
      LinkedToItself(c'.schema);
      assert Out(db, p) == Out(db, p.input) == p.schema && Out(db, q) == Out(db, sort) == c'.schema;
      if rows != [] && p.limit > 0 {
        PlanBlends(k, db, p.input.input, c', rows);
        CompatibleWithItself(c'.schema);
        ListEchoes(k, p.schema, c'.schema, c'.schema, KeyExprs(p.input.keys), simple, rows);
        EchoedRows(k, p.schema, c'.schema, KeyExprs(p.input.keys), simple, rows);
        SelectedFrom(k, db, p.input.keys, p.limit, p.schema, rows, out);
        SomeRowsBlend(k, p.schema, c'.schema, rows, out);
      } else {
        NothingFits(k, c'.schema, out);
      }
    }
  }

  lemma TopAgrees(k: Kernels, show: Expr -> string, db: Database, p: Plan, c': Plan, rows: seq<Row>, out: seq<Row>)
    requires Lawful(k) && LawfulDb(k, db) && Uniform(k) && Source(show, db, p) && p.Limit? && p.input.Sort? && Run(k, db, p.input).Some?
    requires Run(k, db, p.input.input) == Some(rows) && Sound(k, db, p.input.input, rows) && Agrees(k, db, p.input.input, c', rows)
    requires Run(k, db, p) == Some(out) && Optimize(k, show, p.input.input) == Ok(c') && Optimize(k, show, p.input).Ok? && Optimize(k, show, p).Ok?
    ensures Agrees(k, db, p, Optimize(k, show, p).value, out) && !Optimize(k, show, p).value.Scan?
  {
    hide Matches; hide Sound; hide Run; hide Lawful; hide LawfulDb; hide Uniform; hide SimplifyAll; hide RootAliases; hide Out;
    hide Optimize; hide FieldsOf;
    hide ScanNarrowing.ScanOk; hide PlainAll; hide NoAlias;
    SortIsRebuilt(k, show, p.input, c');
    var sort := Optimize(k, show, p.input).value;
    LimitIsRebuilt(k, show, p, sort);
    var q := Optimize(k, show, p).value;
    if Run(k, db, q).Some? {
      InputsRun(k, db, q);
      InputsRun(k, db, sort);
    }
    if Run(k, db, c').Some? {
      TopMatches(k, db, p, c', SimplifyAll(k, c'.schema, KeyExprs(p.input.keys)).value, rows, out);
    }
  }

  // ----- aggregations --------------------------------------------------------------------------------

  /** From a column on, types change at most to that of NULL or in the width of an integer. */
  predicate EasesFrom(a: Schema, b: Schema, from: nat) {
    |a| == |b| && forall i | from <= i < |a| :: Eases(a[i].ty, b[i].ty)
  }

  /** Setting of the proof for an aggregation over an input that matches. */
  ghost predicate Gathering(k: Kernels, show: Expr -> string, db: Database, p: Plan, q: Plan, rows: seq<Row>, out: seq<Row>) {
    && p.Aggregation? && q.Aggregation? && PlainAll(p.groups) && PlainAll(p.aggregates)
    && FieldsOf(show, p.input.schema, p.groups + p.aggregates) == Ok(p.schema)
    && FieldsOf(show, q.input.schema, q.groups + q.aggregates) == Ok(q.schema)
    && SimplifyAll(k, q.input.schema, p.groups) == Ok(q.groups) && SimplifyAll(k, q.input.schema, p.aggregates) == Ok(q.aggregates)
    && EasesFrom(p.schema, q.schema, |p.groups|)
    && Matched(k, db, p.input, q.input, rows) && Run(k, db, p) == Some(out) && Run(k, db, q).Some?
  }

  /** What an aggregation that runs has done. */
  lemma AggregatedRows(k: Kernels, db: Database, p: Plan, rows: seq<Row>, out: seq<Row>)
    requires p.Aggregation? && Run(k, db, p.input) == Some(rows) && Run(k, db, p) == Some(out)
    ensures Specs(p.aggregates).Some? && Builds(p.schema, |p.groups|)
    ensures var run, specs := Out(db, p.input), Specs(p.aggregates).value;
      && MapRows(k, run, p.groups, rows).Some? && MapRows(k, run, ArgsOf(specs), rows).Some?
      && AggregateRows(db, specs, |p.groups| > 0, Tuples(MapRows(k, run, p.groups, rows).value, MapRows(k, run, ArgsOf(specs), rows).value)) == Some(out)
  {
    hide MapRows; hide Specs; hide AggregateRows; hide RunAs; hide Runs; hide Sends; hide Out; hide Builds;
  }

  lemma GatheredRows(k: Kernels, show: Expr -> string, db: Database, p: Plan, q: Plan, rows: seq<Row>, out: seq<Row>)
    requires Lawful(k) && Uniform(k) && Gathering(k, show, db, p, q, rows, out)
    ensures Run(k, db, q) == Some(out) && Specs(p.aggregates).Some?
    ensures MapRows(k, Out(db, p.input), p.groups, rows).Some? && MapRows(k, Out(db, q.input), q.groups, rows).Some?
    ensures rows != [] ==> EchoesAll(k, Out(db, p.input), Out(db, q.input), p.groups, q.groups, rows)
  {
    hide Run; hide MapRows; hide FieldsOf; hide AggregateRows; hide EchoesAll; hide Lawful; hide PlainAll; hide RootAliases;
    hide Uniform; hide Linked; hide Blends; hide AllFit; hide SimplifyAll; hide Specs; hide SameKinds; hide Out; hide Builds; hide EasesFrom;
    var run, run' := Out(db, p.input), Out(db, q.input);
    AggregatedRows(k, db, p, rows, out);
    AggregatedRows(k, db, q, rows, Run(k, db, q).value);
    PlainHasRootAliases(p.groups);
    SimplifiedSpecs(k, q.input.schema, p.aggregates, q.aggregates);
    var specs, specs' := Specs(p.aggregates).value, Specs(q.aggregates).value;
    ListMatches(k, db, p.input, q.input, p.groups, q.groups, rows);
    ListMatches(k, db, p.input, q.input, ArgsOf(specs), ArgsOf(specs'), rows);
    SameKindsAggregate(db, specs, specs', |p.groups| > 0, Tuples(MapRows(k, run, p.groups, rows).value, MapRows(k, run, ArgsOf(specs), rows).value));
  }

  /** A group column whose type has changed holds only NULLs, or integers. */
  lemma GatheredGroup(k: Kernels, show: Expr -> string, db: Database, p: Plan, q: Plan, rows: seq<Row>, out: seq<Row>, i: nat)
    requires Lawful(k) && LawfulDb(k, db) && Uniform(k) && Gathering(k, show, db, p, q, rows, out) && i < |p.groups| && rows != []
    ensures i < |q.schema| && ColumnBlends(p.schema[i].ty, q.schema[i].ty, NullColumn(out, i))
  {
    hide MapRows; hide RunType; hide TypeIn; hide Eval; hide FieldsOf; hide AggregateRows; hide Echoes; hide Simplify; hide Lawful; hide LawfulDb;
    hide Uniform; hide Linked; hide Blends; hide AllFit; hide SimplifyAll; hide Specs; hide Runs; hide NullColumn; hide EasesFrom; hide Builds;
    hide Plain; hide Compatible; hide SchemaShifts; hide NoAlias; hide Sends; hide Out;
    var run, run' := Out(db, p.input), Out(db, q.input);
    GatheredRows(k, show, db, p, q, rows, out);
    MatchedSend(k, db, p.input, q.input, rows);
    GroupsExact(k, show, p.input.schema, run, p.groups, p.aggregates, p.schema);
    GroupsExact(k, show, q.input.schema, run', q.groups, q.aggregates, q.schema);
    var all, all' := p.groups + p.aggregates, q.groups + q.aggregates;
    assert all[i] == p.groups[i] && all'[i] == q.groups[i];
    LinkedIsCompatible(p.input.schema, run);
    LinkedIsCompatible(q.input.schema, run');
    BlendShifts(run, run', rows);
    PlainHasRootAliases(p.groups);
    assert Exact(k, p.input.schema, run, p.groups[i]) && Exact(k, q.input.schema, run', q.groups[i]);
    EchoedColumn(k, run, run', p.groups, q.groups, rows, i);
    ExactEases(k, p.input.schema, run, q.input.schema, run', p.groups[i], q.groups[i], rows);
    MappedWidth(k, run, p.groups, rows);
    AggregatedRows(k, db, p, rows, out);
    var specs := Specs(p.aggregates).value;
    if NullColumn(MapRows(k, run, p.groups, rows).value, i) {
      KeyColumnNull(k, db, specs, |p.groups|, MapRows(k, run, p.groups, rows).value, MapRows(k, run, ArgsOf(specs), rows).value, out, i);
    }
  }

  /** Without a row there is no group, except the one of an aggregation without keys. */
  lemma NothingGrouped(k: Kernels, db: Database, p: Plan, out: seq<Row>)
    requires LawfulDb(k, db) && p.Aggregation? && Run(k, db, p.input) == Some([]) && Run(k, db, p) == Some(out) && p.groups != []
    ensures out == []
  {
    hide MapRows; hide Specs; hide AggregateRows; hide Run; hide Out;
    AggregatedRows(k, db, p, [], out);
    var specs := Specs(p.aggregates).value;
    var keys, args := MapRows(k, Out(db, p.input), p.groups, []).value, MapRows(k, Out(db, p.input), ArgsOf(specs), []).value;
    NoListing(k, db, specs, keys, args, out);
  }

  lemma ListedKeys(k: Kernels, db: Database, keys: set<seq<Scalar>>)
    requires LawfulDb(k, db) && db.listing(keys) != []
    ensures keys != {}
  {
    hide StoredOk;
    assert db.listing(keys)[0] in keys;
  }

  lemma NoListing(k: Kernels, db: Database, specs: seq<Spec>, keys: seq<Row>, args: seq<Row>, out: seq<Row>)
    requires LawfulDb(k, db) && keys == [] && args == [] && AggregateRows(db, specs, true, Tuples(keys, args)) == Some(out)
    ensures out == []
  {
    hide SpecValues; hide SpecsAccept;
    assert Tuples(keys, args) == [] && G.GroupKeys(true, []) == {};
    if db.listing({}) != [] { ListedKeys(k, db, {}); }
  }

  lemma AggregationBlends(k: Kernels, show: Expr -> string, db: Database, p: Plan, q: Plan, rows: seq<Row>, out: seq<Row>)
    requires Lawful(k) && LawfulDb(k, db) && Uniform(k) && Gathering(k, show, db, p, q, rows, out) && SameNames(p.schema, q.schema) && out != []
    ensures Blends(p.schema, q.schema, out)
  {
    hide MapRows; hide FieldsOf; hide Lawful; hide LawfulDb; hide Uniform; hide Linked; hide AllFit; hide SimplifyAll; hide Specs; hide NullColumn;
    hide PlainAll; hide Run; hide Sound; hide Out;
    GatheredRows(k, show, db, p, q, rows, out);
    AggregatedRows(k, db, q, rows, out);
    forall i: nat | i < |p.schema| ensures ColumnBlends(p.schema[i].ty, q.schema[i].ty, NullColumn(out, i)) {
      if i < |p.groups| {
        if rows == [] { NothingGrouped(k, db, p, out); }
        GatheredGroup(k, show, db, p, q, rows, out, i);
      }
    }
  }

  lemma AggregationMatches(k: Kernels, show: Expr -> string, db: Database, p: Plan, q: Plan, rows: seq<Row>, out: seq<Row>)
    requires Lawful(k) && LawfulDb(k, db) && Uniform(k) && Gathering(k, show, db, p, q, rows, out)
    ensures Matches(k, db, p, q, out)
  {
    hide MapRows; hide FieldsOf; hide Lawful; hide LawfulDb; hide Uniform; hide Linked; hide AllFit; hide SimplifyAll; hide Specs; hide Simplify;
    hide PlainAll; hide Run; hide AggregatingAlone; hide Blends; hide EasesFrom; hide SameNames;
    GatheredRows(k, show, db, p, q, rows, out);
    AggregationAlone(k, show, db, q, rows, out);
    AggregationFits(k, show, db, q, rows, out);
    OutputNames(k, show, db, p, q, rows, out);
    if out != [] { AggregationBlends(k, show, db, p, q, rows, out); }
    LinkedToItself(q.schema);
  }

  lemma OutputNames(k: Kernels, show: Expr -> string, db: Database, p: Plan, q: Plan, rows: seq<Row>, out: seq<Row>)
    requires Gathering(k, show, db, p, q, rows, out)
    ensures SameNames(p.schema, q.schema)
  {
    hide FieldsOf; hide SimplifyAll; hide Plain; hide Run; hide Matched; hide EasesFrom; hide Simplify;
    AggregatedNames(k, show, p, q);
  }

  // ----- joins ---------------------------------------------------------------------------------------

  lemma JoinBlends(a: Schema, b: Schema, rows: seq<Row>)
    requires SameNames(a, b) && EasesFrom(a, b, 0) && Builds(b, 0)
    ensures Blends(a, b, rows)
  {
    hide NullColumn;
  }

  lemma JoinMatches(k: Kernels, db: Database, p: Plan, q: Plan, lefts: seq<Row>, rights: seq<Row>, out: seq<Row>)
    requires Lawful(k) && LawfulDb(k, db) && Uniform(k) && p.Join? && q.Join? && p.kind == q.kind && RootAliases(p.leftOn) && RootAliases(p.rightOn)
    requires p.schema == JoinFields(p.left.schema, p.right.schema) && q.schema == JoinFields(q.left.schema, q.right.schema)
    requires Matched(k, db, p.left, q.left, lefts) && Matched(k, db, p.right, q.right, rights) && Run(k, db, p) == Some(out)
    requires SimplifyAll(k, q.left.schema, p.leftOn) == Ok(q.leftOn) && SimplifyAll(k, q.right.schema, p.rightOn) == Ok(q.rightOn)
    requires EasesFrom(p.schema, q.schema, 0)
    ensures Agrees(k, db, p, q, out)
  {
    hide Run; hide Lawful; hide LawfulDb; hide Uniform; hide Linked; hide Blends; hide AllFit; hide MapRows; hide Builds; hide Out; hide EasesFrom;
    hide RootAliases; hide SimplifyAll; hide EchoesAll; hide JoinRows; hide JoinFields; hide AllFromSides; hide SameNames;
    if Run(k, db, q).Some? {
      JoinedRows(k, db, p, lefts, rights, out);
      JoinedRows(k, db, q, lefts, rights, Run(k, db, q).value);
      ListMatches(k, db, p.left, q.left, p.leftOn, q.leftOn, lefts);
      ListMatches(k, db, p.right, q.right, p.rightOn, q.rightOn, rights);
      JoinedNames(p, q);
      JoinSides(k, db, q, lefts, rights, out);
      PlanBlends(k, db, p.left, q.left, lefts);
      PlanBlends(k, db, p.right, q.right, rights);
      JoinFits(k, q.left.schema, q.right.schema, lefts, rights, out);
      JoinBlends(p.schema, q.schema, out);
      LinkedToItself(q.schema);
      JoinOut(db, p);
      JoinOut(db, q);
    }
  }

  lemma JoinOut(db: Database, p: Plan)
    requires p.Join?
    ensures Out(db, p) == p.schema
  {
  }

  lemma JoinedNames(p: Plan, q: Plan)
    requires p.Join? && q.Join? && SameNames(p.left.schema, q.left.schema) && SameNames(p.right.schema, q.right.schema)
    requires p.schema == JoinFields(p.left.schema, p.right.schema) && q.schema == JoinFields(q.left.schema, q.right.schema)
    ensures SameNames(p.schema, q.schema) && |p.right.schema| == |q.right.schema|
  {
    hide JoinFields;
    JoinFieldNames(p.left.schema, q.left.schema, p.right.schema, q.right.schema);
  }

  /** What a join that runs has done. */
  lemma JoinedRows(k: Kernels, db: Database, p: Plan, lefts: seq<Row>, rights: seq<Row>, out: seq<Row>)
    requires p.Join? && Run(k, db, p.left) == Some(lefts) && Run(k, db, p.right) == Some(rights) && Run(k, db, p) == Some(out)
    ensures Builds(p.schema, 0)
    ensures var l, r := MapRows(k, Out(db, p.left), p.leftOn, lefts), MapRows(k, Out(db, p.right), p.rightOn, rights);
      l.Some? && r.Some? && out == JoinRows(p.kind, |p.right.schema|, l.value, lefts, r.value, rights)
  {
    hide MapRows; hide KeysFit; hide JoinRows; hide Sends; hide Out; hide Builds;
  }

  lemma JoinAgrees(k: Kernels, show: Expr -> string, db: Database, p: Plan, l': Plan, r': Plan, lefts: seq<Row>, rights: seq<Row>, out: seq<Row>)
    requires Lawful(k) && LawfulDb(k, db) && Uniform(k) && p.Join? && Source(show, db, p)
    requires Run(k, db, p.left) == Some(lefts) && Sound(k, db, p.left, lefts) && Agrees(k, db, p.left, l', lefts)
    requires Run(k, db, p.right) == Some(rights) && Sound(k, db, p.right, rights) && Agrees(k, db, p.right, r', rights)
    requires Optimize(k, show, p.left) == Ok(l') && Optimize(k, show, p.right) == Ok(r')
    requires Run(k, db, p) == Some(out) && Optimize(k, show, p).Ok? && Eased(p, Optimize(k, show, p).value)
    ensures Agrees(k, db, p, Optimize(k, show, p).value, out) && !Optimize(k, show, p).value.Scan?
  {
    hide Matches; hide Sound; hide Run; hide Simplify; hide TypeIn; hide Lawful; hide LawfulDb; hide Uniform; hide SimplifyAll;
    hide Optimize; hide FieldsOf;
    hide RootAliases; hide Out; hide JoinFields; hide KeyTypesMatch; hide EasesFrom;
    JoinIsRebuilt(k, show, p, l', r');
    var q := Join(l', r', p.kind, SimplifyAll(k, l'.schema, p.leftOn).value, SimplifyAll(k, r'.schema, p.rightOn).value, JoinFields(l'.schema, r'.schema));
    assert Optimize(k, show, p) == Ok(q);
    if Run(k, db, q).Some? { InputsRun(k, db, q); }
    if Run(k, db, l').Some? && Run(k, db, r').Some? { JoinMatches(k, db, p, q, lefts, rights, out); }
  }

  // ----- whole plans ---------------------------------------------------------------------------------

  /** No column of an aggregate or a join changes its type, except to that of NULL or in the width of
      an integer. */
  predicate Eased(p: Plan, p': Plan) {
    && (p.Aggregation? ==> EasesFrom(p.schema, p'.schema, |p.groups|))
    && (p.Join? ==> EasesFrom(p.schema, p'.schema, 0))
  }

  /** A plan whose scans stay readable and whose types ease at most. */
  ghost predicate Mild(k: Kernels, show: Expr -> string, db: Database, p: Plan) {
    && (match p
        case Scan(_, _, _, _) => true
        case Join(left, right, _, _, _, _) => Mild(k, show, db, left) && Mild(k, show, db, right)
        case _ => Mild(k, show, db, p.input))
    && (Optimize(k, show, p).Ok? ==> var p' := Optimize(k, show, p).value; ReadsAlike(db, p, p') && Eased(p, p'))
  }

  lemma AggregationAgrees(k: Kernels, show: Expr -> string, db: Database, p: Plan, c': Plan, rows: seq<Row>, out: seq<Row>)
    requires Lawful(k) && LawfulDb(k, db) && Uniform(k) && p.Aggregation? && Source(show, db, p)
    requires Run(k, db, p.input) == Some(rows) && Sound(k, db, p.input, rows) && Agrees(k, db, p.input, c', rows)
    requires Run(k, db, p) == Some(out) && Optimize(k, show, p.input) == Ok(c') && Optimize(k, show, p).Ok? && Eased(p, Optimize(k, show, p).value)
    ensures Agrees(k, db, p, Optimize(k, show, p).value, out) && !Optimize(k, show, p).value.Scan?
  {
    hide Matches; hide Sound; hide Run; hide Simplify; hide TypeIn; hide Lawful; hide LawfulDb; hide Uniform; hide SimplifyAll;
    hide Project; hide FieldsOf;
    hide EasesFrom; hide PlainAll; hide Out;
    var groups, aggregates := SimplifyAll(k, c'.schema, p.groups).value, SimplifyAll(k, c'.schema, p.aggregates).value;
    var q := Aggregation(c', groups, aggregates, FieldsOf(show, c'.schema, groups + aggregates).value);
    assert Optimize(k, show, p) == Ok(q);
    if Run(k, db, q).Some? {
      InputsRun(k, db, q);
      AggregationMatches(k, show, db, p, q, rows, out);
    }
  }

  /** A step of the induction: the input agrees, and is preserved where it became a scan. */
  lemma UnaryAgrees(k: Kernels, show: Expr -> string, db: Database, p: Plan, c': Plan, rows: seq<Row>, out: seq<Row>)
    requires Lawful(k) && LawfulDb(k, db) && Uniform(k) && Source(show, db, p) && !p.Scan? && !p.Join? && !(p.Limit? && p.input.Sort?)
    requires Run(k, db, p.input) == Some(rows) && Sound(k, db, p.input, rows) && Agrees(k, db, p.input, c', rows)
    requires c'.Scan? ==> Preserved(k, db, p.input, c', rows)
    requires Run(k, db, p) == Some(out) && Sound(k, db, p, out) && Optimize(k, show, p.input) == Ok(c') && Optimize(k, show, p).Ok?
    requires ReadsAlike(db, p, Optimize(k, show, p).value) && Eased(p, Optimize(k, show, p).value)
    ensures Agrees(k, db, p, Optimize(k, show, p).value, out)
    ensures Optimize(k, show, p).value.Scan? ==> Preserved(k, db, p, Optimize(k, show, p).value, out)
  {
    hide Optimize; hide Run; hide Lawful; hide LawfulDb; hide Uniform; hide Preserved; hide Sound; hide Agrees; hide Out; hide FieldsOf;
    hide PlainAll; hide NoAlias; hide RootAliases; hide ReadsAlike; hide Eased;
    var p' := Optimize(k, show, p).value;
    match p
    case Projection(_, _, _) =>
      if c'.Scan? {
        PlainHasRootAliases(p.exprs);
        OptimizedProjection(k, show, db, p, c', rows, out);
        PreservedAgrees(k, db, p, p', out);
      } else {
        ProjectionAgrees(k, show, db, p, c', rows, out);
      }
    case Filter(_, _, _) =>
      if c'.Scan? {
        OptimizedFilter(k, show, db, p, c', rows, out);
        PreservedAgrees(k, db, p, p', out);
      } else {
        FilterAgrees(k, show, db, p, c', rows, out);
      }
    case Aggregation(_, _, _, _) => AggregationAgrees(k, show, db, p, c', rows, out);
    case Sort(_, _, _) => SortAgrees(k, show, db, p, c', rows, out);
    case Limit(_, _, _) =>
      LimitIsRebuilt(k, show, p, c');
      assert !c'.Sort? by { SelectsAsBefore(db, p, p'); }
      LimitAgrees(k, db, p, c', rows, out);
  }

  /** Whatever simplification does to the widths of integers: an optimized plan that runs yields the
      rows of the original. */
  lemma {:induction false} OptimizedPlansAgree(k: Kernels, show: Expr -> string, db: Database, p: Plan)
    requires Lawful(k) && LawfulDb(k, db) && Uniform(k) && Source(show, db, p) && Mild(k, show, db, p)
    requires Run(k, db, p).Some? && Optimize(k, show, p).Ok?
    ensures var p', out := Optimize(k, show, p).value, Run(k, db, p).value;
      Agrees(k, db, p, p', out) && (p'.Scan? ==> Preserved(k, db, p, p', out))
    decreases p
  {
    hide Optimize; hide Run; hide Lawful; hide LawfulDb; hide Uniform; hide Agrees; hide Preserved; hide Sound; hide Out; hide FieldsOf;
    hide ReadsAlike; hide Eased;
    hide PlainAll; hide NoAlias; hide RootAliases; hide JoinFields; hide ScanNarrowing.ScanOk;
    var p', out := Optimize(k, show, p).value, Run(k, db, p).value;
    InputsRun(k, db, p);
    InputsOptimize(k, show, p);
    PlansAreSound(k, show, db, p);
    if p.Scan? {
      ScanIsFixed(k, show, p);
      ScanPreserved(k, db, p, out);
      PreservedAgrees(k, db, p, p', out);
    } else if p.Join? {
      OptimizedPlansAgree(k, show, db, p.left);
      OptimizedPlansAgree(k, show, db, p.right);
      PlansAreSound(k, show, db, p.left);
      PlansAreSound(k, show, db, p.right);
      JoinAgrees(k, show, db, p, Optimize(k, show, p.left).value, Optimize(k, show, p.right).value, Run(k, db, p.left).value, Run(k, db, p.right).value, out);
    } else if p.Limit? && p.input.Sort? {
      InputsRun(k, db, p.input);
      InputsOptimize(k, show, p.input);
      OptimizedPlansAgree(k, show, db, p.input.input);
      PlansAreSound(k, show, db, p.input.input);
      TopAgrees(k, show, db, p, Optimize(k, show, p.input.input).value, Run(k, db, p.input.input).value, out);
    } else {
      OptimizedPlansAgree(k, show, db, p.input);
      PlansAreSound(k, show, db, p.input);
      UnaryAgrees(k, show, db, p, Optimize(k, show, p.input).value, Run(k, db, p.input).value, out);
    }
  }

  /** In short: it fails, or it yields the same rows in the same order. */
  lemma OptimizerNeverChangesRows(k: Kernels, show: Expr -> string, db: Database, p: Plan)
    requires Lawful(k) && LawfulDb(k, db) && Uniform(k) && Source(show, db, p) && Mild(k, show, db, p)
    requires Run(k, db, p).Some? && Optimize(k, show, p).Ok?
    ensures var p' := Optimize(k, show, p).value; Run(k, db, p').Some? ==> Run(k, db, p') == Run(k, db, p)
  {
    hide Optimize; hide Run; hide Lawful; hide LawfulDb; hide Uniform; hide Source; hide Mild;
    OptimizedPlansAgree(k, show, db, p);
  }
}
