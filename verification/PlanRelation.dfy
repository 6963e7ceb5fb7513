/** When two plans yield the same rows: values are equal, and the types of columns agree except
    where a column holds nothing but NULLs. */
module PlanRelation {
  import opened Basics
  import opened Values
  import opened Expr
  import opened ExprTyping
  import opened Simplification
  import opened ExprDrift
  import opened Plans
  import Pruning

  predicate NullColumn(rows: seq<Row>, i: nat) {
    forall r | 0 <= r < |rows| :: i < |rows[r]| && rows[r][i].Null?
  }

  /** Two descriptions of the same rows. */
  predicate Related(a: Schema, b: Schema, rows: seq<Row>) {
    && SameNames(a, b)
    && forall i | 0 <= i < |a| :: a[i].ty == b[i].ty || (Fades(a[i].ty, b[i].ty) && NullColumn(rows, i))
  }

  predicate AllFit(k: Kernels, schema: Schema, rows: seq<Row>) {
    forall r | 0 <= r < |rows| :: RowFits(k, schema, rows[r])
  }

  /** The names of a plan against those of its batches: the same, or qualified ones against plain
      ones. */
  ghost predicate Linked(plan: Schema, run: Schema) {
    && |plan| == |run|
    && (forall i | 0 <= i < |plan| :: plan[i].ty == run[i].ty)
    && (SameNames(plan, run) || exists q :: Qualifies(q, plan, run))
  }

  predicate Qualifies(q: string, plan: Schema, run: Schema) {
    |plan| == |run| && forall i | 0 <= i < |plan| :: plan[i].name == q + "." + run[i].name && !Qualified(run[i].name)
  }

  lemma {:induction false} LastPartOf(q: string, name: string)
    requires !Qualified(name)
    ensures Unqualified(q + "." + name) == name && Qualified(q + "." + name)
  {
    var whole := q + "." + name;
    assert whole[|q|] == '.';
    if q == [] {
      assert whole[1..] == name;
    } else {
      LastPartOf(q[1..], name);
      assert whole[1..] == q[1..] + "." + name;
    }
  }

  /** The unqualified name of a column is the same in the plan and in its batches. */
  lemma LinkedShortNames(plan: Schema, run: Schema)
    requires Linked(plan, run)
    ensures forall i | 0 <= i < |plan| :: Unqualified(plan[i].name) == Unqualified(run[i].name)
  {
    hide Unqualified; hide Qualified;
    if !SameNames(plan, run) {
      var q :| Qualifies(q, plan, run);
      forall i | 0 <= i < |plan| ensures Unqualified(plan[i].name) == Unqualified(run[i].name) {
        LastPartOf(q, run[i].name);
      }
    }
  }

  /** A name that resolves to column `i` of plain names is the only one with that name. */
  lemma ResolvesUniquely(schema: Schema, name: string, i: nat)
    requires forall j | 0 <= j < |schema| :: !Qualified(schema[j].name)
    requires i < |schema|
    ensures Resolve(schema, name) == Ok(i) <==>
      schema[i].name == Unqualified(name) && forall j: nat | j < |schema| && j != i :: schema[j].name != Unqualified(name)
  {
    hide Indices; hide Qualified; hide Unqualified;
    var u := Unqualified(name);
    forall j: nat | j < |schema| ensures NameAt(schema, j, true) == schema[j].name == NameAt(schema, j, false) {
      PlainName(schema[j].name);
    }
    PlainName(u);
    IndicesAre(schema, name, false);
    IndicesAre(schema, u, true);
    var exact, short := Indices(schema, name, false), Indices(schema, u, true);
    assert forall j: nat | j < |schema| :: j in short <==> schema[j].name == u;
    assert forall j: nat | j < |schema| :: j in exact <==> schema[j].name == name;
    if Qualified(name) {
      assert forall j: nat | j < |schema| :: j !in exact;
      NoMember(exact, |schema|);
    } else {
      PlainName(name);
    }
    if Resolve(schema, name) == Ok(i) {
      OnlyMember(if |exact| == 1 then exact else short, i);
    } else if schema[i].name == u && forall j: nat | j < |schema| && j != i :: schema[j].name != u {
      IndexUnique(schema, u, true, i);
      if !Qualified(name) { IndexUnique(schema, name, false, i); }
    }
  }

  lemma NoMember(s: seq<nat>, n: nat)
    requires (forall a | 0 <= a < |s| :: s[a] < n) && (forall j: nat | j < n :: j !in s)
    ensures s == []
  {
    HeadIsMember(s);
  }

  lemma HeadIsMember(s: seq<nat>)
    ensures s != [] ==> s[0] in s
  {
  }

  lemma OnlyMember(s: seq<nat>, i: nat)
    requires s == [i]
    ensures forall j: nat :: j in s <==> j == i
  {
  }

  lemma PlainName(name: string)
    ensures !Qualified(name) ==> Unqualified(name) == name
    ensures !Qualified(Unqualified(name))
  {
  }

  lemma LinkedIsCompatible(plan: Schema, run: Schema)
    requires Linked(plan, run)
    ensures Compatible(plan, run)
  {
    hide Resolve; hide Unqualified; hide Qualified;
    if SameNames(plan, run) {
      forall name ensures Resolve(plan, name) == Resolve(run, name) {
        SameNamesResolve(plan, run, name);
      }
    } else {
      var q :| Qualifies(q, plan, run);
      LinkedShortNames(plan, run);
      forall name | Resolve(plan, name).Ok? && Resolve(run, name).Ok? ensures Resolve(plan, name) == Resolve(run, name) {
        var i, j := Resolve(run, name).value, Resolve(plan, name).value;
        Pruning.ResolvedName(plan, name);
        ResolvesUniquely(run, name, i);
        PlainName(run[j].name);
      }
    }
  }

  // ----- rows and their columns ----------------------------------------------------------------

  lemma RelatedRows(k: Kernels, a: Schema, b: Schema, rows: seq<Row>, r: nat)
    requires Related(a, b, rows) && AllFit(k, a, rows) && r < |rows|
    ensures RowGrows(a, b, rows[r]) && RowFits(k, b, rows[r])
  {
    GrownRowFits(k, a, b, rows[r]);
  }

  lemma RelatedGrows(a: Schema, b: Schema, rows: seq<Row>)
    requires Related(a, b, rows)
    ensures SchemaGrows(a, b) && SchemaShifts(false, a, b)
  {
  }

  /** What a simplified expression promises over the rows of a related input. */
  ghost predicate Carries(k: Kernels, run: Schema, run': Schema, e: Expr, s: Expr, rows: seq<Row>) {
    && (forall r | 0 <= r < |rows| && Eval(k, run, rows[r], e).Ok? ::
          && Eval(k, run', rows[r], s).Ok?
          && Eval(k, run', rows[r], s).value.value == Eval(k, run, rows[r], e).value.value
          && (RunType(k, run, e) == RunType(k, run', s) || Eval(k, run, rows[r], e).value.value.Null?))
    && (RunType(k, run, e).Some? ==> RunType(k, run', s).Some? && Grows(RunType(k, run, e).value, RunType(k, run', s).value))
  }

  /** An expression over related inputs, simplified for the second one, gives the same values. */
  lemma ExpressionCarries(k: Kernels, run: Schema, plan': Schema, run': Schema, e: Expr, s: Expr, rows: seq<Row>)
    requires Lawful(k) && Related(run, run', rows) && AllFit(k, run, rows) && Compatible(plan', run')
    requires NoAlias(Unalias(e)) && Simplify(k, plan', e) == Ok(s)
    ensures Carries(k, run, run', e, s, rows)
  {
    hide Eval; hide Simplify; hide Lawful; hide Compatible; hide RunType; hide Grows; hide Related; hide AllFit;
    RootAliasesStayApart(k, plan', e);
    forall r | 0 <= r < |rows| && Eval(k, run, rows[r], e).Ok?
      ensures Eval(k, run', rows[r], s).Ok? && Eval(k, run', rows[r], s).value.value == Eval(k, run, rows[r], e).value.value
      ensures RunType(k, run, e) == RunType(k, run', s) || Eval(k, run, rows[r], e).value.value.Null?
    {
      RelatedRows(k, run, run', rows, r);
      AllFits(k, run, rows, r);
      EvalGrows(k, run, run', rows[r], e);
      SimplificationIsSound(k, plan', run', rows[r], e);
      EvalRuns(k, run, rows[r], e);
      EvalRuns(k, run', rows[r], s);
    }
    RelatedGrows(run, run', rows);
    if RunType(k, run, e).Some? {
      RunTypeGrows(k, run, run', e);
      SimplifiedRuns(k, plan', run', e);
      GrowsTwice(RunType(k, run, e).value, RunType(k, run', e).value, RunType(k, run', s).value);
    }
  }

  lemma AllFits(k: Kernels, schema: Schema, rows: seq<Row>, r: nat)
    requires AllFit(k, schema, rows) && r < |rows|
    ensures RowFits(k, schema, rows[r])
  {
  }

  lemma GrowsTwice(a: DataType, b: DataType, c: DataType)
    requires Grows(a, b) && Grows(b, c)
    ensures Grows(a, c)
  {
  }

  /** Exact types stay exact over a related input and after simplification. */
  lemma ExpressionStaysExact(k: Kernels, plan: Schema, run: Schema, plan': Schema, run': Schema, e: Expr, s: Expr, rows: seq<Row>)
    requires Lawful(k) && Related(run, run', rows) && Compatible(plan, run) && Compatible(plan', run')
    requires NoAlias(Unalias(e)) && Simplify(k, plan', e) == Ok(s)
    requires Exact(k, plan, run, e) && TypeIn(plan', e).Ok? && TypeIn(plan', s).Ok?
    ensures Exact(k, plan', run', s)
  {
    hide Simplify; hide Lawful; hide Compatible; hide RunType; hide TypeIn;
    RelatedGrows(run, run', rows);
    GrownExact(k, plan, run, plan', run', e);
    RootAliasesStayApart(k, plan', e);
    SimplifiedExact(k, plan', run', e);
  }

  ghost predicate CarriesAll(k: Kernels, run: Schema, run': Schema, exprs: seq<Expr>, simple: seq<Expr>, rows: seq<Row>) {
    |simple| == |exprs| && forall i | 0 <= i < |exprs| :: Carries(k, run, run', exprs[i], simple[i], rows)
  }

  lemma {:induction false} EvalAllCarries(k: Kernels, run: Schema, run': Schema, exprs: seq<Expr>, simple: seq<Expr>, rows: seq<Row>, r: nat)
    requires CarriesAll(k, run, run', exprs, simple, rows) && r < |rows| && EvalAll(k, run, rows[r], exprs).Some?
    ensures EvalAll(k, run', rows[r], simple) == EvalAll(k, run, rows[r], exprs)
  {
    hide Eval; hide RunType; hide Grows;
    if exprs != [] {
      var n := |exprs| - 1;
      EvalAllCarries(k, run, run', exprs[..n], simple[..n], rows, r);
    }
  }

  lemma {:induction false} EvalAllAt(k: Kernels, names: Schema, row: Row, exprs: seq<Expr>, i: nat)
    requires EvalAll(k, names, row, exprs).Some? && i < |exprs|
    ensures Eval(k, names, row, exprs[i]).Ok? && EvalAll(k, names, row, exprs).value[i] == Eval(k, names, row, exprs[i]).value.value
  {
    hide Eval;
    if i < |exprs| - 1 { EvalAllAt(k, names, row, exprs[..|exprs| - 1], i); }
  }

  lemma {:induction false} MapRowsAt(k: Kernels, names: Schema, exprs: seq<Expr>, rows: seq<Row>, r: nat)
    requires MapRows(k, names, exprs, rows).Some? && r < |rows|
    ensures EvalAll(k, names, rows[r], exprs) == Some(MapRows(k, names, exprs, rows).value[r])
  {
    hide EvalAll;
    if r < |rows| - 1 { MapRowsAt(k, names, exprs, rows[..|rows| - 1], r); }
  }

  lemma {:induction false} MapRowsBuild(k: Kernels, names: Schema, exprs: seq<Expr>, rows: seq<Row>, out: seq<Row>)
    requires |out| == |rows| && forall r | 0 <= r < |rows| :: EvalAll(k, names, rows[r], exprs) == Some(out[r])
    ensures MapRows(k, names, exprs, rows) == Some(out)
  {
    hide EvalAll;
    if rows != [] {
      var n := |rows| - 1;
      MapRowsBuild(k, names, exprs, rows[..n], out[..n]);
      assert out == out[..n] + [out[n]];
    }
  }

  lemma MapRowsCarries(k: Kernels, run: Schema, run': Schema, exprs: seq<Expr>, simple: seq<Expr>, rows: seq<Row>)
    requires CarriesAll(k, run, run', exprs, simple, rows) && MapRows(k, run, exprs, rows).Some?
    ensures MapRows(k, run', simple, rows) == MapRows(k, run, exprs, rows)
  {
    hide EvalAll; hide MapRows; hide CarriesAll;
    var out: seq<Row> := MapRows(k, run, exprs, rows).value;
    forall r | 0 <= r < |rows| ensures EvalAll(k, run', rows[r], simple) == Some(out[r]) {
      MapRowsAt(k, run, exprs, rows, r);
      EvalAllCarries(k, run, run', exprs, simple, rows, r);
    }
    MapRowsBuild(k, run', simple, rows, out);
  }

  /** A computed column whose type has changed holds only NULLs. */
  lemma MappedColumn(k: Kernels, run: Schema, run': Schema, exprs: seq<Expr>, simple: seq<Expr>, rows: seq<Row>, i: nat)
    requires CarriesAll(k, run, run', exprs, simple, rows) && MapRows(k, run, exprs, rows).Some? && i < |exprs|
    requires RunType(k, run, exprs[i]) != RunType(k, run', simple[i])
    ensures NullColumn(MapRows(k, run, exprs, rows).value, i)
  {
    hide EvalAll; hide MapRows; hide RunType; hide Eval;
    var out: seq<Row> := MapRows(k, run, exprs, rows).value;
    forall r | 0 <= r < |out| ensures i < |out[r]| && out[r][i].Null? {
      MapRowsAt(k, run, exprs, rows, r);
      EvalAllAt(k, run, rows[r], exprs, i);
      assert Carries(k, run, run', exprs[i], simple[i], rows);
    }
  }

  /** Computed rows fit the run types of their expressions. */
  lemma MappedFits(k: Kernels, run: Schema, exprs: seq<Expr>, rows: seq<Row>, fields: Schema)
    requires Lawful(k) && AllFit(k, run, rows) && MapRows(k, run, exprs, rows).Some?
    requires |fields| == |exprs| && forall i | 0 <= i < |exprs| :: RunType(k, run, exprs[i]) == Some(fields[i].ty)
    ensures AllFit(k, fields, MapRows(k, run, exprs, rows).value)
  {
    hide EvalAll; hide MapRows; hide RunType; hide Eval; hide Lawful; hide Fits;
    var out: seq<Row> := MapRows(k, run, exprs, rows).value;
    forall r, i | 0 <= r < |out| && 0 <= i < |exprs| ensures |out[r]| == |exprs| && Fits(k, fields[i].ty, out[r][i]) {
      MapRowsAt(k, run, exprs, rows, r);
      EvalAllAt(k, run, rows[r], exprs, i);
      EvalRuns(k, run, rows[r], exprs[i]);
    }
    forall r | 0 <= r < |out| ensures |out[r]| == |exprs| {
      MapRowsAt(k, run, exprs, rows, r);
    }
  }
}
