/** Projection pushdown: a scan that reads only some of its columns (src/query/optimizer.rs,
    `push_projection_into_scan`). */
module ScanNarrowing {
  import opened Basics
  import opened Values
  import opened Expr
  import opened ExprTyping
  import opened ExprDrift
  import opened Plans
  import opened PlanRelation
  import opened Optimizer
  import Pruning

  predicate PlainNames(schema: Schema) {
    forall i | 0 <= i < |schema| :: !Qualified(schema[i].name)
  }

  predicate UniqueName(schema: Schema, i: nat)
    requires i < |schema|
  {
    forall j: nat | j < |schema| && j != i :: schema[j].name != schema[i].name
  }

  /** A scan as the optimizer leaves it: of a table with plain column names, and once it has been
      narrowed every column it reads has a name of its own. */
  ghost predicate ScanOk(db: Database, p: Plan) {
    && p.Scan? && ScanColumns(db, p.table, p.projection).Some?
    && PlainNames(db.tables[p.table].schema)
    && Linked(p.schema, Out(db, p))
    && (p.projection.Some? ==>
          forall i | 0 <= i < |ScanColumns(db, p.table, p.projection).value| ::
            UniqueName(db.tables[p.table].schema, ScanColumns(db, p.table, p.projection).value[i]))
  }

  /** Reading a table column under the name a scan gives it finds that column exactly when no
      column of the table has a dot in its name and no other one has the same name. */
  lemma QualifiedNameResolves(stored: Schema, q: string, i: nat)
    requires i < |stored|
    ensures Resolve(stored, q + "." + stored[i].name) == Ok(i) <==> PlainNames(stored) && UniqueName(stored, i)
  {
    hide Resolve; hide Qualified; hide Unqualified;
    var name := q + "." + stored[i].name;
    if PlainNames(stored) {
      LastPartOf(q, stored[i].name);
      ResolvesUniquely(stored, name, i);
    } else {
      DottedTablesDoNotResolve(stored, q, i);
    }
  }

  lemma DottedTablesDoNotResolve(stored: Schema, q: string, i: nat)
    requires i < |stored| && !PlainNames(stored)
    ensures Resolve(stored, q + "." + stored[i].name) != Ok(i)
  {
    hide Indices; hide Unqualified;
    var name := q + "." + stored[i].name;
    assert name[|q|] == '.' && Qualified(name);
    assert |name| != |stored[i].name|;
    IndicesAre(stored, name, false);
    var exact := Indices(stored, name, false);
    assert NameAt(stored, i, false) == stored[i].name;
    HeadIsMember(exact);
    var j :| 0 <= j < |stored| && Qualified(stored[j].name);
  }

  lemma ScanNameResolves(stored: Schema, q: string, i: nat)
    requires i < |stored| && PlainNames(stored) && UniqueName(stored, i)
    ensures Resolve(stored, stored[i].name) == Ok(i) && Resolve(stored, q + "." + stored[i].name) == Ok(i)
  {
    hide Resolve; hide Qualified; hide Unqualified;
    QualifiedNameResolves(stored, q, i);
    OwnNameResolves(stored, i);
  }

  // ----- the columns of the narrowed scan ------------------------------------------------------

  /** Setting: a scan, the names it is asked for and where it has them. */
  ghost predicate Narrowing(db: Database, scan: Plan, names: seq<string>, indices: seq<nat>) {
    && ScanOk(db, scan)
    && ResolveAll(scan.schema, names) == Some(indices)
    && (forall i, j | 0 <= i < j < |names| :: names[i] != names[j])
    && (forall i | 0 <= i < |names| :: !Qualified(names[i]))
  }

  lemma NamedColumns(db: Database, scan: Plan, names: seq<string>, indices: seq<nat>, i: nat)
    requires Narrowing(db, scan, names, indices) && i < |names|
    ensures indices[i] < |scan.schema| == |Out(db, scan)|
    ensures Out(db, scan)[indices[i]].name == names[i] && UniqueName(Out(db, scan), indices[i])
    ensures scan.schema[indices[i]].ty == Out(db, scan)[indices[i]].ty
  {
    hide Resolve; hide Qualified; hide Unqualified;
    var plan, run, x := scan.schema, Out(db, scan), indices[i];
    assert Resolve(plan, names[i]) == Ok(x);
    PlainRun(db, scan);
    Pruning.ResolvedName(plan, names[i]);
    LinkedShortNames(plan, run);
    PlainName(names[i]);
    PlainName(run[x].name);
    forall j: nat | j < |run| && j != x ensures run[j].name != run[x].name {
      PlainName(run[j].name);
      if run[j].name == run[x].name { SharedShortName(plan, names[i], x, j); }
    }
  }

  lemma PlainRun(db: Database, scan: Plan)
    requires ScanOk(db, scan)
    ensures PlainNames(Out(db, scan))
  {
    hide Qualified;
  }

  /** A plain name that two columns answer to is ambiguous. */
  lemma SharedShortName(schema: Schema, name: string, i: nat, j: nat)
    requires !Qualified(name) && i < |schema| && j < |schema| && i != j
    requires Unqualified(schema[i].name) == name && Unqualified(schema[j].name) == name
    requires Resolve(schema, name) == Ok(i)
    ensures Resolve(schema, name).Ok? && schema[i].name == name && schema[j].name != name
  {
    hide Indices; hide Qualified; hide Unqualified;
    PlainName(name);
    IndicesAre(schema, name, false);
    IndicesAre(schema, name, true);
    var exact, short := Indices(schema, name, false), Indices(schema, name, true);
    assert NameAt(schema, i, true) == name && NameAt(schema, j, true) == name && i in short && j in short;
    assert |short| > 1;
    OnlyMember(exact, i);
    assert NameAt(schema, i, false) == name && NameAt(schema, j, false) == schema[j].name;
  }

  lemma {:induction false} ResolveAllBuild(schema: Schema, names: seq<string>, columns: seq<nat>)
    requires |columns| == |names| && forall i | 0 <= i < |names| :: Resolve(schema, names[i]) == Ok(columns[i])
    ensures ResolveAll(schema, names) == Some(columns)
  {
    hide Resolve;
    if names != [] {
      var n := |names| - 1;
      ResolveAllBuild(schema, names[..n], columns[..n]);
      assert columns == columns[..n] + [columns[n]];
    }
  }

  function Through(columns: seq<nat>, indices: seq<nat>): seq<nat>
    requires forall i | 0 <= i < |indices| :: indices[i] < |columns|
  {
    seq(|indices|, i requires 0 <= i < |indices| => columns[indices[i]])
  }

  lemma ScanWidth(db: Database, scan: Plan)
    requires ScanOk(db, scan)
    ensures |ScanColumns(db, scan.table, scan.projection).value| == |scan.schema| == |Out(db, scan)|
    ensures forall i | 0 <= i < |scan.schema| ::
      Out(db, scan)[i] == db.tables[scan.table].schema[ScanColumns(db, scan.table, scan.projection).value[i]]
  {
    hide Resolve;
  }

  /** The table knows every name the narrowed scan asks for, and by it the right column. */
  lemma NarrowedNameResolves(db: Database, scan: Plan, names: seq<string>, indices: seq<nat>, i: nat)
    requires Narrowing(db, scan, names, indices) && i < |names|
    ensures indices[i] < |scan.schema|
    ensures var columns := ScanColumns(db, scan.table, scan.projection).value;
      && |columns| == |scan.schema|
      && Resolve(db.tables[scan.table].schema, scan.schema[indices[i]].name) == Ok(columns[indices[i]])
      && UniqueName(db.tables[scan.table].schema, columns[indices[i]])
  {
    hide Resolve; hide Qualified; hide Unqualified;
    NamedColumns(db, scan, names, indices, i);
    ScanWidth(db, scan);
    var stored, run, x := db.tables[scan.table].schema, Out(db, scan), indices[i];
    var columns := ScanColumns(db, scan.table, scan.projection).value;
    assert UniqueName(stored, columns[x]) by {
      if scan.projection.None? {
        assert columns[x] == x && |run| == |stored|;
        assert forall j: nat | j < |run| :: run[j] == stored[j];
      }
    }
    if SameNames(scan.schema, run) {
      ScanNameResolves(stored, "", columns[x]);
    } else {
      var q :| Qualifies(q, scan.schema, run);
      ScanNameResolves(stored, q, columns[x]);
    }
  }

  // ----- columns in the order of the file ------------------------------------------------------

  predicate Increasing(columns: seq<nat>) {
    forall i, j | 0 <= i < j < |columns| :: columns[i] < columns[j]
  }

  lemma {:induction false} AscendingMembers(columns: seq<nat>, n: nat, x: nat)
    ensures x in Ascending(columns, n) <==> x in columns && x < n
  {
    if n > 0 { AscendingMembers(columns, n - 1, x); }
  }

  /** The last entry of an increasing list is the largest, and it occurs only there. */
  lemma LastIsLargest(a: seq<nat>, x: nat)
    requires Increasing(a) && a != []
    ensures a[|a| - 1] in a && (x in a ==> x <= a[|a| - 1])
    ensures x in a[..|a| - 1] <==> x in a && x != a[|a| - 1]
  {
    var m := |a| - 1;
    if x in a {
      var i :| 0 <= i < |a| && a[i] == x;
      if i < m { assert a[..m][i] == x; }
    }
    if x in a[..m] {
      var i :| 0 <= i < m && a[..m][i] == x;
      assert a[i] == x;
    }
  }

  ghost predicate SameMembers(a: seq<nat>, b: seq<nat>) {
    forall x: nat :: x in a <==> x in b
  }

  lemma SameMember(a: seq<nat>, b: seq<nat>, x: nat)
    requires SameMembers(a, b)
    ensures x in a <==> x in b
  {
  }

  lemma SameEmptiness(a: seq<nat>, b: seq<nat>)
    requires SameMembers(a, b)
    ensures a == [] <==> b == []
  {
    hide SameMembers;
    if a != [] { SameMember(a, b, a[0]); }
    if b != [] { SameMember(a, b, b[0]); }
  }

  /** Increasing lists with the same members have the same last entry, and the same members before it. */
  lemma SameLast(a: seq<nat>, b: seq<nat>)
    requires Increasing(a) && Increasing(b) && SameMembers(a, b) && a != [] && b != []
    ensures a[|a| - 1] == b[|b| - 1] && SameMembers(a[..|a| - 1], b[..|b| - 1])
  {
    hide Increasing;
    var m, n := |a| - 1, |b| - 1;
    assert a[m] == b[n] by {
      hide SameMembers;
      SameMember(a, b, a[m]);
      SameMember(a, b, b[n]);
      LastIsLargest(a, b[n]);
      LastIsLargest(b, a[m]);
    }
    forall x: nat ensures x in a[..m] <==> x in b[..n] {
      LastIsLargest(a, x);
      LastIsLargest(b, x);
      SameMember(a, b, x);
    }
  }

  /** An increasing list is determined by its members. */
  lemma {:induction false} IncreasingLists(a: seq<nat>, b: seq<nat>)
    requires Increasing(a) && Increasing(b) && SameMembers(a, b)
    ensures a == b
  {
    hide SameMembers;
    SameEmptiness(a, b);
    if a != [] {
      var m, n := |a| - 1, |b| - 1;
      SameLast(a, b);
      IncreasingLists(a[..m], b[..n]);
      assert a == a[..m] + [a[m]] && b == b[..n] + [b[n]];
    }
  }

  lemma AscendingIncreasing(columns: seq<nat>, n: nat)
    requires forall i | 0 <= i < |columns| :: columns[i] < n
    ensures Ascending(columns, n) == columns <==> Increasing(columns)
  {
    if Increasing(columns) {
      forall x: nat ensures x in Ascending(columns, n) <==> x in columns { AscendingMembers(columns, n, x); }
      IncreasingLists(Ascending(columns, n), columns);
    }
  }

  /** The places that a scan reads its columns from when it is asked for the given ones. */
  function InFileOrder(db: Database, scan: Plan, indices: seq<nat>): (r: seq<nat>)
    requires scan.Scan? && scan.table in db.tables && forall i | 0 <= i < |indices| :: indices[i] < |scan.schema|
    ensures forall i | 0 <= i < |r| :: r[i] < |scan.schema| && r[i] in indices
  {
    if db.tables[scan.table].fileOrder then Ascending(indices, |scan.schema|) else indices
  }

  lemma ThroughMember(columns: seq<nat>, indices: seq<nat>, n: nat, x: nat)
    requires (forall i | 0 <= i < |columns| :: columns[i] < n) && forall i | 0 <= i < |indices| :: indices[i] < |columns|
    ensures x in Ascending(Through(columns, indices), n) <==> x in Through(columns, Ascending(indices, |columns|))
  {
    hide Ascending;
    var through, eff := Through(columns, indices), Ascending(indices, |columns|);
    AscendingMembers(through, n, x);
    if x in through {
      var i :| 0 <= i < |through| && through[i] == x;
      assert indices[i] in indices;
      AscendingMembers(indices, |columns|, indices[i]);
      var j :| 0 <= j < |eff| && eff[j] == indices[i];
      assert Through(columns, eff)[j] == x;
    }
    if x in Through(columns, eff) {
      var j :| 0 <= j < |eff| && Through(columns, eff)[j] == x;
      assert eff[j] in indices;
      var i :| 0 <= i < |indices| && indices[i] == eff[j];
      assert through[i] == x;
    }
  }

  lemma AscendingThrough(columns: seq<nat>, indices: seq<nat>, n: nat)
    requires Increasing(columns) && (forall i | 0 <= i < |columns| :: columns[i] < n) && forall i | 0 <= i < |indices| :: indices[i] < |columns|
    ensures Ascending(Through(columns, indices), n) == Through(columns, Ascending(indices, |columns|))
  {
    hide Ascending;
    forall x: nat ensures x in Ascending(Through(columns, indices), n) <==> x in Through(columns, Ascending(indices, |columns|)) {
      ThroughMember(columns, indices, n, x);
    }
    IncreasingLists(Ascending(Through(columns, indices), n), Through(columns, Ascending(indices, |columns|)));
  }

  lemma FileColumnsIncrease(db: Database, scan: Plan)
    requires scan.Scan? && ScanColumns(db, scan.table, scan.projection).Some? && db.tables[scan.table].fileOrder
    ensures Increasing(ScanColumns(db, scan.table, scan.projection).value)
  {
    hide ResolveAll;
  }

  /** The scan is asked for its columns in the order in which it hands them on. */
  predicate Ordered(db: Database, scan: Plan) {
    scan.Scan? && scan.table in db.tables && db.tables[scan.table].fileOrder && scan.projection.Some? ==>
      var columns := ResolveAll(db.tables[scan.table].schema, scan.projection.value);
      columns.Some? ==> Increasing(columns.value)
  }

  lemma AskedColumns(db: Database, scan: Plan, names: seq<string>, indices: seq<nat>)
    requires Narrowing(db, scan, names, indices)
    ensures forall i | 0 <= i < |indices| :: indices[i] < |scan.schema|
    ensures var columns := ScanColumns(db, scan.table, scan.projection).value;
      && |columns| == |scan.schema| == |Out(db, scan)|
      && ResolveAll(db.tables[scan.table].schema, Narrowed(scan, indices).projection.value) == Some(Through(columns, indices))
      && forall i | 0 <= i < |indices| :: UniqueName(db.tables[scan.table].schema, columns[indices[i]])
  {
    hide Resolve; hide Qualified; hide Unqualified; hide ResolveAll;
    ScanWidth(db, scan);
    var stored, columns := db.tables[scan.table].schema, ScanColumns(db, scan.table, scan.projection).value;
    forall i: nat | i < |names|
      ensures indices[i] < |scan.schema|
      ensures Resolve(stored, scan.schema[indices[i]].name) == Ok(columns[indices[i]]) && UniqueName(stored, columns[indices[i]])
    {
      NarrowedNameResolves(db, scan, names, indices, i);
    }
    var asked, through := Narrowed(scan, indices).projection.value, Through(columns, indices);
    forall i | 0 <= i < |asked| ensures Resolve(stored, asked[i]) == Ok(through[i]) {
      assert asked[i] == scan.schema[indices[i]].name;
    }
    ResolveAllBuild(stored, asked, through);
  }

  lemma NarrowedScan(db: Database, scan: Plan, names: seq<string>, indices: seq<nat>)
    requires Narrowing(db, scan, names, indices)
    ensures forall i | 0 <= i < |indices| :: indices[i] < |scan.schema|
    ensures var columns := ScanColumns(db, scan.table, scan.projection).value;
      var narrow, eff := Narrowed(scan, indices), InFileOrder(db, scan, indices);
      && |columns| == |scan.schema| == |Out(db, scan)|
      && ScanColumns(db, scan.table, narrow.projection) == Some(Through(columns, eff))
      && Out(db, narrow) == TakeFields(Out(db, scan), eff)
      && (eff == indices <==> Ordered(db, narrow))
      && (eff == indices ==> ScanOk(db, narrow))
  {
    hide Resolve; hide Qualified; hide Unqualified; hide ResolveAll; hide Linked;
    AskedColumns(db, scan, names, indices);
    var t, columns := db.tables[scan.table], ScanColumns(db, scan.table, scan.projection).value;
    var narrow, eff := Narrowed(scan, indices), InFileOrder(db, scan, indices);
    if t.fileOrder {
      FileColumnsIncrease(db, scan);
      AscendingThrough(columns, indices, |t.schema|);
      AscendingIncreasing(indices, |scan.schema|);
      ThroughIncreases(columns, indices);
    }
    ScanWidth(db, scan);
    assert Out(db, narrow) == TakeFields(Out(db, scan), eff);
    if eff == indices {
      NarrowedLink(scan.schema, Out(db, scan), indices);
      var through := Through(columns, indices);
      forall i | 0 <= i < |through| ensures UniqueName(t.schema, through[i]) {
        assert through[i] == columns[indices[i]];
      }
    }
  }

  lemma ThroughIncreases(columns: seq<nat>, indices: seq<nat>)
    requires Increasing(columns) && forall i | 0 <= i < |indices| :: indices[i] < |columns|
    ensures Increasing(Through(columns, indices)) <==> Increasing(indices)
  {
    var through := Through(columns, indices);
    if Increasing(through) {
      forall i, j | 0 <= i < j < |indices| ensures indices[i] < indices[j] {
        assert through[i] < through[j];
      }
    }
  }

  /** A narrowed scan hands on its columns under the names of the plan exactly when it is asked for
      them in the order in which it has them. */
  lemma NarrowedNames(db: Database, scan: Plan, names: seq<string>, indices: seq<nat>)
    requires Narrowing(db, scan, names, indices)
    ensures forall i | 0 <= i < |indices| :: indices[i] < |scan.schema|
    ensures Linked(Narrowed(scan, indices).schema, Out(db, Narrowed(scan, indices))) <==> Ordered(db, Narrowed(scan, indices))
  {
    hide Resolve; hide Qualified; hide Unqualified; hide ResolveAll; hide Out; hide Ordered; hide ScanColumns; hide Linked;
    NarrowedScan(db, scan, names, indices);
    var narrow, eff, plan, run := Narrowed(scan, indices), InFileOrder(db, scan, indices), scan.schema, Out(db, scan);
    if Linked(narrow.schema, Out(db, narrow)) {
      LinkedShortNames(narrow.schema, Out(db, narrow));
      LinkedShortNames(plan, run);
      PlainRun(db, scan);
      assert |narrow.schema| == |Out(db, narrow)| by { LinkedWidth(narrow.schema, Out(db, narrow)); }
      forall j: nat | j < |indices| ensures eff[j] == indices[j] {
        NamedColumns(db, scan, names, indices, j);
        assert narrow.schema[j] == plan[indices[j]] && Out(db, narrow)[j] == run[eff[j]];
        PlainName(run[indices[j]].name);
        PlainName(run[eff[j]].name);
      }
      assert eff == indices;
    }
  }

  lemma LinkedWidth(plan: Schema, run: Schema)
    requires Linked(plan, run)
    ensures |plan| == |run|
  {
  }

  /** The columns as they are handed on are a narrowing too, and it has all the names. */
  lemma FileOrderNarrowing(db: Database, scan: Plan, names: seq<string>, indices: seq<nat>) returns (handed: seq<string>)
    requires Narrowing(db, scan, names, indices)
    ensures forall i | 0 <= i < |indices| :: indices[i] < |scan.schema|
    ensures Narrowing(db, scan, handed, InFileOrder(db, scan, indices))
    ensures forall x | x in names :: x in handed
  {
    hide Resolve; hide Qualified; hide ResolveAll; hide Out;
    forall i: nat | i < |names| ensures indices[i] < |scan.schema| { NamedColumns(db, scan, names, indices, i); }
    var eff, run := InFileOrder(db, scan, indices), Out(db, scan);
    if !db.tables[scan.table].fileOrder {
      handed := names;
    } else {
      ScanWidth(db, scan);
      handed := seq(|eff|, j requires 0 <= j < |eff| => run[eff[j]].name);
      forall j: nat | j < |eff|
        ensures Resolve(scan.schema, handed[j]) == Ok(eff[j]) && !Qualified(handed[j]) && UniqueName(run, eff[j])
      {
        assert eff[j] in indices;
        var t :| 0 <= t < |indices| && indices[t] == eff[j];
        NamedColumns(db, scan, names, indices, t);
      }
      ResolveAllBuild(scan.schema, handed, eff);
      forall x | x in names ensures x in handed {
        var t :| 0 <= t < |names| && names[t] == x;
        NamedColumns(db, scan, names, indices, t);
        AscendingMembers(indices, |scan.schema|, indices[t]);
        var j :| 0 <= j < |eff| && eff[j] == indices[t];
        assert handed[j] == x;
      }
    }
  }

  lemma NarrowedLink(plan: Schema, run: Schema, indices: seq<nat>)
    requires Linked(plan, run) && forall i | 0 <= i < |indices| :: indices[i] < |plan|
    ensures Linked(TakeFields(plan, indices), TakeFields(run, indices))
  {
    hide Qualified;
    if !SameNames(plan, run) {
      var q :| Qualifies(q, plan, run);
      assert Qualifies(q, TakeFields(plan, indices), TakeFields(run, indices));
    }
  }

  // ----- expressions over the narrowed scan ----------------------------------------------------

  /** A column that is asked for is read from its new place. */
  lemma NarrowedColumn(db: Database, scan: Plan, names: seq<string>, indices: seq<nat>, name: string)
    requires Narrowing(db, scan, names, indices) && Unqualified(name) in names && Resolve(Out(db, scan), name).Ok?
    requires forall i | 0 <= i < |indices| :: indices[i] < |Out(db, scan)|
    ensures var run := Out(db, scan);
      var r := Resolve(TakeFields(run, indices), name);
      r.Ok? && r.value < |indices| && indices[r.value] == Resolve(run, name).value
  {
    hide Resolve; hide Qualified; hide Unqualified; hide Out;
    var run, i := Out(db, scan), Resolve(Out(db, scan), name).value;
    PlainRun(db, scan);
    ResolvesUniquely(run, name, i);
    var t :| 0 <= t < |names| && names[t] == Unqualified(name);
    var narrow := TakeFields(run, indices);
    forall j: nat | j < |names| ensures narrow[j].name == names[j] && !Qualified(narrow[j].name) {
      NamedColumns(db, scan, names, indices, j);
    }
    ResolvesUniquely(narrow, name, t);
  }

  lemma {:induction false} EvalNarrowed(k: Kernels, db: Database, scan: Plan, names: seq<string>, indices: seq<nat>, row: Row, e: Expr)
    requires Narrowing(db, scan, names, indices) && (forall x | x in ColumnNames(e) :: x in names) && |row| == |Out(db, scan)|
    requires forall i | 0 <= i < |indices| :: indices[i] < |Out(db, scan)|
    requires Eval(k, Out(db, scan), row, e).Ok?
    ensures Eval(k, TakeFields(Out(db, scan), indices), TakeRow(indices, row), e) == Eval(k, Out(db, scan), row, e)
  {
    hide Resolve; hide EvalBinary; hide Unqualified; hide Narrowing; hide Out;
    match e
    case Column(name) => NarrowedColumn(db, scan, names, indices, name);
    case Alias(x, _) => EvalNarrowed(k, db, scan, names, indices, row, x);
    case Binary(l, _, r) =>
      EvalNarrowed(k, db, scan, names, indices, row, l);
      EvalNarrowed(k, db, scan, names, indices, row, r);
    case Cast(x, _) => EvalNarrowed(k, db, scan, names, indices, row, x);
    case IsNull(x, _) => EvalNarrowed(k, db, scan, names, indices, row, x);
    case _ =>
  }

  lemma {:induction false} RunTypeNarrowed(k: Kernels, db: Database, scan: Plan, names: seq<string>, indices: seq<nat>, e: Expr)
    requires Narrowing(db, scan, names, indices) && (forall x | x in ColumnNames(e) :: x in names)
    requires forall i | 0 <= i < |indices| :: indices[i] < |Out(db, scan)|
    requires RunType(k, Out(db, scan), e).Some?
    ensures RunType(k, TakeFields(Out(db, scan), indices), e) == RunType(k, Out(db, scan), e)
  {
    hide Resolve; hide ResultType; hide Unqualified; hide Narrowing; hide Out;
    match e
    case Column(name) => NarrowedColumn(db, scan, names, indices, name);
    case Alias(x, _) => RunTypeNarrowed(k, db, scan, names, indices, x);
    case Binary(l, _, r) =>
      RunTypeNarrowed(k, db, scan, names, indices, l);
      RunTypeNarrowed(k, db, scan, names, indices, r);
    case Cast(x, _) => RunTypeNarrowed(k, db, scan, names, indices, x);
    case IsNull(x, _) => RunTypeNarrowed(k, db, scan, names, indices, x);
    case _ =>
  }

  /** Where both schemas know a name it has the same type. */
  lemma NarrowedPlanColumn(db: Database, scan: Plan, names: seq<string>, indices: seq<nat>, name: string)
    requires Narrowing(db, scan, names, indices) && Resolve(scan.schema, name).Ok?
    requires forall i | 0 <= i < |indices| :: indices[i] < |scan.schema|
    requires Resolve(TakeFields(scan.schema, indices), name).Ok?
    ensures indices[Resolve(TakeFields(scan.schema, indices), name).value] == Resolve(scan.schema, name).value
  {
    hide Resolve; hide Qualified; hide Unqualified; hide Out;
    var plan, run := scan.schema, Out(db, scan);
    var i, t := Resolve(plan, name).value, Resolve(TakeFields(plan, indices), name).value;
    Pruning.ResolvedName(plan, name);
    Pruning.ResolvedName(TakeFields(plan, indices), name);
    LinkedShortNames(plan, run);
    PlainRun(db, scan);
    NamedColumns(db, scan, names, indices, t);
    PlainName(run[i].name);
    PlainName(run[indices[t]].name);
  }

  lemma {:induction false} TypeInNarrowed(db: Database, scan: Plan, names: seq<string>, indices: seq<nat>, e: Expr)
    requires Narrowing(db, scan, names, indices)
    requires forall i | 0 <= i < |indices| :: indices[i] < |scan.schema|
    requires TypeIn(scan.schema, e).Ok? && TypeIn(TakeFields(scan.schema, indices), e).Ok?
    ensures TypeIn(TakeFields(scan.schema, indices), e) == TypeIn(scan.schema, e)
  {
    hide Resolve; hide BinaryType; hide Narrowing;
    match e
    case Column(name) => NarrowedPlanColumn(db, scan, names, indices, name);
    case Alias(x, _) => TypeInNarrowed(db, scan, names, indices, x);
    case Binary(l, _, r) =>
      TypeInNarrowed(db, scan, names, indices, l);
      TypeInNarrowed(db, scan, names, indices, r);
    case Aggregate(kind, x, _) =>
      if !kind.Count? { TypeInNarrowed(db, scan, names, indices, x); }
    case _ =>
  }

  // ----- rows of the narrowed scan -------------------------------------------------------------

  /** The names include every column the expressions mention. */
  ghost predicate Covers(names: seq<string>, exprs: seq<Expr>) {
    forall f, x | 0 <= f < |exprs| && x in ColumnNames(exprs[f]) :: x in names
  }

  lemma {:induction false} FilterNarrowed(k: Kernels, db: Database, scan: Plan, names: seq<string>, indices: seq<nat>, e: Expr, rows: seq<Row>)
    requires Narrowing(db, scan, names, indices) && (forall x | x in ColumnNames(e) :: x in names)
    requires forall i | 0 <= i < |indices| :: indices[i] < |Out(db, scan)|
    requires forall r | 0 <= r < |rows| :: |rows[r]| == |Out(db, scan)|
    requires Pruning.FilterRows(k, Out(db, scan), e, rows).Some?
    ensures Pruning.FilterRows(k, TakeFields(Out(db, scan), indices), e, TakeRows(indices, rows))
      == Some(TakeRows(indices, Pruning.FilterRows(k, Out(db, scan), e, rows).value))
  {
    hide Eval; hide Narrowing; hide Out; hide ColumnNames; hide TakeRow;
    if rows != [] {
      var n := |rows| - 1;
      FilterNarrowed(k, db, scan, names, indices, e, rows[..n]);
      EvalNarrowed(k, db, scan, names, indices, rows[n], e);
      assert TakeRows(indices, rows)[..n] == TakeRows(indices, rows[..n]);
      var kept := Pruning.FilterRows(k, Out(db, scan), e, rows[..n]).value;
      assert TakeRows(indices, kept + [rows[n]]) == TakeRows(indices, kept) + [TakeRow(indices, rows[n])];
    }
  }

  lemma {:induction false} FiltersNarrowed(k: Kernels, db: Database, scan: Plan, names: seq<string>, indices: seq<nat>, filters: seq<Expr>, rows: seq<Row>)
    requires Narrowing(db, scan, names, indices)
    requires Covers(names, filters)
    requires forall i | 0 <= i < |indices| :: indices[i] < |Out(db, scan)|
    requires forall r | 0 <= r < |rows| :: |rows[r]| == |Out(db, scan)|
    requires Pruning.FilterAll(k, Out(db, scan), filters, rows).Some?
    ensures Pruning.FilterAll(k, TakeFields(Out(db, scan), indices), filters, TakeRows(indices, rows))
      == Some(TakeRows(indices, Pruning.FilterAll(k, Out(db, scan), filters, rows).value))
    ensures forall r | 0 <= r < |Pruning.FilterAll(k, Out(db, scan), filters, rows).value| ::
      |Pruning.FilterAll(k, Out(db, scan), filters, rows).value[r]| == |Out(db, scan)|
  {
    hide Pruning.FilterRows; hide Narrowing; hide Out; hide ColumnNames; hide TakeRows;
    Pruning.SomeRowsOf(k, Out(db, scan), filters, rows);
    if filters != [] {
      var n := |filters| - 1;
      FiltersNarrowed(k, db, scan, names, indices, filters[..n], rows);
      FilterNarrowed(k, db, scan, names, indices, filters[n], Pruning.FilterAll(k, Out(db, scan), filters[..n], rows).value);
    }
  }

  lemma {:induction false} EvalAllNarrowed(k: Kernels, db: Database, scan: Plan, names: seq<string>, indices: seq<nat>, row: Row, exprs: seq<Expr>)
    requires Narrowing(db, scan, names, indices) && |row| == |Out(db, scan)|
    requires Covers(names, exprs)
    requires forall i | 0 <= i < |indices| :: indices[i] < |Out(db, scan)|
    requires EvalAll(k, Out(db, scan), row, exprs).Some?
    ensures EvalAll(k, TakeFields(Out(db, scan), indices), TakeRow(indices, row), exprs) == EvalAll(k, Out(db, scan), row, exprs)
  {
    hide Eval; hide Narrowing; hide Out; hide ColumnNames; hide TakeRow;
    if exprs != [] {
      var n := |exprs| - 1;
      EvalAllNarrowed(k, db, scan, names, indices, row, exprs[..n]);
      EvalNarrowed(k, db, scan, names, indices, row, exprs[n]);
    }
  }

  lemma MapRowsNarrowed(k: Kernels, db: Database, scan: Plan, names: seq<string>, indices: seq<nat>, exprs: seq<Expr>, rows: seq<Row>)
    requires Narrowing(db, scan, names, indices)
    requires Covers(names, exprs)
    requires forall i | 0 <= i < |indices| :: indices[i] < |Out(db, scan)|
    requires forall r | 0 <= r < |rows| :: |rows[r]| == |Out(db, scan)|
    requires MapRows(k, Out(db, scan), exprs, rows).Some?
    ensures MapRows(k, TakeFields(Out(db, scan), indices), exprs, TakeRows(indices, rows)) == MapRows(k, Out(db, scan), exprs, rows)
  {
    hide EvalAll; hide MapRows; hide Narrowing; hide Out; hide ColumnNames; hide TakeRow;
    var out := MapRows(k, Out(db, scan), exprs, rows).value;
    forall r | 0 <= r < |rows|
      ensures EvalAll(k, TakeFields(Out(db, scan), indices), TakeRows(indices, rows)[r], exprs) == Some(out[r])
    {
      MapRowsAt(k, Out(db, scan), exprs, rows, r);
      EvalAllNarrowed(k, db, scan, names, indices, rows[r], exprs);
    }
    MapRowsBuild(k, TakeFields(Out(db, scan), indices), exprs, TakeRows(indices, rows), out);
  }

  lemma TakeThrough(columns: seq<nat>, indices: seq<nat>, rows: seq<Row>)
    requires forall i | 0 <= i < |indices| :: indices[i] < |columns|
    ensures TakeRows(Through(columns, indices), rows) == TakeRows(indices, TakeRows(columns, rows))
  {
    forall r | 0 <= r < |rows| ensures TakeRow(Through(columns, indices), rows[r]) == TakeRow(indices, TakeRow(columns, rows[r])) {
    }
  }

  lemma {:induction false} ScannedNarrowed(k: Kernels, db: Database, scan: Plan, names: seq<string>, indices: seq<nat>, n: nat)
    requires Narrowing(db, scan, names, indices) && Covers(names, scan.filters) && n <= |db.tables[scan.table].chunks|
    requires forall i | 0 <= i < |indices| :: indices[i] < |Out(db, scan)|
    requires |Out(db, scan)| == |ScanColumns(db, scan.table, scan.projection).value|
    requires Scanned(k, Out(db, scan), ScanColumns(db, scan.table, scan.projection).value, db.tables[scan.table], scan.filters, n).Some?
    ensures var columns, t := ScanColumns(db, scan.table, scan.projection).value, db.tables[scan.table];
      var rows := Scanned(k, Out(db, scan), columns, t, scan.filters, n).value;
      && Scanned(k, TakeFields(Out(db, scan), indices), Through(columns, indices), t, scan.filters, n) == Some(TakeRows(indices, rows))
      && forall r | 0 <= r < |rows| :: |rows[r]| == |Out(db, scan)|
  {
    hide Pruning.FilterAll; hide ColumnNames; hide TakeRow; hide Out; hide ScanColumns; hide Linked; hide ResolveAll; hide Skipped;
    hide Covers; hide TakeFields;
    var columns, t, run := ScanColumns(db, scan.table, scan.projection).value, db.tables[scan.table], Out(db, scan);
    if n == 0 {
      assert TakeRows(indices, []) == [];
    } else {
      ScannedNarrowed(k, db, scan, names, indices, n - 1);
      var c := t.chunks[n - 1];
      var before := Scanned(k, run, columns, t, scan.filters, n - 1).value;
      if !Skipped(t, c, scan.filters) {
        ScanRowsWidth(columns, c.rows);
        TakeThrough(columns, indices, c.rows);
        FiltersNarrowed(k, db, scan, names, indices, scan.filters, TakeRows(columns, c.rows));
        var kept := Pruning.FilterAll(k, run, scan.filters, TakeRows(columns, c.rows)).value;
        assert TakeRows(indices, before + kept) == TakeRows(indices, before) + TakeRows(indices, kept);
      } else {
        assert before + [] == before && TakeRows(indices, before) + [] == TakeRows(indices, before);
      }
    }
  }

  /** The rows of the narrowed scan are the rows of the scan, narrowed. */
  lemma NarrowedRows(k: Kernels, db: Database, scan: Plan, names: seq<string>, indices: seq<nat>)
    requires Narrowing(db, scan, names, indices) && Run(k, db, scan).Some?
    requires Covers(names, scan.filters)
    requires forall i | 0 <= i < |indices| :: indices[i] < |scan.schema|
    ensures Run(k, db, Narrowed(scan, indices)) == Some(TakeRows(InFileOrder(db, scan, indices), Run(k, db, scan).value))
    ensures Sends(k, db, Narrowed(scan, indices)) == Sends(k, db, scan)
    ensures forall r | 0 <= r < |Run(k, db, scan).value| :: |Run(k, db, scan).value[r]| == |Out(db, scan)|
  {
    hide Scanned; hide Resolve; hide ColumnNames; hide RunType; hide TakeRows; hide Linked; hide Delivers; hide ScanColumns; hide Out;
    NarrowedScan(db, scan, names, indices);
    var eff, t := InFileOrder(db, scan, indices), db.tables[scan.table];
    var handed := FileOrderNarrowing(db, scan, names, indices);
    assert Covers(handed, scan.filters);
    ScannedNarrowed(k, db, scan, handed, eff, |t.chunks|);
    if Sends(k, db, scan) {
      forall f | 0 <= f < |scan.filters|
        ensures RunType(k, TakeFields(Out(db, scan), eff), scan.filters[f]) == Some(BooleanType)
      {
        RunTypeNarrowed(k, db, scan, handed, eff, scan.filters[f]);
      }
    }
  }

  lemma ScanRowsWidth(columns: seq<nat>, rows: seq<Row>)
    ensures |TakeRows(columns, rows)| == |rows| && forall r | 0 <= r < |rows| :: |TakeRows(columns, rows)[r]| == |columns|
  {
  }

  lemma {:induction false} NamesOfAll(exprs: seq<Expr>, f: nat)
    requires f < |exprs|
    ensures ColumnNames(exprs[f]) <= AllColumnNames(exprs)
  {
    hide ColumnNames;
    if f < |exprs| - 1 { NamesOfAll(exprs[..|exprs| - 1], f); }
  }

  lemma {:induction false} PlainColumnNames(e: Expr)
    ensures forall x | x in ColumnNames(e) :: !Qualified(x)
  {
    hide Qualified; hide Unqualified;
    match e
    case Column(name) => PlainName(name);
    case Binary(l, _, r) => PlainColumnNames(l); PlainColumnNames(r);
    case IsNull(x, _) => PlainColumnNames(x);
    case Cast(x, _) => PlainColumnNames(x);
    case Alias(x, _) => PlainColumnNames(x);
    case Aggregate(_, x, _) => PlainColumnNames(x);
    case _ =>
  }

  lemma {:induction false} PlainAllColumnNames(exprs: seq<Expr>)
    ensures forall x | x in AllColumnNames(exprs) :: !Qualified(x)
  {
    hide Qualified; hide ColumnNames;
    if exprs != [] {
      PlainAllColumnNames(exprs[..|exprs| - 1]);
      PlainColumnNames(exprs[|exprs| - 1]);
    }
  }

  /** The columns that the expressions and the scan's filters mention, narrowed to. */
  lemma RequiredNarrowing(db: Database, scan: Plan, exprs: seq<Expr>, indices: seq<nat>)
    requires scan.Scan? && ScanOk(db, scan)
    requires ResolveAll(scan.schema, Sorted(AllColumnNames(exprs + scan.filters))) == Some(indices)
    ensures var names := Sorted(AllColumnNames(exprs + scan.filters));
      && Narrowing(db, scan, names, indices)
      && Covers(names, exprs) && Covers(names, scan.filters)
  {
    hide AllColumnNames; hide Sorted; hide ResolveAll; hide ScanOk; hide Qualified; hide Covers; hide ColumnNames;
    var required := AllColumnNames(exprs + scan.filters);
    SortedNames(required);
    PlainAllColumnNames(exprs + scan.filters);
    MentionedNames(exprs, scan.filters, Sorted(required));
  }

  lemma SortedNames(names: set<string>)
    ensures forall i | 0 <= i < |Sorted(names)| :: Sorted(names)[i] in names
    ensures forall i, j | 0 <= i < j < |Sorted(names)| :: Sorted(names)[i] != Sorted(names)[j]
  {
    hide Sorted;
    forall i | 0 <= i < |Sorted(names)| ensures Sorted(names)[i] in names {
      assert Sorted(names)[i] in Sorted(names);
    }
  }

  lemma MentionedNames(exprs: seq<Expr>, filters: seq<Expr>, names: seq<string>)
    requires forall x | x in AllColumnNames(exprs + filters) :: x in names
    ensures Covers(names, exprs) && Covers(names, filters)
  {
    hide ColumnNames; hide AllColumnNames;
    var all := exprs + filters;
    forall f, x | 0 <= f < |exprs| && x in ColumnNames(exprs[f]) ensures x in names {
      NamesOfAll(all, f);
    }
    forall f, x | 0 <= f < |filters| && x in ColumnNames(filters[f]) ensures x in names {
      NamesOfAll(all, |exprs| + f);
    }
  }

  /** Every filter of a narrowed scan still has its columns: each name it mentions that the scan
      could read before is read from the narrowed scan. */
  lemma PushedFiltersKeepTheirColumns(db: Database, scan: Plan, exprs: seq<Expr>, indices: seq<nat>, f: nat, name: string)
    requires ScanOk(db, scan) && f < |scan.filters| && Unqualified(name) in ColumnNames(scan.filters[f])
    requires ResolveAll(scan.schema, Sorted(AllColumnNames(exprs + scan.filters))) == Some(indices)
    requires forall i | 0 <= i < |indices| :: indices[i] < |scan.schema|
    ensures Resolve(Out(db, scan), name).Ok? ==> Resolve(Out(db, Narrowed(scan, indices)), name).Ok?
  {
    hide ColumnNames; hide AllColumnNames; hide Sorted; hide ResolveAll; hide Resolve; hide Unqualified; hide Out; hide Narrowed;
    RequiredNarrowing(db, scan, exprs, indices);
    var names := Sorted(AllColumnNames(exprs + scan.filters));
    assert Unqualified(name) in names;
    NarrowedScan(db, scan, names, indices);
    var handed := FileOrderNarrowing(db, scan, names, indices);
    if Resolve(Out(db, scan), name).Ok? {
      NarrowedColumn(db, scan, handed, InFileOrder(db, scan, indices), name);
    }
  }
}
