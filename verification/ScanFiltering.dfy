/** Filter pushdown: a filter inside a scan also decides which row groups are read
    (src/query/optimizer.rs, `push_filter_into_scan`; src/runtime/execution.rs, `execute_scan`). */
module ScanFiltering {
  import opened Basics
  import opened Values
  import opened Expr
  import opened ExprTyping
  import opened Plans
  import opened PlanRelation
  import opened ScanNarrowing
  import Pruning

  lemma {:induction false} FilterConcat(k: Kernels, names: Schema, e: Expr, a: seq<Row>, b: seq<Row>)
    requires Pruning.FilterRows(k, names, e, a + b).Some?
    ensures Pruning.FilterRows(k, names, e, a).Some? && Pruning.FilterRows(k, names, e, b).Some?
    ensures Pruning.FilterRows(k, names, e, a + b).value
      == Pruning.FilterRows(k, names, e, a).value + Pruning.FilterRows(k, names, e, b).value
    decreases |b|
  {
    hide Eval;
    if b == [] {
      assert a + b == a;
    } else {
      var n := |b| - 1;
      assert (a + b)[..|a + b| - 1] == a + b[..n];
      FilterConcat(k, names, e, a, b[..n]);
    }
  }

  lemma OneMoreFilter(k: Kernels, names: Schema, filters: seq<Expr>, e: Expr, rows: seq<Row>)
    requires Pruning.FilterAll(k, names, filters, rows).Some?
    ensures Pruning.FilterAll(k, names, filters + [e], rows)
      == Pruning.FilterRows(k, names, e, Pruning.FilterAll(k, names, filters, rows).value)
  {
    assert (filters + [e])[..|filters|] == filters;
  }

  /** A further filter rules out a group when it does itself or one of the others did. */
  lemma OneMoreSkipped(t: Stored, c: Chunk, filters: seq<Expr>, s: Expr)
    ensures Skipped(t, c, filters + [s])
      <==> Skipped(t, c, filters) || (c.group.Some? && !Pruning.MayMatch(Described(t), c.group.value, s))
  {
    hide Pruning.MayMatch;
    var all := filters + [s];
    if c.group.Some? {
      var schema, group := Described(t), c.group.value;
      assert all[|filters|] == s;
      assert forall f | 0 <= f < |filters| :: all[f] == filters[f];
      if Skipped(t, c, filters) {
        var f :| 0 <= f < |filters| && !Pruning.MayMatch(schema, group, filters[f]);
        assert !Pruning.MayMatch(schema, group, all[f]);
      }
    }
  }

  lemma FewerDeliver(t: Stored, filters: seq<Expr>, s: Expr)
    requires Delivers(t, filters + [s])
    ensures Delivers(t, filters)
  {
    hide Skipped;
    var c :| 0 <= c < |t.chunks| && t.chunks[c].sent && !Skipped(t, t.chunks[c], filters + [s]);
    OneMoreSkipped(t, t.chunks[c], filters, s);
  }

  predicate HasStatistics(t: Stored) {
    exists c :: 0 <= c < |t.chunks| && t.chunks[c].group.Some?
  }

  /** Where statistics are kept, the filter means by each name the column whose statistics are
      consulted, or a harmless other one. */
  predicate FilterReads(db: Database, scan: Plan, s: Expr) {
    scan.Scan? && ScanColumns(db, scan.table, scan.projection).Some? && HasStatistics(db.tables[scan.table]) ==>
      Pruning.ReadsAll(Described(db.tables[scan.table]), ScanColumns(db, scan.table, scan.projection).value, s)
  }

  /** Tables whose unqualified column names differ in more than ASCII case are always read so. */
  lemma DistinctNamesRead(db: Database, scan: Plan, s: Expr)
    requires scan.Scan? && scan.table in db.tables ==> Pruning.DistinctShortNames(Described(db.tables[scan.table]))
    ensures FilterReads(db, scan, s)
  {
    hide Pruning.ReadsAll; hide Pruning.DistinctShortNames; hide ScanColumns;
    if scan.Scan? && ScanColumns(db, scan.table, scan.projection).Some? {
      Pruning.DistinctNamesAreAllRead(Described(db.tables[scan.table]), ScanColumns(db, scan.table, scan.projection).value, s);
    }
  }

  lemma ReadThrough(k: Kernels, t: Stored, columns: seq<nat>, row: Row)
    requires (forall i | 0 <= i < |columns| :: columns[i] < |t.schema|) && |row| == |t.schema|
    ensures Pruning.ReadSchema(Described(t), columns) == TakeFields(t.schema, columns)
    ensures Pruning.ReadRow(Described(t), columns, row) == TakeRow(columns, row)
  {
  }

  /** No row of a group that the filter rules out passes it. */
  lemma RuledOutRows(k: Kernels, t: Stored, columns: seq<nat>, c: Chunk, filters: seq<Expr>, s: Expr)
    requires Lawful(k) && Pruning.WellFormed(Described(t)) && ChunkOk(k, t, c) && c.group.Some?
    requires forall i | 0 <= i < |columns| :: columns[i] < |t.schema|
    requires Pruning.ReadsAll(Described(t), columns, s) && !Pruning.MayMatch(Described(t), c.group.value, s)
    requires Pruning.FilterAll(k, TakeFields(t.schema, columns), filters, TakeRows(columns, c.rows)).Some?
    requires Pruning.FilterRows(k, TakeFields(t.schema, columns), s,
               Pruning.FilterAll(k, TakeFields(t.schema, columns), filters, TakeRows(columns, c.rows)).value).Some?
    ensures Pruning.FilterRows(k, TakeFields(t.schema, columns), s,
              Pruning.FilterAll(k, TakeFields(t.schema, columns), filters, TakeRows(columns, c.rows)).value) == Some([])
  {
    hide Eval; hide Pruning.FilterAll; hide Pruning.FilterRows; hide Pruning.MayMatch; hide Pruning.ReadsAll; hide Lawful;
    hide Pruning.WellFormed; hide Pruning.TrueStats; hide TakeRow; hide TakeFields; hide Described; hide Pruning.ReadSchema; hide Pruning.ReadRow;
    var names, all := TakeFields(t.schema, columns), TakeRows(columns, c.rows);
    var kept := Pruning.FilterAll(k, names, filters, all).value;
    Pruning.SomeRowsOf(k, names, filters, all);
    Pruning.KeptRowsPass(k, names, s, kept);
    var out := Pruning.FilterRows(k, names, s, kept).value;
    if out != [] {
      assert out[0] in kept;
      var i :| 0 <= i < |kept| && kept[i] == out[0];
      assert kept[i] in all;
      var r :| 0 <= r < |all| && all[r] == out[0];
      assert RowFits(k, t.schema, c.rows[r]);
      Pruning.FilterIsSafe(k, Described(t), columns, c.group.value, c.rows, r, s);
      ReadThrough(k, t, columns, c.rows[r]);
      assert false;
    }
  }

  /** A filter above a scan and the same filter inside it keep the same rows, partition by partition. */
  lemma {:induction false} PushedScanned(k: Kernels, t: Stored, columns: seq<nat>, filters: seq<Expr>, s: Expr, n: nat)
    requires Lawful(k) && StoredOk(k, t) && n <= |t.chunks| && forall i | 0 <= i < |columns| :: columns[i] < |t.schema|
    requires HasStatistics(t) ==> Pruning.ReadsAll(Described(t), columns, s)
    requires Scanned(k, TakeFields(t.schema, columns), columns, t, filters, n).Some?
    requires Pruning.FilterRows(k, TakeFields(t.schema, columns), s, Scanned(k, TakeFields(t.schema, columns), columns, t, filters, n).value).Some?
    ensures Scanned(k, TakeFields(t.schema, columns), columns, t, filters + [s], n)
      == Pruning.FilterRows(k, TakeFields(t.schema, columns), s, Scanned(k, TakeFields(t.schema, columns), columns, t, filters, n).value)
  {
    hide Pruning.FilterAll; hide Pruning.MayMatch; hide Pruning.ReadsAll; hide Lawful; hide Pruning.WellFormed; hide Skipped;
    hide Pruning.TrueStats; hide TakeRow; hide TakeFields; hide Described; hide TakeRows; hide Eval;
    if n > 0 {
      var names, c := TakeFields(t.schema, columns), t.chunks[n - 1];
      var before := Scanned(k, names, columns, t, filters, n - 1).value;
      OneMoreSkipped(t, c, filters, s);
      assert ChunkOk(k, t, c);
      if Skipped(t, c, filters) {
        assert before + [] == before;
        PushedScanned(k, t, columns, filters, s, n - 1);
        var kept := Pruning.FilterRows(k, names, s, before).value;
        assert kept + [] == kept;
      } else {
        var kept := Pruning.FilterAll(k, names, filters, TakeRows(columns, c.rows)).value;
        FilterConcat(k, names, s, before, kept);
        PushedScanned(k, t, columns, filters, s, n - 1);
        if Skipped(t, c, filters + [s]) {
          RuledOutRows(k, t, columns, c, filters, s);
        } else {
          OneMoreFilter(k, names, filters, s, TakeRows(columns, c.rows));
        }
      }
    }
  }

  /** Pushing a filter into a scan keeps the rows where it means the columns that pruning consults. */
  lemma PushedFilter(k: Kernels, db: Database, scan: Plan, s: Expr, rows: seq<Row>, out: seq<Row>)
    requires Lawful(k) && LawfulDb(k, db) && scan.Scan? && ScanOk(db, scan) && Run(k, db, scan) == Some(rows) && FilterReads(db, scan, s)
    requires Sends(k, db, scan) ==> RunType(k, Out(db, scan), s) == Some(BooleanType)
    requires Pruning.FilterRows(k, Out(db, scan), s, rows) == Some(out)
    ensures var pushed := scan.(filters := scan.filters + [s]);
      && Run(k, db, pushed) == Some(out) && Out(db, pushed) == Out(db, scan) && ScanOk(db, pushed)
      && (Sends(k, db, pushed) ==> Sends(k, db, scan))
  {
    hide Pruning.FilterRows; hide Scanned; hide RunType; hide Linked; hide Resolve; hide Lawful; hide StoredOk; hide Delivers; hide Pruning.ReadsAll;
    hide ScanColumns; hide Described;
    var pushed := scan.(filters := scan.filters + [s]);
    var columns, t := ScanColumns(db, scan.table, scan.projection).value, db.tables[scan.table];
    if Delivers(t, pushed.filters) { FewerDeliver(t, scan.filters, s); }
    PushedScanned(k, t, columns, scan.filters, s, |t.chunks|);
    if Sends(k, db, pushed) {
      assert AllBoolean(k, Out(db, scan), scan.filters);
      forall f | 0 <= f < |pushed.filters| ensures RunType(k, Out(db, scan), pushed.filters[f]) == Some(BooleanType) {
        if f < |scan.filters| { assert pushed.filters[f] == scan.filters[f]; }
      }
    }
  }
}
