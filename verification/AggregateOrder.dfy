/** Aggregation does not depend on the order of its rows (src/runtime/execution.rs): the same rows
    in any order give the same groups with the same values, and the same refusals. */
module AggregateOrder {
  import opened Basics
  import opened Values
  import opened Aggregates
  import opened GroupBy
  import Plans

  /** Elements that correspond under a function are permuted along with their originals. */
  lemma {:induction false} ImagesPermuted<A(!new), B(!new)>(f: A -> B, a: seq<A>, b: seq<A>, x: seq<B>, y: seq<B>)
    requires multiset(a) == multiset(b) && |x| == |a| && |y| == |b|
    requires forall i | 0 <= i < |a| :: x[i] == f(a[i])
    requires forall i | 0 <= i < |b| :: y[i] == f(b[i])
    ensures multiset(x) == multiset(y)
  {
    if a == [] {
      assert |multiset(b)| == 0;
      assert x == [] && y == [];
    } else {
      var n := |a| - 1;
      var i := TakenOut(a, b);
      ImagesPermuted(f, a[..n], b[..i] + b[i + 1..], x[..n], y[..i] + y[i + 1..]);
      assert x == x[..n] + [x[n]];
      assert y == y[..i] + [y[i]] + y[i + 1..];
      assert b[i] == a[n];
    }
  }

  // ----- one column --------------------------------------------------------------------------------

  lemma {:induction false} TotalsPermuted(a: seq<Scalar>, b: seq<Scalar>)
    requires multiset(a) == multiset(b)
    ensures Seen(a) == Seen(b) && Total(a) == Total(b) && UnsignedTotal(a) == UnsignedTotal(b)
  {
    if a == [] {
      assert |multiset(b)| == 0;
      assert b == [];
    } else {
      var n := |a| - 1;
      var i := TakenOut(a, b);
      TotalsPermuted(a[..n], b[..i] + b[i + 1..]);
      assert a == a[..n] + [a[n]];
      Additive(a[..n], [a[n]]);
      Additive(b[..i], b[i + 1..]);
      Additive(b[..i], [a[n]]);
      Additive(b[..i] + [a[n]], b[i + 1..]);
    }
  }

  lemma SameElements<T>(a: seq<T>, b: seq<T>, i: nat) returns (j: nat)
    requires multiset(a) == multiset(b) && i < |a|
    ensures j < |b| && b[j] == a[i]
  {
    assert a[i] in multiset(b);
    j :| 0 <= j < |b| && b[j] == a[i];
  }

  /** Kinds are a matter of which values there are. */
  lemma KindsPermuted(a: seq<Scalar>, b: seq<Scalar>)
    requires multiset(a) == multiset(b)
    ensures AllNumeric(a) ==> AllNumeric(b)
    ensures AllUnsigned(a) ==> AllUnsigned(b)
    ensures OneKind(a) ==> OneKind(b)
  {
    if AllNumeric(a) {
      forall i | 0 <= i < |b| ensures b[i].Null? || Numeric(b[i]) { var j := SameElements(b, a, i); }
    }
    if AllUnsigned(a) {
      forall i | 0 <= i < |b| ensures b[i].Null? || b[i].UInt64? { var j := SameElements(b, a, i); }
    }
    if OneKind(a) {
      forall i, j | 0 <= i < |b| && 0 <= j < |b| && !b[i].Null? && !b[j].Null? ensures SameKind(b[i], b[j]) {
        var x := SameElements(b, a, i);
        var y := SameElements(b, a, j);
      }
    }
  }

  lemma ExtremesPermuted(least: bool, a: seq<Scalar>, b: seq<Scalar>)
    requires multiset(a) == multiset(b) && OneKind(a)
    ensures Best(least, a) == Best(least, b)
  {
    KindsPermuted(a, b);
    TotalsPermuted(a, b);
    BestIsExtreme(least, a);
    BestIsExtreme(least, b);
    if Best(least, a).Some? {
      var x, y := Best(least, a).value, Best(least, b).value;
      assert x in multiset(b) && y in multiset(a);
      ScalarLeqTotal(x, y);
    }
  }

  /** An aggregate function does not care about the order of its column. */
  lemma ColumnPermuted(f: Function, a: seq<Scalar>, b: seq<Scalar>)
    requires multiset(a) == multiset(b)
    ensures Accepts(f, a) <==> Accepts(f, b)
    ensures Accepts(f, a) ==> Meaning(f, a) == Meaning(f, b)
  {
    hide AllNumeric; hide AllUnsigned; hide OneKind; hide Best; hide Seen; hide Total; hide UnsignedTotal;
    KindsPermuted(a, b);
    KindsPermuted(b, a);
    TotalsPermuted(a, b);
    if (f.Min? || f.Max?) && OneKind(a) { ExtremesPermuted(f.Min?, a, b); }
  }

  lemma {:induction false} DedupElements(vs: seq<Scalar>, v: Scalar)
    ensures v in Plans.Dedup(vs) <==> v in vs
    ensures multiset(Plans.Dedup(vs))[v] <= 1
  {
    if vs != [] {
      var n := |vs| - 1;
      DedupElements(vs[..n], v);
      assert vs == vs[..n] + [vs[n]];
    }
  }

  lemma DedupPermuted(a: seq<Scalar>, b: seq<Scalar>)
    requires multiset(a) == multiset(b)
    ensures multiset(Plans.Dedup(a)) == multiset(Plans.Dedup(b))
  {
    hide Plans.Dedup;
    forall v ensures multiset(Plans.Dedup(a))[v] == multiset(Plans.Dedup(b))[v] {
      DedupElements(a, v);
      DedupElements(b, v);
      assert v in a <==> v in multiset(a);
      assert v in b <==> v in multiset(b);
      assert v in Plans.Dedup(a) <==> v in multiset(Plans.Dedup(a));
      assert v in Plans.Dedup(b) <==> v in multiset(Plans.Dedup(b));
    }
  }

  // ----- groups ------------------------------------------------------------------------------------

  lemma {:induction false} OfCounts(rows: seq<Tuple>, key: seq<Scalar>, t: Tuple)
    ensures multiset(Of(rows, key))[t] == if t.key == key then multiset(rows)[t] else 0
  {
    if rows != [] {
      var n := |rows| - 1;
      OfCounts(rows[..n], key, t);
      assert rows == rows[..n] + [rows[n]];
    }
  }

  lemma GroupsPermuted(grouped: bool, a: seq<Tuple>, b: seq<Tuple>, key: seq<Scalar>)
    requires multiset(a) == multiset(b)
    ensures multiset(Of(a, key)) == multiset(Of(b, key))
    ensures GroupKeys(grouped, a) == GroupKeys(grouped, b)
  {
    hide Of;
    forall t ensures multiset(Of(a, key))[t] == multiset(Of(b, key))[t] {
      OfCounts(a, key, t);
      OfCounts(b, key, t);
    }
    forall k ensures k in GroupKeys(grouped, a) <==> k in GroupKeys(grouped, b) {
      if i :| 0 <= i < |a| && a[i].key == k { var j := SameElements(a, b, i); }
      if i :| 0 <= i < |b| && b[i].key == k { var j := SameElements(b, a, i); }
    }
  }

  /** The values of a group, DISTINCT or not, do not depend on the order of its rows. */
  lemma ValuesPermuted(specs: seq<Plans.Spec>, a: seq<Tuple>, b: seq<Tuple>)
    requires multiset(a) == multiset(b)
    ensures Plans.SpecsAccept(specs, a) <==> Plans.SpecsAccept(specs, b)
    ensures Plans.SpecsAccept(specs, a) ==> Plans.SpecValues(specs, a) == Plans.SpecValues(specs, b)
  {
    hide Accepts; hide Meaning; hide Plans.SpecColumn;
    forall i | 0 <= i < |specs|
      ensures Accepts(specs[i].kind, Plans.SpecColumn(specs[i], a, i)) <==> Accepts(specs[i].kind, Plans.SpecColumn(specs[i], b, i))
      ensures Accepts(specs[i].kind, Plans.SpecColumn(specs[i], a, i)) ==>
        Meaning(specs[i].kind, Plans.SpecColumn(specs[i], a, i)) == Meaning(specs[i].kind, Plans.SpecColumn(specs[i], b, i))
    {
      SpecColumnPermuted(specs[i], a, b, i);
      ColumnPermuted(specs[i].kind, Plans.SpecColumn(specs[i], a, i), Plans.SpecColumn(specs[i], b, i));
    }
  }

  lemma SpecColumnPermuted(spec: Plans.Spec, a: seq<Tuple>, b: seq<Tuple>, i: nat)
    requires multiset(a) == multiset(b)
    ensures multiset(Plans.SpecColumn(spec, a, i)) == multiset(Plans.SpecColumn(spec, b, i))
  {
    ImagesPermuted(row => Arg(row, i), a, b, Column(a, i), Column(b, i));
    DedupPermuted(Column(a, i), Column(b, i));
  }

  // ----- listing groups ----------------------------------------------------------------------------

  /** The order in which groups come out: by their encoded keys. */
  type Listing = set<seq<Scalar>> -> seq<seq<Scalar>>

  /** Every key is listed exactly once. */
  ghost predicate Lists(listing: Listing) {
    forall keys, key :: multiset(listing(keys))[key] == if key in keys then 1 else 0
  }

  function GroupRow(specs: seq<Plans.Spec>, tuples: seq<Tuple>, key: seq<Scalar>): Row {
    key + Plans.SpecValues(specs, Of(tuples, key))
  }

  function RowsOfGroups(specs: seq<Plans.Spec>, tuples: seq<Tuple>, keys: seq<seq<Scalar>>): seq<Row> {
    seq(|keys|, i requires 0 <= i < |keys| => GroupRow(specs, tuples, keys[i]))
  }

  predicate AllAccepted(specs: seq<Plans.Spec>, grouped: bool, tuples: seq<Tuple>) {
    forall key | key in GroupKeys(grouped, tuples) :: Plans.SpecsAccept(specs, Of(tuples, key))
  }

  /** Hash aggregation: a row for every group, in the order of the listing. */
  function GroupRows(listing: Listing, specs: seq<Plans.Spec>, grouped: bool, tuples: seq<Tuple>): Option<seq<Row>> {
    if AllAccepted(specs, grouped, tuples) then Some(RowsOfGroups(specs, tuples, listing(GroupKeys(grouped, tuples)))) else None
  }

  lemma GroupRowPermuted(specs: seq<Plans.Spec>, a: seq<Tuple>, b: seq<Tuple>, key: seq<Scalar>)
    requires multiset(a) == multiset(b)
    ensures Plans.SpecsAccept(specs, Of(a, key)) <==> Plans.SpecsAccept(specs, Of(b, key))
    ensures Plans.SpecsAccept(specs, Of(a, key)) ==> GroupRow(specs, a, key) == GroupRow(specs, b, key)
  {
    hide Of; hide Plans.SpecsAccept; hide Plans.SpecValues;
    GroupsPermuted(true, a, b, key);
    ValuesPermuted(specs, Of(a, key), Of(b, key));
  }

  /** Aggregation does not care about the order of its rows. */
  lemma GroupRowsPermuted(listing: Listing, specs: seq<Plans.Spec>, grouped: bool, a: seq<Tuple>, b: seq<Tuple>)
    requires multiset(a) == multiset(b) && Lists(listing)
    ensures GroupRows(listing, specs, grouped, a) == GroupRows(listing, specs, grouped, b)
  {
    hide Of; hide GroupKeys; hide Plans.SpecsAccept; hide Plans.SpecValues; hide GroupRow;
    GroupsPermuted(grouped, a, b, []);
    forall key
      ensures Plans.SpecsAccept(specs, Of(a, key)) <==> Plans.SpecsAccept(specs, Of(b, key))
      ensures Plans.SpecsAccept(specs, Of(a, key)) ==> GroupRow(specs, a, key) == GroupRow(specs, b, key)
    {
      GroupRowPermuted(specs, a, b, key);
    }
    assert AllAccepted(specs, grouped, a) <==> AllAccepted(specs, grouped, b);
    if AllAccepted(specs, grouped, a) {
      var keys := listing(GroupKeys(grouped, a));
      forall i | 0 <= i < |keys| ensures GroupRow(specs, a, keys[i]) == GroupRow(specs, b, keys[i]) {
        assert keys[i] in multiset(keys);
      }
      assert RowsOfGroups(specs, a, keys) == RowsOfGroups(specs, b, keys);
    }
  }

  /** Listings exist: some order of every finite set. */
  ghost function SomeOrder(keys: set<seq<Scalar>>): seq<seq<Scalar>> {
    if keys == {} then [] else var key :| key in keys; SomeOrder(keys - {key}) + [key]
  }

  lemma {:induction false} SomeOrderLists(keys: set<seq<Scalar>>, key: seq<Scalar>)
    ensures multiset(SomeOrder(keys))[key] == if key in keys then 1 else 0
  {
    if keys != {} {
      var last := SomeOrder(keys)[|SomeOrder(keys)| - 1];
      SomeOrderLists(keys - {last}, key);
    }
  }
}
