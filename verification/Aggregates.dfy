/** Aggregate functions: what each one means over a column of values, the running state of
    `AggregateState` (src/runtime/execution.rs), and how values of parts combine. Sums of floats
    are exact here, and a 64-bit counter that would overflow is an error. */
module Aggregates {
  import opened Basics
  import opened Values

  datatype Function = Count | Sum | SumUInt64 | Min | Max | Avg

  // ----- what an aggregate means -------------------------------------------------------------

  predicate Numeric(v: Scalar) {
    v.Int64? || v.UInt64? || v.Float64?
  }

  /** How many values are not NULL. */
  function Seen(vs: seq<Scalar>): nat {
    if vs == [] then 0 else Seen(vs[..|vs| - 1]) + (if vs[|vs| - 1].Null? then 0 else 1)
  }

  function NumberOf(v: Scalar): real {
    match v
    case Int64(n) => n as real
    case UInt64(n) => n as real
    case Float64(x) => x
    case _ => 0.0
  }

  function Total(vs: seq<Scalar>): real {
    if vs == [] then 0.0 else Total(vs[..|vs| - 1]) + NumberOf(vs[|vs| - 1])
  }

  function UnsignedTotal(vs: seq<Scalar>): nat {
    if vs == [] then 0
    else UnsignedTotal(vs[..|vs| - 1]) + (if vs[|vs| - 1].UInt64? then vs[|vs| - 1].unsigned else 0)
  }

  /** `candidate` replaces `current` when it is strictly smaller (or larger); NULL never does. */
  function Better(least: bool, current: Option<Scalar>, candidate: Scalar): Option<Scalar> {
    if candidate.Null? then current
    else if current.None? then Some(candidate)
    else
      match PartialCompare(candidate, current.value)
      case Some(Less) => if least then Some(candidate) else current
      case Some(Greater) => if least then current else Some(candidate)
      case _ => current
  }

  function Best(least: bool, vs: seq<Scalar>): Option<Scalar> {
    if vs == [] then None else Better(least, Best(least, vs[..|vs| - 1]), vs[|vs| - 1])
  }

  predicate AllNumeric(vs: seq<Scalar>) {
    forall i | 0 <= i < |vs| :: vs[i].Null? || Numeric(vs[i])
  }

  predicate AllUnsigned(vs: seq<Scalar>) {
    forall i | 0 <= i < |vs| :: vs[i].Null? || vs[i].UInt64?
  }

  /** All values that are not NULL are of one kind. */
  predicate OneKind(vs: seq<Scalar>) {
    forall i, j | 0 <= i < |vs| && 0 <= j < |vs| && !vs[i].Null? && !vs[j].Null? :: SameKind(vs[i], vs[j])
  }

  /** The column can be aggregated without an error. */
  predicate Accepts(f: Function, vs: seq<Scalar>) {
    match f
    case Count => Seen(vs) <= U64_MAX
    case Sum => AllNumeric(vs)
    case SumUInt64 => AllUnsigned(vs) && UnsignedTotal(vs) <= U64_MAX
    case Min => OneKind(vs)
    case Max => OneKind(vs)
    case Avg => AllNumeric(vs) && Seen(vs) <= U64_MAX
  }

  function Unsigned(n: nat): Scalar {
    UInt64(if n <= U64_MAX then n else U64_MAX)
  }

  function OrNull(v: Option<Scalar>): Scalar {
    if v.Some? then v.value else Null
  }

  /** The value of an aggregate over a column it accepts. */
  function Meaning(f: Function, vs: seq<Scalar>): Scalar {
    match f
    case Count => Unsigned(Seen(vs))
    case Sum => if Seen(vs) == 0 then Null else Float64(Total(vs))
    case SumUInt64 => if Seen(vs) == 0 then Null else Unsigned(UnsignedTotal(vs))
    case Min => OrNull(Best(true, vs))
    case Max => OrNull(Best(false, vs))
    case Avg => if Seen(vs) == 0 then Null else Float64(Total(vs) / Seen(vs) as real)
  }

  predicate AtLeastAsGood(least: bool, a: Scalar, b: Scalar)
    requires SameKind(a, b)
  {
    if least then ScalarLeq(a, b) else ScalarLeq(b, a)
  }

  /** MIN and MAX of a column are among its values, and no value is better. */
  lemma {:induction false} BestIsExtreme(least: bool, vs: seq<Scalar>)
    requires OneKind(vs)
    ensures Best(least, vs).None? <==> Seen(vs) == 0
    ensures Best(least, vs).Some? ==>
      var best := Best(least, vs).value;
      && best in vs && !best.Null?
      && forall i | 0 <= i < |vs| && !vs[i].Null? :: SameKind(best, vs[i]) && AtLeastAsGood(least, best, vs[i])
  {
    if vs != [] {
      var init, last := vs[..|vs| - 1], vs[|vs| - 1];
      BestIsExtreme(least, init);
      var before := Best(least, init);
      if !last.Null? {
        ScalarLeqTotal(last, last);
        if before.None? { NothingSeen(init); }
        if before.Some? {
          assert SameKind(before.value, last) by {
            var k :| 0 <= k < |init| && init[k] == before.value;
            assert vs[k] == init[k] && vs[|vs| - 1] == last;
          }
          ScalarLeqTotal(before.value, last);
          forall i | 0 <= i < |init| && !init[i].Null?
            ensures SameKind(Best(least, vs).value, init[i]) && AtLeastAsGood(least, Best(least, vs).value, init[i])
          {
            if AtLeastAsGood(least, last, before.value) {
              if least { ScalarLeqTransitive(last, before.value, init[i]); }
              else { ScalarLeqTransitive(init[i], before.value, last); }
            }
          }
        }
      }
    }
  }

  // ----- the running state -------------------------------------------------------------------

  datatype State =
    | CountState(value: U64)
    | SumState(intSum: int, floatSum: real, seen: bool)
    | SumUInt64State(sum: U64, some: bool)
    | MinState(least: Option<Scalar>)
    | MaxState(greatest: Option<Scalar>)
    | AvgState(total: real, count: U64)

  function NewState(f: Function): State {
    match f
    case Count => CountState(0)
    case Sum => SumState(0, 0.0, false)
    case SumUInt64 => SumUInt64State(0, false)
    case Min => MinState(None)
    case Max => MaxState(None)
    case Avg => AvgState(0.0, 0)
  }

  /** `should_replace_extreme` fails only on values of different kinds. */
  predicate Comparable(current: Option<Scalar>, candidate: Scalar) {
    candidate.Null? || current.None? || PartialCompare(candidate, current.value).Some?
  }

  /** `AggregateState::update`. */
  function Update(s: State, v: Scalar): Option<State> {
    match s
    case CountState(n) =>
      if v.Null? then Some(s) else if n == U64_MAX then None else Some(CountState(n + 1))
    case SumState(ints, floats, _) =>
      (match v
       case Null => Some(s)
       case Int64(n) => Some(SumState(ints + n, floats, true))
       case UInt64(n) => Some(SumState(ints + n, floats, true))
       case Float64(x) => Some(SumState(ints, floats + x, true))
       case _ => None)
    case SumUInt64State(sum, _) =>
      if v.UInt64? then
        if sum + v.unsigned > U64_MAX then None else Some(SumUInt64State(sum + v.unsigned, true))
      else if v.Null? then Some(s) else None
    case MinState(current) => if Comparable(current, v) then Some(MinState(Better(true, current, v))) else None
    case MaxState(current) => if Comparable(current, v) then Some(MaxState(Better(false, current, v))) else None
    case AvgState(sum, n) =>
      if v.Null? then Some(s)
      else if !Numeric(v) || n == U64_MAX then None
      else Some(AvgState(sum + NumberOf(v), n + 1))
  }

  /** `AggregateState::finish`. */
  function Finish(s: State): Scalar {
    match s
    case CountState(n) => UInt64(n)
    case SumState(ints, floats, seen) => if seen then Float64(floats + ints as real) else Null
    case SumUInt64State(sum, some) => if some then UInt64(sum) else Null
    case MinState(v) => OrNull(v)
    case MaxState(v) => OrNull(v)
    case AvgState(sum, n) => if n == 0 then Null else Float64(sum / n as real)
  }

  /** The state stands for the values folded into it. */
  predicate Stands(f: Function, s: State, vs: seq<Scalar>) {
    match f
    case Count => s == CountState(Unsigned(Seen(vs)).unsigned)
    case Sum => s.SumState? && s.floatSum + s.intSum as real == Total(vs) && s.seen == (Seen(vs) != 0)
    case SumUInt64 => s == SumUInt64State(Unsigned(UnsignedTotal(vs)).unsigned, Seen(vs) != 0)
    case Min => s == MinState(Best(true, vs))
    case Max => s == MaxState(Best(false, vs))
    case Avg => s == AvgState(Total(vs), Unsigned(Seen(vs)).unsigned)
  }

  lemma NewStands(f: Function)
    ensures Accepts(f, []) && Stands(f, NewState(f), [])
  {
  }

  lemma FinishedState(f: Function, s: State, vs: seq<Scalar>)
    requires Accepts(f, vs) && Stands(f, s, vs)
    ensures Finish(s) == Meaning(f, vs)
  {
  }

  lemma OneKindPush(least: bool, vs: seq<Scalar>, v: Scalar)
    requires OneKind(vs)
    ensures OneKind(vs + [v]) <==> Comparable(Best(least, vs), v)
  {
    BestIsExtreme(least, vs);
    var best, all := Best(least, vs), vs + [v];
    assert forall i | 0 <= i < |vs| :: all[i] == vs[i];
    if best.Some? {
      var k :| 0 <= k < |vs| && vs[k] == best.value;
      assert all[k] == best.value && all[|vs|] == v;
    } else {
      NothingSeen(vs);
    }
  }

  lemma {:induction false} NothingSeen(vs: seq<Scalar>)
    requires Seen(vs) == 0
    ensures forall i | 0 <= i < |vs| :: vs[i].Null?
  {
    if vs != [] { NothingSeen(vs[..|vs| - 1]); }
  }

  /** One update: it succeeds exactly when the longer column is still acceptable. */
  lemma UpdateStep(f: Function, s: State, vs: seq<Scalar>, v: Scalar)
    requires Accepts(f, vs) && Stands(f, s, vs)
    ensures Update(s, v).Some? <==> Accepts(f, vs + [v])
    ensures Update(s, v).Some? ==> Stands(f, Update(s, v).value, vs + [v])
  {
    var all := vs + [v];
    assert all[..|vs|] == vs && all[|vs|] == v;
    if f.Min? || f.Max? {
      OneKindPush(f.Min?, vs, v);
    } else if f.Sum? || f.Avg? {
      assert AllNumeric(all) <==> v.Null? || Numeric(v);
    } else if f.SumUInt64? {
      assert AllUnsigned(all) <==> v.Null? || v.UInt64?;
    }
  }

  lemma {:induction false} AcceptsPrefix(f: Function, a: seq<Scalar>, b: seq<Scalar>)
    requires Accepts(f, a + b)
    ensures Accepts(f, a)
  {
    Additive(a, b);
    if f.Min? || f.Max? {
      assert forall i | 0 <= i < |a| :: (a + b)[i] == a[i];
    } else {
      assert forall i | 0 <= i < |a| :: (a + b)[i] == a[i];
    }
  }

  // ----- combining parts ---------------------------------------------------------------------

  lemma {:induction false} Additive(a: seq<Scalar>, b: seq<Scalar>)
    ensures Seen(a + b) == Seen(a) + Seen(b)
    ensures Total(a + b) == Total(a) + Total(b)
    ensures UnsignedTotal(a + b) == UnsignedTotal(a) + UnsignedTotal(b)
  {
    if b == [] {
      assert a + b == a;
    } else {
      var n := |b| - 1;
      assert (a + b)[..|a + b| - 1] == a + b[..n];
      Additive(a, b[..n]);
    }
  }

  /** The better of two values of one kind is an associative choice. */
  lemma BetterAssociative(least: bool, x: Option<Scalar>, y: Option<Scalar>, v: Scalar)
    requires x.Some? && y.Some? && !v.Null? && !x.value.Null? && !y.value.Null?
    requires SameKind(x.value, y.value) && SameKind(y.value, v)
    ensures Better(least, Better(least, x, y.value), v) == Better(least, x, Better(least, y, v).value)
  {
    ScalarLeqTotal(x.value, y.value);
    ScalarLeqTotal(y.value, v);
    ScalarLeqTotal(x.value, v);
    if ScalarLeq(x.value, y.value) && ScalarLeq(y.value, v) { ScalarLeqTransitive(x.value, y.value, v); }
    if ScalarLeq(v, y.value) && ScalarLeq(y.value, x.value) { ScalarLeqTransitive(v, y.value, x.value); }
  }

  lemma OneKindParts(a: seq<Scalar>, b: seq<Scalar>)
    requires OneKind(a + b)
    ensures OneKind(a) && OneKind(b)
    ensures forall i, j | 0 <= i < |a| && 0 <= j < |b| && !a[i].Null? && !b[j].Null? :: SameKind(a[i], b[j])
  {
    var all := a + b;
    assert forall i | 0 <= i < |a| :: all[i] == a[i];
    assert forall j | 0 <= j < |b| :: all[|a| + j] == b[j];
  }

  /** MIN and MAX of a concatenation are the better of the parts' values. */
  lemma {:induction false} BestConcat(least: bool, a: seq<Scalar>, b: seq<Scalar>)
    requires OneKind(a + b)
    ensures Best(least, a + b) == Better(least, Best(least, a), OrNull(Best(least, b)))
  {
    if b == [] {
      assert a + b == a;
    } else {
      var n, last := |b| - 1, b[|b| - 1];
      assert a + b == (a + b[..n]) + [last] && (a + b)[..|a + b| - 1] == a + b[..n];
      OneKindParts(a + b[..n], [last]);
      OneKindParts(a, b[..n]);
      BestConcat(least, a, b[..n]);
      BestIsExtreme(least, a);
      BestIsExtreme(least, b[..n]);
      var x, y := Best(least, a), Best(least, b[..n]);
      if !last.Null? && x.Some? && y.Some? {
        BestKinds(least, a, b[..n], last);
        BetterAssociative(least, x, y, last);
      }
    }
  }

  lemma BestKinds(least: bool, a: seq<Scalar>, b: seq<Scalar>, v: Scalar)
    requires OneKind(a + b + [v]) && !v.Null? && Best(least, a).Some? && Best(least, b).Some?
    ensures SameKind(Best(least, a).value, Best(least, b).value) && SameKind(Best(least, b).value, v)
    ensures !Best(least, a).value.Null? && !Best(least, b).value.Null?
  {
    var all := a + b + [v];
    OneKindParts(a + b, [v]);
    OneKindParts(a, b);
    BestIsExtreme(least, a);
    BestIsExtreme(least, b);
    var i :| 0 <= i < |a| && a[i] == Best(least, a).value;
    var j :| 0 <= j < |b| && b[j] == Best(least, b).value;
    assert all[i] == a[i] && all[|a| + j] == b[j] && all[|a| + |b|] == v;
  }

  /** The function that combines the partial values of `f`. */
  function Combiner(f: Function): Function {
    if f.Count? then SumUInt64 else f
  }

  function Meanings(f: Function, parts: seq<seq<Scalar>>): seq<Scalar> {
    seq(|parts|, p requires 0 <= p < |parts| => Meaning(f, parts[p]))
  }

  predicate AllAccept(f: Function, parts: seq<seq<Scalar>>) {
    forall p | 0 <= p < |parts| :: Accepts(f, parts[p])
  }

  lemma MeaningsPush(f: Function, parts: seq<seq<Scalar>>)
    requires parts != []
    ensures var n := |parts| - 1;
      Meanings(f, parts) == Meanings(f, parts[..n]) + [Meaning(f, parts[n])]
  {
    hide Meaning; hide Concat;
    var n := |parts| - 1;
    var all, init := Meanings(f, parts), Meanings(f, parts[..n]) + [Meaning(f, parts[n])];
    assert |all| == |init| == |parts|;
    assert forall p | 0 <= p < |parts| :: all[p] == init[p];
  }

  /** Partial counts add up to the count of everything. */
  lemma {:induction false} CountsCombine(parts: seq<seq<Scalar>>)
    requires AllAccept(Count, parts)
    ensures AllUnsigned(Meanings(Count, parts)) && UnsignedTotal(Meanings(Count, parts)) == Seen(Concat(parts))
    ensures Seen(Meanings(Count, parts)) == |parts|
  {
    if parts != [] {
      var n := |parts| - 1;
      CountsCombine(parts[..n]);
      MeaningsPush(Count, parts);
      Additive(Meanings(Count, parts[..n]), [Meaning(Count, parts[n])]);
      Additive(Concat(parts[..n]), parts[n]);
    }
  }

  lemma {:induction false} SumsCombine(parts: seq<seq<Scalar>>)
    requires AllAccept(Sum, parts)
    ensures AllNumeric(Meanings(Sum, parts)) && AllNumeric(Concat(parts))
    ensures Total(Meanings(Sum, parts)) == Total(Concat(parts))
    ensures Seen(Meanings(Sum, parts)) == 0 <==> Seen(Concat(parts)) == 0
  {
    if parts != [] {
      var n := |parts| - 1;
      SumsCombine(parts[..n]);
      MeaningsPush(Sum, parts);
      Additive(Meanings(Sum, parts[..n]), [Meaning(Sum, parts[n])]);
      Additive(Concat(parts[..n]), parts[n]);
      if Seen(parts[n]) == 0 { NullsAddNothing(parts[n]); }
    }
  }

  lemma {:induction false} NullsAddNothing(vs: seq<Scalar>)
    requires Seen(vs) == 0
    ensures Total(vs) == 0.0 && UnsignedTotal(vs) == 0
  {
    if vs != [] { NullsAddNothing(vs[..|vs| - 1]); }
  }

  lemma {:induction false} UnsignedSumsCombine(parts: seq<seq<Scalar>>)
    requires AllAccept(SumUInt64, parts)
    ensures AllUnsigned(Meanings(SumUInt64, parts)) && AllUnsigned(Concat(parts))
    ensures UnsignedTotal(Meanings(SumUInt64, parts)) == UnsignedTotal(Concat(parts))
    ensures Seen(Meanings(SumUInt64, parts)) == 0 <==> Seen(Concat(parts)) == 0
  {
    if parts != [] {
      var n := |parts| - 1;
      UnsignedSumsCombine(parts[..n]);
      MeaningsPush(SumUInt64, parts);
      Additive(Meanings(SumUInt64, parts[..n]), [Meaning(SumUInt64, parts[n])]);
      Additive(Concat(parts[..n]), parts[n]);
      if Seen(parts[n]) == 0 { NullsAddNothing(parts[n]); }
    }
  }

  /** MIN and MAX of the parts' values is that of everything, and fails on the same columns. */
  lemma {:induction false} ExtremesCombine(f: Function, parts: seq<seq<Scalar>>)
    requires (f.Min? || f.Max?) && AllAccept(f, parts)
    ensures OneKind(Meanings(f, parts)) <==> OneKind(Concat(parts))
    ensures OneKind(Concat(parts)) ==> Best(f.Min?, Meanings(f, parts)) == Best(f.Min?, Concat(parts))
  {
    if parts != [] {
      var n := |parts| - 1;
      ExtremesCombine(f, parts[..n]);
      MeaningsPush(f, parts);
      var before, values, last := Concat(parts[..n]), Meanings(f, parts[..n]), Meaning(f, parts[n]);
      if OneKind(before) {
        OneKindPush(f.Min?, values, last);
        OneKindJoin(f.Min?, before, parts[n]);
        if OneKind(before + parts[n]) {
          BestConcat(f.Min?, before, parts[n]);
          assert (values + [last])[..n] == values;
        }
      } else {
        if OneKind(before + parts[n]) { OneKindParts(before, parts[n]); }
        if OneKind(values + [last]) { OneKindParts(values, [last]); }
      }
    }
  }

  /** Two columns of one kind each are of one kind together when their best values compare. */
  lemma OneKindJoin(least: bool, a: seq<Scalar>, b: seq<Scalar>)
    requires OneKind(a) && OneKind(b)
    ensures OneKind(a + b) <==> Comparable(Best(least, a), OrNull(Best(least, b)))
  {
    BestIsExtreme(least, a);
    BestIsExtreme(least, b);
    var x, y, all := Best(least, a), Best(least, b), a + b;
    if x.None? { NothingSeen(a); }
    if y.None? { NothingSeen(b); }
    if x.Some? && y.Some? {
      var i :| 0 <= i < |a| && a[i] == x.value;
      var j :| 0 <= j < |b| && b[j] == y.value;
      assert all[i] == a[i] && all[|a| + j] == b[j];
    }
    assert forall k | 0 <= k < |a| :: all[k] == a[k];
    assert forall k | |a| <= k < |all| :: all[k] == b[k - |a|];
  }

  /** Combining the partial values of a column that was cut into parts: it fails exactly when
      aggregating the whole column does, and otherwise gives the value of the whole column. */
  lemma PartsCombine(f: Function, parts: seq<seq<Scalar>>)
    requires !f.Avg? && AllAccept(f, parts)
    ensures Accepts(Combiner(f), Meanings(f, parts)) <==> Accepts(f, Concat(parts))
    ensures parts != [] && Accepts(f, Concat(parts)) ==>
      Meaning(Combiner(f), Meanings(f, parts)) == Meaning(f, Concat(parts))
  {
    match f
    case Count => CountsCombine(parts);
    case Sum => SumsCombine(parts);
    case SumUInt64 => UnsignedSumsCombine(parts);
    case Min => ExtremesCombine(f, parts);
    case Max => ExtremesCombine(f, parts);
    case Avg =>
  }

  /** The projection above the final merge: NULL if either side is, else the quotient. */
  function Divide(sum: Scalar, count: Scalar): Scalar {
    if sum.Float64? && count.UInt64? && count.unsigned != 0 then Float64(sum.number / count.unsigned as real)
    else Null
  }

  /** AVG is shipped as a sum and a count, and their quotient is the average of everything. */
  lemma AveragesCombine(parts: seq<seq<Scalar>>)
    requires AllAccept(Sum, parts) && AllAccept(Count, parts)
    ensures Accepts(Sum, Meanings(Sum, parts))
    ensures Accepts(SumUInt64, Meanings(Count, parts)) <==> Accepts(Avg, Concat(parts))
    ensures parts != [] && Accepts(Avg, Concat(parts)) ==>
      Divide(Meaning(Sum, Meanings(Sum, parts)), Meaning(SumUInt64, Meanings(Count, parts))) == Meaning(Avg, Concat(parts))
  {
    SumsCombine(parts);
    CountsCombine(parts);
  }

  /** A column that is accepted as a whole is accepted part by part. */
  lemma {:induction false} AcceptsParts(f: Function, parts: seq<seq<Scalar>>)
    requires Accepts(f, Concat(parts))
    ensures AllAccept(f, parts)
  {
    if parts != [] {
      var n := |parts| - 1;
      var before := Concat(parts[..n]);
      Additive(before, parts[n]);
      AcceptsPrefix(f, before, parts[n]);
      AcceptsParts(f, parts[..n]);
      var all := before + parts[n];
      assert forall k | 0 <= k < |parts[n]| :: all[|before| + k] == parts[n][k];
    }
  }
}
