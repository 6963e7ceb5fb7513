/** A column library that meets the laws taken for granted about it (`Expr.Lawful`). */
module CheckedLibrary {
  import opened Basics
  import opened Values
  import opened Expr
  import opened ExprDrift
  import opened ExprAgreement
  import OptimizerRounding

  function SmallInteger(x: real): bool { x.Floor as real == x && -16777216.0 <= x <= 16777216.0 }

  function Bare(): Kernels { Kernels(SmallInteger, (s, t) => true, (s, t, v) => Null, (op, t, a, b) => None) }

  function AsFloat(v: Scalar): Scalar {
    if v.Int64? then Float64(v.signed as real) else if v.UInt64? then Float64(v.unsigned as real) else v
  }

  function SafeCast(s: DataType, t: DataType, v: Scalar): Scalar {
    if s == t || v.Null? then v
    else
      var w := if t.Float32Type? || t.Float64Type? then AsFloat(v) else v;
      if Fits(Bare(), t, w) then w else Null
  }

  /** Additions only: integers are checked, 32-bit floats rounded. */
  function CheckedArith(op: Operator, t: DataType, a: Scalar, b: Scalar): Option<Scalar> {
    if a.Null? || b.Null? then Some(Null)
    else if !op.Add? then None
    else if a.Int64? && b.Int64? && I64_MIN <= a.signed + b.signed <= I64_MAX && Fits(Bare(), t, Int64(a.signed + b.signed)) then
      Some(Int64(a.signed + b.signed))
    else if a.Float64? && b.Float64? && t.Float32Type? then
      Some(Float64(if SmallInteger(a.number + b.number) then a.number + b.number else 16777216.0))
    else if a.Float64? && b.Float64? && t.Float64Type? then Some(Float64(a.number + b.number))
    else None
  }

  predicate CastsBetween(s: DataType, t: DataType) { s.NullType? || s == t || (IsNumeric(s) && IsNumeric(t)) }

  function Checked(): Kernels { Kernels(SmallInteger, CastsBetween, SafeCast, CheckedArith) }

  lemma CheckedCast(s: DataType, t: DataType, v: Scalar)
    ensures Fits(Checked(), t, v) ==> SafeCast(Normalized(t), t, v) == v && SafeCast(t, Normalized(t), v) == v
    ensures CastsBetween(s, t) && Fits(Checked(), s, v) ==> Fits(Checked(), t, SafeCast(s, t, v))
  {
    assert Fits(Bare(), t, v) == Fits(Checked(), t, v) && Fits(Bare(), t, AsFloat(v)) == Fits(Checked(), t, AsFloat(v));
  }

  lemma CheckedSum(op: Operator, t: DataType, a: Scalar, b: Scalar)
    ensures CheckedArith(op, t, a, b).Some? ==> Fits(Checked(), t, CheckedArith(op, t, a, b).value)
  {
    var r := CheckedArith(op, t, a, b);
    if r.Some? { assert Fits(Bare(), t, r.value) == Fits(Checked(), t, r.value); }
  }

  lemma CheckedWidening(s: DataType, t: DataType, v: Scalar)
    requires IsNumeric(s) && Fits(Checked(), s, v) && !v.Null?
    ensures IsNumeric(t) && CommonNumeric(s, t).Some? ==> !SafeCast(s, CommonNumeric(s, t).value, v).Null?
    ensures v.Int64? ==> SafeCast(s, Float64Type, v) == Float64(v.signed as real)
    ensures v.UInt64? ==> SafeCast(s, Float64Type, v) == Float64(v.unsigned as real)
  {
  }

  /** A column library that obeys all the laws, gives NULL for a number that a narrow type cannot
      hold, checks its additions and rounds its 32-bit floats. */
  lemma LawsCanBeMet()
    ensures Lawful(Checked()) && Widening(Checked()) && Uniform(Checked()) && OptimizerRounding.Rounds(Checked())
    ensures Checked().cast(Int64Type, Int32Type, Int64(5_000_000_000)) == Null
    ensures Checked().arith(Add, Int32Type, Int64(1), Int64(2)) == Some(Int64(3))
    ensures Checked().arith(Add, Int32Type, Int64(0x7FFF_FFFF), Int64(1)) == None
  {
    hide Lawful; hide Widening; hide Uniform; hide OptimizerRounding.Rounds; hide Checked;
    CheckedIsLawful();
    CheckedWidens();
    CheckedIsUniform();
    CheckedRounds();
    CheckedNumbers();
  }

  lemma CheckedNumbers()
    ensures Checked().cast(Int64Type, Int32Type, Int64(5_000_000_000)) == Null
    ensures Checked().arith(Add, Int32Type, Int64(1), Int64(2)) == Some(Int64(3))
    ensures Checked().arith(Add, Int32Type, Int64(0x7FFF_FFFF), Int64(1)) == None
  {
  }

  lemma CheckedIsUniform()
    ensures Uniform(Checked())
  {
    hide SafeCast; hide CheckedArith; hide Fits;
    var k := Checked();
    assert k.cast == SafeCast && k.arith == CheckedArith;
    forall s, t, v | Whole(s) && Fits(k, s, v) ensures k.cast(s, t, v) == k.cast(Normalized(s), t, v) { UniformCast(s, t, v); }
    forall op, t, a, b | Whole(t) && Fits(k, t, a) && Fits(k, t, b) && k.arith(op, t, a, b).Some?
      ensures k.arith(op, Normalized(t), a, b) == k.arith(op, t, a, b)
    {
      UniformSum(op, t, a, b);
    }
  }

  lemma UniformCast(s: DataType, t: DataType, v: Scalar)
    requires Whole(s) && Fits(Checked(), s, v)
    ensures SafeCast(s, t, v) == SafeCast(Normalized(s), t, v)
  {
    assert Fits(Bare(), s, v) == Fits(Checked(), s, v);
  }

  lemma UniformSum(op: Operator, t: DataType, a: Scalar, b: Scalar)
    requires Whole(t) && Fits(Checked(), t, a) && Fits(Checked(), t, b) && CheckedArith(op, t, a, b).Some?
    ensures CheckedArith(op, Normalized(t), a, b) == CheckedArith(op, t, a, b)
  {
  }

  lemma CheckedRounds()
    ensures OptimizerRounding.Rounds(Checked())
  {
    assert SmallInteger(16777215.0) && SmallInteger(16777216.0) && !SmallInteger(16777217.0);
  }

  lemma CheckedIsLawful()
    ensures Lawful(Checked())
  {
    hide Fits; hide SafeCast; hide CheckedArith;
    var k := Checked();
    assert k.single == SmallInteger && k.cast == SafeCast && k.arith == CheckedArith && k.canCast == CastsBetween;
    assert SmallInteger(0.0) && SmallInteger(1.0);
    forall s, t, v | k.canCast(s, t) && Fits(k, s, v) ensures Fits(k, t, k.cast(s, t, v)) { CheckedCast(s, t, v); }
    forall t, v | Fits(k, t, v) ensures k.cast(Normalized(t), t, v) == v && k.cast(t, Normalized(t), v) == v { CheckedCast(t, t, v); }
    forall s, t ensures k.cast(s, t, Null) == Null { NothingToCast(s, t, Null); }
    forall t, v ensures k.cast(t, t, v) == v { NothingToCast(t, t, v); }
    forall s, t ensures k.canCast(s, t) == k.canCast(Normalized(s), t) { }
    forall op, t, a, b
      ensures k.arith(op, t, a, b).Some? ==> Fits(k, t, k.arith(op, t, a, b).value)
      ensures a.Null? || b.Null? ==> k.arith(op, t, a, b) == Some(Null)
    {
      CheckedSum(op, t, a, b);
      NothingToAdd(op, t, a, b);
    }
  }

  lemma NothingToCast(s: DataType, t: DataType, v: Scalar)
    ensures SafeCast(s, t, Null) == Null && SafeCast(t, t, v) == v
  {
  }

  lemma NothingToAdd(op: Operator, t: DataType, a: Scalar, b: Scalar)
    ensures a.Null? || b.Null? ==> CheckedArith(op, t, a, b) == Some(Null)
  {
  }

  lemma CheckedWidens()
    ensures Widening(Checked())
  {
    hide Fits; hide SafeCast; hide CheckedArith; hide CommonNumeric; hide IsNumeric;
    var k := Checked();
    assert k.cast == SafeCast;
    forall s, t, v | IsNumeric(s) && IsNumeric(t) && CommonNumeric(s, t).Some? && Fits(k, s, v) && !v.Null?
      ensures !k.cast(s, CommonNumeric(s, t).value, v).Null?
    {
      CheckedWidening(s, t, v);
    }
    forall s, n: I64 | IsNumeric(s) && Fits(k, s, Int64(n)) ensures k.cast(s, Float64Type, Int64(n)) == Float64(n as real) {
      CheckedWidening(s, s, Int64(n));
    }
    forall s, n: U64 | IsNumeric(s) && Fits(k, s, UInt64(n)) ensures k.cast(s, Float64Type, UInt64(n)) == Float64(n as real) {
      CheckedWidening(s, s, UInt64(n));
    }
  }
}
