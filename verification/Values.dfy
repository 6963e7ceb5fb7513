/** Scalar values, rows and record batches as the operators see them. Floating-point columns hold
    exact real numbers here. */
module Values {
  import opened Basics

  const I64_MIN: int := -0x8000_0000_0000_0000
  const I64_MAX: int := 0x7FFF_FFFF_FFFF_FFFF

  type I64 = n: int | I64_MIN <= n <= I64_MAX

  datatype Scalar =
    | Null
    | Boolean(flag: bool)
    | Int64(signed: I64)
    | UInt64(unsigned: U64)
    | Float64(number: real)
    | Utf8(text: string)

  datatype Ordering = Less | Equal | Greater

  predicate SameKind(a: Scalar, b: Scalar) {
    match a
    case Null => b.Null?
    case Boolean(_) => b.Boolean?
    case Int64(_) => b.Int64?
    case UInt64(_) => b.UInt64?
    case Float64(_) => b.Float64?
    case Utf8(_) => b.Utf8?
  }

  /** The order within one kind: false before true, numbers by size, strings byte by byte. */
  predicate ScalarLeq(a: Scalar, b: Scalar)
    requires SameKind(a, b)
  {
    match a
    case Null => true
    case Boolean(x) => x ==> b.flag
    case Int64(x) => x <= b.signed
    case UInt64(x) => x <= b.unsigned
    case Float64(x) => x <= b.number
    case Utf8(x) => StringLeq(x, b.text)
  }

  lemma ScalarLeqTotal(a: Scalar, b: Scalar)
    requires SameKind(a, b)
    ensures ScalarLeq(a, b) || ScalarLeq(b, a)
    ensures ScalarLeq(a, b) && ScalarLeq(b, a) ==> a == b
  {
    if a.Utf8? {
      StringLeqTotal(a.text, b.text);
      if StringLeq(a.text, b.text) && StringLeq(b.text, a.text) {
        StringLeqAntisymmetric(a.text, b.text);
      }
    }
  }

  lemma ScalarLeqTransitive(a: Scalar, b: Scalar, c: Scalar)
    requires SameKind(a, b) && SameKind(b, c) && ScalarLeq(a, b) && ScalarLeq(b, c)
    ensures ScalarLeq(a, c)
  {
    if a.Utf8? { StringLeqTransitive(a.text, b.text, c.text); }
  }

  /** `ScalarValue::partial_compare`: NULL first, values of different kinds incomparable. */
  function PartialCompare(a: Scalar, b: Scalar): Option<Ordering> {
    if a.Null? || b.Null? then
      Some(if a.Null? && b.Null? then Equal else if a.Null? then Less else Greater)
    else if !SameKind(a, b) then None
    else Some(if a == b then Equal else if ScalarLeq(a, b) then Less else Greater)
  }

  // ----- rows --------------------------------------------------------------------------------

  type Row = seq<Scalar>

  datatype Batch = Batch(width: nat, rows: seq<Row>)

  predicate BatchesOf(width: nat, batches: seq<Batch>) {
    forall b | 0 <= b < |batches| :: batches[b].width == width && RowsOf(width, batches[b].rows)
  }

  predicate RowsOf(width: nat, rows: seq<Row>) {
    forall r | 0 <= r < |rows| :: |rows[r]| == width
  }

  /** All the rows of a list of batches, in order. */
  function AllRows(batches: seq<Batch>): seq<Row> {
    if batches == [] then [] else AllRows(batches[..|batches| - 1]) + batches[|batches| - 1].rows
  }

  lemma AllRowsPush(batches: seq<Batch>, batch: Batch)
    ensures AllRows(batches + [batch]) == AllRows(batches) + batch.rows
  {
    assert (batches + [batch])[..|batches|] == batches;
  }

  lemma {:induction false} AllRowsConcat(a: seq<Batch>, b: seq<Batch>)
    ensures AllRows(a + b) == AllRows(a) + AllRows(b)
  {
    if b == [] {
      assert a + b == a;
    } else {
      var n := |b| - 1;
      assert (a + b)[..|a + b| - 1] == a + b[..n];
      AllRowsConcat(a, b[..n]);
    }
  }

  /** The concatenation of a list of lists. */
  function Concat<T>(parts: seq<seq<T>>): seq<T> {
    if parts == [] then [] else Concat(parts[..|parts| - 1]) + parts[|parts| - 1]
  }

  /** An element can be taken out of two sequences with the same elements. */
  lemma TakenOut<T>(a: seq<T>, b: seq<T>) returns (i: nat)
    requires a != [] && multiset(a) == multiset(b)
    ensures i < |b| && b == b[..i] + [a[|a| - 1]] + b[i + 1..]
    ensures multiset(a[..|a| - 1]) == multiset(b[..i] + b[i + 1..])
  {
    var n, x := |a| - 1, a[|a| - 1];
    assert a == a[..n] + [x];
    assert x in multiset(b);
    i :| 0 <= i < |b| && b[i] == x;
    assert b == b[..i] + [x] + b[i + 1..];
    assert multiset(a[..n]) == multiset(a) - multiset{x};
    assert multiset(b[..i] + b[i + 1..]) == multiset(b) - multiset{x};
  }

  /** The key of a row: its values in the given columns. */
  function KeyAt(columns: seq<nat>, row: Row): seq<Scalar> {
    seq(|columns|, i requires 0 <= i < |columns| => if columns[i] < |row| then row[columns[i]] else Null)
  }

  predicate HasNull(key: seq<Scalar>) {
    exists i :: 0 <= i < |key| && key[i].Null?
  }

  /** Rows encoded as comparable keys, and hashed: library code. */
  type Encoded = seq<nat>

  datatype KeyCodec = KeyCodec(
    encode: seq<Scalar> -> Encoded,
    decode: Encoded -> seq<Scalar>,
    hash: Encoded -> U32)

  /** The encoding tells these keys apart; the library promises it for the keys of one schema. */
  predicate Lossless(c: KeyCodec, keys: set<seq<Scalar>>) {
    forall key | key in keys :: c.decode(c.encode(key)) == key
  }

  lemma FewerKeys(c: KeyCodec, keys: set<seq<Scalar>>, some: set<seq<Scalar>>)
    requires Lossless(c, keys) && some <= keys
    ensures Lossless(c, some)
  {
  }

  /** The keys of some rows. */
  function RowKeys(columns: seq<nat>, rows: seq<Row>): set<seq<Scalar>> {
    set i | 0 <= i < |rows| :: KeyAt(columns, rows[i])
  }

  lemma RowKeysConcat(columns: seq<nat>, a: seq<Row>, b: seq<Row>)
    ensures RowKeys(columns, a + b) == RowKeys(columns, a) + RowKeys(columns, b)
  {
    hide KeyAt;
    var all := a + b;
    assert forall i | 0 <= i < |a| :: all[i] == a[i];
    assert forall i | 0 <= i < |b| :: all[|a| + i] == b[i];
    assert forall i | 0 <= i < |all| :: if i < |a| then all[i] == a[i] else all[i] == b[i - |a|];
  }

  /** Any keys at all have an encoding that tells them apart: number them. */
  lemma {:induction false} LosslessCodecExists(keys: set<seq<Scalar>>, hash: Encoded -> U32) returns (c: KeyCodec)
    ensures Lossless(c, keys) && c.hash == hash
    ensures forall key | key in keys :: c.encode(key) != [0] && |c.encode(key)| == 1 && c.encode(key)[0] <= |keys|
  {
    if keys == {} {
      c := KeyCodec(key => [0], e => [], hash);
    } else {
      var last :| last in keys;
      var before := LosslessCodecExists(keys - {last}, hash);
      c := KeyCodec(key => if key == last then [|keys|] else before.encode(key), e => if e == [|keys|] then last else before.decode(e), hash);
      forall key | key in keys
        ensures c.decode(c.encode(key)) == key && c.encode(key) != [0] && |c.encode(key)| == 1 && c.encode(key)[0] <= |keys|
      {
        if key != last { assert before.encode(key)[0] < |keys|; }
      }
    }
  }
}
