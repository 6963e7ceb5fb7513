/** Shared vocabulary: optional values, results, machine-integer ranges and the byte-wise
    string order that Rust's `BTreeMap` keys use. */
module Basics {
  datatype Option<+T> = None | Some(value: T)

  datatype Result<+T, +E> = Ok(value: T) | Err(error: E)

  const U32_MAX: nat := 0xFFFF_FFFF
  const U64_MAX: nat := 0xFFFF_FFFF_FFFF_FFFF

  type U32 = n: nat | n <= U32_MAX
  type U64 = n: nat | n <= U64_MAX

  function Min(a: int, b: int): int { if a <= b then a else b }

  function Max(a: int, b: int): int { if a <= b then b else a }

  /** `u64::saturating_sub`. */
  function SaturatingSub(a: nat, b: nat): nat { if a <= b then 0 else a - b }

  /** Lexicographic order on strings, the order of `String` keys in a `BTreeMap`. */
  predicate StringLeq(a: string, b: string) {
    if a == [] then true
    else if b == [] then false
    else if a[0] == b[0] then StringLeq(a[1..], b[1..])
    else a[0] < b[0]
  }

  lemma {:induction false} StringLeqTotal(a: string, b: string)
    ensures StringLeq(a, b) || StringLeq(b, a)
  {
    if a != [] && b != [] && a[0] == b[0] {
      StringLeqTotal(a[1..], b[1..]);
    }
  }

  lemma {:induction false} StringLeqAntisymmetric(a: string, b: string)
    requires StringLeq(a, b) && StringLeq(b, a)
    ensures a == b
  {
    if a != [] && b != [] {
      StringLeqAntisymmetric(a[1..], b[1..]);
      assert a == [a[0]] + a[1..] && b == [b[0]] + b[1..];
    }
  }

  lemma {:induction false} StringLeqTransitive(a: string, b: string, c: string)
    requires StringLeq(a, b) && StringLeq(b, c)
    ensures StringLeq(a, c)
  {
    if a != [] && a[0] == b[0] == c[0] {
      StringLeqTransitive(a[1..], b[1..], c[1..]);
    }
  }

  /** A subset of a finite set is no larger, and equally large only when equal. */
  lemma {:induction false} SubsetCardinality<T>(a: set<T>, b: set<T>)
    requires a <= b
    ensures |a| <= |b|
    ensures |a| == |b| ==> a == b
    decreases a
  {
    if x :| x in a {
      SubsetCardinality(a - {x}, b - {x});
      assert a == (a - {x}) + {x} && b == (b - {x}) + {x};
    } else {
      assert a == {};
    }
  }

  lemma {:induction false} LeastName(names: set<string>) returns (least: string)
    requires names != {}
    ensures least in names && forall x | x in names :: StringLeq(least, x)
  {
    hide StringLeq;
    var n :| n in names;
    StringLeqTotal(n, n);
    least := n;
    if names != {n} {
      var m := LeastName(names - {n});
      StringLeqTotal(m, n);
      if StringLeq(m, n) { least := m; }
      forall x | x in names ensures StringLeq(least, x) {
        if x != n && !StringLeq(m, n) { StringLeqTransitive(n, m, x); }
      }
    }
  }

  lemma LeastNameExists(names: set<string>)
    requires names != {}
    ensures exists least :: least in names && forall x | x in names :: StringLeq(least, x)
  {
    hide StringLeq;
    var least := LeastName(names);
  }

  /** The names in ascending order, as an ordered set iterates over them. */
  ghost function Sorted(names: set<string>): (r: seq<string>)
    ensures forall x :: x in r <==> x in names
    ensures forall i, j | 0 <= i < j < |r| :: r[i] != r[j]
  {
    if names == {} then []
    else
      LeastNameExists(names);
      var least :| least in names && forall x | x in names :: StringLeq(least, x);
      [least] + Sorted(names - {least})
  }

  /** The Unicode `White_Space` characters, as in `char::is_whitespace`. */
  predicate IsWhitespace(c: char) {
    || '\t' <= c <= '\r' || c == ' '
    || c == '\U{85}' || c == '\U{A0}' || c == '\U{1680}'
    || '\U{2000}' <= c <= '\U{200A}'
    || c == '\U{2028}' || c == '\U{2029}' || c == '\U{202F}' || c == '\U{205F}' || c == '\U{3000}'
  }

  /** `text.trim().is_empty()`. */
  predicate Blank(text: string) {
    forall i | 0 <= i < |text| :: IsWhitespace(text[i])
  }
}
