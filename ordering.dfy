/** Lexicographic order on integer sequences.

    Two orders of the application are this one: JavaScript's default
    `Array.prototype.sort` on strings compares them code by code, and two
    calendar instants compare field by field (year first). */
module Ordering {

  /** `a` sorts strictly before `b`: at the first position where they differ
      `a` holds the smaller value, or `a` is a proper prefix of `b`. */
  predicate LexLess(a: seq<int>, b: seq<int>)
    decreases |a|
  {
    |b| > 0 && (|a| == 0 || a[0] < b[0] || (a[0] == b[0] && LexLess(a[1..], b[1..])))
  }

  /** Nothing sorts before itself. */
  lemma {:induction false} LexLessIrreflexive(a: seq<int>)
    ensures !LexLess(a, a)
    decreases |a|
  {
    if |a| > 0 {
      LexLessIrreflexive(a[1..]);
    }
  }

  /** Two sequences are never each before the other. */
  lemma {:induction false} LexLessAsymmetric(a: seq<int>, b: seq<int>)
    ensures !(LexLess(a, b) && LexLess(b, a))
    decreases |a|
  {
    if |a| > 0 && |b| > 0 && a[0] == b[0] {
      LexLessAsymmetric(a[1..], b[1..]);
    }
  }

  lemma {:induction false} LexLessTransitive(a: seq<int>, b: seq<int>, c: seq<int>)
    requires LexLess(a, b) && LexLess(b, c)
    ensures LexLess(a, c)
    decreases |a|
  {
    if |a| > 0 && a[0] == b[0] && b[0] == c[0] {
      LexLessTransitive(a[1..], b[1..], c[1..]);
    }
  }

  /** Any two different sequences are ordered one way or the other. */
  lemma {:induction false} LexLessTotal(a: seq<int>, b: seq<int>)
    ensures a == b || LexLess(a, b) || LexLess(b, a)
    decreases |a|
  {
    if |a| > 0 && |b| > 0 && a[0] == b[0] {
      LexLessTotal(a[1..], b[1..]);
      if a[1..] == b[1..] {
        assert a == [a[0]] + a[1..] && b == [b[0]] + b[1..];
      }
    }
  }

  /** A common prefix does not change the order of two sequences. */
  lemma {:induction false} LexLessCommonPrefix(p: seq<int>, a: seq<int>, b: seq<int>)
    ensures LexLess(p + a, p + b) <==> LexLess(a, b)
    decreases |p|
  {
    if |p| > 0 {
      assert (p + a)[1..] == p[1..] + a;
      assert (p + b)[1..] == p[1..] + b;
      LexLessCommonPrefix(p[1..], a, b);
    } else {
      assert p + a == a && p + b == b;
    }
  }

  /** All zeros come before any other sequence of the same length without a
      negative entry. */
  lemma {:induction false} ZerosFirst(b: seq<int>)
    requires forall i :: 0 <= i < |b| ==> b[i] >= 0
    requires exists i :: 0 <= i < |b| && b[i] != 0
    ensures LexLess(seq(|b|, _ => 0), b)
    decreases |b|
  {
    var z := seq(|b|, _ => 0);
    if b[0] == 0 {
      var i :| 0 <= i < |b| && b[i] != 0;
      assert b[1..][i - 1] == b[i];
      ZerosFirst(b[1..]);
      assert z[1..] == seq(|b| - 1, _ => 0);
    }
  }
}
