/** The string operations the pages rely on, with JavaScript's meaning:
    `toLowerCase` (ASCII letters only), `includes`, `trim`, `parseInt`,
    the `parseInt(x) || d` default idiom and the default string sort order. */
module Text {
  import Ordering

  datatype Option<T> = None | Some(value: T)

  /** `o ?? d`: the value when there is one, otherwise the fallback. */
  function OrElse<T>(o: Option<T>, d: T): (r: T)
    ensures o.None? ==> r == d
    ensures o.Some? ==> r == o.value
  {
    if o.Some? then o.value else d
  }

  /** `xs.filter(Boolean)` over nullable strings: the non-empty values, in order. */
  function PresentStrings(xs: seq<Option<string>>): (r: seq<string>)
    ensures |r| <= |xs|
    ensures forall s :: s in r <==> s != "" && Some(s) in xs
    ensures forall s :: multiset(r)[s] == if s != "" then multiset(xs)[Some(s)] else 0
  {
    if xs == [] then []
    else
      assert xs == [xs[0]] + xs[1..];
      (if xs[0].Some? && xs[0].value != "" then [xs[0].value] else []) + PresentStrings(xs[1..])
  }

  /** The present strings of two lists one after the other are those of the
      first followed by those of the second: the order of `xs` is kept. */
  lemma {:induction false} PresentStringsConcat(a: seq<Option<string>>, b: seq<Option<string>>)
    ensures PresentStrings(a + b) == PresentStrings(a) + PresentStrings(b)
  {
    if a == [] {
      assert a + b == b;
    } else {
      assert (a + b)[1..] == a[1..] + b;
      PresentStringsConcat(a[1..], b);
    }
  }

  // ---------------------------------------------------------------------------
  // Case

  predicate IsUpper(c: char) {
    'A' <= c <= 'Z'
  }

  /** Lower-cases an ASCII capital; every other character is kept. */
  function LowerChar(c: char): (r: char)
    ensures !IsUpper(r)
    ensures !IsUpper(c) ==> r == c
    ensures IsUpper(c) ==> 'a' <= r <= 'z' && r as int - c as int == 32
  {
    if IsUpper(c) then (c as int + 32) as char else c
  }

  /** `s.toLowerCase()` over ASCII: same length, each character lowered. */
  function Lower(s: string): (r: string)
    ensures |r| == |s|
    ensures forall i :: 0 <= i < |s| ==> r[i] == LowerChar(s[i])
  {
    if s == [] then [] else [LowerChar(s[0])] + Lower(s[1..])
  }

  /** Lower-casing twice is lower-casing once. */
  lemma LowerIdempotent(s: string)
    ensures Lower(Lower(s)) == Lower(s)
  {
  }

  // ---------------------------------------------------------------------------
  // Substrings

  /** `sub` occurs in `s` starting at offset `k`. */
  predicate OccursAt(s: string, sub: string, k: int) {
    0 <= k && k + |sub| <= |s| && s[k..k + |sub|] == sub
  }

  /** `s.includes(sub)`: `sub` occurs in `s` at some offset. */
  predicate Contains(s: string, sub: string) {
    exists k :: 0 <= k <= |s| - |sub| && OccursAt(s, sub, k)
  }

  /** One differing character rules out an occurrence. */
  lemma MismatchAt(s: string, sub: string, k: int, j: int)
    requires 0 <= j < |sub| && 0 <= k && k + |sub| <= |s| && s[k + j] != sub[j]
    ensures !OccursAt(s, sub, k)
  {
    assert s[k..k + |sub|][j] == s[k + j];
  }

  /** Every string includes the empty string. */
  lemma ContainsEmpty(s: string)
    ensures Contains(s, "")
  {
    assert OccursAt(s, "", 0);
  }

  /** A string includes each of its suffixes, itself among them. */
  lemma ContainsSuffix(s: string, k: nat)
    requires k <= |s|
    ensures Contains(s, s[k..])
  {
    assert OccursAt(s, s[k..], k);
  }

  /** What occurs in a substring of `a` occurs in `a`. */
  lemma ContainsTransitive(a: string, b: string, c: string)
    requires Contains(a, b) && Contains(b, c)
    ensures Contains(a, c)
  {
    var k :| 0 <= k <= |a| - |b| && OccursAt(a, b, k);
    var m :| 0 <= m <= |b| - |c| && OccursAt(b, c, m);
    assert forall i :: 0 <= i < |b| ==> b[i] == a[k + i];
    assert a[k + m..k + m + |c|] == b[m..m + |c|];
    assert OccursAt(a, c, k + m);
  }

  // ---------------------------------------------------------------------------
  // White space and trim

  /** The characters `String.prototype.trim` removes: ECMAScript white space
      (tab, vertical tab, form feed, space, no-break space, byte order mark and
      the space separators) and line terminators. */
  predicate IsSpace(c: char) {
    var n := c as int;
    n == 0x09 || n == 0x0A || n == 0x0B || n == 0x0C || n == 0x0D || n == 0x20 ||
    n == 0xA0 || n == 0x1680 || (0x2000 <= n <= 0x200A) || n == 0x2028 ||
    n == 0x2029 || n == 0x202F || n == 0x205F || n == 0x3000 || n == 0xFEFF
  }

  predicate AllSpace(s: string) {
    forall i :: 0 <= i < |s| ==> IsSpace(s[i])
  }

  /** Length of the white-space run at the start of `s`. */
  function LeadingSpaces(s: string): (k: nat)
    ensures k <= |s|
    ensures forall i :: 0 <= i < k ==> IsSpace(s[i])
    ensures k < |s| ==> !IsSpace(s[k])
  {
    if s != [] && IsSpace(s[0]) then 1 + LeadingSpaces(s[1..]) else 0
  }

  /** Length of the white-space run at the end of `s`. */
  function TrailingSpaces(s: string): (k: nat)
    ensures k <= |s|
    ensures forall i :: |s| - k <= i < |s| ==> IsSpace(s[i])
    ensures k < |s| ==> !IsSpace(s[|s| - 1 - k])
  {
    if s != [] && IsSpace(s[|s| - 1]) then 1 + TrailingSpaces(s[..|s| - 1]) else 0
  }

  /** `s.trim()`: the longest middle part of `s` that neither starts nor ends
      with white space; empty exactly when `s` is all white space. */
  function Trim(s: string): (r: string)
    ensures |r| <= |s|
    ensures r == [] || (!IsSpace(r[0]) && !IsSpace(r[|r| - 1]))
    ensures r == [] <==> AllSpace(s)
    ensures exists a, b :: 0 <= a <= b <= |s| && r == s[a..b] && AllSpace(s[..a]) && AllSpace(s[b..])
  {
    var a := LeadingSpaces(s);
    var t := s[a..];
    var b := a + |t| - TrailingSpaces(t);
    var r := t[..|t| - TrailingSpaces(t)];
    assert r == [] ==> AllSpace(s);
    assert r == s[a..b];
    assert AllSpace(s[..a]) && AllSpace(s[b..]) by {
      assert forall i :: 0 <= i < |s[b..]| ==> s[b..][i] == t[|t| - TrailingSpaces(t) + i];
    }
    r
  }

  /** JavaScript truthiness of `s.trim()`: false for a blank string. */
  predicate IsBlank(s: string) {
    Trim(s) == []
  }

  /** A string with no white space at either end is its own trim. */
  lemma {:induction false} TrimUntouched(s: string)
    requires s == [] || (!IsSpace(s[0]) && !IsSpace(s[|s| - 1]))
    ensures Trim(s) == s
  {
    if s != [] {
      assert LeadingSpaces(s) == 0;
      assert s[0..] == s;
      assert TrailingSpaces(s) == 0;
    }
  }

  /** Trimming twice is trimming once. */
  lemma TrimIdempotent(s: string)
    ensures Trim(Trim(s)) == Trim(s)
  {
    TrimUntouched(Trim(s));
  }

  // ---------------------------------------------------------------------------
  // split

  /** `s.split(sep)` for a one-character separator: the pieces between the
      separators, in order; there is always at least one piece and none holds
      the separator. */
  function Split(s: string, sep: char): (parts: seq<string>)
    ensures |parts| >= 1
    ensures forall i :: 0 <= i < |parts| ==> sep !in parts[i]
    decreases |s|
  {
    if s == [] then [""]
    else
      var rest := Split(s[1..], sep);
      if s[0] == sep then [""] + rest else [[s[0]] + rest[0]] + rest[1..]
  }

  /** `parts.join(sep)` for a one-character separator. */
  function Join(parts: seq<string>, sep: char): string
    decreases |parts|
  {
    if parts == [] then ""
    else if |parts| == 1 then parts[0]
    else parts[0] + [sep] + Join(parts[1..], sep)
  }

  /** Joining the pieces of a split with the same separator gives back the string. */
  lemma {:induction false} SplitJoin(s: string, sep: char)
    ensures Join(Split(s, sep), sep) == s
    decreases |s|
  {
    if s != [] {
      var rest := Split(s[1..], sep);
      SplitJoin(s[1..], sep);
      if s[0] == sep {
        assert ([""] + rest)[1..] == rest;
      } else if |rest| == 1 {
        assert s == [s[0]] + s[1..];
      } else {
        var parts := [[s[0]] + rest[0]] + rest[1..];
        assert parts[1..] == rest[1..];
        assert s == [s[0]] + s[1..];
      }
    }
  }

  // ---------------------------------------------------------------------------
  // parseInt

  predicate IsDecimalDigit(c: char) {
    '0' <= c <= '9'
  }

  predicate IsDigitIn(c: char, hex: bool) {
    IsDecimalDigit(c) || (hex && ('a' <= c <= 'f' || 'A' <= c <= 'F'))
  }

  function DigitValue(c: char): nat {
    if IsDecimalDigit(c) then c as int - '0' as int
    else if 'a' <= c <= 'f' then c as int - 'a' as int + 10
    else if 'A' <= c <= 'F' then c as int - 'A' as int + 10
    else 0
  }

  /** Length of the run of digits at the start of `s`. */
  function DigitRun(s: string, hex: bool): (n: nat)
    ensures n <= |s|
    ensures forall i :: 0 <= i < n ==> IsDigitIn(s[i], hex)
    ensures n < |s| ==> !IsDigitIn(s[n], hex)
  {
    if s != [] && IsDigitIn(s[0], hex) then 1 + DigitRun(s[1..], hex) else 0
  }

  /** The number a digit string denotes, most significant digit first. */
  function ValueOf(digits: string, radix: nat): nat {
    if digits == [] then 0
    else ValueOf(digits[..|digits| - 1], radix) * radix + DigitValue(digits[|digits| - 1])
  }

  /** `parseInt(s)` without a radix: skip leading white space, take an optional
      sign, read base 16 after a `0x`/`0X` prefix and base 10 otherwise, and stop
      at the first character that is not a digit. `None` stands for `NaN`,
      the result when no digit is read. */
  function ParseInt(s: string): Option<int> {
    ParseSigned(s[LeadingSpaces(s)..])
  }

  /** `parseInt` after the leading white space: an optional sign, then the
      unsigned part. */
  function ParseSigned(t: string): Option<int> {
    if |t| > 0 && (t[0] == '-' || t[0] == '+') then
      Signed(t[0] == '-', ParseUnsigned(t[1..]))
    else
      ParseUnsigned(t)
  }

  function Signed(negative: bool, v: Option<int>): Option<int> {
    match v
    case None => None
    case Some(n) => Some(if negative then -n else n)
  }

  /** The unsigned part of `parseInt`: base 16 after a `0x`/`0X` prefix,
      base 10 otherwise, up to the first non-digit. */
  function ParseUnsigned(u: string): Option<int> {
    var hex := |u| >= 2 && u[0] == '0' && (u[1] == 'x' || u[1] == 'X');
    var body := if hex then u[2..] else u;
    var n := DigitRun(body, hex);
    if n == 0 then None else Some(ValueOf(body[..n], if hex then 16 else 10))
  }

  /** `parseInt(x) || d`: the parsed number, or `d` when parsing gave `NaN` or 0. */
  function IntOr(parsed: Option<int>, d: int): (r: int)
    ensures parsed.None? ==> r == d
    ensures parsed == Some(0) ==> r == d
    ensures parsed.Some? && parsed.value != 0 ==> r == parsed.value
  {
    if parsed.None? || parsed.value == 0 then d else parsed.value
  }

  /** The unsigned part of `parseInt` reads a non-empty digit string whole. */
  lemma ParseUnsignedDigits(s: string)
    requires |s| > 0 && forall i :: 0 <= i < |s| ==> IsDecimalDigit(s[i])
    ensures ParseUnsigned(s) == Some(ValueOf(s, 10))
  {
    assert !(|s| >= 2 && s[0] == '0' && (s[1] == 'x' || s[1] == 'X')) by {
      if |s| >= 2 { assert IsDecimalDigit(s[1]); }
    }
    assert DigitRun(s, false) == |s|;
    assert s[..|s|] == s;
  }

  /** Without leading white space `parseInt` starts at the sign. */
  lemma ParseIntNoSpace(t: string)
    requires |t| > 0 && !IsSpace(t[0])
    ensures ParseInt(t) == ParseSigned(t)
  {
    assert LeadingSpaces(t) == 0;
    assert t[0..] == t;
  }

  /** A non-empty string of decimal digits parses to the number it denotes. */
  lemma ParseDigits(s: string)
    requires |s| > 0 && forall i :: 0 <= i < |s| ==> IsDecimalDigit(s[i])
    ensures ParseInt(s) == Some(ValueOf(s, 10))
  {
    assert IsDecimalDigit(s[0]);
    ParseIntNoSpace(s);
    ParseUnsignedDigits(s);
  }

  /** A minus sign before a non-empty digit string parses to the negated number. */
  lemma ParseNegativeDigits(s: string)
    requires |s| > 0 && forall i :: 0 <= i < |s| ==> IsDecimalDigit(s[i])
    ensures ParseInt("-" + s) == Some(-(ValueOf(s, 10) as int))
  {
    var t := "-" + s;
    assert t[0] == '-' && t[1..] == s;
    ParseIntNoSpace(t);
    ParseSignedMinus(t);
    ParseUnsignedDigits(s);
  }

  /** After a minus sign `parseInt` negates what the rest reads. */
  lemma ParseSignedMinus(t: string)
    requires |t| > 0 && t[0] == '-'
    ensures ParseSigned(t) == Signed(true, ParseUnsigned(t[1..]))
  {
  }

  /** `n.toString()` for a natural number: its decimal digits, no leading zero. */
  function Decimal(n: nat): (r: string)
    ensures |r| > 0
    ensures forall i :: 0 <= i < |r| ==> IsDecimalDigit(r[i])
  {
    (if n < 10 then "" else Decimal(n / 10)) + [('0' as int + n % 10) as char]
  }

  lemma {:induction false} DecimalValue(n: nat)
    ensures ValueOf(Decimal(n), 10) == n
  {
    var r := Decimal(n);
    assert r[..|r| - 1] == if n < 10 then "" else Decimal(n / 10);
    if n >= 10 {
      DecimalValue(n / 10);
    }
  }

  /** Printing a natural number and parsing it back gives the number. */
  lemma DecimalRoundTrip(n: nat)
    ensures ParseInt(Decimal(n)) == Some(n)
  {
    ParseDigits(Decimal(n));
    DecimalValue(n);
  }

  /** `n.toString()` for an integer: a minus sign before the digits of a
      negative number. */
  function IntToString(n: int): (r: string)
    ensures |r| > 0
    ensures n >= 0 ==> r == Decimal(n)
  {
    if n < 0 then "-" + Decimal(-n) else Decimal(n)
  }

  /** A minus sign before the digits of a natural number parses to its negation. */
  lemma NegativeRoundTrip(m: nat)
    ensures ParseInt("-" + Decimal(m)) == Some(-(m as int))
  {
    var d := Decimal(m);
    ParseNegativeDigits(d);
    DecimalValue(m);
  }

  /** Printing any integer and parsing it back gives the integer. */
  lemma IntToStringRoundTrip(n: int)
    ensures ParseInt(IntToString(n)) == Some(n)
  {
    if n < 0 {
      NegativeRoundTrip(-n);
    } else {
      DecimalRoundTrip(n);
    }
  }

  // ---------------------------------------------------------------------------
  // Default sort order

  /** The code points of a string, the keys the model's sort order compares
      (`Array.prototype.sort` compares UTF-16 code units instead). */
  function Codes(s: string): (r: seq<int>)
    ensures |r| == |s|
    ensures forall i :: 0 <= i < |s| ==> r[i] == s[i] as int
  {
    seq(|s|, i requires 0 <= i < |s| => s[i] as int)
  }

  /** `a` sorts strictly before `b` comparing code points, which is
      JavaScript's default string order for text without characters above U+FFFF. */
  predicate StringLess(a: string, b: string) {
    Ordering.LexLess(Codes(a), Codes(b))
  }

  /** Different strings are ordered one way or the other, never both. */
  lemma StringLessTotal(a: string, b: string)
    ensures a == b || StringLess(a, b) || StringLess(b, a)
    ensures !(StringLess(a, b) && StringLess(b, a))
  {
    Ordering.LexLessTotal(Codes(a), Codes(b));
    Ordering.LexLessAsymmetric(Codes(a), Codes(b));
    if Codes(a) == Codes(b) {
      assert forall i :: 0 <= i < |a| ==> a[i] as int == b[i] as int;
      assert a == b;
    }
  }

  lemma StringLessIrreflexive(a: string)
    ensures !StringLess(a, a)
  {
    Ordering.LexLessIrreflexive(Codes(a));
  }
}
