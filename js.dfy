/**
 * The few pieces of JavaScript runtime behaviour the application relies on:
 * `null`-or-value, the integer-or-NaN result of `parseInt`, `String.prototype.trim`,
 * `Number.prototype.toString` on integers, `parseInt` and `Array.prototype.filter`.
 * Strings are sequences of Unicode scalar values (JavaScript counts UTF-16 code units).
 */
module Js {

  /** A value that may be `null`/`undefined`. */
  datatype Option<+T> = None | Some(value: T)

  /** What `parseInt` yields: an integer, or NaN when no digit was found. */
  datatype JsInt = Int(value: int) | NaN

  /** `a + b` on such numbers: NaN absorbs. */
  function Add(a: JsInt, b: JsInt): (r: JsInt)
    ensures r.NaN? <==> a.NaN? || b.NaN?
    ensures r.Int? ==> r.value == a.value + b.value
  {
    if a.Int? && b.Int? then Int(a.value + b.value) else NaN
  }

  // ---------------------------------------------------------------------------
  // Whitespace and String.prototype.trim

  /** ECMAScript WhiteSpace and LineTerminator code points (what `trim` and `parseInt` skip). */
  predicate IsWhiteSpace(c: char) {
    var n := c as int;
    n == 0x09 || n == 0x0A || n == 0x0B || n == 0x0C || n == 0x0D || n == 0x20
    || n == 0xA0 || n == 0x1680 || (0x2000 <= n <= 0x200A) || n == 0x2028 || n == 0x2029
    || n == 0x202F || n == 0x205F || n == 0x3000 || n == 0xFEFF
  }

  predicate AllWhiteSpace(s: string) {
    forall i | 0 <= i < |s| :: IsWhiteSpace(s[i])
  }

  /** Where the whitespace run of `s` that starts at index `i` ends. */
  function WhiteSpaceRunFrom(s: string, i: nat): (k: nat)
    requires i <= |s|
    ensures i <= k <= |s|
    ensures forall j | i <= j < k :: IsWhiteSpace(s[j])
    ensures k == |s| || !IsWhiteSpace(s[k])
    decreases |s| - i
  {
    if i < |s| && IsWhiteSpace(s[i]) then WhiteSpaceRunFrom(s, i + 1) else i
  }

  /** Where the whitespace run of `s` that ends just before index `e` begins. */
  function WhiteSpaceRunBefore(s: string, e: nat): (k: nat)
    requires e <= |s|
    ensures k <= e
    ensures forall j | k <= j < e :: IsWhiteSpace(s[j])
    ensures k == 0 || !IsWhiteSpace(s[k - 1])
  {
    if e > 0 && IsWhiteSpace(s[e - 1]) then WhiteSpaceRunBefore(s, e - 1) else e
  }

  /** How many whitespace characters `s` starts with. */
  function LeadingWhiteSpace(s: string): (k: nat)
    ensures k <= |s|
    ensures forall i | 0 <= i < k :: IsWhiteSpace(s[i])
    ensures k == |s| || !IsWhiteSpace(s[k])
  {
    WhiteSpaceRunFrom(s, 0)
  }

  /** Where the whitespace that `s` ends with begins. */
  function TrailingWhiteSpaceStart(s: string): (e: nat)
    ensures e <= |s|
    ensures forall i | e <= i < |s| :: IsWhiteSpace(s[i])
    ensures e == 0 || !IsWhiteSpace(s[e - 1])
  {
    WhiteSpaceRunBefore(s, |s|)
  }

  /** Drops leading whitespace. */
  function TrimStart(s: string): string {
    s[LeadingWhiteSpace(s)..]
  }

  /** `s.trim()`: drops leading and then trailing whitespace. */
  function Trim(s: string): string {
    var t := TrimStart(s);
    t[..TrailingWhiteSpaceStart(t)]
  }

  /** A prefix made of whitespace characters, as a slice. */
  lemma WhiteSpacePrefix(s: string, k: nat)
    requires k <= |s| && forall i | 0 <= i < k :: IsWhiteSpace(s[i])
    ensures AllWhiteSpace(s[..k])
  {
    forall i | 0 <= i < k ensures IsWhiteSpace(s[..k][i]) {
      assert s[..k][i] == s[i];
    }
  }

  /** A suffix made of whitespace characters, as a slice. */
  lemma WhiteSpaceSuffix(s: string, e: nat)
    requires e <= |s| && forall i | e <= i < |s| :: IsWhiteSpace(s[i])
    ensures AllWhiteSpace(s[e..])
  {
    forall i | 0 <= i < |s| - e ensures IsWhiteSpace(s[e..][i]) {
      assert s[e..][i] == s[e + i];
    }
  }

  /** `trim` cuts the slice between the leading whitespace and the trailing whitespace after it. */
  lemma TrimSlice(s: string)
    ensures LeadingWhiteSpace(s) + TrailingWhiteSpaceStart(TrimStart(s)) <= |s|
    ensures Trim(s) == s[LeadingWhiteSpace(s)..LeadingWhiteSpace(s) + TrailingWhiteSpaceStart(TrimStart(s))]
    ensures s[LeadingWhiteSpace(s) + TrailingWhiteSpaceStart(TrimStart(s))..]
            == TrimStart(s)[TrailingWhiteSpaceStart(TrimStart(s))..]
  {
  }

  /** The trimmed text neither starts nor ends with whitespace. */
  lemma TrimEnds(s: string)
    ensures Trim(s) == [] || (!IsWhiteSpace(Trim(s)[0]) && !IsWhiteSpace(Trim(s)[|Trim(s)| - 1]))
  {
    var t := TrimStart(s);
    var e := TrailingWhiteSpaceStart(t);
    if e > 0 {
      assert Trim(s)[0] == t[0] == s[LeadingWhiteSpace(s)];
      assert Trim(s)[e - 1] == t[e - 1];
    }
  }

  /** `trim` keeps a contiguous infix of the input and drops only whitespace around it. */
  lemma TrimIsInfix(s: string)
    ensures LeadingWhiteSpace(s) + |Trim(s)| <= |s|
    ensures Trim(s) == s[LeadingWhiteSpace(s)..LeadingWhiteSpace(s) + |Trim(s)|]
    ensures AllWhiteSpace(s[..LeadingWhiteSpace(s)])
    ensures AllWhiteSpace(s[LeadingWhiteSpace(s) + |Trim(s)|..])
    ensures Trim(s) == [] || (!IsWhiteSpace(Trim(s)[0]) && !IsWhiteSpace(Trim(s)[|Trim(s)| - 1]))
  {
    var k := LeadingWhiteSpace(s);
    var t := TrimStart(s);
    var e := TrailingWhiteSpaceStart(t);
    TrimSlice(s);
    assert |Trim(s)| == e;
    WhiteSpacePrefix(s, k);
    WhiteSpaceSuffix(t, e);
    assert s[k + e..] == t[e..];
    TrimEnds(s);
  }

  /** `s.trim()` is empty exactly when every character of `s` is whitespace. */
  lemma TrimEmptyIffBlank(s: string)
    ensures Trim(s) == "" <==> AllWhiteSpace(s)
  {
    var k := LeadingWhiteSpace(s);
    var t := TrimStart(s);
    var e := TrailingWhiteSpaceStart(t);
    if !AllWhiteSpace(s) {
      var j :| 0 <= j < |s| && !IsWhiteSpace(s[j]);
      assert k <= j;
      assert t[0] == s[k];
    }
    if AllWhiteSpace(s) {
      assert k == |s|;
    }
  }

  // ---------------------------------------------------------------------------
  // Number.prototype.toString on integers

  predicate IsDecimalDigit(c: char) {
    '0' <= c <= '9'
  }

  predicate AllDecimalDigits(s: string) {
    forall i | 0 <= i < |s| :: IsDecimalDigit(s[i])
  }

  function DigitChar(d: nat): (c: char)
    requires d < 10
    ensures IsDecimalDigit(c) && c as int - '0' as int == d
  {
    ('0' as int + d) as char
  }

  /** Decimal text of `n` without leading zeros, as `String(n)` prints a safe integer. */
  function NatToString(n: nat): (r: string)
    ensures |r| >= 1 && AllDecimalDigits(r)
    ensures r[0] == '0' ==> n == 0 && r == "0"
    decreases n
  {
    if n < 10 then [DigitChar(n)] else NatToString(n / 10) + [DigitChar(n % 10)]
  }

  /** `String(n)` for any integer: a minus sign before the magnitude's digits when negative. */
  function IntToString(n: int): (r: string)
    ensures |r| >= 1
    ensures n < 0 ==> r == "-" + NatToString(-n)
    ensures n >= 0 ==> r == NatToString(n)
  {
    if n < 0 then "-" + NatToString(-n) else NatToString(n)
  }

  /** `String(x)` for an integer-or-NaN. */
  function JsIntToString(x: JsInt): (r: string)
    ensures x.Int? ==> r == IntToString(x.value)
    ensures x.NaN? ==> r == "NaN"
  {
    match x
    case Int(n) => IntToString(n)
    case NaN => "NaN"
  }

  // ---------------------------------------------------------------------------
  // parseInt(string) with no radix argument (ECMAScript section 19.2.5)

  /** A digit in radix 10 or, when `radix == 16`, a hexadecimal digit. */
  predicate IsDigitIn(c: char, radix: nat) {
    IsDecimalDigit(c) || (radix == 16 && ('a' <= c <= 'f' || 'A' <= c <= 'F'))
  }

  function DigitValueOf(c: char, radix: nat): nat
    requires IsDigitIn(c, radix)
  {
    if IsDecimalDigit(c) then (c as int - '0' as int) as nat
    else if 'a' <= c <= 'f' then (c as int - 'a' as int + 10) as nat
    else (c as int - 'A' as int + 10) as nat
  }

  /** Length of the longest prefix of `s` made of digits of `radix`. */
  function DigitRun(s: string, radix: nat): (k: nat)
    ensures k <= |s|
    ensures forall i | 0 <= i < k :: IsDigitIn(s[i], radix)
    ensures k == |s| || !IsDigitIn(s[k], radix)
  {
    if s != [] && IsDigitIn(s[0], radix) then 1 + DigitRun(s[1..], radix) else 0
  }

  /** The value of a digit string, most significant digit first. */
  function DigitsValue(s: string, radix: nat): nat
    requires forall i | 0 <= i < |s| :: IsDigitIn(s[i], radix)
  {
    if s == [] then 0 else DigitsValue(s[..|s| - 1], radix) * radix + DigitValueOf(s[|s| - 1], radix)
  }

  /** The number after the sign: radix 16 after a `0x`/`0X` prefix, else radix 10; no digit gives NaN. */
  function ParseMagnitude(u: string): JsInt {
    var hex := |u| >= 2 && u[0] == '0' && (u[1] == 'x' || u[1] == 'X');
    var radix := if hex then 16 else 10;
    var digits := if hex then u[2..] else u;
    var k := DigitRun(digits, radix);
    if k == 0 then NaN else Int(DigitsValue(digits[..k], radix))
  }

  function Negate(x: JsInt): JsInt {
    match x
    case Int(n) => Int(-n)
    case NaN => NaN
  }

  /**
   * `parseInt(s)`: skip leading whitespace, take an optional sign, then read the
   * magnitude as `ParseMagnitude` does.
   */
  function ParseInt(s: string): (r: JsInt)
    ensures AllWhiteSpace(s) ==> r == NaN
  {
    var t := TrimStart(s);
    if t != [] && t[0] == '-' then Negate(ParseMagnitude(t[1..]))
    else if t != [] && t[0] == '+' then ParseMagnitude(t[1..])
    else ParseMagnitude(t)
  }

  /** The text `parseInt` reads its digits from: after the leading white space and at most one sign. */
  function AfterSign(s: string): string {
    var t := TrimStart(s);
    if t != [] && (t[0] == '-' || t[0] == '+') then t[1..] else t
  }

  /**
   * Without a decimal digit right after the leading white space and the sign, `parseInt`
   * gives NaN, as for `.5` (a `0x` prefix starts with the digit `0`).
   */
  lemma ParseIntWithoutLeadingDigit(s: string)
    requires AfterSign(s) == [] || !IsDecimalDigit(AfterSign(s)[0])
    ensures ParseInt(s) == NaN
  {
  }

  lemma {:induction false} DigitsValueOfNatToString(n: nat)
    ensures DigitsValue(NatToString(n), 10) == n
    decreases n
  {
    var s := NatToString(n);
    if n >= 10 {
      DigitsValueOfNatToString(n / 10);
      assert s[..|s| - 1] == NatToString(n / 10);
    }
  }

  lemma {:induction false} DigitRunOfDigits(a: string, b: string)
    requires AllDecimalDigits(a)
    requires b == [] || !IsDecimalDigit(b[0])
    ensures DigitRun(a + b, 10) == |a|
    decreases |a|
  {
    if a != [] {
      assert (a + b)[1..] == a[1..] + b;
      DigitRunOfDigits(a[1..], b);
    }
  }

  lemma ParseMagnitudeOfNatToString(m: nat, rest: string)
    requires rest == [] || (!IsDecimalDigit(rest[0]) && rest[0] != 'x' && rest[0] != 'X')
    ensures ParseMagnitude(NatToString(m) + rest) == Int(m)
  {
    var digits := NatToString(m);
    var u := digits + rest;
    assert !(|u| >= 2 && u[0] == '0' && (u[1] == 'x' || u[1] == 'X')) by {
      if |u| >= 2 && u[0] == '0' {
        assert digits == "0";
        assert u[1] == rest[0];
      }
    }
    DigitRunOfDigits(digits, rest);
    assert u[..|digits|] == digits;
    DigitsValueOfNatToString(m);
  }

  /**
   * `parseInt` reads back what `String` prints for an integer, and stops at the first
   * character after it that is not a digit (so "12.5" and "1e3" give 12 and 1).
   */
  lemma ParseIntOfUnsigned(u: string)
    requires u != [] && IsDecimalDigit(u[0])
    ensures ParseInt(u) == ParseMagnitude(u)
  {
    DigitIsNotWhiteSpace(u[0]);
    assert LeadingWhiteSpace(u) == 0;
    assert TrimStart(u) == u;
  }

  lemma DigitIsNotWhiteSpace(c: char)
    requires IsDecimalDigit(c)
    ensures !IsWhiteSpace(c)
  {
  }

  lemma ParseIntOfNegative(u: string)
    requires u != [] && IsDecimalDigit(u[0])
    ensures ParseInt("-" + u) == Negate(ParseMagnitude(u))
  {
    var s := "-" + u;
    assert s[0] == '-' && !IsWhiteSpace(s[0]);
    assert LeadingWhiteSpace(s) == 0;
    assert TrimStart(s) == s;
    assert s[1..] == u;
  }

  lemma ParseIntOfIntToString(n: int, rest: string)
    requires rest == [] || (!IsDecimalDigit(rest[0]) && rest[0] != 'x' && rest[0] != 'X')
    ensures ParseInt(IntToString(n) + rest) == Int(n)
  {
    if n < 0 {
      ParseIntOfNegativeText(-n, rest, IntToString(n) + rest);
    } else {
      ParseIntOfNatText(n, rest, IntToString(n) + rest);
    }
  }

  lemma ParseIntOfNatText(m: nat, rest: string, x: string)
    requires rest == [] || (!IsDecimalDigit(rest[0]) && rest[0] != 'x' && rest[0] != 'X')
    requires x == NatToString(m) + rest
    ensures ParseInt(x) == Int(m)
  {
    ParseMagnitudeOfNatToString(m, rest);
    assert x[0] == NatToString(m)[0];
    ParseIntOfUnsigned(x);
  }

  lemma ParseIntOfNegativeText(m: nat, rest: string, x: string)
    requires rest == [] || (!IsDecimalDigit(rest[0]) && rest[0] != 'x' && rest[0] != 'X')
    requires x == "-" + (NatToString(m) + rest)
    ensures ParseInt(x) == Int(-(m as int))
  {
    var u := NatToString(m) + rest;
    ParseMagnitudeOfNatToString(m, rest);
    assert u[0] == NatToString(m)[0];
    ParseIntOfNegative(u);
  }

  /** `String` is one-to-one on integers. */
  lemma IntToStringInjective(a: int, b: int)
    requires IntToString(a) == IntToString(b)
    ensures a == b
  {
    var t := IntToString(a);
    assert t + "" == t && IntToString(b) + "" == t;
    ParseIntOfIntToString(a, "");
    ParseIntOfIntToString(b, "");
    assert Int(a) == ParseInt(t) == Int(b);
  }

  // ---------------------------------------------------------------------------
  // Array.prototype.filter

  /** `s.filter(p)`: the elements satisfying `p`, in their original order. */
  function Filter<T(==)>(s: seq<T>, p: T -> bool): (r: seq<T>)
    ensures |r| <= |s|
  {
    if s == [] then [] else (if p(s[0]) then [s[0]] else []) + Filter(s[1..], p)
  }

  /** Every kept element is from `s` and passes `p`; every element of `s` passing `p` is kept. */
  lemma {:induction false} FilterMembers<T>(s: seq<T>, p: T -> bool)
    ensures var r := Filter(s, p);
      && (forall i | 0 <= i < |r| :: r[i] in s && p(r[i]))
      && (forall i | 0 <= i < |s| :: p(s[i]) ==> s[i] in r)
    decreases |s|
  {
    if s != [] {
      FilterMembers(s[1..], p);
      var r, r' := Filter(s, p), Filter(s[1..], p);
      assert r == (if p(s[0]) then [s[0]] else []) + r';
      forall i | 0 <= i < |r| ensures r[i] in s && p(r[i]) {
        if !(p(s[0]) && i == 0) {
          var k := if p(s[0]) then i - 1 else i;
          assert r[i] == r'[k];
          var j :| 0 <= j < |s[1..]| && s[1..][j] == r'[k];
          assert s[j + 1] == r[i];
        }
      }
      forall i | 0 <= i < |s| && p(s[i]) ensures s[i] in r {
        if i > 0 {
          assert s[i] == s[1..][i - 1];
        }
      }
    }
  }

  /** Each value passing `p` is kept as often as it occurs in `s`; the others never are. */
  lemma {:induction false} FilterCounts<T>(s: seq<T>, p: T -> bool)
    ensures forall x :: multiset(Filter(s, p))[x] == if p(x) then multiset(s)[x] else 0
    decreases |s|
  {
    if s != [] {
      FilterCounts(s[1..], p);
      var head := if p(s[0]) then [s[0]] else [];
      assert Filter(s, p) == head + Filter(s[1..], p);
      assert s == [s[0]] + s[1..];
      assert multiset(s) == multiset([s[0]]) + multiset(s[1..]);
      assert multiset(Filter(s, p)) == multiset(head) + multiset(Filter(s[1..], p));
    }
  }

  /** `a` is obtained from `b` by deleting elements (order kept). */
  predicate IsSubsequence<T(==)>(a: seq<T>, b: seq<T>)
    decreases |b|
  {
    if a == [] then true
    else if b == [] then false
    else if a[0] == b[0] then IsSubsequence(a[1..], b[1..])
    else IsSubsequence(a, b[1..])
  }

  lemma {:induction false} SubsequenceOfTail<T>(a: seq<T>, b: seq<T>)
    requires b != [] && IsSubsequence(a, b[1..])
    ensures IsSubsequence(a, b)
    decreases |b|, 0
  {
    if a != [] && a[0] == b[0] {
      SubsequenceOfTail'(a, b[1..]);
    }
  }

  lemma {:induction false} SubsequenceOfTail'<T>(a: seq<T>, b: seq<T>)
    requires a != [] && IsSubsequence(a, b)
    ensures IsSubsequence(a[1..], b)
    decreases |b|, 1
  {
    if b != [] {
      if a[0] == b[0] {
        SubsequenceOfTail(a[1..], b);
      } else {
        SubsequenceOfTail'(a, b[1..]);
        SubsequenceOfTail(a[1..], b);
      }
    }
  }

  /** What `filter` keeps is a subsequence of its input. */
  lemma {:induction false} FilterIsSubsequence<T>(s: seq<T>, p: T -> bool)
    ensures IsSubsequence(Filter(s, p), s)
    decreases |s|
  {
    if s != [] {
      FilterIsSubsequence(s[1..], p);
      if p(s[0]) {
        assert Filter(s, p) == [s[0]] + Filter(s[1..], p);
        assert Filter(s, p)[1..] == Filter(s[1..], p);
      } else {
        assert Filter(s, p) == Filter(s[1..], p);
        SubsequenceOfTail(Filter(s, p), s);
      }
    }
  }

  /** Filtering keeps a list whose every element passes. */
  lemma {:induction false} FilterAllKept<T>(s: seq<T>, p: T -> bool)
    requires forall i | 0 <= i < |s| :: p(s[i])
    ensures Filter(s, p) == s
    decreases |s|
  {
    if s != [] {
      FilterAllKept(s[1..], p);
      assert s == [s[0]] + s[1..];
    }
  }

  /**
   * The step of an induction that relates filtering a mapped list to filtering twice:
   * the head `x` maps to `x'`, which passes `p` exactly when `x` passes both tests, and
   * is `x` itself when it does.
   */
  lemma FilterStep<T>(x: T, x': T, t: seq<T>, m: seq<T>, p: T -> bool, q: T -> bool)
    requires Filter(m, p) == Filter(Filter(t, p), q)
    requires p(x') == (p(x) && q(x)) && (p(x') ==> x' == x)
    ensures Filter([x'] + m, p) == Filter(Filter([x] + t, p), q)
  {
    FilterCons(x, t, p);
    FilterCons(x', m, p);
    if p(x) {
      FilterCons(x, Filter(t, p), q);
    } else {
      assert [] + Filter(t, p) == Filter(t, p);
      assert [] + Filter(m, p) == Filter(m, p);
    }
  }

  /** Filtering twice is filtering once by both conditions. */
  lemma {:induction false} FilterFilter<T>(s: seq<T>, p: T -> bool, q: T -> bool, pq: T -> bool)
    requires forall x :: pq(x) == (p(x) && q(x))
    ensures Filter(Filter(s, p), q) == Filter(s, pq)
    decreases |s|
  {
    if s != [] {
      FilterFilter(s[1..], p, q, pq);
      assert Filter(s, pq) == (if pq(s[0]) then [s[0]] else []) + Filter(s[1..], pq);
      if p(s[0]) {
        assert Filter(s, p) == [s[0]] + Filter(s[1..], p);
        FilterCons(s[0], Filter(s[1..], p), q);
      } else {
        assert Filter(s, p) == Filter(s[1..], p);
      }
    }
  }

  lemma FilterCons<T>(x: T, s: seq<T>, p: T -> bool)
    ensures Filter([x] + s, p) == (if p(x) then [x] else []) + Filter(s, p)
  {
    assert ([x] + s)[1..] == s;
  }
}
