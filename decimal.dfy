/**
 * Decimal text of integers as JavaScript writes it (`String(n)`, `"cmd" + n`) and
 * reads it back (`parseInt(s, 10) || 0`).
 */
module Decimal {

  predicate IsDigit(c: char) { '0' <= c <= '9' }

  predicate AllDigits(s: string) { forall i :: 0 <= i < |s| ==> IsDigit(s[i]) }

  function DigitValue(c: char): int
    requires IsDigit(c)
  {
    c as int - '0' as int
  }

  function Digit(d: int): (c: char)
    requires 0 <= d < 10
    ensures IsDigit(c) && DigitValue(c) == d
  {
    ('0' as int + d) as char
  }

  /** `String(n)` for a natural number: no sign, no leading zero. */
  function NatString(n: nat): (s: string)
    ensures 1 <= |s| && AllDigits(s)
    ensures n >= 10 <==> |s| >= 2
    decreases n
  {
    if n < 10 then [Digit(n)] else NatString(n / 10) + [Digit(n % 10)]
  }

  /** `String(n)` for any integer. */
  function IntString(n: int): string
  {
    if n < 0 then "-" + NatString(-n) else NatString(n)
  }

  /** The number a run of decimal digits denotes. */
  function DigitsValue(s: string): nat
    requires AllDigits(s)
  {
    if s == [] then 0 else DigitsValue(s[..|s| - 1]) * 10 + DigitValue(s[|s| - 1])
  }

  lemma {:induction false} NatStringValue(n: nat)
    ensures DigitsValue(NatString(n)) == n
    decreases n
  {
    if n >= 10 {
      var s := NatString(n);
      assert s[..|s| - 1] == NatString(n / 10);
      NatStringValue(n / 10);
    }
  }

  /** Different numbers are written differently. */
  lemma {:induction false} NatStringInjective(a: nat, b: nat)
    requires NatString(a) == NatString(b)
    ensures a == b
    decreases a
  {
    if a >= 10 && b >= 10 {
      var s := NatString(a);
      assert s[..|s| - 1] == NatString(a / 10) && s[..|s| - 1] == NatString(b / 10);
      assert DigitValue(s[|s| - 1]) == a % 10 == b % 10;
      NatStringInjective(a / 10, b / 10);
    }
  }

  /** The white space `parseInt` skips (the ASCII part of it). */
  predicate IsSpace(c: char)
  {
    c == ' ' || c == '\t' || c == '\n' || c == '\r' || c == 11 as char || c == 12 as char
  }

  function SkipSpace(s: string): (t: string)
    ensures |t| <= |s|
  {
    if s != [] && IsSpace(s[0]) then SkipSpace(s[1..]) else s
  }

  /** The length of the leading run of digits. */
  function DigitRun(s: string): (n: nat)
    ensures n <= |s| && AllDigits(s[..n])
    ensures n < |s| ==> !IsDigit(s[n])
  {
    if s != [] && IsDigit(s[0]) then
      var n := 1 + DigitRun(s[1..]);
      assert s[..n] == [s[0]] + s[1..][..n - 1];
      n
    else 0
  }

  /**
   * `parseInt(s, 10) || 0`: skip white space, read an optional sign and the
   * longest run of digits; no digits at all gives NaN, which `|| 0` turns into 0.
   */
  function ParseIntOrZero(s: string): int
  {
    var t := SkipSpace(s);
    var negative := t != [] && t[0] == '-';
    var u := if t != [] && (t[0] == '-' || t[0] == '+') then t[1..] else t;
    var n := DigitRun(u);
    var v: int := if n == 0 then 0 else DigitsValue(u[..n]);
    if negative then -v else v
  }

  lemma {:induction false} DigitRunAll(s: string)
    requires AllDigits(s)
    ensures DigitRun(s) == |s|
  {
    if s != [] {
      DigitRunAll(s[1..]);
    }
  }

  lemma ParsePositive(d: string)
    requires |d| >= 1 && AllDigits(d)
    ensures ParseIntOrZero(d) == DigitsValue(d)
  {
    assert !IsSpace(d[0]) && d[0] != '-' && d[0] != '+';
    assert SkipSpace(d) == d;
    DigitRunAll(d);
    assert d[..|d|] == d;
  }

  lemma ParseNegative(d: string)
    requires |d| >= 1 && AllDigits(d)
    ensures ParseIntOrZero("-" + d) == -(DigitsValue(d) as int)
  {
    var m := "-" + d;
    assert !IsSpace(m[0]);
    assert SkipSpace(m) == m;
    assert m[1..] == d;
    DigitRunAll(d);
    assert d[..|d|] == d;
  }

  /** What `String(n)` wrote, `parseInt` reads back. */
  lemma ParseIntString(n: int)
    ensures ParseIntOrZero(IntString(n)) == n
  {
    var m: nat := if n < 0 then -n else n;
    NatStringValue(m);
    if n < 0 {
      ParseNegative(NatString(m));
    } else {
      ParsePositive(NatString(m));
    }
  }

  /** A name made of a fixed prefix and a decimal index, like `RcCmd3` or `cmd12`. */
  function Tag(prefix: string, k: nat): (s: string)
    ensures |s| > |prefix| && s[..|prefix|] == prefix
  {
    prefix + NatString(k)
  }

  lemma TagInjective(prefix: string, a: nat, b: nat)
    requires Tag(prefix, a) == Tag(prefix, b)
    ensures a == b
  {
    assert Tag(prefix, a)[|prefix|..] == NatString(a);
    assert Tag(prefix, b)[|prefix|..] == NatString(b);
    NatStringInjective(a, b);
  }

  /** A tag is not a name whose character after the prefix is not a digit. */
  lemma TagNotWord(prefix: string, k: nat, word: string)
    requires |word| > |prefix| && !IsDigit(word[|prefix|])
    ensures Tag(prefix, k) != word
  {
    assert IsDigit(Tag(prefix, k)[|prefix|]);
  }

  /** A set that holds the tags `lo .. hi - 1` has at least `hi - lo` elements. */
  lemma {:induction false} TagsFit(prefix: string, lo: nat, hi: nat, names: set<string>)
    requires lo <= hi
    requires forall k :: lo <= k < hi ==> Tag(prefix, k) in names
    ensures hi - lo <= |names|
    decreases hi - lo
  {
    if lo < hi {
      var last := Tag(prefix, hi - 1);
      var rest := names - {last};
      forall k | lo <= k < hi - 1
        ensures Tag(prefix, k) in rest
      {
        if Tag(prefix, k) == last {
          TagInjective(prefix, k, hi - 1);
        }
      }
      TagsFit(prefix, lo, hi - 1, rest);
    }
  }

  /** A sequence has at most as many distinct elements as it is long. */
  lemma {:induction false} DistinctBound<T>(s: seq<T>)
    ensures |set x | x in s| <= |s|
  {
    if s != [] {
      DistinctBound(s[1..]);
      assert (set x | x in s) == (set x | x in s[1..]) + {s[0]};
    }
  }
}
