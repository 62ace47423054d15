/** Bytes as the core's typed arrays hold them, and the JavaScript operators on them. */
module Bytes {

  type byte = b: int | 0 <= b < 0x100
  type uint16 = n: int | 0 <= n < 0x1_0000

  /** A store into a Uint8Array keeps the integer modulo 256. */
  function Uint8(x: int): (b: byte)
    ensures (x - b) % 0x100 == 0
  {
    x % 0x100
  }

  /** `s[i]` of a typed array used under a bitwise operator: a missing element reads as 0. */
  function ByteAt(s: seq<byte>, i: int): byte
  {
    if 0 <= i < |s| then s[i] else 0
  }

  function Zeros(n: nat): (z: seq<byte>)
    ensures |z| == n
    ensures forall i :: 0 <= i < n ==> z[i] == 0
  {
    seq(n, _ => 0)
  }

  /** The field written as `x & 0xff` then `(x >> 8) & 0xff`. */
  function LE16(x: int): (r: seq<byte>)
    ensures |r| == 2
  {
    [x % 0x100, (x / 0x100) % 0x100]
  }

  /** The field read as `s[i] | (s[i + 1] << 8)`. */
  function ReadLE16(s: seq<byte>, i: int): uint16
  {
    ByteAt(s, i) + 0x100 * ByteAt(s, i + 1)
  }

  /** A value that fits in a byte is stored unchanged. */
  lemma Uint8Small(x: int)
    requires 0 <= x < 0x100
    ensures Uint8(x) == x
  {
  }

  lemma LE16RoundTrip(x: int, s: seq<byte>, i: nat)
    requires i + 2 <= |s| && s[i..i + 2] == LE16(x)
    ensures ReadLE16(s, i) == x % 0x1_0000
  {
    assert s[i] == s[i..i + 2][0] && s[i + 1] == s[i..i + 2][1];
    LE16Digits(x);
  }

  /** The low byte plus 256 times the next byte is the value modulo 2^16. */
  lemma LE16Digits(x: int)
    ensures x % 0x100 + 0x100 * ((x / 0x100) % 0x100) == x % 0x1_0000
  {
    var q, r := x / 0x100, x % 0x100;
    var h, m := q / 0x100, q % 0x100;
    assert x == 0x1_0000 * h + (0x100 * m + r);
    assert 0 <= 0x100 * m + r < 0x1_0000;
  }

  /** `s.slice(from, to)`: both ends are clamped to the length. */
  function Slice<T>(s: seq<T>, from: nat, to: nat): (r: seq<T>)
    ensures |s| <= from ==> r == []
    ensures from <= to <= |s| ==> r == s[from..to]
    ensures to >= |s| && from <= |s| ==> r == s[from..]
  {
    var a := if from < |s| then from else |s|;
    var b := if to < |s| then to else |s|;
    if a <= b then s[a..b] else []
  }

  /** The JavaScript remainder `a % b`: it takes the sign of `a`. */
  function JsRem(a: int, b: int): (r: int)
    requires b > 0
    ensures a >= 0 ==> r == a % b
    ensures -b < r < b
  {
    if a >= 0 then a % b else -((-a) % b)
  }

  function Pow2(k: nat): nat
  {
    if k == 0 then 1 else 2 * Pow2(k - 1)
  }

  /** Reducing modulo 2^16 before an addition does not change the result modulo 2^16. */
  lemma Mod16AddLeft(a: int, b: int)
    ensures (a % 0x1_0000 + b) % 0x1_0000 == (a + b) % 0x1_0000
  {
  }

  /** The sum of the byte values. */
  function Sum(s: seq<byte>): nat
  {
    if s == [] then 0 else Sum(s[..|s| - 1]) + s[|s| - 1]
  }

  lemma {:induction false} SumAppend(a: seq<byte>, b: seq<byte>)
    ensures Sum(a + b) == Sum(a) + Sum(b)
    decreases |b|
  {
    if b == [] {
      assert a + b == a;
    } else {
      assert (a + b)[..|a + b| - 1] == a + b[..|b| - 1];
      SumAppend(a, b[..|b| - 1]);
    }
  }

  lemma {:induction false} SumZeros(n: nat)
    ensures Sum(Zeros(n)) == 0
  {
    if n > 0 {
      assert Zeros(n)[..n - 1] == Zeros(n - 1);
      SumZeros(n - 1);
    }
  }

  lemma {:induction false} SumBound(s: seq<byte>)
    ensures Sum(s) <= 0xff * |s|
  {
    if s != [] {
      SumBound(s[..|s| - 1]);
    }
  }
}
