/** Byte and hex-text helpers shared by the devices, and the compatibility lookup. */
module BroadlinkUtils {
  import opened Results
  import opened Bytes
  import Decimal
  import DeviceInfo

  /** The character a nibble is written as: upper-case `0`-`9`, `A`-`F`. */
  function Nibble(n: int): (c: char)
    requires 0 <= n < 16
    ensures IsHexChar(c) && HexValue(c) == n
  {
    if n < 10 then ('0' as int + n) as char else ('A' as int + n - 10) as char
  }

  predicate IsHexChar(c: char)
  {
    '0' <= c <= '9' || 'a' <= c <= 'f' || 'A' <= c <= 'F'
  }

  /** The value `parseInt(_, 16)` gives one hex digit (either case). */
  function HexValue(c: char): (v: int)
    requires IsHexChar(c)
    ensures 0 <= v < 16
  {
    if '0' <= c <= '9' then c as int - '0' as int
    else if 'a' <= c <= 'f' then c as int - 'a' as int + 10
    else c as int - 'A' as int + 10
  }

  /** `hexDigit(b)`: two upper-case hex digits, high nibble first. */
  function HexDigit(b: byte): (r: string)
    ensures |r| == 2 && IsHexChar(r[0]) && IsHexChar(r[1])
    ensures 'a' > r[0] && 'a' > r[1]
    ensures HexValue(r[0]) * 16 + HexValue(r[1]) == b
  {
    [Nibble(b / 16), Nibble(b % 16)]
  }

  /** `Array.prototype.join(separator)`. */
  function Join(parts: seq<string>, separator: string): string
  {
    if |parts| == 0 then ""
    else if |parts| == 1 then parts[0]
    else parts[0] + separator + Join(parts[1..], separator)
  }

  /** `hexDigit` of each element. */
  function HexDigits(a: seq<byte>): (r: seq<string>)
    ensures |r| == |a| && forall i :: 0 <= i < |a| ==> r[i] == HexDigit(a[i])
  {
    seq(|a|, i requires 0 <= i < |a| => HexDigit(a[i]))
  }

  /** The hex text of a byte array: `hexDigit` of each element, joined by the separator. */
  function HexText(a: seq<byte>, separator: string): string
  {
    Join(HexDigits(a), separator)
  }

  /**
   * `asHex(arr, separator)`: the separator defaults to ",". A null array has no
   * `length`, so the call throws.
   */
  method AsHex(arr: Option<seq<byte>>, separator: Option<string>) returns (r: Outcome<string>)
    ensures arr.None? <==> r == Throw(TypeError)
    ensures arr.Some? ==> r == Ok(HexText(arr.value, separator.GetOr(",")))
  {
    if arr.None? {
      return Throw(TypeError);
    }
    var sep := if separator.None? then "," else separator.value;
    var a := arr.value;
    var s := new string[|a|];
    var i := 0;
    while i < |a|
      invariant 0 <= i <= |a|
      invariant forall k :: 0 <= k < i ==> s[k] == HexDigit(a[k])
    {
      s[i] := HexDigit(a[i]);
      i := i + 1;
    }
    assert s[..] == HexDigits(a);
    return Ok(Join(s[..], sep));
  }

  /** `arrToHex(arr)`: the hex text with no separator; a null array gives "". */
  method ArrToHex(arr: Option<seq<byte>>) returns (r: string)
    ensures arr.None? ==> r == ""
    ensures arr.Some? ==> |r| == 2 * |arr.value| && r == HexText(arr.value, "")
  {
    if arr.None? {
      return "";
    }
    var a := arr.value;
    var s := new string[|a|];
    var i := 0;
    while i < |a|
      invariant 0 <= i <= |a|
      invariant forall k :: 0 <= k < i ==> s[k] == HexDigit(a[k])
    {
      s[i] := HexDigit(a[i]);
      i := i + 1;
    }
    assert s[..] == HexDigits(a);
    r := Join(s[..], "");
    HexTextLength(a, "");
  }

  /**
   * Two characters per byte and one separator between neighbours: with the
   * default "," separator, n bytes give 3n - 1 characters.
   */
  lemma {:induction false} HexTextLength(a: seq<byte>, separator: string)
    ensures |HexText(a, separator)| == 2 * |a| + (if a == [] then 0 else |separator| * (|a| - 1))
  {
    if |a| > 1 {
      assert HexDigits(a)[1..] == HexDigits(a[1..]);
      assert HexText(a, separator) == HexDigit(a[0]) + separator + HexText(a[1..], separator);
      HexTextLength(a[1..], separator);
      assert |separator| * (|a| - 1) == |separator| * (|a| - 2) + |separator|;
    }
  }

  /** The hex text splits as the first byte's two digits and the rest's text. */
  lemma HexTextSplit(a: seq<byte>)
    requires a != []
    ensures HexText(a, "") == HexDigit(a[0]) + HexText(a[1..], "")
  {
    assert HexDigits(a)[1..] == HexDigits(a[1..]);
  }

  /** The hex digits at the start of a string. */
  function HexRun(s: string): (n: nat)
    ensures n <= |s|
    ensures forall i :: 0 <= i < n ==> IsHexChar(s[i])
  {
    if s != [] && IsHexChar(s[0]) then 1 + HexRun(s[1..]) else 0
  }

  function HexDigitsValue(s: string): nat
    requires forall i :: 0 <= i < |s| ==> IsHexChar(s[i])
  {
    if s == [] then 0 else HexDigitsValue(s[..|s| - 1]) * 16 + HexValue(s[|s| - 1])
  }

  /**
   * `parseInt(chunk, 16)` of a chunk of at most two characters, stored in a
   * Uint8Array: white space and a sign may lead, NaN stores as 0 and a
   * negative value wraps modulo 256. (A `0x` prefix leaves no digit in a
   * two-character chunk and reads as 0 either way.)
   */
  function ParseHexChunk(chunk: string): byte
  {
    var t := Decimal.SkipSpace(chunk);
    var negative := t != [] && t[0] == '-';
    var u := if t != [] && (t[0] == '-' || t[0] == '+') then t[1..] else t;
    var n := HexRun(u);
    var v := if n == 0 then 0 else HexDigitsValue(u[..n]);
    Uint8(if negative then -v else v)
  }

  /** The bytes `hexToArr` collects: one per two characters, the last chunk possibly one long. */
  function HexBytes(s: string): (r: seq<byte>)
    ensures |r| == (|s| + 1) / 2
  {
    if s == [] then []
    else if |s| == 1 then [ParseHexChunk(s)]
    else [ParseHexChunk(s[..2])] + HexBytes(s[2..])
  }

  lemma HexBytesStep(s: string)
    requires |s| >= 1
    ensures |s| == 1 ==> HexBytes(s) == [ParseHexChunk(s)]
    ensures |s| >= 2 ==> HexBytes(s) == [ParseHexChunk(s[..2])] + HexBytes(s[2..])
  {
  }

  /** `hexToArr(str)`: null gives null; otherwise the bytes of the two-character chunks. */
  method HexToArr(str: Option<string>) returns (r: Option<seq<byte>>)
    ensures str.None? ==> r.None?
    ensures str.Some? ==> r == Some(HexBytes(str.value))
  {
    if str.None? {
      return None;
    }
    var s := str.value;
    var bytes: seq<byte> := [];
    var c := 0;
    while c < |s|
      invariant 0 <= c <= |s| + 1
      invariant c <= |s| ==> bytes + HexBytes(s[c..]) == HexBytes(s)
      invariant c > |s| ==> bytes == HexBytes(s)
    {
      ghost var rest := s[c..];
      ghost var before := bytes;
      HexBytesStep(rest);
      if c + 2 <= |s| {
        assert rest[..2] == s[c..c + 2] && rest[2..] == s[c + 2..];
        bytes := bytes + [ParseHexChunk(s[c..c + 2])];
        assert bytes + HexBytes(s[c + 2..]) == before + HexBytes(rest);
      } else {
        assert rest == s[c..|s|];
        bytes := bytes + [ParseHexChunk(s[c..|s|])];
        assert bytes == before + HexBytes(rest);
      }
      c := c + 2;
    }
    if c == |s| {
      assert s[c..] == [] && bytes + [] == bytes;
    }
    return Some(bytes);
  }

  lemma ParseHexDigitPair(a: char, b: char)
    requires IsHexChar(a) && IsHexChar(b)
    ensures ParseHexChunk([a, b]) == HexValue(a) * 16 + HexValue(b)
  {
    var s := [a, b];
    assert !Decimal.IsSpace(a) && a != '-' && a != '+';
    assert Decimal.SkipSpace(s) == s;
    assert s[1..] == [b] && [b][1..] == [];
    assert HexRun(s) == 2;
    assert s[..2] == s;
    assert s[..1] == [a];
    assert HexDigitsValue([a]) == HexValue(a) by {
      assert [a][..0] == [];
    }
  }

  /** `hexToArr(arrToHex(a))` gives back `a`. */
  lemma {:induction false} HexRoundTrip(a: seq<byte>)
    ensures HexBytes(HexText(a, "")) == a
  {
    if a != [] {
      var t := HexText(a, "");
      var d := HexDigit(a[0]);
      HexTextSplit(a);
      HexTextLength(a, "");
      assert t[..2] == d && t[2..] == HexText(a[1..], "");
      assert d == [d[0], d[1]];
      ParseHexDigitPair(d[0], d[1]);
      HexBytesStep(t);
      HexRoundTrip(a[1..]);
    }
  }

  /**
   * `concatTypedArrays(a, b)`: a new array holding `a` then `b`.
   */
  method ConcatTypedArrays(a: array<byte>, b: array<byte>) returns (c: array<byte>)
    ensures fresh(c)
    ensures c[..] == a[..] + b[..]
  {
    c := new byte[a.Length + b.Length];
    forall i | 0 <= i < a.Length {
      c[i] := a[i];
    }
    forall i | 0 <= i < b.Length {
      c[a.Length + i] := b[i];
    }
  }

  /**
   * `getDeviceInfo(id, expectedType)`: the table entry, compatible when its
   * family is the expected one or when the `compat` debug setting is on.
   */
  method GetDeviceInfo(devId: int, expectedType: int, compat: bool) returns (info: DeviceInfo.Info)
    ensures info.deviceId == devId && info.name == DeviceInfo.DevType2Info(devId).name
    ensures info.kind == DeviceInfo.DevType2Info(devId).kind
    ensures info.isCompatible <==> DeviceInfo.TypeCode(info.kind) == expectedType || compat
  {
    info := DeviceInfo.DevType2Info(devId);
    if DeviceInfo.TypeCode(info.kind) == expectedType {
      info := info.(isCompatible := true);
    }
    if compat {
      info := info.(isCompatible := true);
    }
  }
}
