/**
 * Numerals as the codec reads and writes them: the value of a base-16 or
 * base-10 digit string (what bn.js computes for `new BN(s, 16)` and
 * `new BN(s)` on well-formed digits), the decimal rendering of `toString(10)`,
 * and the little-endian reading of a byte string (`new BN(bytes, 'le')`).
 */
module Numerals {

  /** One octet of a `Uint8Array`. */
  type byte = b: int | 0 <= b < 256

  function Pow(base: nat, e: nat): nat {
    if e == 0 then 1 else base * Pow(base, e - 1)
  }

  lemma {:induction false} PowPositive(base: nat, e: nat)
    requires base >= 1
    ensures Pow(base, e) >= 1
  {
    if e > 0 {
      PowPositive(base, e - 1);
    }
  }

  lemma {:induction false} PowAdd(base: nat, e1: nat, e2: nat)
    ensures Pow(base, e1 + e2) == Pow(base, e1) * Pow(base, e2)
  {
    if e2 > 0 {
      PowAdd(base, e1, e2 - 1);
      assert Pow(base, e1 + e2) == base * Pow(base, e1 + (e2 - 1));
      MulLeft(base, Pow(base, e1), Pow(base, e2 - 1));
    }
  }

  lemma MulAtLeast(a: nat, b: nat)
    requires a >= 1
    ensures a * b >= b
  {
  }

  lemma MulLeft(a: int, b: int, c: int)
    ensures a * (b * c) == b * (a * c)
  {
  }

  lemma {:induction false} PowMonotone(base: nat, e1: nat, e2: nat)
    requires base >= 1 && e1 <= e2
    ensures Pow(base, e1) <= Pow(base, e2)
  {
    if e1 < e2 {
      PowMonotone(base, e1, e2 - 1);
      PowPositive(base, e2 - 1);
      MulAtLeast(base, Pow(base, e2 - 1));
    }
  }

  /** 16 digits of base 16 span 64 bits; 32 bytes span 256 bits. */
  lemma WordSizes()
    ensures Pow(16, 16) == Pow(2, 64)
    ensures Pow(256, 32) == Pow(2, 256)
  {
    PowAdd(2, 4, 4);
    assert Pow(2, 4) == 16;
    PowOfPow(2, 4, 16);
    PowOfPow(2, 8, 32);
  }

  lemma {:induction false} PowOfPow(base: nat, e: nat, f: nat)
    ensures Pow(Pow(base, e), f) == Pow(base, e * f)
  {
    if f > 0 {
      PowOfPow(base, e, f - 1);
      PowAdd(base, e, e * (f - 1));
      assert e + e * (f - 1) == e * f;
    }
  }

  // ---------------------------------------------------------------------------
  // Digits and the two patterns the codec validates against

  predicate IsHexDigit(c: char) {
    '0' <= c <= '9' || 'a' <= c <= 'f' || 'A' <= c <= 'F'
  }

  predicate IsDecDigit(c: char) {
    '0' <= c <= '9'
  }

  /** The regular expression `^[0-9A-Fa-f]+$`. */
  predicate IsHexString(s: string) {
    |s| > 0 && forall i :: 0 <= i < |s| ==> IsHexDigit(s[i])
  }

  /** The regular expression `^\d+$` (without the `u` flag `\d` is ASCII 0-9). */
  predicate IsDecString(s: string) {
    |s| > 0 && forall i :: 0 <= i < |s| ==> IsDecDigit(s[i])
  }

  function HexDigitValue(c: char): (d: nat)
    ensures d < 16
  {
    if '0' <= c <= '9' then c as int - '0' as int
    else if 'a' <= c <= 'f' then c as int - 'a' as int + 10
    else if 'A' <= c <= 'F' then c as int - 'A' as int + 10
    else 0
  }

  function DecDigitValue(c: char): (d: nat)
    ensures d < 10
  {
    if IsDecDigit(c) then c as int - '0' as int else 0
  }

  function DigitChar(d: nat): (c: char)
    requires d < 10
    ensures IsDecDigit(c) && DecDigitValue(c) == d
  {
    ('0' as int + d) as char
  }

  // ---------------------------------------------------------------------------
  // Base 16

  /** The big-endian base-16 value of a digit string (the empty string is 0). */
  function HexValue(s: string): nat {
    if s == [] then 0 else HexValue(s[..|s| - 1]) * 16 + HexDigitValue(s[|s| - 1])
  }

  /** A string of k hex digits denotes a number below 16^k. */
  lemma {:induction false} HexValueBound(s: string)
    ensures HexValue(s) < Pow(16, |s|)
  {
    if s != [] {
      HexValueBound(s[..|s| - 1]);
    }
  }

  // ---------------------------------------------------------------------------
  // Base 10

  /** The big-endian base-10 value of a digit string. */
  function DecValue(s: string): nat {
    if s == [] then 0 else DecValue(s[..|s| - 1]) * 10 + DecDigitValue(s[|s| - 1])
  }

  /**
   * `BN.prototype.toString(10)`: the canonical decimal numeral of n — digits
   * only, no leading zero, and reading it back gives n.
   */
  function DecString(n: nat): (r: string)
    ensures IsDecString(r)
    ensures DecValue(r) == n
    ensures r[0] == '0' ==> n == 0
    decreases n
  {
    if n < 10 then [DigitChar(n)]
    else
      var r := DecString(n / 10) + [DigitChar(n % 10)];
      assert r[..|r| - 1] == DecString(n / 10);
      r
  }

  lemma {:induction false} DecValuePositive(s: string)
    requires IsDecString(s) && s[0] != '0'
    ensures DecValue(s) > 0
  {
    if |s| > 1 {
      DecValuePositive(s[..|s| - 1]);
    }
  }

  /** The other direction: a canonical decimal numeral is the rendering of its own value. */
  lemma {:induction false} DecStringOfDecValue(s: string)
    requires IsDecString(s) && (s[0] == '0' ==> |s| == 1)
    ensures DecString(DecValue(s)) == s
  {
    var p, c := s[..|s| - 1], s[|s| - 1];
    var d := DecDigitValue(c);
    assert DigitChar(d) == c;
    if |s| == 1 {
      assert s == [c];
    } else {
      assert p[0] == s[0];
      DecValuePositive(p);
      DecStringOfDecValue(p);
      DecimalDigitSplit(DecValue(p), d);
      assert DecString(DecValue(s)) == DecString(DecValue(p)) + [DigitChar(d)];
      assert s == p + [c];
    }
  }

  lemma DecimalDigitSplit(q: nat, d: nat)
    requires d < 10
    ensures (q * 10 + d) / 10 == q && (q * 10 + d) % 10 == d
    ensures q > 0 ==> q * 10 + d >= 10
  {
  }

  // ---------------------------------------------------------------------------
  // Little-endian bytes

  /** The unsigned value of a byte string whose first byte is least significant. */
  function LeValue(bs: seq<byte>): nat {
    if bs == [] then 0 else bs[0] + 256 * LeValue(bs[1..])
  }

  /** The `width` low-order bytes of v, least significant first. */
  function LeBytes(v: nat, width: nat): (r: seq<byte>)
    ensures |r| == width
  {
    if width == 0 then [] else [v % 256] + LeBytes(v / 256, width - 1)
  }

  lemma ByteDigit(b: nat, rest: nat)
    requires b < 256
    ensures (b + 256 * rest) % 256 == b && (b + 256 * rest) / 256 == rest
  {
  }

  /** k bytes denote a number below 256^k. */
  lemma {:induction false} LeValueBound(bs: seq<byte>)
    ensures LeValue(bs) < Pow(256, |bs|)
  {
    if bs != [] {
      LeValueBound(bs[1..]);
    }
  }

  /** Reading bytes and writing the value back at the same width gives the bytes. */
  lemma {:induction false} LeBytesOfLeValue(bs: seq<byte>)
    ensures LeBytes(LeValue(bs), |bs|) == bs
  {
    if bs != [] {
      LeBytesOfLeValue(bs[1..]);
      ByteDigit(bs[0], LeValue(bs[1..]));
    }
  }

  /** Writing a value that fits and reading it back gives the value. */
  lemma {:induction false} LeValueOfLeBytes(v: nat, width: nat)
    requires v < Pow(256, width)
    ensures LeValue(LeBytes(v, width)) == v
  {
    if width > 0 {
      assert v / 256 < Pow(256, width - 1);
      LeValueOfLeBytes(v / 256, width - 1);
      var r := LeBytes(v, width);
      assert r[1..] == LeBytes(v / 256, width - 1);
    }
  }
}
