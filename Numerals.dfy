/**
 * Numbers as text and bytes as numbers: Python's `'%X'`, `'%02X'` and `str(int)`
 * renderings, `int(s, 16)`, `bytes.hex().upper()`, `bytes.fromhex(s)`, and the
 * big- and little-endian readings of a byte string that `struct.unpack` performs.
 */
module Numerals {
  import opened PyText

  type Byte = x: int | 0 <= x < 256

  /** The digit character for a value below 16, upper-case as `'%X'` writes it. */
  function DigitChar(d: nat): (c: char)
    requires d < 16
    ensures IsHexDigit(c) && !('a' <= c <= 'f')
  {
    if d < 10 then ('0' as int + d) as char else ('A' as int + d - 10) as char
  }

  /** The value of a hexadecimal digit, either case. */
  function DigitValue(c: char): (d: nat)
    requires IsHexDigit(c)
    ensures d < 16 && (IsDigit(c) <==> d < 10)
  {
    if IsDigit(c) then c as int - '0' as int
    else if 'a' <= c <= 'f' then c as int - 'a' as int + 10
    else c as int - 'A' as int + 10
  }

  /** Python's `str.upper()` on ASCII text. */
  function Upper(s: string): (r: string)
    ensures |r| == |s|
    ensures forall k {:trigger r[k]} | 0 <= k < |s| :: r[k] == UpperChar(s[k])
  {
    if s == [] then []
    else [UpperChar(s[0])] + Upper(s[1..])
  }

  function UpperChar(c: char): char
  {
    if 'a' <= c <= 'z' then (c as int - 32) as char else c
  }

  /** Upper-casing keeps hexadecimal digits hexadecimal and is idempotent. */
  lemma UpperHex(s: string)
    ensures AllHexDigits(s) ==> AllHexDigits(Upper(s))
    ensures Upper(Upper(s)) == Upper(s)
  {
  }

  lemma DigitRoundTrip(d: nat)
    requires d < 16
    ensures DigitValue(DigitChar(d)) == d
  {
  }

  /** The digits of `n` in `base`, most significant first, no leading zeros: `'%X'` for 16, `'%d'` for 10. */
  function NatText(n: nat, base: nat): (s: string)
    requires base == 10 || base == 16
    ensures s != [] && forall k | 0 <= k < |s| :: IsHexDigit(s[k]) && DigitValue(s[k]) < base
    decreases n
  {
    if n < base then [DigitChar(n)]
    else
      var s := NatText(n / base, base) + [DigitChar(n % base)];
      assert s[|s| - 1] == DigitChar(n % base);
      s
  }

  /** Python's `int(s, base)` on a string of digits of that base. */
  function ParseNat(s: string, base: nat): nat
    requires base == 10 || base == 16
    requires forall k | 0 <= k < |s| :: IsHexDigit(s[k])
  {
    if s == [] then 0 else ParseNat(s[..|s| - 1], base) * base + DigitValue(s[|s| - 1])
  }

  /** Reading back the rendering of a number gives the number. */
  lemma {:induction false} ParseNatText(n: nat, base: nat)
    requires base == 10 || base == 16
    ensures ParseNat(NatText(n, base), base) == n
    decreases n
  {
    var s := NatText(n, base);
    if n < base {
      DigitRoundTrip(n);
      assert s[..0] == [];
    } else {
      ParseNatText(n / base, base);
      DigitRoundTrip(n % base);
      assert s[..|s| - 1] == NatText(n / base, base);
    }
  }

  /** Different numbers have different renderings. */
  lemma NatTextInjective(a: nat, b: nat, base: nat)
    requires base == 10 || base == 16
    requires NatText(a, base) == NatText(b, base)
    ensures a == b
  {
    ParseNatText(a, base);
    ParseNatText(b, base);
  }

  /** Python's `str(i)` for an integer. */
  function IntText(i: int): (s: string)
    ensures s != []
  {
    if i < 0 then "-" + NatText(-i, 10) else NatText(i, 10)
  }

  /** Python's `int(s)` on what `str(i)` produces. */
  function ParseInt(s: string): int
    requires s != [] && forall k | 0 <= k < |s| :: s[k] == '-' || IsHexDigit(s[k])
  {
    if s[0] == '-' && forall k | 1 <= k < |s| :: IsHexDigit(s[k]) then -(ParseNat(s[1..], 10) as int)
    else if forall k | 0 <= k < |s| :: IsHexDigit(s[k]) then ParseNat(s, 10)
    else 0
  }

  /** `str(i)` writes only a sign and decimal digits. */
  lemma IntTextChars(i: int)
    ensures forall k | 0 <= k < |IntText(i)| :: IntText(i)[k] == '-' || IsHexDigit(IntText(i)[k])
  {
    if i < 0 {
      var digits := NatText(-i, 10);
      assert forall k | 1 <= k < |IntText(i)| :: IntText(i)[k] == digits[k - 1];
    }
  }

  /** `int(str(i)) == i`, negative numbers included. */
  lemma IntTextRoundTrip(i: int)
    ensures forall k | 0 <= k < |IntText(i)| :: IntText(i)[k] == '-' || IsHexDigit(IntText(i)[k])
    ensures ParseInt(IntText(i)) == i
  {
    IntTextChars(i);
    var s := IntText(i);
    if i < 0 {
      assert s[1..] == NatText(-i, 10);
      ParseNatText(-i, 10);
    } else {
      ParseNatText(i, 10);
    }
  }

  /** Python's `'%02X' % b`: exactly two upper-case digits for a byte. */
  function ByteHex(b: Byte): (s: string)
    ensures |s| == 2
  {
    [DigitChar(b / 16), DigitChar(b % 16)]
  }

  /** Python's `bytes.hex().upper()`: two upper-case digits per byte, in order. */
  function HexOfBytes(bs: seq<Byte>): (s: string)
    ensures |s| == 2 * |bs|
  {
    if bs == [] then [] else ByteHex(bs[0]) + HexOfBytes(bs[1..])
  }

  /** The hex rendering of two byte strings one after the other is the two renderings one after the other. */
  lemma {:induction false} HexOfBytesAppend(a: seq<Byte>, b: seq<Byte>)
    ensures HexOfBytes(a + b) == HexOfBytes(a) + HexOfBytes(b)
  {
    if a != [] {
      HexOfBytesAppend(a[1..], b);
      assert (a + b)[1..] == a[1..] + b;
    } else {
      assert a + b == b;
    }
  }

  /** Python's `bytes.fromhex(s)` on a string of hexadecimal digits of even length. */
  function FromHex(s: string): (bs: seq<Byte>)
    requires |s| % 2 == 0 && AllHexDigits(s)
    ensures 2 * |bs| == |s|
  {
    if s == [] then [] else [DigitValue(s[0]) * 16 + DigitValue(s[1])] + FromHex(s[2..])
  }

  /** Decoding the hex rendering of bytes gives back the bytes. */
  lemma {:induction false} FromHexOfBytes(bs: seq<Byte>)
    ensures AllHexDigits(HexOfBytes(bs))
    ensures FromHex(HexOfBytes(bs)) == bs
  {
    if bs != [] {
      FromHexOfBytes(bs[1..]);
      var s := HexOfBytes(bs);
      assert s[2..] == HexOfBytes(bs[1..]);
      DigitRoundTrip(bs[0] / 16);
      DigitRoundTrip(bs[0] % 16);
      assert [bs[0]] + bs[1..] == bs;
    }
  }

  /** The digit written for the value of a digit is that digit in upper case. */
  lemma DigitOfValue(c: char)
    requires IsHexDigit(c)
    ensures DigitChar(DigitValue(c)) == UpperChar(c)
  {
  }

  /** The byte that two hex digits denote is written back as those digits in upper case. */
  lemma ByteHexOfDigits(c0: char, c1: char)
    requires IsHexDigit(c0) && IsHexDigit(c1)
    ensures ByteHex(DigitValue(c0) * 16 + DigitValue(c1)) == Upper([c0, c1])
  {
    var b := DigitValue(c0) * 16 + DigitValue(c1);
    assert b / 16 == DigitValue(c0) && b % 16 == DigitValue(c1);
    DigitOfValue(c0);
    DigitOfValue(c1);
  }

  /** Re-rendering decoded hex gives the upper-cased original text. */
  lemma {:induction false} HexOfFromHex(s: string)
    requires |s| % 2 == 0 && AllHexDigits(s)
    ensures HexOfBytes(FromHex(s)) == Upper(s)
  {
    if s != [] {
      var rest := s[2..];
      HexOfFromHex(rest);
      FirstByteHex(s);
      UpperAppend(s[..2], rest);
      assert s[..2] + rest == s;
    }
  }

  /** The first two digits of hex text come back, upper-cased, ahead of the rendering of the remaining bytes. */
  lemma FirstByteHex(s: string)
    requires |s| >= 2 && |s| % 2 == 0 && AllHexDigits(s)
    ensures HexOfBytes(FromHex(s)) == Upper(s[..2]) + HexOfBytes(FromHex(s[2..]))
  {
    var bs := FromHex(s);
    var tail := FromHex(s[2..]);
    assert bs == [DigitValue(s[0]) * 16 + DigitValue(s[1])] + tail;
    ByteHexOfDigits(s[0], s[1]);
    var first := ByteHex(bs[0]);
    assert first == Upper([s[0], s[1]]);
    assert [s[0], s[1]] == s[..2];
    assert bs[1..] == tail;
    assert HexOfBytes(bs) == first + HexOfBytes(tail);
  }

  lemma UpperAppend(a: string, b: string)
    ensures Upper(a + b) == Upper(a) + Upper(b)
  {
    var u := Upper(a + b);
    var v := Upper(a) + Upper(b);
    forall k | 0 <= k < |u|
      ensures u[k] == v[k]
    {
      if k < |a| {
        assert u[k] == UpperChar(a[k]) == v[k];
      } else {
        assert u[k] == UpperChar(b[k - |a|]) == v[k];
      }
    }
  }

  /** A byte string read most significant byte first (`struct` order `>`). */
  function BigEndian(bs: seq<Byte>): nat
  {
    if bs == [] then 0 else BigEndian(bs[..|bs| - 1]) * 256 + bs[|bs| - 1]
  }

  /** A byte string read least significant byte first (`struct` order `<`). */
  function LittleEndian(bs: seq<Byte>): nat
  {
    if bs == [] then 0 else bs[0] + 256 * LittleEndian(bs[1..])
  }

  function Pow256(n: nat): (p: nat)
    ensures p >= 1
  {
    if n == 0 then 1 else 256 * Pow256(n - 1)
  }

  function Reverse(bs: seq<Byte>): (r: seq<Byte>)
    ensures |r| == |bs|
  {
    if bs == [] then [] else Reverse(bs[1..]) + [bs[0]]
  }

  /** An unsigned reading of `n` bytes is below 256^n. */
  lemma {:induction false} BigEndianBound(bs: seq<Byte>)
    ensures BigEndian(bs) < Pow256(|bs|)
  {
    if bs != [] {
      BigEndianBound(bs[..|bs| - 1]);
    }
  }

  /** Reading little-endian is reading the reversed bytes big-endian. */
  lemma {:induction false} LittleIsReversedBig(bs: seq<Byte>)
    ensures LittleEndian(bs) == BigEndian(Reverse(bs))
  {
    if bs != [] {
      LittleIsReversedBig(bs[1..]);
      var r := Reverse(bs);
      assert r[..|r| - 1] == Reverse(bs[1..]);
    }
  }

  /** The `n` bytes of a number below 256^n, most significant first. */
  function EncodeBigEndian(x: nat, n: nat): (bs: seq<Byte>)
    ensures |bs| == n
  {
    if n == 0 then [] else EncodeBigEndian(x / 256, n - 1) + [x % 256]
  }

  /** Encoding then reading big-endian gives the number back. */
  lemma {:induction false} BigEndianOfEncode(x: nat, n: nat)
    requires x < Pow256(n)
    ensures BigEndian(EncodeBigEndian(x, n)) == x
  {
    if n > 0 {
      BigEndianOfEncode(x / 256, n - 1);
      var bs := EncodeBigEndian(x, n);
      assert bs[..|bs| - 1] == EncodeBigEndian(x / 256, n - 1);
    }
  }

  /** Reading big-endian then encoding gives the bytes back. */
  lemma {:induction false} EncodeOfBigEndian(bs: seq<Byte>)
    ensures EncodeBigEndian(BigEndian(bs), |bs|) == bs
  {
    if bs != [] {
      var init := bs[..|bs| - 1];
      EncodeOfBigEndian(init);
      var x := BigEndian(bs);
      assert x / 256 == BigEndian(init) && x % 256 == bs[|bs| - 1];
      assert init + [bs[|bs| - 1]] == bs;
    }
  }

  /** Two's-complement reading of an unsigned value of `n` bytes (`struct` letters b, h, i). */
  function ToSigned(u: nat, n: nat): (v: int)
    requires 1 <= n && u < Pow256(n)
    ensures -(Half(n) as int) <= v < Half(n)
    ensures (v >= 0 && v == u) || (v < 0 && v + Pow256(n) == u)
  {
    if u < Half(n) then u else u - Pow256(n)
  }

  /** Half the range of `n` bytes: 2^(8n-1), the bound of a signed reading. */
  function Half(n: nat): (h: nat)
    requires 1 <= n
    ensures 2 * h == Pow256(n)
  {
    128 * Pow256(n - 1)
  }
}
