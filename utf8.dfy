/** UTF-8, as Python's `str.encode('utf-8')` produces it from a string of
    Unicode scalar values, and the decoder that reads it back. */
module Utf8 {
  import opened Json

  newtype byte = x: int | 0 <= x < 256

  predicate IsAscii(c: char) {
    c as int < 0x80
  }

  predicate IsContinuation(b: byte) {
    0x80 <= b < 0xC0
  }

  /** The one to four bytes of one scalar value. */
  function EncodeChar(c: char): (r: seq<byte>)
    ensures 1 <= |r| <= 4
    ensures |r| == 1 <==> IsAscii(c)
    ensures IsAscii(c) ==> r[0] as int == c as int
    ensures forall i :: 1 <= i < |r| ==> IsContinuation(r[i])
  {
    var n := c as int;
    if n < 0x80 then [n as byte]
    else if n < 0x800 then
      [(0xC0 + n / 0x40) as byte, (0x80 + n % 0x40) as byte]
    else if n < 0x1_0000 then
      [(0xE0 + n / 0x1000) as byte, (0x80 + (n / 0x40) % 0x40) as byte,
       (0x80 + n % 0x40) as byte]
    else
      [(0xF0 + n / 0x4_0000) as byte, (0x80 + (n / 0x1000) % 0x40) as byte,
       (0x80 + (n / 0x40) % 0x40) as byte, (0x80 + n % 0x40) as byte]
  }

  /** `s.encode('utf-8')`: never shorter than the string, and exactly as
      long only when every character is ASCII. */
  function Encode(s: string): (r: seq<byte>)
    ensures |r| >= |s|
    decreases |s|
  {
    if s == [] then [] else EncodeChar(s[0]) + Encode(s[1..])
  }

  lemma {:induction false} EncodeLength(s: string)
    ensures |Encode(s)| == |s| <==> forall i :: 0 <= i < |s| ==> IsAscii(s[i])
    decreases |s|
  {
    if s != [] {
      EncodeLength(s[1..]);
      assert forall i :: 1 <= i < |s| ==> s[1..][i - 1] == s[i];
    }
  }

  lemma {:induction false} EncodeAppend(a: string, b: string)
    ensures Encode(a + b) == Encode(a) + Encode(b)
    decreases |a|
  {
    if a != [] {
      assert (a + b)[0] == a[0];
      assert (a + b)[1..] == a[1..] + b;
      EncodeAppend(a[1..], b);
      assert Encode(a + b) == EncodeChar(a[0]) + Encode(a[1..] + b);
    } else {
      assert a + b == b;
    }
  }

  /** An ASCII string encodes to its own code points, one byte each. */
  lemma {:induction false} EncodeAscii(s: string)
    requires forall i :: 0 <= i < |s| ==> IsAscii(s[i])
    ensures |Encode(s)| == |s|
    ensures forall i :: 0 <= i < |s| ==> Encode(s)[i] as int == s[i] as int
    decreases |s|
  {
    if s != [] {
      EncodeAscii(s[1..]);
    }
  }

  /** The bytes of a string known to be ASCII: one byte per character. */
  function AsciiBytes(s: string): (r: seq<byte>)
    requires forall i :: 0 <= i < |s| ==> IsAscii(s[i])
    ensures |r| == |s|
    ensures forall i :: 0 <= i < |s| ==> r[i] as int == s[i] as int
  {
    seq(|s|, i requires 0 <= i < |s| && IsAscii(s[i]) => s[i] as int as byte)
  }

  lemma AsciiBytesAppend(a: string, b: string)
    requires forall i :: 0 <= i < |a| ==> IsAscii(a[i])
    requires forall i :: 0 <= i < |b| ==> IsAscii(b[i])
    ensures forall i :: 0 <= i < |a + b| ==> IsAscii((a + b)[i])
    ensures AsciiBytes(a + b) == AsciiBytes(a) + AsciiBytes(b)
  {
    assert forall i :: 0 <= i < |a + b| ==> (a + b)[i] == if i < |a| then a[i] else b[i - |a|];
  }

  lemma EncodeIsAsciiBytes(s: string)
    requires forall i :: 0 <= i < |s| ==> IsAscii(s[i])
    ensures Encode(s) == AsciiBytes(s)
  {
    EncodeAscii(s);
  }

  /** The number of bytes a sequence starting with `lead` has; 0 for a byte
      that cannot start one. */
  function SequenceLength(lead: byte): nat {
    if lead < 0x80 then 1
    else if 0xC0 <= lead < 0xE0 then 2
    else if 0xE0 <= lead < 0xF0 then 3
    else if 0xF0 <= lead < 0xF8 then 4
    else 0
  }

  predicate IsScalar(n: int) {
    0 <= n < 0xD800 || 0xE000 <= n < 0x11_0000
  }

  /** The scalar value of the multi-byte sequence that starts `bs`. */
  function CodePoint(bs: seq<byte>, k: nat): int
    requires 1 <= k <= 4 && k <= |bs|
  {
    if k == 1 then bs[0] as int
    else if k == 2 then (bs[0] as int - 0xC0) * 0x40 + (bs[1] as int - 0x80)
    else if k == 3 then
      (bs[0] as int - 0xE0) * 0x1000 + (bs[1] as int - 0x80) * 0x40 + (bs[2] as int - 0x80)
    else
      (bs[0] as int - 0xF0) * 0x4_0000 + (bs[1] as int - 0x80) * 0x1000
      + (bs[2] as int - 0x80) * 0x40 + (bs[3] as int - 0x80)
  }

  /** The smallest scalar value a sequence of `k` bytes may carry: a
      smaller one has a shorter encoding, and the longer (overlong) form is
      not UTF-8. */
  function MinCodePoint(k: nat): int {
    if k <= 1 then 0 else if k == 2 then 0x80 else if k == 3 then 0x800 else 0x1_0000
  }

  /** The character that starts `bs` and the number of bytes it takes;
      None for a malformed, truncated, overlong or surrogate sequence. */
  function DecodeChar(bs: seq<byte>): Option<(char, nat)>
    requires |bs| > 0
  {
    var k := SequenceLength(bs[0]);
    if k == 0 || |bs| < k then None
    else if exists i :: 1 <= i < k && !IsContinuation(bs[i]) then None
    else
      var n := CodePoint(bs, k);
      if IsScalar(n) && MinCodePoint(k) <= n then Some((n as char, k)) else None
  }

  /** `bytes.decode('utf-8')` for the sequences `Encode` produces; None for
      bytes that are not UTF-8. */
  function Decode(bs: seq<byte>): Option<string>
    decreases |bs|
  {
    if bs == [] then Some([])
    else match DecodeChar(bs)
      case None => None
      case Some((c, k)) =>
        if k == 0 then None
        else match Decode(bs[k..])
          case None => None
          case Some(rest) => Some([c] + rest)
  }

  lemma DecodeEncodeChar(c: char, rest: seq<byte>)
    ensures DecodeChar(EncodeChar(c) + rest) == Some((c, |EncodeChar(c)|))
  {
    var n := c as int;
    if n < 0x80 {
      assert (EncodeChar(c) + rest)[0] as int == n;
    } else if n < 0x800 {
      DecodeTwoBytes(c, rest);
    } else if n < 0x1_0000 {
      DecodeThreeBytes(c, rest);
    } else {
      DecodeFourBytes(c, rest);
    }
  }

  lemma DecodeTwoBytes(c: char, rest: seq<byte>)
    requires 0x80 <= c as int < 0x800
    ensures DecodeChar(EncodeChar(c) + rest) == Some((c, 2))
  {
    var n := c as int;
    var bs := EncodeChar(c) + rest;
    assert bs[0] as int == 0xC0 + n / 0x40 && bs[1] as int == 0x80 + n % 0x40;
    assert CodePoint(bs, 2) == n by {
      assert (n / 0x40) * 0x40 + n % 0x40 == n;
    }
  }

  lemma DecodeThreeBytes(c: char, rest: seq<byte>)
    requires 0x800 <= c as int < 0x1_0000
    ensures DecodeChar(EncodeChar(c) + rest) == Some((c, 3))
  {
    var n := c as int;
    var bs := EncodeChar(c) + rest;
    assert bs[0] as int == 0xE0 + n / 0x1000;
    assert bs[1] as int == 0x80 + (n / 0x40) % 0x40 && bs[2] as int == 0x80 + n % 0x40;
    assert CodePoint(bs, 3) == n by {
      var q := n / 0x40;
      assert q / 0x40 == n / 0x1000;
      assert (q / 0x40) * 0x40 + q % 0x40 == q;
      assert q * 0x40 + n % 0x40 == n;
    }
  }

  lemma DecodeFourBytes(c: char, rest: seq<byte>)
    requires 0x1_0000 <= c as int
    ensures DecodeChar(EncodeChar(c) + rest) == Some((c, 4))
  {
    var n := c as int;
    var bs := EncodeChar(c) + rest;
    assert bs[0] as int == 0xF0 + n / 0x4_0000 && bs[1] as int == 0x80 + (n / 0x1000) % 0x40;
    assert bs[2] as int == 0x80 + (n / 0x40) % 0x40 && bs[3] as int == 0x80 + n % 0x40;
    assert CodePoint(bs, 4) == n by {
      var q := n / 0x40;
      var p := q / 0x40;
      assert p == n / 0x1000;
      assert p / 0x40 == n / 0x4_0000;
      assert (p / 0x40) * 0x40 + p % 0x40 == p;
      assert p * 0x40 + q % 0x40 == q;
      assert q * 0x40 + n % 0x40 == n;
    }
  }

  /** Decoding what `Encode` produced gives back the string. */
  lemma {:induction false} DecodeEncode(s: string)
    ensures Decode(Encode(s)) == Some(s)
    decreases |s|
  {
    if s != [] {
      var e := EncodeChar(s[0]);
      DecodeEncodeChar(s[0], Encode(s[1..]));
      assert Encode(s) == e + Encode(s[1..]);
      assert Encode(s)[|e|..] == Encode(s[1..]);
      DecodeEncode(s[1..]);
      assert [s[0]] + s[1..] == s;
    }
  }
}
