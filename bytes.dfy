/** Bytes and the two text codecs the encryption module relies on: UTF-8, by
    which a password becomes key-derivation input (`str.encode("utf-8")`), and
    lower-case hexadecimal, by which a digest becomes a stored string
    (`bytes.hex()`). Each encoder comes with a decoder and a round-trip lemma,
    so equal encodings mean equal inputs. */
module Bytes {

  import opened Wrappers

  newtype byte = x: int | 0 <= x < 256

  // ---------------------------------------------------------------- UTF-8

  /** The UTF-8 bytes of one Unicode scalar value (RFC 3629, section 3). */
  function EncodeChar(ch: char): (b: seq<byte>)
    ensures 1 <= |b| <= 4
    ensures |b| == 1 <==> (ch as int) < 0x80
  {
    var cp := ch as int;
    if cp < 0x80 then [cp as byte]
    else if cp < 0x800 then
      [(0xC0 + cp / 64) as byte, (0x80 + cp % 64) as byte]
    else if cp < 0x10000 then
      [(0xE0 + cp / 64 / 64) as byte, (0x80 + cp / 64 % 64) as byte, (0x80 + cp % 64) as byte]
    else
      [(0xF0 + cp / 64 / 64 / 64) as byte, (0x80 + cp / 64 / 64 % 64) as byte,
       (0x80 + cp / 64 % 64) as byte, (0x80 + cp % 64) as byte]
  }

  /** `s.encode("utf-8")`. A password of ASCII characters encodes to its own
      code points, one byte each. */
  function Utf8Encode(s: string): (b: seq<byte>)
    ensures |s| <= |b| <= 4 * |s|
    ensures (forall i :: 0 <= i < |s| ==> (s[i] as int) < 0x80) ==>
              |b| == |s| && forall i :: 0 <= i < |s| ==> b[i] as int == s[i] as int
    decreases |s|
  {
    if s == [] then [] else EncodeChar(s[0]) + Utf8Encode(s[1..])
  }

  predicate IsContinuation(b: byte) {
    0x80 <= b < 0xC0
  }

  /** Decodes the scalar value at the head of `b` and says how many bytes it
      took; rejects malformed, overlong and surrogate encodings. */
  function DecodeChar(b: seq<byte>): (r: Option<(char, nat)>)
    ensures r.Some? ==> 1 <= r.value.1 <= |b|
  {
    if b == [] then None
    else
      var b0 := b[0] as int;
      if b0 < 0x80 then Some((b0 as char, 1))
      else if 0xC2 <= b0 < 0xE0 then
        if |b| >= 2 && IsContinuation(b[1]) then
          Some((((b0 - 0xC0) * 64 + (b[1] as int - 0x80)) as char, 2))
        else None
      else if 0xE0 <= b0 < 0xF0 then
        if |b| >= 3 && IsContinuation(b[1]) && IsContinuation(b[2]) then
          var cp := ((b0 - 0xE0) * 64 + (b[1] as int - 0x80)) * 64 + (b[2] as int - 0x80);
          if 0x800 <= cp && !(0xD800 <= cp < 0xE000) then Some((cp as char, 3)) else None
        else None
      else if 0xF0 <= b0 < 0xF5 then
        if |b| >= 4 && IsContinuation(b[1]) && IsContinuation(b[2]) && IsContinuation(b[3]) then
          var cp := (((b0 - 0xF0) * 64 + (b[1] as int - 0x80)) * 64
                    + (b[2] as int - 0x80)) * 64 + (b[3] as int - 0x80);
          if 0x10000 <= cp < 0x110000 then Some((cp as char, 4)) else None
        else None
      else None
  }

  /** `b.decode("utf-8")`, or None where Python raises UnicodeDecodeError. */
  function Utf8Decode(b: seq<byte>): Option<string>
    decreases |b|
  {
    if b == [] then Some([])
    else match DecodeChar(b)
      case None => None
      case Some((ch, n)) =>
        match Utf8Decode(b[n..])
        case None => None
        case Some(rest) => Some([ch] + rest)
  }

  lemma DecodeEncodeTwo(ch: char, rest: seq<byte>)
    requires 0x80 <= ch as int < 0x800
    ensures DecodeChar(EncodeChar(ch) + rest) == Some((ch, 2))
  {
    var cp := ch as int;
    assert (cp / 64) * 64 + cp % 64 == cp;
  }

  lemma DecodeEncodeThree(ch: char, rest: seq<byte>)
    requires 0x800 <= ch as int < 0x10000
    ensures DecodeChar(EncodeChar(ch) + rest) == Some((ch, 3))
  {
    var cp := ch as int;
    var b := EncodeChar(ch) + rest;
    var q := cp / 64;
    assert cp == q * 64 + cp % 64;
    assert q == (q / 64) * 64 + q % 64;
  }

  lemma DecodeEncodeFour(ch: char, rest: seq<byte>)
    requires 0x10000 <= ch as int
    ensures DecodeChar(EncodeChar(ch) + rest) == Some((ch, 4))
  {
    var cp := ch as int;
    var b := EncodeChar(ch) + rest;
    var q := cp / 64;
    var q' := q / 64;
    assert cp == q * 64 + cp % 64;
    assert q == q' * 64 + q % 64;
    assert q' == (q' / 64) * 64 + q' % 64;
  }

  lemma DecodeEncodeChar(ch: char, rest: seq<byte>)
    ensures DecodeChar(EncodeChar(ch) + rest) == Some((ch, |EncodeChar(ch)|))
  {
    var cp := ch as int;
    if cp < 0x80 {
    } else if cp < 0x800 {
      DecodeEncodeTwo(ch, rest);
    } else if cp < 0x10000 {
      DecodeEncodeThree(ch, rest);
    } else {
      DecodeEncodeFour(ch, rest);
    }
  }

  /** Decoding the encoding of a string gives the string back. */
  lemma {:induction false} Utf8RoundTrip(s: string)
    ensures Utf8Decode(Utf8Encode(s)) == Some(s)
    decreases |s|
  {
    if s != [] {
      var head := EncodeChar(s[0]);
      var b := Utf8Encode(s);
      assert b == head + Utf8Encode(s[1..]);
      DecodeEncodeChar(s[0], Utf8Encode(s[1..]));
      assert b[|head|..] == Utf8Encode(s[1..]);
      Utf8RoundTrip(s[1..]);
      assert s == [s[0]] + s[1..];
    }
  }

  /** Different passwords never reach key derivation as the same bytes. */
  lemma Utf8Injective(s: string, t: string)
    ensures Utf8Encode(s) == Utf8Encode(t) <==> s == t
  {
    if Utf8Encode(s) == Utf8Encode(t) {
      Utf8RoundTrip(s);
      Utf8RoundTrip(t);
    }
  }

  // ------------------------------------------------------------ hexadecimal

  predicate IsHexDigit(ch: char) {
    '0' <= ch <= '9' || 'a' <= ch <= 'f'
  }

  /** The lower-case digit for a nibble. */
  function HexChar(n: nat): (ch: char)
    requires n < 16
    ensures IsHexDigit(ch)
  {
    if n < 10 then ('0' as int + n) as char else ('a' as int + n - 10) as char
  }

  function HexByte(b: byte): string {
    [HexChar(b as int / 16), HexChar(b as int % 16)]
  }

  /** `bytes.hex()`: two lower-case hexadecimal digits per byte, high nibble first. */
  function Hex(bs: seq<byte>): (h: string)
    ensures |h| == 2 * |bs|
    ensures forall i :: 0 <= i < |h| ==> IsHexDigit(h[i])
    decreases |bs|
  {
    if bs == [] then [] else HexByte(bs[0]) + Hex(bs[1..])
  }

  /** The value of a lower-case hexadecimal digit. */
  function DigitValue(ch: char): (r: Option<nat>)
    ensures r.Some? <==> IsHexDigit(ch)
    ensures r.Some? ==> r.value < 16 && HexChar(r.value) == ch
  {
    if '0' <= ch <= '9' then Some(ch as int - '0' as int)
    else if 'a' <= ch <= 'f' then Some(ch as int - 'a' as int + 10)
    else None
  }

  /** `bytes.fromhex` restricted to lower-case digits without separators. */
  function UnHex(h: string): Option<seq<byte>>
    decreases |h|
  {
    if |h| < 2 then (if h == [] then Some([]) else None)
    else
      var hi := DigitValue(h[0]);
      var lo := DigitValue(h[1]);
      var rest := UnHex(h[2..]);
      if hi.Some? && lo.Some? && rest.Some? then Some([(hi.value * 16 + lo.value) as byte] + rest.value)
      else None
  }

  /** Reading back the hexadecimal form of a digest gives the digest. */
  lemma {:induction false} HexRoundTrip(bs: seq<byte>)
    ensures UnHex(Hex(bs)) == Some(bs)
    decreases |bs|
  {
    if bs != [] {
      var h := Hex(bs);
      var x := bs[0] as int;
      assert h == HexByte(bs[0]) + Hex(bs[1..]);
      assert DigitValue(h[0]) == Some(x / 16);
      assert DigitValue(h[1]) == Some(x % 16);
      assert h[2..] == Hex(bs[1..]);
      HexRoundTrip(bs[1..]);
      assert ((x / 16) * 16 + x % 16) as byte == bs[0];
      assert bs == [bs[0]] + bs[1..];
    }
  }

  /** Comparing hexadecimal strings is comparing the bytes they spell. */
  lemma HexInjective(a: seq<byte>, b: seq<byte>)
    ensures Hex(a) == Hex(b) <==> a == b
  {
    if Hex(a) == Hex(b) {
      HexRoundTrip(a);
      HexRoundTrip(b);
    }
  }
}
