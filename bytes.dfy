/**
 * Bytes as Uint8Array holds them, text encoded by TextEncoder, and the
 * lowercase hexadecimal rendering b.toString(16).padStart(2, '0') joined
 * byte after byte.
 */
module Bytes {
  import opened Wrappers
  import opened JsText

  newtype byte = x: int | 0 <= x < 256

  /** new TextEncoder().encode and new TextDecoder().decode: UTF-8, an oracle that reads back what it writes. */
  datatype TextCodec = TextCodec(encode: string -> seq<byte>, decode: seq<byte> -> string)
  {
    ghost predicate Sound() {
      forall s :: decode(encode(s)) == s
    }
  }

  /** Different texts encode to different bytes. */
  lemma EncodeInjective(text: TextCodec, s: string, t: string)
    requires text.Sound() && s != t
    ensures text.encode(s) != text.encode(t)
  {
    assert text.decode(text.encode(s)) == s;
    assert text.decode(text.encode(t)) == t;
  }

  predicate IsLowerHex(c: char) {
    '0' <= c <= '9' || 'a' <= c <= 'f'
  }

  predicate AllLowerHex(s: string) {
    forall i :: 0 <= i < |s| ==> IsLowerHex(s[i])
  }

  function HexValue(c: char): (d: nat)
    requires IsLowerHex(c)
    ensures d < 16
  {
    if c <= '9' then c as int - '0' as int else c as int - 'a' as int + 10
  }

  /** The digit Number.prototype.toString(16) writes for d. */
  function HexDigit(d: nat): (c: char)
    requires d < 16
    ensures IsLowerHex(c) && HexValue(c) == d
  {
    if d < 10 then ('0' as int + d) as char else ('a' as int + d - 10) as char
  }

  /** n.toString(16) for a non-negative integer: as many digits as n needs. */
  function Radix16(n: nat): (r: string)
    ensures |r| >= 1 && AllLowerHex(r)
  {
    if n < 16 then [HexDigit(n)] else Radix16(n / 16) + [HexDigit(n % 16)]
  }

  /** b.toString(16).padStart(2, '0') */
  function ByteHex(b: byte): string {
    PadStart(Radix16(b as nat), 2, '0')
  }

  /** Every byte is written as exactly two lowercase digits: its high and its low nibble. */
  lemma ByteHexDigits(b: byte)
    ensures var h := ByteHex(b);
      && |h| == 2 && AllLowerHex(h)
      && HexValue(h[0]) == b as int / 16 && HexValue(h[1]) == b as int % 16
  {
    var n := b as nat;
    if n >= 16 {
      assert Radix16(n) == Radix16(n / 16) + [HexDigit(n % 16)];
      assert Radix16(n / 16) == [HexDigit(n / 16)];
    }
  }

  /** bytes.map(b => ByteHex(b)).join('') */
  function HexEncode(bs: seq<byte>): (r: string)
    ensures |r| == 2 * |bs| && AllLowerHex(r)
  {
    if bs == [] then ""
    else
      ByteHexDigits(bs[0]);
      ByteHex(bs[0]) + HexEncode(bs[1..])
  }

  /** Byte i of the input is characters 2i and 2i+1 of the text. */
  lemma {:induction false} HexEncodeAt(bs: seq<byte>, i: nat)
    requires i < |bs|
    ensures HexEncode(bs)[2 * i..2 * i + 2] == ByteHex(bs[i])
  {
    ByteHexDigits(bs[0]);
    if i > 0 {
      HexEncodeAt(bs[1..], i - 1);
      var rest := HexEncode(bs[1..]);
      assert HexEncode(bs) == ByteHex(bs[0]) + rest;
      assert HexEncode(bs)[2 * i..2 * i + 2] == rest[2 * (i - 1)..2 * (i - 1) + 2];
    }
  }

  /** Reference reader of lowercase hexadecimal text, two digits per byte. */
  function HexDecode(s: string): (r: Option<seq<byte>>)
    decreases |s|
  {
    if s == "" then Some([])
    else if |s| < 2 || !IsLowerHex(s[0]) || !IsLowerHex(s[1]) then None
    else
      match HexDecode(s[2..])
      case None => None
      case Some(rest) => Some([(HexValue(s[0]) * 16 + HexValue(s[1])) as byte] + rest)
  }

  /** Reading the hexadecimal text back gives the bytes again. */
  lemma {:induction false} HexRoundTrip(bs: seq<byte>)
    ensures HexDecode(HexEncode(bs)) == Some(bs)
  {
    if bs != [] {
      var h := ByteHex(bs[0]);
      ByteHexDigits(bs[0]);
      HexRoundTrip(bs[1..]);
      var s := HexEncode(bs);
      assert s == h + HexEncode(bs[1..]);
      assert s[0] == h[0] && s[1] == h[1];
      assert s[2..] == HexEncode(bs[1..]);
      assert [bs[0]] + bs[1..] == bs;
    }
  }
}
