/**
 * The browser's btoa and atob: base64 with the standard alphabet and '='
 * padding of section 4 of RFC 4648, over "binary strings" whose characters
 * are all at most U+00FF. atob reads as the forgiving-base64 decoder of the
 * WHATWG Infra standard does: ASCII white space is skipped, the padding may
 * be left off, and the unused low bits of the last character are ignored.
 */
module Base64 {
  import opened Wrappers
  import opened Bytes
  import opened JsText

  predicate IsLatin1(s: string) {
    forall i :: 0 <= i < |s| ==> s[i] as int < 256
  }

  /** The bytes a binary string stands for, one per character. */
  function Latin1Bytes(s: string): (r: seq<byte>)
    requires IsLatin1(s)
    ensures |r| == |s|
    ensures forall i :: 0 <= i < |s| ==> r[i] as int == s[i] as int
  {
    seq(|s|, i requires 0 <= i < |s| => s[i] as int as byte)
  }

  /** The binary string of some bytes, one character per byte. */
  function Latin1Text(bs: seq<byte>): (r: string)
    ensures |r| == |bs| && IsLatin1(r)
    ensures forall i :: 0 <= i < |bs| ==> r[i] as int == bs[i] as int
  {
    seq(|bs|, i requires 0 <= i < |bs| => bs[i] as int as char)
  }

  lemma Latin1RoundTrip(s: string)
    requires IsLatin1(s)
    ensures Latin1Text(Latin1Bytes(s)) == s
  {
    var t := Latin1Text(Latin1Bytes(s));
    assert forall i :: 0 <= i < |s| ==> t[i] == s[i];
  }

  /** The character of section 4 of RFC 4648 for a 6-bit value. */
  function SextetChar(n: nat): (c: char)
    requires n < 64
    ensures var v := SextetValue(c); v.Some? && v.value == n
  {
    if n < 26 then ('A' as int + n) as char
    else if n < 52 then ('a' as int + n - 26) as char
    else if n < 62 then ('0' as int + n - 52) as char
    else if n == 62 then '+'
    else '/'
  }

  /** The 6-bit value of an alphabet character; None for '=' and everything else. */
  function SextetValue(c: char): (r: Option<nat>)
    ensures r.Some? ==> r.value < 64
  {
    if 'A' <= c <= 'Z' then Some(c as int - 'A' as int)
    else if 'a' <= c <= 'z' then Some(c as int - 'a' as int + 26)
    else if '0' <= c <= '9' then Some(c as int - '0' as int + 52)
    else if c == '+' then Some(62)
    else if c == '/' then Some(63)
    else None
  }

  predicate IsAlphabet(c: char) {
    SextetValue(c).Some?
  }

  predicate AllAlphabet(s: string) {
    forall i :: 0 <= i < |s| ==> IsAlphabet(s[i])
  }

  /** The two characters of a last group of one byte. */
  function Group1(b0: byte): (r: string)
    ensures |r| == 2 && AllAlphabet(r)
  {
    [SextetChar(b0 as nat / 4), SextetChar(b0 as nat % 4 * 16)]
  }

  /** The three characters of a last group of two bytes. */
  function Group2(b0: byte, b1: byte): (r: string)
    ensures |r| == 3 && AllAlphabet(r)
  {
    [SextetChar(b0 as nat / 4), SextetChar(b0 as nat % 4 * 16 + b1 as nat / 16), SextetChar(b1 as nat % 16 * 4)]
  }

  /** The four characters of a full group of three bytes. */
  function Group3(b0: byte, b1: byte, b2: byte): (r: string)
    ensures |r| == 4 && AllAlphabet(r)
  {
    [SextetChar(b0 as nat / 4), SextetChar(b0 as nat % 4 * 16 + b1 as nat / 16),
     SextetChar(b1 as nat % 16 * 4 + b2 as nat / 64), SextetChar(b2 as nat % 64)]
  }

  /** The base64 characters of some bytes, before padding: four per three bytes. */
  function EncodeGroups(bs: seq<byte>): (r: string)
    ensures AllAlphabet(r)
    decreases |bs|
  {
    if |bs| == 0 then ""
    else if |bs| == 1 then Group1(bs[0])
    else if |bs| == 2 then Group2(bs[0], bs[1])
    else
      var g, rest := Group3(bs[0], bs[1], bs[2]), EncodeGroups(bs[3..]);
      assert AllAlphabet(g + rest) by {
        forall i | 0 <= i < |g + rest| ensures IsAlphabet((g + rest)[i]) {
          if i < 4 { assert (g + rest)[i] == g[i]; } else { assert (g + rest)[i] == rest[i - 4]; }
        }
      }
      g + rest
  }

  /** How many characters EncodeGroups writes for n bytes. */
  function EncodedLength(n: nat): nat {
    if n == 0 then 0 else if n == 1 then 2 else if n == 2 then 3 else 4 + EncodedLength(n - 3)
  }

  /** How many '=' complete the last group for n bytes. */
  function PadLength(n: nat): nat {
    if n == 0 then 0 else if n == 1 then 2 else if n == 2 then 1 else PadLength(n - 3)
  }

  lemma {:induction false} EncodeGroupsLength(bs: seq<byte>)
    ensures |EncodeGroups(bs)| == EncodedLength(|bs|)
    decreases |bs|
  {
    if |bs| >= 3 {
      EncodeGroupsLength(bs[3..]);
    }
  }

  /** Padding completes a group of four, and no group is a lone character. */
  lemma {:induction false} EncodedLengthMod(n: nat)
    ensures (EncodedLength(n) + PadLength(n)) % 4 == 0
    ensures EncodedLength(n) % 4 != 1
    ensures PadLength(n) <= 2
    ensures PadLength(n) == 0 <==> EncodedLength(n) % 4 == 0
  {
    if n >= 3 {
      EncodedLengthMod(n - 3);
    }
  }

  /** The '=' characters that fill the last group up to four characters. */
  function Padding(n: nat): (r: string)
    ensures |r| == PadLength(n)
    ensures forall i :: 0 <= i < |r| ==> r[i] == '='
  {
    Repeat('=', PadLength(n))
  }

  function Encode(bs: seq<byte>): string {
    EncodeGroups(bs) + Padding(|bs|)
  }

  /** btoa(s): None where it throws InvalidCharacterError, on a character above U+00FF. */
  function Btoa(s: string): (r: Option<string>)
    ensures r.Some? <==> IsLatin1(s)
  {
    if IsLatin1(s) then Some(Encode(Latin1Bytes(s))) else None
  }

  /** btoa's output is in the standard alphabet, then at most two '=', in groups of four. */
  lemma BtoaShape(s: string)
    requires IsLatin1(s)
    ensures var e := Btoa(s).value; var k := |EncodeGroups(Latin1Bytes(s))|;
      && |e| % 4 == 0
      && k <= |e| <= k + 2
      && AllAlphabet(e[..k])
      && forall i :: k <= i < |e| ==> e[i] == '='
  {
    var g := EncodeGroups(Latin1Bytes(s));
    var e := Btoa(s).value;
    EncodeGroupsLength(Latin1Bytes(s));
    EncodedLengthMod(|s|);
    assert e == g + Padding(|s|);
    assert e[..|g|] == g;
  }

  predicate IsAsciiWhiteSpace(c: char) {
    c == '\t' || c == '\n' || c as int == 12 || c == '\r' || c == ' '
  }

  function RemoveAsciiWhiteSpace(s: string): (r: string)
    ensures |r| <= |s|
  {
    if s == "" then ""
    else if IsAsciiWhiteSpace(s[0]) then RemoveAsciiWhiteSpace(s[1..])
    else [s[0]] + RemoveAsciiWhiteSpace(s[1..])
  }

  /** Step 2 of forgiving-base64 decode: one or two final '=' go when the length is a multiple of four. */
  function StripPadding(d: string): (r: string)
    ensures |r| <= |d|
  {
    if |d| % 4 == 0 && |d| >= 2 && d[|d| - 2] == '=' && d[|d| - 1] == '=' then d[..|d| - 2]
    else if |d| % 4 == 0 && |d| >= 1 && d[|d| - 1] == '=' then d[..|d| - 1]
    else d
  }

  /** The bytes of unpadded base64 text; None on a character outside the alphabet or a lone last character. */
  function DecodeGroups(t: string): (r: Option<seq<byte>>)
    decreases |t|
  {
    if |t| == 0 then Some([])
    else if |t| == 1 then None
    else
      var v0, v1 := SextetValue(t[0]), SextetValue(t[1]);
      if v0.None? || v1.None? then None
      else
        var x0 := (v0.value * 4 + v1.value / 16) as byte;
        if |t| == 2 then Some([x0])
        else
          var v2 := SextetValue(t[2]);
          if v2.None? then None
          else
            var x1 := (v1.value % 16 * 16 + v2.value / 4) as byte;
            if |t| == 3 then Some([x0, x1])
            else
              var v3 := SextetValue(t[3]);
              if v3.None? then None
              else
                var x2 := (v2.value % 4 * 64 + v3.value) as byte;
                match DecodeGroups(t[4..])
                case None => None
                case Some(rest) => Some([x0, x1, x2] + rest)
  }

  /** atob(s): None where it throws InvalidCharacterError. */
  function Atob(s: string): (r: Option<string>)
  {
    var d := StripPadding(RemoveAsciiWhiteSpace(s));
    if |d| % 4 == 1 then None
    else
      match DecodeGroups(d)
      case None => None
      case Some(bs) => Some(Latin1Text(bs))
  }

  /** Three bytes survive their four characters. */
  lemma GroupArithmetic(b0: nat, b1: nat, b2: nat)
    requires b0 < 256 && b1 < 256 && b2 < 256
    ensures (b0 / 4) * 4 + (b0 % 4 * 16 + b1 / 16) / 16 == b0
    ensures (b0 % 4 * 16 + b1 / 16) % 16 * 16 + (b1 % 16 * 4 + b2 / 64) / 4 == b1
    ensures (b1 % 16 * 4 + b2 / 64) % 4 * 64 + b2 % 64 == b2
    ensures (b0 % 4 * 16 + b1 / 16) % 16 * 16 + (b1 % 16 * 4) / 4 == b1
  {
  }

  lemma DecodeGroup1(b0: byte)
    ensures DecodeGroups(Group1(b0)) == Some([b0])
  {
    GroupArithmetic(b0 as nat, 0, 0);
  }

  lemma DecodeGroup2(b0: byte, b1: byte)
    ensures DecodeGroups(Group2(b0, b1)) == Some([b0, b1])
  {
    GroupArithmetic(b0 as nat, b1 as nat, 0);
  }

  lemma DecodeGroup3(b0: byte, b1: byte, b2: byte, t: string, rest: seq<byte>)
    requires DecodeGroups(t) == Some(rest)
    ensures DecodeGroups(Group3(b0, b1, b2) + t) == Some([b0, b1, b2] + rest)
  {
    GroupArithmetic(b0 as nat, b1 as nat, b2 as nat);
    var u := Group3(b0, b1, b2) + t;
    assert u[4..] == t;
  }

  lemma {:induction false} DecodeEncodeGroups(bs: seq<byte>)
    ensures DecodeGroups(EncodeGroups(bs)) == Some(bs)
    decreases |bs|
  {
    if |bs| == 1 {
      DecodeGroup1(bs[0]);
      assert [bs[0]] == bs;
    } else if |bs| == 2 {
      DecodeGroup2(bs[0], bs[1]);
      assert [bs[0], bs[1]] == bs;
    } else if |bs| >= 3 {
      DecodeEncodeGroups(bs[3..]);
      DecodeGroup3(bs[0], bs[1], bs[2], EncodeGroups(bs[3..]), bs[3..]);
      assert [bs[0], bs[1], bs[2]] + bs[3..] == bs;
    }
  }

  lemma {:induction false} NoWhiteSpaceKept(s: string)
    requires forall i :: 0 <= i < |s| ==> !IsAsciiWhiteSpace(s[i])
    ensures RemoveAsciiWhiteSpace(s) == s
  {
    if s != "" {
      NoWhiteSpaceKept(s[1..]);
    }
  }

  lemma PaddingStripped(g: string, n: nat)
    requires AllAlphabet(g) && |g| == EncodedLength(n)
    ensures StripPadding(g + Padding(n)) == g
  {
    var d := g + Padding(n);
    EncodedLengthMod(n);
    if PadLength(n) == 0 {
      assert d == g;
      if g != "" {
        assert IsAlphabet(g[|g| - 1]);
      }
    } else if PadLength(n) == 2 {
      assert d[..|d| - 2] == g;
    } else {
      assert d[..|d| - 1] == g;
      assert IsAlphabet(d[|d| - 2]);
    }
  }

  /** atob reads back what btoa wrote. */
  lemma AtobBtoa(s: string)
    requires IsLatin1(s)
    ensures var e := Btoa(s); e.Some? && Atob(e.value) == Some(s)
  {
    var bs := Latin1Bytes(s);
    var g := EncodeGroups(bs);
    var e := Encode(bs);
    assert forall i :: 0 <= i < |e| ==> !IsAsciiWhiteSpace(e[i]) by {
      forall i | 0 <= i < |e| ensures !IsAsciiWhiteSpace(e[i]) {
        if i < |g| { assert e[i] == g[i]; } else { assert e[i] == Padding(|bs|)[i - |g|]; }
      }
    }
    NoWhiteSpaceKept(e);
    EncodeGroupsLength(bs);
    EncodedLengthMod(|bs|);
    PaddingStripped(g, |bs|);
    DecodeEncodeGroups(bs);
    Latin1RoundTrip(s);
  }
}
