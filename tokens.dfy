/**
 * The token list of the web app and the exact conversion between base-unit
 * amounts (big integers) and the decimal strings shown to and typed by the user.
 */
module Tokens {
  import opened Wrappers
  import opened Decimal
  import opened JsText

  datatype Token = Token(address: string, symbol: string, name: string, decimals: nat, isNative: bool)

  /** The Polygon mainnet tokens, in the order the app lists them. */
  const POLYGON_TOKENS: seq<Token> := [
    Token("0x0000000000000000000000000000000000000000", "POL", "Polygon", 18, true),
    Token("0x3c499c542cEF5E3811e1192ce70d8cC03d5c3359", "USDC", "USD Coin", 6, false),
    Token("0xc2132D05D31c914a87C6611C10748AEb04B58e8F", "USDT", "Tether USD", 6, false),
    Token("0x7ceB23fD6bC0adD59E62ac25578270cFf1b9f619", "WETH", "Wrapped Ether", 18, false),
    Token("0x8f3Cf7ad23Cd3CaDbD9735AFf958023239c6A063", "DAI", "Dai Stablecoin", 18, false),
    Token("0x0d500B1d8E8eF31E21C99d1Db9A6444d3ADf1270", "WPOL", "Wrapped POL", 18, false)
  ]

  const WPOL_ADDRESS: string := "0x0d500B1d8E8eF31E21C99d1Db9A6444d3ADf1270"

  predicate SameIgnoringCase(a: string, b: string) {
    ToLowerAscii(a) == ToLowerAscii(b)
  }

  /** Array.prototype.find: the first element satisfying p, if any. */
  function FindFirst(ts: seq<Token>, p: Token -> bool): (r: Option<Token>)
    ensures r.None? <==> forall i :: 0 <= i < |ts| ==> !p(ts[i])
    ensures r.Some? ==> exists i :: 0 <= i < |ts| && ts[i] == r.value && p(ts[i]) &&
                                    forall j :: 0 <= j < i ==> !p(ts[j])
  {
    if ts == [] then None
    else if p(ts[0]) then Some(ts[0])
    else
      var r := FindFirst(ts[1..], p);
      assert forall i :: 1 <= i < |ts| ==> ts[i] == ts[1..][i - 1];
      r
  }

  /** Array.prototype.filter: the elements satisfying p, in their order. */
  function Filter(ts: seq<Token>, p: Token -> bool): (r: seq<Token>)
    ensures forall t :: t in r <==> t in ts && p(t)
  {
    if ts == [] then []
    else
      var rest := Filter(ts[1..], p);
      assert forall t :: t in ts <==> t == ts[0] || t in ts[1..];
      if p(ts[0]) then [ts[0]] + rest else rest
  }

  /** A single element is kept exactly when it satisfies p. */
  lemma FilterOne(t: Token, p: Token -> bool)
    ensures Filter([t], p) == if p(t) then [t] else []
  {
    assert [t][1..] == [];
  }

  /** Filter keeps order and multiplicity: it distributes over concatenation. */
  lemma {:induction false} FilterAppend(a: seq<Token>, b: seq<Token>, p: Token -> bool)
    ensures Filter(a + b, p) == Filter(a, p) + Filter(b, p)
    decreases |a|
  {
    if a != [] {
      assert (a + b)[1..] == a[1..] + b;
      FilterAppend(a[1..], b, p);
    } else {
      assert a + b == b;
    }
  }

  /** The first token of ts whose address matches, ignoring case. */
  function FindByAddress(ts: seq<Token>, address: string): (r: Option<Token>)
    ensures r.None? <==> forall i :: 0 <= i < |ts| ==> !SameIgnoringCase(ts[i].address, address)
    ensures r.Some? ==> exists i :: 0 <= i < |ts| && ts[i] == r.value &&
                                    SameIgnoringCase(r.value.address, address) &&
                                    forall j :: 0 <= j < i ==> !SameIgnoringCase(ts[j].address, address)
  {
    FindFirst(ts, (t: Token) => SameIgnoringCase(t.address, address))
  }

  /** The first token of ts whose symbol matches, ignoring case. */
  function FindBySymbol(ts: seq<Token>, symbol: string): (r: Option<Token>)
    ensures r.None? <==> forall i :: 0 <= i < |ts| ==> !SameIgnoringCase(ts[i].symbol, symbol)
    ensures r.Some? ==> exists i :: 0 <= i < |ts| && ts[i] == r.value &&
                                    SameIgnoringCase(r.value.symbol, symbol) &&
                                    forall j :: 0 <= j < i ==> !SameIgnoringCase(ts[j].symbol, symbol)
  {
    FindFirst(ts, (t: Token) => SameIgnoringCase(t.symbol, symbol))
  }

  /** tokens.find((t) => t.address === address): the token a select box option names. */
  function TokenWithAddress(tokens: seq<Token>, address: string): Option<Token> {
    FindFirst(tokens, (t: Token) => t.address == address)
  }

  /** The select finds a listed token with exactly that address, and nothing for an address not listed. */
  lemma TokenWithAddressMeans(tokens: seq<Token>, address: string)
    ensures var r := TokenWithAddress(tokens, address);
      && (r.Some? ==> r.value in tokens && r.value.address == address)
      && (r.None? <==> forall i :: 0 <= i < |tokens| ==> tokens[i].address != address)
  {
  }

  /** getTokenByAddress: a lookup in the Polygon list. */
  function GetTokenByAddress(address: string): Option<Token> {
    FindByAddress(POLYGON_TOKENS, address)
  }

  /** getTokenBySymbol: a lookup in the Polygon list. */
  function GetTokenBySymbol(symbol: string): Option<Token> {
    FindBySymbol(POLYGON_TOKENS, symbol)
  }

  // ---------------------------------------------------------------------------
  // Amount formatting

  /** BigInt `/`: the quotient truncated toward zero. */
  function TDiv(a: int, b: int): int
    requires b > 0
  {
    if a >= 0 then a / b else -((-a) / b)
  }

  /** BigInt `%`: the remainder takes the sign of the dividend. */
  function TMod(a: int, b: int): int
    requires b > 0
  {
    a - b * TDiv(a, b)
  }

  predicate AllZeroChars(s: string) {
    forall i :: 0 <= i < |s| ==> s[i] == '0'
  }

  /** Does the regular expression /\.?0+$/ match the whole of t? */
  predicate TailMatches(t: string) {
    (|t| >= 1 && AllZeroChars(t)) || (|t| >= 2 && t[0] == '.' && AllZeroChars(t[1..]))
  }

  /** The leftmost position at or after p where /\.?0+$/ matches. */
  function FirstMatchFrom(s: string, p: nat): Option<nat>
    requires p <= |s|
    decreases |s| - p
  {
    if p == |s| then None
    else if TailMatches(s[p..]) then Some(p)
    else FirstMatchFrom(s, p + 1)
  }

  /** s.replace(/\.?0+$/, ""): the leftmost match is cut off. */
  function ReplaceTrailingZeros(s: string): string {
    match FirstMatchFrom(s, 0)
    case None => s
    case Some(p) => if p <= |s| then s[..p] else s
  }

  /** formatTokenAmount(amount, decimals), as written, for every big integer. */
  function FormatTokenAmount(amount: int, decimals: nat): string {
    var divisor := Pow10(decimals);
    FormatParts(TDiv(amount, divisor), TMod(amount, divisor), decimals)
  }

  /** The text formatTokenAmount builds from the whole part and the remainder. */
  function FormatParts(whole: int, remainder: int, decimals: nat): string {
    var text := ReplaceTrailingZeros(IntToString(whole) + "." + FractionField(remainder, decimals));
    if text == "" then "0" else text
  }

  /** The remainder left-padded with '0' to `decimals` characters, then cut to four. */
  function FractionField(remainder: int, decimals: nat): string {
    Take(PadStart(IntToString(remainder), decimals, '0'), 4)
  }

  /** w, then a point and f unless f is empty. */
  function WithFraction(w: string, f: string): string {
    if f == "" then w else w + "." + f
  }

  /** How many fractional digits are shown: at most four, never more than the token has. */
  function Shown(decimals: nat): nat {
    if decimals < 4 then decimals else 4
  }

  /** The fractional digits formatTokenAmount shows for a remainder below 10^decimals. */
  function ShownDigits(rest: nat, decimals: nat): string {
    TrimZerosEnd(FractionField(rest, decimals))
  }

  /**
   * For a non-negative amount = whole * 10^decimals + rest (rest < 10^decimals) the
   * result is the digits of whole followed, when it is not zero, by a point and the
   * first Shown(decimals) fractional digits of rest, truncated, with trailing zeros dropped.
   */
  lemma FormatTokenAmountMeaning(amount: nat, decimals: nat, whole: nat, rest: nat)
    requires rest < Pow10(decimals) && amount == whole * Pow10(decimals) + rest
    ensures exists f: string ::
      && AllDigits(f) && |f| <= Shown(decimals)
      && (f != "" ==> f[|f| - 1] != '0')
      && Value(f) * Pow10(decimals - |f|) <= rest < Value(f) * Pow10(decimals - |f|) + Pow10(decimals - Shown(decimals))
      && FormatTokenAmount(amount, decimals) == WithFraction(NatToString(whole), f)
  {
    FormatText(amount, decimals, whole, rest);
    ShownDigitsValue(rest, decimals);
    var f := ShownDigits(rest, decimals);
  }

  /** The text of formatTokenAmount on a non-negative amount = whole * 10^decimals + rest. */
  lemma FormatText(amount: nat, decimals: nat, whole: nat, rest: nat)
    requires rest < Pow10(decimals) && amount == whole * Pow10(decimals) + rest
    ensures FormatTokenAmount(amount, decimals) == WithFraction(NatToString(whole), ShownDigits(rest, decimals))
  {
    FormatUnfold(amount, decimals, whole, rest);
    PartsText(whole, rest, decimals);
  }

  /** BigInt `/` and `%` on whole * b + rest, with 0 <= rest < b. */
  lemma TruncatingShift(whole: nat, rest: nat, b: nat)
    requires rest < b
    ensures TDiv(whole * b + rest, b) == whole && TMod(whole * b + rest, b) == rest
  {
    DivShift(whole, rest, b);
  }

  /** On a non-negative amount the whole part and remainder are the Euclidean ones. */
  lemma FormatUnfold(amount: nat, decimals: nat, whole: nat, rest: nat)
    requires rest < Pow10(decimals) && amount == whole * Pow10(decimals) + rest
    ensures FormatTokenAmount(amount, decimals) == FormatParts(whole, rest, decimals)
  {
    var p := Pow10(decimals);
    TruncatingShift(whole, rest, p);
    assert TDiv(amount, p) == whole && TMod(amount, p) == rest;
  }

  /** The fraction field of a remainder below 10^decimals: digits, Shown(decimals) of them ("0" when there are no decimals). */
  lemma FractionShape(m: nat, decimals: nat)
    requires m < Pow10(decimals)
    ensures var d := FractionField(m, decimals);
      && AllDigits(d) && |d| >= 1
      && (decimals == 0 ==> d == "0")
      && (decimals > 0 ==> |d| == Shown(decimals))
  {
    PaddedRemainder(m, decimals);
    var padded := PadStart(IntToString(m), decimals, '0');
    DigitsPrefix(padded, |FractionField(m, decimals)|);
    if decimals == 0 {
      assert m == 0;
      assert padded == "0";
    }
  }

  /** The fraction field is m truncated to its first Shown(decimals) digits. */
  lemma FractionValue(m: nat, decimals: nat)
    requires m < Pow10(decimals) && decimals > 0
    ensures var d := FractionField(m, decimals);
      |d| == Shown(decimals) && AllDigits(d) &&
      Value(d) * Pow10(decimals - Shown(decimals)) <= m < Value(d) * Pow10(decimals - Shown(decimals)) + Pow10(decimals - Shown(decimals))
  {
    var padded := PadStart(IntToString(m), decimals, '0');
    var d := FractionField(m, decimals);
    PaddedRemainder(m, decimals);
    PrefixValue(padded, |d|);
    assert d == padded[..|d|];
    assert |d| == Shown(decimals);
  }

  /** The text of formatTokenAmount: whole digits, then the shown digits after a point, if any. */
  lemma PartsText(whole: nat, rest: nat, decimals: nat)
    requires rest < Pow10(decimals)
    ensures var f := ShownDigits(rest, decimals);
      FormatParts(whole, rest, decimals) == WithFraction(NatToString(whole), f)
  {
    FractionShape(rest, decimals);
    StripAfterDigits(NatToString(whole), FractionField(rest, decimals));
  }

  /** StripShape with the whole part given as decimal digits. */
  lemma StripAfterDigits(w: string, d: string)
    requires AllDigits(w) && AllDigits(d) && |d| >= 1
    ensures ReplaceTrailingZeros(w + "." + d) == WithFraction(w, TrimZerosEnd(d))
  {
    NoPointInDigits(w);
    StripShape(w, d);
  }

  lemma NoPointInDigits(w: string)
    requires AllDigits(w)
    ensures '.' !in w
  {
    assert forall i :: 0 <= i < |w| ==> IsDigit(w[i]);
  }

  lemma DigitsPrefix(s: string, k: nat)
    requires AllDigits(s) && k <= |s|
    ensures AllDigits(s[..k])
  {
    assert forall i :: 0 <= i < k ==> s[..k][i] == s[i];
  }

  /** The shown digits are the remainder truncated to Shown(decimals) places. */
  lemma ShownDigitsValue(rest: nat, decimals: nat)
    requires rest < Pow10(decimals)
    ensures var f := ShownDigits(rest, decimals);
      && AllDigits(f) && |f| <= Shown(decimals) && (f != "" ==> f[|f| - 1] != '0')
      && Value(f) * Pow10(decimals - |f|) <= rest < Value(f) * Pow10(decimals - |f|) + Pow10(decimals - Shown(decimals))
  {
    if decimals == 0 {
      ShownNoDecimals(rest);
    } else {
      ShownSomeDecimals(rest, decimals);
    }
  }

  /** A token without decimals shows no fractional digits. */
  lemma ShownNoDecimals(rest: nat)
    requires rest < Pow10(0)
    ensures ShownDigits(rest, 0) == "" && rest == 0
  {
    var d := FractionField(rest, 0);
    FractionShape(rest, 0);
    assert d == "0";
    assert TrimZerosEnd(d) == "" by {
      assert d[0] == '0';
    }
  }

  lemma ShownSomeDecimals(rest: nat, decimals: nat)
    requires rest < Pow10(decimals) && decimals > 0
    ensures var f := ShownDigits(rest, decimals);
      && AllDigits(f) && |f| <= Shown(decimals) && (f != "" ==> f[|f| - 1] != '0')
      && Value(f) * Pow10(decimals - |f|) <= rest < Value(f) * Pow10(decimals - |f|) + Pow10(decimals - Shown(decimals))
  {
    var d := FractionField(rest, decimals);
    FractionValue(rest, decimals);
    TrimmedBounds(d, decimals, rest, Shown(decimals));
  }

  /** Dropping trailing zeros from digits d keeps the bounds d places on rest. */
  lemma TrimmedBounds(d: string, decimals: nat, rest: nat, k: nat)
    requires AllDigits(d) && |d| == k && k <= decimals
    requires Value(d) * Pow10(decimals - k) <= rest < Value(d) * Pow10(decimals - k) + Pow10(decimals - k)
    ensures var f := TrimZerosEnd(d);
      && AllDigits(f) && |f| <= k && (f != "" ==> f[|f| - 1] != '0')
      && Value(f) * Pow10(decimals - |f|) <= rest < Value(f) * Pow10(decimals - |f|) + Pow10(decimals - k)
  {
    var f := TrimZerosEnd(d);
    TrimZerosShape(d);
    TrimZerosValue(d);
    var i := k - |f|;
    var j := decimals - k;
    Pow10Add(i, j);
    assert i + j == decimals - |f|;
    ScaleBounds(Value(f), Value(d), Pow10(i), Pow10(j), Pow10(decimals - |f|), rest);
  }

  lemma ScaleProduct(v: nat, x: nat, y: nat)
    ensures v * (x * y) == (v * x) * y
  {
  }

  /** Bounds on vd * b carry over to vf * (a * b) when vf * a == vd. */
  lemma ScaleBounds(vf: nat, vd: nat, a: nat, b: nat, ab: nat, m: nat)
    requires vf * a == vd && ab == a * b && vd * b <= m < vd * b + b
    ensures vf * ab <= m < vf * ab + b
  {
    ScaleProduct(vf, a, b);
  }

  /** The remainder, left-padded with zeros to the token's decimals, has exactly that many digits. */
  lemma PaddedRemainder(m: nat, decimals: nat)
    requires m < Pow10(decimals)
    ensures var padded := PadStart(IntToString(m), decimals, '0');
      AllDigits(padded) && Value(padded) == m &&
      |padded| == (if decimals == 0 then 1 else decimals)
  {
    var digits := NatToString(m);
    assert IntToString(m) == digits;
    DigitsFit(m, decimals);
    NatToStringDenotes(m);
    var padded := PadStart(digits, decimals, '0');
    if |digits| < decimals {
      var z := decimals - |digits|;
      assert padded == Zeros(z) + digits by {
        assert Repeat('0', z) == Zeros(z);
      }
      LeadingZeros(z, digits);
    } else {
      assert padded == digits;
    }
  }

  /** A number below 10^decimals has at most `decimals` digits (one, when decimals is 0). */
  lemma DigitsFit(m: nat, decimals: nat)
    requires m < Pow10(decimals)
    ensures |NatToString(m)| <= (if decimals == 0 then 1 else decimals)
  {
    var digits := NatToString(m);
    NatToStringValue(m);
    if |digits| > decimals && decimals > 0 {
      Pow10Monotone(decimals, |digits| - 1);
    }
  }

  lemma {:induction false} Pow10Monotone(a: nat, b: nat)
    requires a <= b
    ensures Pow10(a) <= Pow10(b)
    decreases b
  {
    if a < b {
      Pow10Monotone(a, b - 1);
    }
  }

  /** The first k digits of s, shifted left past the remaining digits, bound the value of s. */
  lemma PrefixValue(s: string, k: nat)
    requires AllDigits(s) && k <= |s|
    ensures AllDigits(s[..k])
    ensures Value(s[..k]) * Pow10(|s| - k) <= Value(s) < Value(s[..k]) * Pow10(|s| - k) + Pow10(|s| - k)
  {
    var a, b := s[..k], s[k..];
    assert s == a + b;
    ValueConcat(a, b);
    ValueBound(b);
  }

  /** s without its trailing '0' characters. */
  function TrimZerosEnd(s: string): (r: string)
    ensures |r| <= |s|
    decreases |s|
  {
    if s != "" && s[|s| - 1] == '0' then TrimZerosEnd(s[..|s| - 1]) else s
  }

  /** TrimZerosEnd keeps a prefix, drops only '0' characters, and leaves no '0' at the end. */
  lemma {:induction false} TrimZerosShape(s: string)
    ensures var r := TrimZerosEnd(s);
      && r == s[..|r|]
      && AllZeroChars(s[|r|..])
      && (r == "" || r[|r| - 1] != '0')
    decreases |s|
  {
    if s != "" && s[|s| - 1] == '0' {
      TrimZerosShape(s[..|s| - 1]);
      var r := TrimZerosEnd(s);
      assert s[..|s| - 1][..|r|] == s[..|r|];
      ZerosSnoc(s, |r|);
    }
  }

  lemma ZerosSnoc(s: string, j: nat)
    requires j < |s| && s[|s| - 1] == '0' && AllZeroChars(s[..|s| - 1][j..])
    ensures AllZeroChars(s[j..])
  {
    forall i | 0 <= i < |s| - j ensures s[j..][i] == '0' {
      if i < |s| - 1 - j { assert s[j..][i] == s[..|s| - 1][j..][i]; }
    }
  }

  lemma TrimZerosValue(d: string)
    requires AllDigits(d)
    ensures AllDigits(TrimZerosEnd(d))
    ensures Value(TrimZerosEnd(d)) * Pow10(|d| - |TrimZerosEnd(d)|) == Value(d)
  {
    var r := TrimZerosEnd(d);
    TrimZerosShape(d);
    var z := d[|r|..];
    ZeroCharsAreZeros(z);
    assert d == r + z;
    TrailingZeros(r, |z|);
  }

  lemma ZeroCharsAreZeros(z: string)
    requires AllZeroChars(z)
    ensures z == Zeros(|z|)
  {
  }

  lemma {:induction false} FirstMatchAt(s: string, p: nat, k: nat)
    requires p <= k < |s| && TailMatches(s[k..])
    requires forall q :: p <= q < k ==> !TailMatches(s[q..])
    ensures FirstMatchFrom(s, p) == Some(k)
    decreases k - p
  {
    if p < k {
      FirstMatchAt(s, p + 1, k);
    }
  }

  lemma {:induction false} NoMatchFrom(s: string, p: nat)
    requires p <= |s|
    requires forall q :: p <= q < |s| ==> !TailMatches(s[q..])
    ensures FirstMatchFrom(s, p) == None
    decreases |s| - p
  {
    if p < |s| {
      NoMatchFrom(s, p + 1);
    }
  }

  /** A character other than '0' (and other than a leading '.') stops /\.?0+$/ from matching. */
  lemma NoMatchIfNonZero(t: string, i: nat)
    requires i < |t| && t[i] != '0' && (i == 0 ==> t[0] != '.')
    ensures !TailMatches(t)
  {
    if i > 0 {
      assert t[1..][i - 1] == t[i];
    }
  }

  /** No match of /\.?0+$/ starts inside the whole part of "<whole>.<digits>". */
  lemma NoMatchInWhole(w: string, d: string)
    requires '.' !in w
    ensures forall q :: 0 <= q < |w| ==> !TailMatches((w + "." + d)[q..])
  {
    var s := w + "." + d;
    forall q | 0 <= q < |w| ensures !TailMatches(s[q..]) {
      assert s[q..][0] == w[q];
      assert s[q..][|w| - q] == '.';
      NoMatchIfNonZero(s[q..], |w| - q);
    }
  }

  /** All-zero fractional digits: the match starts at the point. */
  lemma StripAllZeros(w: string, d: string)
    requires '.' !in w && |d| >= 1 && AllZeroChars(d)
    ensures ReplaceTrailingZeros(w + "." + d) == w
  {
    var s := w + "." + d;
    NoMatchInWhole(w, d);
    assert s[|w|..] == "." + d;
    assert s[|w|..][1..] == d;
    FirstMatchAt(s, 0, |w|);
    assert s[..|w|] == w;
  }

  /** With a digit other than zero, no match starts before the end of TrimZerosEnd(d). */
  lemma NoMatchBeforeTrim(w: string, d: string, z: string)
    requires '.' !in w && AllDigits(d) && z == TrimZerosEnd(d) && z != ""
    ensures forall q :: 0 <= q < |w| + 1 + |z| ==> !TailMatches((w + "." + d)[q..])
  {
    var s := w + "." + d;
    var k := |w| + 1 + |z|;
    TrimZerosShape(d);
    NoMatchInWhole(w, d);
    assert d[|z| - 1] == z[|z| - 1];
    forall q | |w| <= q < k ensures !TailMatches(s[q..]) {
      assert s[q..][k - 1 - q] == d[|z| - 1];
      if q > |w| {
        assert s[q..][0] == d[q - |w| - 1];
        assert IsDigit(d[q - |w| - 1]);
      }
      NoMatchIfNonZero(s[q..], k - 1 - q);
    }
  }

  /** Some fractional digit is not zero: only the trailing zeros go. */
  lemma StripSomeZeros(w: string, d: string)
    requires '.' !in w && AllDigits(d) && TrimZerosEnd(d) != ""
    ensures ReplaceTrailingZeros(w + "." + d) == w + "." + TrimZerosEnd(d)
  {
    var s := w + "." + d;
    var z := TrimZerosEnd(d);
    var k := |w| + 1 + |z|;
    TrimZerosShape(d);
    NoMatchBeforeTrim(w, d, z);
    assert s[..k] == w + "." + z;
    if k < |s| {
      assert s[k..] == d[|z|..];
      FirstMatchAt(s, 0, k);
    } else {
      NoMatchFrom(s, 0);
      assert s == w + "." + z;
    }
  }

  /**
   * On "<whole>.<digits>" the regular expression removes the point and the
   * fractional digits when they are all zero, and otherwise only the trailing zeros.
   */
  lemma StripShape(w: string, d: string)
    requires '.' !in w && AllDigits(d) && |d| >= 1
    ensures var z := TrimZerosEnd(d);
      ReplaceTrailingZeros(w + "." + d) == if z == "" then w else w + "." + z
  {
    var z := TrimZerosEnd(d);
    TrimZerosShape(d);
    if z == "" {
      assert d[|z|..] == d;
      StripAllZeros(w, d);
    } else {
      StripSomeZeros(w, d);
    }
  }

  /** Every non-negative amount splits into a whole part and a remainder below 10^decimals. */
  lemma DecimalSplit(amount: nat, decimals: nat) returns (whole: nat, rest: nat)
    ensures rest < Pow10(decimals) && amount == whole * Pow10(decimals) + rest
  {
    whole, rest := QuotientRemainder(amount, Pow10(decimals));
  }

  lemma QuotientRemainder(a: nat, b: nat) returns (q: nat, r: nat)
    requires b >= 1
    ensures r < b && a == q * b + r
  {
    q, r := a / b, a % b;
  }

  /** What formatTokenAmount shows never ends in '.' nor, after a point, in '0'. */
  lemma FormatTokenAmountClean(amount: nat, decimals: nat)
    ensures var r := FormatTokenAmount(amount, decimals);
      r != "" && r[|r| - 1] != '.' && ('.' in r ==> r[|r| - 1] != '0')
  {
    var whole, rest := DecimalSplit(amount, decimals);
    FormatText(amount, decimals, whole, rest);
    ShownDigitsValue(rest, decimals);
    CleanText(NatToString(whole), ShownDigits(rest, decimals));
  }

  /** Whole digits, optionally a point and digits not ending in '0': the shape of a formatted amount. */
  lemma CleanText(w: string, f: string)
    requires AllDigits(w) && w != "" && AllDigits(f) && (f != "" ==> f[|f| - 1] != '0')
    ensures var r := WithFraction(w, f);
      r[|r| - 1] != '.' && ('.' in r ==> r[|r| - 1] != '0')
  {
    NoPointInDigits(w);
    NoPointInDigits(f);
    var r := WithFraction(w, f);
    if f == "" {
      assert r == w;
    } else {
      assert r[|r| - 1] == f[|f| - 1];
    }
  }

  /** Zero formats as "0", whatever the token's decimals. */
  lemma FormatZero(decimals: nat)
    ensures FormatTokenAmount(0, decimals) == "0"
  {
    FormatOfZero(0, decimals);
  }

  lemma FormatOfZero(a: nat, decimals: nat)
    requires a == 0
    ensures FormatTokenAmount(a, decimals) == "0"
  {
    FormatText(a, decimals, a, a);
    ShownZero(a, decimals);
    assert NatToString(a) == "0";
  }

  /** A zero remainder shows no fractional digits. */
  lemma ShownZero(rest: nat, decimals: nat)
    requires rest == 0
    ensures ShownDigits(rest, decimals) == ""
  {
    ShownDigitsValue(rest, decimals);
    ShownOfZero(ShownDigits(rest, decimals), decimals, rest);
  }

  /** Digits without a trailing '0' that, shifted, stay at most 0 are no digits at all. */
  lemma ShownOfZero(f: string, decimals: nat, rest: nat)
    requires rest == 0 && AllDigits(f) && |f| <= Shown(decimals) && (f != "" ==> f[|f| - 1] != '0')
    requires Value(f) * Pow10(decimals - |f|) <= rest
    ensures f == ""
  {
    ZeroProductFactor(Value(f), Pow10(decimals - |f|));
    ZeroValueEmpty(f);
  }

  lemma ZeroProductFactor(v: nat, p: nat)
    requires p >= 1 && v * p <= 0
    ensures v == 0
  {
  }

  /** Digits of value zero with no trailing '0' are no digits at all. */
  lemma ZeroValueEmpty(f: string)
    requires AllDigits(f) && Value(f) == 0 && (f != "" ==> f[|f| - 1] != '0')
    ensures f == ""
  {
  }

  // ---------------------------------------------------------------------------
  // Amount parsing

  /**
   * parseTokenAmount(amount, decimals): the text before the first point is the
   * whole part, the text after it (up to a second point) the fraction, which
   * is right-padded with zeros or cut to `decimals` digits. BigInt rejects
   * anything that is not decimal digits, which is None here.
   */
  function ParseTokenAmount(amount: string, decimals: nat): Option<int> {
    var parts := Split(amount, '.');
    var whole := parts[0];
    var frac := if |parts| >= 2 then parts[1] else "";
    var paddedFrac := Take(PadEnd(frac, decimals, '0'), decimals);
    ParseBigInt(whole + paddedFrac)
  }

  lemma PadToDecimals(f: string, decimals: nat)
    requires AllDigits(f)
    ensures var p := Take(PadEnd(f, decimals, '0'), decimals);
      AllDigits(p) && Value(p) == Value(Take(f, decimals)) * Pow10(decimals - |Take(f, decimals)|)
  {
    var t := Take(f, decimals);
    if |f| >= decimals {
      assert Take(PadEnd(f, decimals, '0'), decimals) == t;
    } else {
      assert Repeat('0', decimals - |f|) == Zeros(decimals - |f|);
      assert Take(PadEnd(f, decimals, '0'), decimals) == f + Zeros(decimals - |f|);
      TrailingZeros(f, decimals - |f|);
    }
  }

  /** The text "w.f" (no point in w or f) is read as the digits w followed by f padded or cut to `decimals`. */
  lemma ParsePointText(w: string, f: string, decimals: nat)
    requires '.' !in w && '.' !in f
    ensures ParseTokenAmount(w + "." + f, decimals) == ParseBigInt(w + Take(PadEnd(f, decimals, '0'), decimals))
  {
    SplitAtFirst(w, '.', f);
    SplitNoSeparator(f, '.');
    assert w + "." + f == w + ['.'] + f;
  }

  /** Text without a point is read as itself followed by `decimals` zeros. */
  lemma ParseWholeText(w: string, decimals: nat)
    requires '.' !in w
    ensures ParseTokenAmount(w, decimals) == ParseBigInt(w + Zeros(decimals))
  {
    SplitNoSeparator(w, '.');
    assert Take(PadEnd("", decimals, '0'), decimals) == Zeros(decimals) by {
      assert Repeat('0', decimals) == Zeros(decimals);
    }
  }

  /**
   * "w.f" reads as w * 10^decimals plus the first `decimals` digits of f,
   * right-padded with zeros: digits beyond the token's decimals are dropped.
   */
  lemma ParseTokenAmountFraction(w: string, f: string, decimals: nat)
    requires AllDigits(w) && AllDigits(f)
    ensures var t := Take(f, decimals); var r := ParseTokenAmount(w + "." + f, decimals);
      r.Some? && r.value == Value(w) * Pow10(decimals) + Value(t) * Pow10(decimals - |t|)
  {
    NoPointInDigits(w);
    NoPointInDigits(f);
    ParsePointText(w, f, decimals);
    var p := Take(PadEnd(f, decimals, '0'), decimals);
    PadToDecimals(f, decimals);
    DigitsThenDigits(w, p);
  }

  /** Two digit strings read together as the first shifted past the second. */
  lemma DigitsThenDigits(w: string, p: string)
    requires AllDigits(w) && AllDigits(p)
    ensures var r := ParseBigInt(w + p); r.Some? && r.value == Value(w) * Pow10(|p|) + Value(p)
  {
    ValueConcat(w, p);
    ParseDigits(w + p);
  }

  /** A whole number without a point reads as w * 10^decimals. */
  lemma ParseTokenAmountWhole(w: string, decimals: nat)
    requires AllDigits(w)
    ensures var r := ParseTokenAmount(w, decimals); r.Some? && r.value == Value(w) * Pow10(decimals)
  {
    NoPointInDigits(w);
    ParseWholeText(w, decimals);
    DigitsThenDigits(w, Zeros(decimals));
    ZerosValue(decimals);
  }

  /**
   * Formatting then parsing gives a number: the amount with the fractional
   * digits beyond the fourth cleared.
   */
  lemma FormatThenParse(amount: nat, decimals: nat, whole: nat, rest: nat)
    requires rest < Pow10(decimals) && amount == whole * Pow10(decimals) + rest
    ensures var r := ParseTokenAmount(FormatTokenAmount(amount, decimals), decimals);
      r.Some? && r.value == amount - rest % Pow10(decimals - Shown(decimals))
  {
    FormatText(amount, decimals, whole, rest);
    ParseFormatted(amount, decimals, whole, rest);
  }

  /** With at most four decimals nothing is hidden: formatting then parsing gives the amount back. */
  lemma FormatThenParseExact(amount: nat, decimals: nat, whole: nat, rest: nat)
    requires decimals <= 4
    requires rest < Pow10(decimals) && amount == whole * Pow10(decimals) + rest
    ensures ParseTokenAmount(FormatTokenAmount(amount, decimals), decimals) == Some(amount)
  {
    FormatThenParse(amount, decimals, whole, rest);
    NothingHidden(amount, decimals, rest);
  }

  lemma NothingHidden(amount: nat, decimals: nat, rest: nat)
    requires decimals <= 4
    ensures amount - rest % Pow10(decimals - Shown(decimals)) == amount
  {
    assert Pow10(decimals - Shown(decimals)) == 1;
  }

  /** Parsing the whole digits and the shown digits gives the amount with its hidden digits cleared. */
  lemma ParseFormatted(amount: nat, decimals: nat, whole: nat, rest: nat)
    requires rest < Pow10(decimals) && amount == whole * Pow10(decimals) + rest
    ensures var r := ParseTokenAmount(WithFraction(NatToString(whole), ShownDigits(rest, decimals)), decimals);
      r.Some? && r.value == amount - rest % Pow10(decimals - Shown(decimals))
  {
    var f := ShownDigits(rest, decimals);
    ShownValue(amount, decimals, whole, rest);
    ParseShownAt(whole, f, decimals, amount - rest % Pow10(decimals - Shown(decimals)));
  }

  /** ParseShownWhole, with the number read back named. */
  lemma ParseShownAt(whole: nat, f: string, decimals: nat, x: int)
    requires AllDigits(f) && |f| <= decimals
    requires whole * Pow10(decimals) + Value(f) * Pow10(decimals - |f|) == x
    ensures var r := ParseTokenAmount(WithFraction(NatToString(whole), f), decimals);
      r.Some? && r.value == x
  {
    ParseShownWhole(whole, f, decimals);
  }


  /** The number the shown digits stand for, put back in place. */
  lemma ShownValue(amount: nat, decimals: nat, whole: nat, rest: nat)
    requires rest < Pow10(decimals) && amount == whole * Pow10(decimals) + rest
    ensures var f := ShownDigits(rest, decimals);
      AllDigits(f) && |f| <= decimals &&
      whole * Pow10(decimals) + Value(f) * Pow10(decimals - |f|) == amount - rest % Pow10(decimals - Shown(decimals))
  {
    var f := ShownDigits(rest, decimals);
    ShownDigitsValue(rest, decimals);
    ShownArithmetic(amount, whole, rest, decimals, Value(f), |f|);
  }

  /** ParseShown with the whole part written by toString(). */
  lemma ParseShownWhole(whole: nat, f: string, decimals: nat)
    requires AllDigits(f) && |f| <= decimals
    ensures var r := ParseTokenAmount(WithFraction(NatToString(whole), f), decimals);
      r.Some? && r.value == whole * Pow10(decimals) + Value(f) * Pow10(decimals - |f|)
  {
    NatToStringDenotes(whole);
    ParseShownValue(NatToString(whole), whole, f, decimals);
  }

  /** ParseShown with the value of the whole digits named. */
  lemma ParseShownValue(w: string, n: nat, f: string, decimals: nat)
    requires AllDigits(w) && Value(w) == n && AllDigits(f) && |f| <= decimals
    ensures var r := ParseTokenAmount(WithFraction(w, f), decimals);
      r.Some? && r.value == n * Pow10(decimals) + Value(f) * Pow10(decimals - |f|)
  {
    ParseShown(w, f, decimals);
  }


  /** The shown digits, put back in place, are the remainder with its low digits cleared. */
  lemma ShownArithmetic(amount: nat, whole: nat, rest: nat, decimals: nat, v: nat, n: nat)
    requires amount == whole * Pow10(decimals) + rest
    requires n <= Shown(decimals)
    requires v * Pow10(decimals - n) <= rest < v * Pow10(decimals - n) + Pow10(decimals - Shown(decimals))
    ensures whole * Pow10(decimals) + v * Pow10(decimals - n) == amount - rest % Pow10(decimals - Shown(decimals))
  {
    var i := Shown(decimals) - n;
    var j := decimals - Shown(decimals);
    Pow10Add(i, j);
    assert i + j == decimals - n;
    ScaleProduct(v, Pow10(i), Pow10(j));
    DropBelow(whole * Pow10(decimals), v * Pow10(i), Pow10(j), rest);
  }

  /** Parsing what formatTokenAmount prints: whole digits and at most `decimals` fractional digits. */
  lemma ParseShown(w: string, f: string, decimals: nat)
    requires AllDigits(w) && AllDigits(f) && |f| <= decimals
    ensures var r := ParseTokenAmount(WithFraction(w, f), decimals);
      r.Some? && r.value == Value(w) * Pow10(decimals) + Value(f) * Pow10(decimals - |f|)
  {
    if f == "" {
      assert WithFraction(w, f) == w;
      ParseTokenAmountWhole(w, decimals);
      assert Value(f) == 0;
    } else {
      assert WithFraction(w, f) == w + "." + f;
      ParseShownFraction(w, f, decimals);
    }
  }

  lemma ParseShownFraction(w: string, f: string, decimals: nat)
    requires AllDigits(w) && AllDigits(f) && |f| <= decimals
    ensures var r := ParseTokenAmount(w + "." + f, decimals);
      r.Some? && r.value == Value(w) * Pow10(decimals) + Value(f) * Pow10(decimals - |f|)
  {
    NoPointInDigits(w);
    NoPointInDigits(f);
    ParsePointText(w, f, decimals);
    var p := Take(PadEnd(f, decimals, '0'), decimals);
    PadShortFraction(f, decimals);
    DigitsThenDigits(w, p);
  }

  /** A fraction no longer than `decimals` is padded with zeros to exactly `decimals` digits. */
  lemma PadShortFraction(f: string, decimals: nat)
    requires AllDigits(f) && |f| <= decimals
    ensures var p := Take(PadEnd(f, decimals, '0'), decimals);
      AllDigits(p) && |p| == decimals && Value(p) == Value(f) * Pow10(decimals - |f|)
  {
    assert Repeat('0', decimals - |f|) == Zeros(decimals - |f|);
    assert Take(PadEnd(f, decimals, '0'), decimals) == f + Zeros(decimals - |f|);
    TrailingZeros(f, decimals - |f|);
  }

  /** A remainder between v*q and v*q + q loses exactly its value modulo q. */
  lemma DropBelow(base: nat, v: nat, q: nat, rest: nat)
    requires q >= 1 && v * q <= rest < v * q + q
    ensures base + v * q == base + rest - rest % q
  {
    DivShift(v, rest - v * q, q);
  }

}
