/**
 * The JavaScript String operations the wallet relies on, on seq<char>:
 * padStart/padEnd with a one-character filler, slice from the start,
 * split on a one-character separator, startsWith, ASCII toLowerCase,
 * and trim() / split(/\s+/) over the ECMAScript white-space set.
 */
module JsText {

  function Repeat(c: char, n: nat): (r: string)
    ensures |r| == n
    ensures forall i :: 0 <= i < n ==> r[i] == c
  {
    if n == 0 then "" else [c] + Repeat(c, n - 1)
  }

  /** s.padStart(n, c) */
  function PadStart(s: string, n: nat, c: char): (r: string)
    ensures |s| >= n ==> r == s
    ensures |s| < n ==> r == Repeat(c, n - |s|) + s
  {
    if |s| >= n then s else Repeat(c, n - |s|) + s
  }

  /** s.padEnd(n, c) */
  function PadEnd(s: string, n: nat, c: char): (r: string)
    ensures |s| >= n ==> r == s
    ensures |s| < n ==> r == s + Repeat(c, n - |s|)
  {
    if |s| >= n then s else s + Repeat(c, n - |s|)
  }

  /** s.slice(0, k): the first k characters, or all of s when it is shorter. */
  function Take<T>(s: seq<T>, k: nat): (r: seq<T>)
    ensures |r| == if k <= |s| then k else |s|
    ensures r <= s
  {
    if k <= |s| then s[..k] else s
  }

  /** s.slice(k): everything after the first k characters, or nothing. */
  function Drop<T>(s: seq<T>, k: nat): (r: seq<T>)
    ensures Take(s, k) + r == s
  {
    if k <= |s| then s[k..] else []
  }

  /** s.length: UTF-16 code units, so a character outside the Basic Multilingual Plane counts twice. */
  function Utf16Length(s: string): (n: nat)
    ensures |s| <= n <= 2 * |s|
  {
    if s == "" then 0 else (if s[0] as int >= 0x1_0000 then 2 else 1) + Utf16Length(s[1..])
  }

  /** Text inside the Basic Multilingual Plane has one code unit per character. */
  lemma {:induction false} Utf16LengthBmp(s: string)
    requires forall i :: 0 <= i < |s| ==> (s[i] as int) < 0x1_0000
    ensures Utf16Length(s) == |s|
  {
    if s != "" {
      assert forall i :: 0 <= i < |s[1..]| ==> s[1..][i] == s[i + 1];
      Utf16LengthBmp(s[1..]);
    }
  }

  /** s.startsWith(p) */
  predicate StartsWith(s: string, p: string) {
    |p| <= |s| && s[..|p|] == p
  }

  /** s.split(sep) for a one-character separator. */
  function Split(s: string, sep: char): (r: seq<string>)
    ensures |r| >= 1
    decreases |s|
  {
    if |s| == 0 then [""]
    else
      var rest := Split(s[1..], sep);
      if s[0] == sep then [""] + rest
      else [[s[0]] + rest[0]] + rest[1..]
  }

  lemma {:induction false} SplitNoSeparator(s: string, sep: char)
    requires sep !in s
    ensures Split(s, sep) == [s]
    decreases |s|
  {
    if |s| > 0 {
      assert s[0] != sep;
      assert forall i :: 0 <= i < |s[1..]| ==> s[1..][i] == s[i + 1];
      SplitNoSeparator(s[1..], sep);
      assert [s[0]] + s[1..] == s;
    }
  }

  /** Splitting w + sep + rest yields w, then the pieces of rest. */
  lemma {:induction false} SplitAtFirst(w: string, sep: char, rest: string)
    requires sep !in w
    ensures Split(w + [sep] + rest, sep) == [w] + Split(rest, sep)
    decreases |w|
  {
    var s := w + [sep] + rest;
    if |w| == 0 {
      assert s[0] == sep && s[1..] == rest;
    } else {
      assert s[0] == w[0] && w[0] != sep;
      assert s[1..] == w[1..] + [sep] + rest;
      assert forall i :: 0 <= i < |w[1..]| ==> w[1..][i] == w[i + 1];
      SplitAtFirst(w[1..], sep, rest);
      assert [w[0]] + w[1..] == w;
    }
  }

  function LowerAscii(c: char): (l: char)
    ensures 'A' <= c <= 'Z' ==> l as int == c as int + 32
    ensures !('A' <= c <= 'Z') ==> l == c
  {
    if 'A' <= c <= 'Z' then (c as int + 32) as char else c
  }

  /** s.toLowerCase() on the ASCII letters; other characters are kept. */
  function ToLowerAscii(s: string): (r: string)
    ensures |r| == |s|
    ensures forall i :: 0 <= i < |s| ==> r[i] == LowerAscii(s[i])
  {
    if s == "" then "" else [LowerAscii(s[0])] + ToLowerAscii(s[1..])
  }

  /** ECMAScript WhiteSpace and LineTerminator code points: what trim() removes and \s matches. */
  predicate IsWhiteSpace(c: char) {
    var n := c as int;
    (0x09 <= n <= 0x0D) || n == 0x20 || n == 0xA0 || n == 0x1680 ||
    (0x2000 <= n <= 0x200A) || n == 0x2028 || n == 0x2029 || n == 0x202F ||
    n == 0x205F || n == 0x3000 || n == 0xFEFF
  }

  predicate AllWhiteSpace(s: string) {
    forall i :: 0 <= i < |s| ==> IsWhiteSpace(s[i])
  }

  predicate NoWhiteSpace(s: string) {
    forall i :: 0 <= i < |s| ==> !IsWhiteSpace(s[i])
  }

  /** s.trimStart() */
  function TrimStart(s: string): (r: string)
    ensures |r| <= |s|
    decreases |s|
  {
    if s != "" && IsWhiteSpace(s[0]) then TrimStart(s[1..]) else s
  }

  /** trimStart() removes a leading run of white space and nothing else. */
  lemma {:induction false} TrimStartShape(s: string)
    ensures var r := TrimStart(s);
      && (r == "" || !IsWhiteSpace(r[0]))
      && r == s[|s| - |r|..]
      && AllWhiteSpace(s[..|s| - |r|])
    decreases |s|
  {
    if s != "" && IsWhiteSpace(s[0]) {
      TrimStartShape(s[1..]);
      var r := TrimStart(s);
      var k := |s| - |r|;
      assert s[1..][k - 1..] == s[k..];
      WhiteSpaceCons(s, k);
    }
  }

  /** s.trimEnd() */
  function TrimEnd(s: string): (r: string)
    ensures |r| <= |s|
    decreases |s|
  {
    if s != "" && IsWhiteSpace(s[|s| - 1]) then TrimEnd(s[..|s| - 1]) else s
  }

  /** trimEnd() removes a trailing run of white space and nothing else. */
  lemma {:induction false} TrimEndShape(s: string)
    ensures var r := TrimEnd(s);
      && (r == "" || !IsWhiteSpace(r[|r| - 1]))
      && r == s[..|r|]
      && AllWhiteSpace(s[|r|..])
    decreases |s|
  {
    if s != "" && IsWhiteSpace(s[|s| - 1]) {
      TrimEndShape(s[..|s| - 1]);
      var r := TrimEnd(s);
      assert s[..|s| - 1][..|r|] == s[..|r|];
      WhiteSpaceSnoc(s, |r|);
    }
  }

  lemma WhiteSpaceCons(s: string, k: nat)
    requires 1 <= k <= |s| && IsWhiteSpace(s[0]) && AllWhiteSpace(s[1..][..k - 1])
    ensures AllWhiteSpace(s[..k])
  {
    forall i | 0 <= i < k ensures IsWhiteSpace(s[..k][i]) {
      if i > 0 { assert s[..k][i] == s[1..][..k - 1][i - 1]; }
    }
  }

  lemma WhiteSpaceSnoc(s: string, j: nat)
    requires j < |s| && IsWhiteSpace(s[|s| - 1]) && AllWhiteSpace(s[..|s| - 1][j..])
    ensures AllWhiteSpace(s[j..])
  {
    forall i | 0 <= i < |s| - j ensures IsWhiteSpace(s[j..][i]) {
      if i < |s| - 1 - j { assert s[j..][i] == s[..|s| - 1][j..][i]; }
    }
  }

  /** s.trim() */
  function Trim(s: string): (r: string)
  {
    TrimEnd(TrimStart(s))
  }

  /** trim() removes white space from both ends and nothing else: s is lead + trim(s) + trail. */
  lemma TrimShape(s: string)
    ensures var r := Trim(s);
      (r == "" || (!IsWhiteSpace(r[0]) && !IsWhiteSpace(r[|r| - 1]))) &&
      exists i, j :: 0 <= i <= j <= |s| && r == s[i..j] && AllWhiteSpace(s[..i]) && AllWhiteSpace(s[j..])
  {
    var i, j := TrimBounds(s);
    var t := TrimStart(s);
    TrimStartShape(s);
    TrimEndShape(t);
    var r := Trim(s);
    if r != "" {
      assert r[0] == t[0];
    }
  }

  /** Where trim() cuts: s[..i] and s[j..] are white space and s[i..j] is what remains. */
  lemma TrimBounds(s: string) returns (i: nat, j: nat)
    ensures i <= j <= |s| && Trim(s) == s[i..j] && AllWhiteSpace(s[..i]) && AllWhiteSpace(s[j..])
  {
    var t := TrimStart(s);
    var r := TrimEnd(t);
    TrimStartShape(s);
    TrimEndShape(t);
    i := |s| - |t|;
    j := i + |r|;
    SliceOfSuffix(s, t, r, i);
  }

  /** Cutting r = t[..n] from t = s[i..] leaves s[i..i + n] and s[i + n..]. */
  lemma SliceOfSuffix<T>(s: seq<T>, t: seq<T>, r: seq<T>, i: nat)
    requires i <= |s| && t == s[i..] && |r| <= |t| && r == t[..|r|]
    ensures r == s[i..i + |r|] && t[|r|..] == s[i + |r|..]
  {
  }

  /** s.split(/\s+/): the pieces between maximal runs of white space. */
  function SplitWhiteSpace(s: string): (r: seq<string>)
    ensures |r| >= 1
    decreases |s|
  {
    if |s| == 0 then [""]
    else if IsWhiteSpace(s[0]) then
      TrimStartShape(s);
      [""] + SplitWhiteSpace(TrimStart(s))
    else
      var rest := SplitWhiteSpace(s[1..]);
      [[s[0]] + rest[0]] + rest[1..]
  }

  /**
   * On a string with no white space at either end (a trimmed, non-empty
   * string), every piece of split(/\s+/) is a non-empty word with no white space.
   */
  lemma {:induction false} SplitWhiteSpaceWords(s: string)
    requires s != "" && !IsWhiteSpace(s[0]) && !IsWhiteSpace(s[|s| - 1])
    ensures forall k :: 0 <= k < |SplitWhiteSpace(s)| ==>
      SplitWhiteSpace(s)[k] != "" && NoWhiteSpace(SplitWhiteSpace(s)[k])
    decreases |s|
  {
    var t := s[1..];
    var rest := SplitWhiteSpace(t);
    if t == "" {
      assert [s[0]] + rest[0] == [s[0]];
    } else if IsWhiteSpace(t[0]) {
      var u := TrimStart(t);
      TrimStartShape(t);
      assert u != "";
      assert u[|u| - 1] == s[|s| - 1];
      SplitWhiteSpaceWords(u);
      assert rest == [""] + SplitWhiteSpace(u);
      assert [s[0]] + rest[0] == [s[0]];
      assert SplitWhiteSpace(s) == [[s[0]]] + SplitWhiteSpace(u);
    } else {
      assert t[|t| - 1] == s[|s| - 1];
      SplitWhiteSpaceWords(t);
      var r := SplitWhiteSpace(s);
      assert r == [[s[0]] + rest[0]] + rest[1..];
      forall k | 0 <= k < |r| ensures r[k] != "" && NoWhiteSpace(r[k]) {
        if k == 0 {
          var w := [s[0]] + rest[0];
          assert forall i :: 1 <= i < |w| ==> w[i] == rest[0][i - 1];
        } else {
          assert r[k] == rest[k];
        }
      }
    }
  }
}
