/** Cutting byte strings at UTF-8 boundaries.  Validity is that of the syntax in section 4 of RFC 3629. */
module Utf8Trim {

  type Byte = b: int | 0 <= b < 256

  // ---- RFC 3629, sections 3 and 4 ----

  predicate Tail(b: Byte) {
    0x80 <= b <= 0xBF
  }

  /** One well-formed character and nothing else. */
  predicate IsChar(s: seq<Byte>) {
    || (|s| == 1 && s[0] <= 0x7F)
    || (|s| == 2 && 0xC2 <= s[0] <= 0xDF && Tail(s[1]))
    || (|s| == 3 && Tail(s[2])
        && ((s[0] == 0xE0 && 0xA0 <= s[1] <= 0xBF)
            || (0xE1 <= s[0] <= 0xEC && Tail(s[1]))
            || (s[0] == 0xED && 0x80 <= s[1] <= 0x9F)
            || (0xEE <= s[0] <= 0xEF && Tail(s[1]))))
    || (|s| == 4 && Tail(s[2]) && Tail(s[3])
        && ((s[0] == 0xF0 && 0x90 <= s[1] <= 0xBF)
            || (0xF1 <= s[0] <= 0xF3 && Tail(s[1]))
            || (s[0] == 0xF4 && 0x80 <= s[1] <= 0x8F)))
  }

  /** The length of the well-formed character a string begins with, 0 when there is none. */
  function CharLen(s: seq<Byte>): (n: nat)
    ensures n <= |s| && n <= 4 && (n > 0 ==> IsChar(s[..n]))
  {
    if |s| >= 1 && IsChar(s[..1]) then 1
    else if |s| >= 2 && IsChar(s[..2]) then 2
    else if |s| >= 3 && IsChar(s[..3]) then 3
    else if |s| >= 4 && IsChar(s[..4]) then 4
    else 0
  }

  /** A sequence of well-formed characters. */
  predicate Valid(s: seq<Byte>)
    decreases |s|
  {
    s == [] || (CharLen(s) > 0 && Valid(s[CharLen(s)..]))
  }

  /** Part of a well-formed character that lacks its end. */
  ghost predicate Incomplete(s: seq<Byte>) {
    s != [] && exists rest: seq<Byte> :: rest != [] && IsChar(s + rest)
  }

  /** How far a string is well formed from its beginning. */
  function ValidLength(s: seq<Byte>): (n: nat)
    ensures n <= |s|
    decreases |s|
  {
    if s == [] || CharLen(s) == 0 then 0 else CharLen(s) + ValidLength(s[CharLen(s)..])
  }

  // ---- Go's unicode/utf8 ----

  predicate RuneStart(b: Byte) {
    !Tail(b)
  }

  function Need(b: Byte): nat {
    if 0xC2 <= b <= 0xDF then 2 else if 0xE0 <= b <= 0xEF then 3 else if 0xF0 <= b <= 0xF4 then 4 else 1
  }

  /** The range the second byte of a character may have. */
  predicate Second(first: Byte, b: Byte) {
    if first == 0xE0 then 0xA0 <= b <= 0xBF
    else if first == 0xED then 0x80 <= b <= 0x9F
    else if first == 0xF0 then 0x90 <= b <= 0xBF
    else if first == 0xF4 then 0x80 <= b <= 0x8F
    else Tail(b)
  }

  predicate FullRune(s: seq<Byte>) {
    s != []
    && (|s| >= Need(s[0]) || (|s| > 1 && !Second(s[0], s[1])) || (|s| > 2 && !Tail(s[2])))
  }

  // ---- The code ----

  method TrimPartialSuffix(data: seq<Byte>) returns (r: seq<Byte>)
    ensures r == if Incomplete(data[ValidLength(data)..]) then data[..ValidLength(data)] else data
  {
    ValidIffWhole(data);
    if Valid(data) {
      return data;
    }
    var i := |data| - 1;
    while i >= 0 && |data| - i <= 4
      invariant -1 <= i < |data|
      invariant forall k :: i < k < |data| ==> Tail(data[k])
    {
      if RuneStart(data[i]) {
        if !Valid(data[..i]) || FullRune(data[i..]) {
          NotTruncated(data, i);
          return data;
        }
        Truncated(data, i);
        return data[..i];
      }
      i := i - 1;
    }
    NoStartInReach(data, i);
    return data;
  }

  method ClipBytes(s: seq<Byte>, max: int) returns (r: seq<Byte>)
    ensures max <= 0 ==> r == []
    ensures max > 0 && |s| <= max ==> r == s
    ensures 0 < max < |s| ==>
              exists k :: 0 <= k <= max && r == s[..k] && (k == 0 || RuneStart(s[k])) && forall j :: k < j <= max ==> Tail(s[j])
  {
    if max <= 0 {
      return [];
    }
    if |s| <= max {
      return s;
    }
    var k := max;
    while k > 0 && !RuneStart(s[k])
      invariant 0 <= k <= max
      invariant forall j :: k < j <= max ==> Tail(s[j])
    {
      k := k - 1;
    }
    return s[..k];
  }

  // ---- Characters ----

  /** No character is the beginning of another. */
  lemma CharUnique(s: seq<Byte>, a: nat, b: nat)
    requires a <= |s| && b <= |s| && IsChar(s[..a]) && IsChar(s[..b])
    ensures a == b == CharLen(s)
  {
  }

  lemma ShortIncomplete(s: seq<Byte>)
    requires Incomplete(s)
    ensures |s| <= 3 && RuneStart(s[0]) && (forall k :: 1 <= k < |s| ==> Tail(s[k])) && CharLen(s) == 0 && !FullRune(s)
  {
    var rest: seq<Byte> :| rest != [] && IsChar(s + rest);
    var c := s + rest;
    assert forall k | 0 <= k < |s| :: c[k] == s[k];
  }

  /** What is not a full rune can be completed. */
  lemma Completable(s: seq<Byte>)
    requires s != [] && !FullRune(s)
    ensures Incomplete(s)
  {
    var second: Byte := if s[0] == 0xE0 then 0xA0 else if s[0] == 0xF0 then 0x90 else 0x80;
    var rest: seq<Byte> :=
      if |s| == 1 then (if Need(s[0]) == 2 then [second] else if Need(s[0]) == 3 then [second, 0x80] else [second, 0x80, 0x80])
      else if |s| == 2 then (if Need(s[0]) == 3 then [0x80] else [0x80, 0x80])
      else [0x80];
    assert IsChar(s + rest);
  }

  // ---- The longest valid prefix ----

  lemma {:induction false} ValidPrefix(s: seq<Byte>)
    ensures Valid(s[..ValidLength(s)]) && CharLen(s[ValidLength(s)..]) == 0
    decreases |s|
  {
    var n := CharLen(s);
    if n > 0 {
      ValidPrefix(s[n..]);
      var v := ValidLength(s);
      assert s[..v][..n] == s[..n] && s[..v][n..] == s[n..][..v - n] && s[v..] == s[n..][v - n..];
      CharUnique(s[..v], n, n);
    } else {
      assert s[0..] == s;
    }
  }

  /** Parsing goes through a valid prefix first. */
  lemma {:induction false} ValidLengthSplits(s: seq<Byte>, i: nat)
    requires i <= |s| && Valid(s[..i])
    ensures ValidLength(s) == i + ValidLength(s[i..])
    decreases |s|
  {
    if i > 0 {
      var n := CharLen(s[..i]);
      assert s[..i][..n] == s[..n];
      CharUnique(s, n, n);
      assert s[..i][n..] == s[n..][..i - n];
      assert s[i..] == s[n..][i - n..];
      ValidLengthSplits(s[n..], i - n);
    } else {
      assert s[0..] == s;
    }
  }

  /** `ValidLength` marks the longest valid prefix. */
  lemma LongestValidPrefix(s: seq<Byte>, i: nat)
    requires i <= |s|
    ensures Valid(s[..ValidLength(s)])
    ensures Valid(s[..i]) ==> i <= ValidLength(s)
  {
    ValidPrefix(s);
    if Valid(s[..i]) {
      ValidLengthSplits(s, i);
    }
  }

  lemma ValidIffWhole(s: seq<Byte>)
    ensures Valid(s) <==> ValidLength(s) == |s|
    ensures Valid(s) ==> !Incomplete(s[ValidLength(s)..])
  {
    ValidPrefix(s);
    assert s[..|s|] == s;
    if Valid(s) {
      ValidLengthSplits(s, |s|);
    }
  }

  // ---- The scan from the end ----

  lemma Truncated(data: seq<Byte>, i: nat)
    requires i < |data| && Valid(data[..i]) && !FullRune(data[i..])
    ensures ValidLength(data) == i && Incomplete(data[i..])
  {
    ValidLengthSplits(data, i);
    Completable(data[i..]);
    ShortIncomplete(data[i..]);
  }

  lemma NotTruncated(data: seq<Byte>, i: nat)
    requires i < |data| && RuneStart(data[i]) && (forall k :: i < k < |data| ==> Tail(data[k]))
    requires !Valid(data[..i]) || FullRune(data[i..])
    ensures !Incomplete(data[ValidLength(data)..])
  {
    var v := ValidLength(data);
    ValidPrefix(data);
    assert v < i ==> data[v..][i - v] == data[i];
    if Incomplete(data[v..]) {
      ShortIncomplete(data[v..]);
    }
  }

  lemma NoStartInReach(data: seq<Byte>, i: int)
    requires -1 <= i < |data| && (i < 0 || |data| - i > 4) && forall k :: i < k < |data| ==> Tail(data[k])
    ensures !Incomplete(data[ValidLength(data)..])
  {
    var v := ValidLength(data);
    assert v < |data| ==> data[v..][0] == data[v];
    if Incomplete(data[v..]) {
      ShortIncomplete(data[v..]);
    }
  }

  // ---- On valid text ----

  /** What is left of a valid text that was cut anywhere, behind its longest valid prefix, is nothing or an incomplete
      character. */
  lemma CutText(text: seq<Byte>, n: nat)
    requires n <= |text| && Valid(text)
    ensures var v := ValidLength(text[..n]); v == n || Incomplete(text[v..n])
  {
    var v := ValidLength(text[..n]);
    hide IsChar, CharLen, Valid, ValidLength, Incomplete;
    ValidPrefix(text[..n]);
    Slices(text, v, n);
    if v < n {
      CutRest(text, v, n);
    }
  }

  lemma CutRest(text: seq<Byte>, v: nat, n: nat)
    requires v < n <= |text| && Valid(text) && Valid(text[..v]) && CharLen(text[v..n]) == 0
    ensures Incomplete(text[v..n])
  {
    hide IsChar, CharLen, Valid, ValidLength, Incomplete;
    ValidIffWhole(text);
    ValidLengthSplits(text, v);
    BeginsWithChar(text[v..]);
    Slices(text, v, n);
    CutChar(text[v..], n - v);
  }

  lemma Slices(text: seq<Byte>, v: nat, n: nat)
    requires v <= n <= |text|
    ensures text[..n][..v] == text[..v] && text[..n][v..] == text[v..n] && text[v..][..n - v] == text[v..n]
  {
  }

  lemma BeginsWithChar(text: seq<Byte>)
    requires text != [] && ValidLength(text) == |text|
    ensures CharLen(text) > 0
  {
  }

  /** A beginning of a text that begins with a character, but that itself does not, is part of that character. */
  lemma CutChar(text: seq<Byte>, n: nat)
    requires 0 < n <= |text| && CharLen(text) > 0 && CharLen(text[..n]) == 0
    ensures Incomplete(text[..n])
  {
    var c := CharLen(text);
    assert c <= n ==> text[..n][..c] == text[..c];
    assert c > n by {
      if c <= n {
        CharUnique(text[..n], c, c);
      }
    }
    assert text[..n] + text[n..c] == text[..c];
  }

  /** From any byte prefix of a valid text the trim keeps the longest valid prefix, at most three bytes shorter. */
  lemma TrimKeepsLongestPrefix(text: seq<Byte>, n: nat)
    requires n <= |text| && Valid(text)
    ensures var data := text[..n];
            var v := ValidLength(data);
            var trimmed := if Incomplete(data[v..]) then data[..v] else data;
      && trimmed == data[..v] && Valid(trimmed) && n - v <= 3
      && forall i :: 0 <= i <= n && Valid(data[..i]) ==> i <= |trimmed|
  {
    var data := text[..n];
    var v := ValidLength(data);
    CutText(text, n);
    assert data[v..] == text[v..n] && (v == n ==> data[..v] == data);
    if v < n {
      ShortIncomplete(data[v..]);
    }
    forall i | 0 <= i <= n ensures Valid(data[..i]) ==> i <= v {
      LongestValidPrefix(data, i);
    }
    ValidPrefix(data);
  }

  /** In a valid text the places where a character starts are exactly those it can be cut at. */
  lemma {:induction false} CutsAtStarts(text: seq<Byte>, k: nat)
    requires k < |text| && Valid(text)
    ensures Valid(text[..k]) <==> RuneStart(text[k])
    decreases |text|
  {
    var n := CharLen(text);
    if k < n {
      WithinChar(text, k);
    } else {
      assert text[..k][..n] == text[..n];
      CharUnique(text[..k], n, n);
      assert text[..k][n..] == text[n..][..k - n];
      CutsAtStarts(text[n..], k - n);
    }
  }

  lemma WithinChar(text: seq<Byte>, k: nat)
    requires k < CharLen(text)
    ensures Valid(text[..k]) <==> RuneStart(text[k])
  {
    var n := CharLen(text);
    assert text[..n][k] == text[k];
    if k > 0 {
      var m := CharLen(text[..k]);
      assert text[..k][..m] == text[..m];
      if m > 0 {
        CharUnique(text, m, n);
      }
    }
  }

  /** Clipping a valid text leaves the longest valid prefix that fits: valid, and less than four bytes below the bound. */
  lemma ClipKeepsText(text: seq<Byte>, max: int, k: nat)
    requires Valid(text) && 0 < max < |text| && k <= max
    requires (k == 0 || RuneStart(text[k])) && forall j :: k < j <= max ==> Tail(text[j])
    ensures Valid(text[..k]) && max - k < 4
    ensures forall i :: 0 <= i <= max && Valid(text[..i]) ==> i <= k
  {
    if k == 0 {
      assert text[..0] == [];
    } else {
      CutsAtStarts(text, k);
    }
    forall i | 0 <= i <= max ensures Valid(text[..i]) ==> i <= k {
      CutsAtStarts(text, i);
    }
    ValidIffWhole(text);
    ValidLengthSplits(text, k);
    var c := CharLen(text[k..]);
    assert k + c < |text| ==> text[k..][c] == text[k + c];
    ValidIffWhole(text[k..]);
    CharStartsAfter(text[k..]);
  }

  lemma CharStartsAfter(text: seq<Byte>)
    requires Valid(text) && text != []
    ensures CharLen(text) < |text| ==> RuneStart(text[CharLen(text)])
  {
    var rest := text[CharLen(text)..];
    assert rest != [] ==> CharLen(rest) > 0;
  }
}
