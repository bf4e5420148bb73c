/**
 * The few JavaScript string primitives the core relies on:
 * `String.prototype.trim`, `.length` (UTF-16 code units),
 * `.toLowerCase()` (ASCII letters only) and `.includes`.
 * Strings are sequences of Unicode scalar values.
 */
module JsText {

  /** ECMAScript LineTerminator: the characters `.` in a regular expression does not match. */
  predicate IsLineTerminator(c: char) {
    c == '\n' || c == '\r' || c == '\U{2028}' || c == '\U{2029}'
  }

  /** ECMAScript WhiteSpace or LineTerminator: what `trim` strips from both ends. */
  predicate IsTrimmable(c: char) {
    IsLineTerminator(c) ||
    c == '\t' || c == '\U{B}' || c == '\U{C}' || c == ' ' || c == '\U{A0}' || c == '\U{FEFF}' ||
    c == '\U{1680}' || ('\U{2000}' <= c <= '\U{200A}') || c == '\U{202F}' || c == '\U{205F}' || c == '\U{3000}'
  }

  predicate AllTrimmable(s: string) {
    forall i :: 0 <= i < |s| ==> IsTrimmable(s[i])
  }

  /** Neither end of `s` is trimmable: `trim` would leave it as it is. */
  predicate IsTrimmed(s: string) {
    s == [] || (!IsTrimmable(s[0]) && !IsTrimmable(s[|s| - 1]))
  }

  /** `s` with its leading trimmable characters removed. */
  function TrimStart(s: string): string {
    if s != [] && IsTrimmable(s[0]) then TrimStart(s[1..]) else s
  }

  /** `s` with its trailing trimmable characters removed. */
  function TrimEnd(s: string): string {
    if s != [] && IsTrimmable(s[|s| - 1]) then TrimEnd(s[..|s| - 1]) else s
  }

  /** `String.prototype.trim`: `s` without its leading and trailing trimmable characters. */
  function Trim(s: string): string {
    TrimEnd(TrimStart(s))
  }

  /** `TrimStart` keeps a suffix, drops only whitespace, and stops at the first kept character. */
  lemma {:induction false} TrimStartSpec(s: string)
    ensures var r := TrimStart(s);
      |r| <= |s| && r == s[|s| - |r|..] && AllTrimmable(s[..|s| - |r|]) && (r == [] || !IsTrimmable(r[0]))
  {
    if s != [] && IsTrimmable(s[0]) {
      TrimStartSpec(s[1..]);
      var r := TrimStart(s);
      assert s[..|s| - |r|] == [s[0]] + s[1..][..|s| - 1 - |r|];
    }
  }

  /** `TrimEnd` keeps a prefix, drops only whitespace, and stops at the last kept character. */
  lemma {:induction false} TrimEndSpec(s: string)
    ensures var r := TrimEnd(s);
      |r| <= |s| && r == s[..|r|] && AllTrimmable(s[|r|..]) && (r == [] || !IsTrimmable(r[|r| - 1]))
  {
    if s != [] && IsTrimmable(s[|s| - 1]) {
      TrimEndSpec(s[..|s| - 1]);
      var r := TrimEnd(s);
      assert s[|r|..] == s[..|s| - 1][|r|..] + [s[|s| - 1]];
    }
  }

  /**
   * `trim` keeps one infix of `s` whose ends are not whitespace, and what it
   * removes on either side is whitespace.
   */
  lemma TrimSpec(s: string)
    ensures IsTrimmed(Trim(s))
    ensures exists i, j :: 0 <= i <= j <= |s| && Trim(s) == s[i..j] && AllTrimmable(s[..i]) && AllTrimmable(s[j..])
  {
    var t := TrimStart(s);
    var r := TrimEnd(t);
    TrimStartSpec(s);
    TrimEndSpec(t);
    var i, j := |s| - |t|, |s| - |t| + |r|;
    assert r == s[i..j];
    assert s[j..] == t[|r|..];
    if r != [] {
      assert r[0] == t[0];
    }
  }

  /** At most one count of leading characters is all whitespace and followed by a kept character. */
  lemma DroppedCountUnique(s: string, d1: nat, d2: nat)
    requires d1 <= |s| && d2 <= |s|
    requires forall k :: 0 <= k < d1 ==> IsTrimmable(s[k])
    requires forall k :: 0 <= k < d2 ==> IsTrimmable(s[k])
    requires d1 == |s| || !IsTrimmable(s[d1])
    requires d2 == |s| || !IsTrimmable(s[d2])
    ensures d1 == d2
  {
  }

  /** At most one count of kept leading characters leaves only whitespace after a kept last character. */
  lemma KeptCountUnique(s: string, n1: nat, n2: nat)
    requires n1 <= |s| && n2 <= |s|
    requires forall k :: n1 <= k < |s| ==> IsTrimmable(s[k])
    requires forall k :: n2 <= k < |s| ==> IsTrimmable(s[k])
    requires n1 == 0 || !IsTrimmable(s[n1 - 1])
    requires n2 == 0 || !IsTrimmable(s[n2 - 1])
    ensures n1 == n2
  {
  }

  /** Any suffix of `s` that drops only trimmable characters and starts with a kept one is `TrimStart(s)`. */
  lemma {:induction false} TrimStartUnique(s: string, t: string)
    requires |t| <= |s| && t == s[|s| - |t|..]
    requires AllTrimmable(s[..|s| - |t|])
    requires t == [] || !IsTrimmable(t[0])
    ensures TrimStart(s) == t
  {
    TrimStartSpec(s);
    var r := TrimStart(s);
    forall k | 0 <= k < |s| - |r| ensures IsTrimmable(s[k]) {
      assert s[k] == s[..|s| - |r|][k];
    }
    forall k | 0 <= k < |s| - |t| ensures IsTrimmable(s[k]) {
      assert s[k] == s[..|s| - |t|][k];
    }
    if r != [] {
      assert r[0] == s[|s| - |r|];
    }
    if t != [] {
      assert t[0] == s[|s| - |t|];
    }
    DroppedCountUnique(s, |s| - |r|, |s| - |t|);
  }

  /** Any prefix of `s` that drops only trimmable characters and ends with a kept one is `TrimEnd(s)`. */
  lemma {:induction false} TrimEndUnique(s: string, t: string)
    requires |t| <= |s| && t == s[..|t|]
    requires AllTrimmable(s[|t|..])
    requires t == [] || !IsTrimmable(t[|t| - 1])
    ensures TrimEnd(s) == t
  {
    TrimEndSpec(s);
    var r := TrimEnd(s);
    forall k | |r| <= k < |s| ensures IsTrimmable(s[k]) {
      assert s[k] == s[|r|..][k - |r|];
    }
    forall k | |t| <= k < |s| ensures IsTrimmable(s[k]) {
      assert s[k] == s[|t|..][k - |t|];
    }
    if r != [] {
      assert r[|r| - 1] == s[|r| - 1];
    }
    if t != [] {
      assert t[|t| - 1] == s[|t| - 1];
    }
    KeptCountUnique(s, |r|, |t|);
  }

  /** Surrounding a string with whitespace does not change what `trim` returns. */
  lemma {:induction false} TrimIgnoresPadding(pre: string, s: string, post: string)
    requires AllTrimmable(pre) && AllTrimmable(post) && s != [] && IsTrimmed(s)
    ensures Trim(pre + s + post) == s
  {
    var whole := pre + s + post;
    assert whole[..|pre|] == pre;
    assert whole[|pre|..] == s + post;
    TrimStartUnique(whole, s + post);
    assert (s + post)[|s|..] == post;
    assert (s + post)[..|s|] == s;
    TrimEndUnique(s + post, s);
  }

  lemma AllTrimmableConcat(a: string, b: string)
    requires AllTrimmable(a) && AllTrimmable(b)
    ensures AllTrimmable(a + b)
  {
    forall k | 0 <= k < |a + b| ensures IsTrimmable((a + b)[k]) {
      if k >= |a| {
        assert (a + b)[k] == b[k - |a|];
      }
    }
  }

  /** A string of whitespace only trims to the empty string. */
  lemma TrimOfAllTrimmable(s: string)
    requires AllTrimmable(s)
    ensures Trim(s) == []
  {
    assert s[..|s|] == s;
    TrimStartUnique(s, []);
  }

  /** Cutting `s` at `i` and `j` and moving the outer pieces into the padding. */
  lemma Regroup(pre: string, s: string, i: nat, j: nat, post: string)
    requires i <= j <= |s|
    ensures pre + s + post == (pre + s[..i]) + s[i..j] + (s[j..] + post)
  {
    assert s == s[..i] + s[i..j] + s[j..];
  }

  /** Surrounding any string with whitespace does not change what `trim` returns. */
  lemma TrimIgnoresAnyPadding(pre: string, s: string, post: string)
    requires AllTrimmable(pre) && AllTrimmable(post)
    ensures Trim(pre + s + post) == Trim(s)
  {
    TrimSpec(s);
    var i, j :| 0 <= i <= j <= |s| && Trim(s) == s[i..j] && AllTrimmable(s[..i]) && AllTrimmable(s[j..]);
    var left, core, right := pre + s[..i], s[i..j], s[j..] + post;
    Regroup(pre, s, i, j, post);
    AllTrimmableConcat(pre, s[..i]);
    AllTrimmableConcat(s[j..], post);
    if core != [] {
      TrimIgnoresPadding(left, core, right);
    } else {
      assert left + core + right == left + right;
      AllTrimmableConcat(left, right);
      TrimOfAllTrimmable(left + right);
    }
  }

  /** A string whose ends are not whitespace is its own trim. */
  lemma TrimOfTrimmed(s: string)
    requires IsTrimmed(s)
    ensures Trim(s) == s
  {
    if s != [] {
      assert s == [] + s + [];
      TrimIgnoresPadding([], s, []);
    }
  }

  /** Characters outside the Basic Multilingual Plane take two UTF-16 code units. */
  function CodeUnits(c: char): (n: nat)
    ensures n == 1 || n == 2
    ensures n == 2 <==> c as int >= 0x1_0000
  {
    if c as int >= 0x1_0000 then 2 else 1
  }

  /** JavaScript's `length`: the number of UTF-16 code units. */
  function Utf16Length(s: string): (n: nat)
    ensures |s| <= n <= 2 * |s|
  {
    if s == [] then 0 else CodeUnits(s[0]) + Utf16Length(s[1..])
  }

  /** On text without astral characters (all ASCII text, say) JavaScript's length is the character count. */
  lemma {:induction false} Utf16LengthOfBmp(s: string)
    requires forall i :: 0 <= i < |s| ==> s[i] as int < 0x1_0000
    ensures Utf16Length(s) == |s|
  {
    if s != [] {
      Utf16LengthOfBmp(s[1..]);
    }
  }

  /** `toLowerCase` on one character, for the ASCII letters. */
  function LowerChar(c: char): (d: char)
    ensures 'A' <= c <= 'Z' ==> 'a' <= d <= 'z' && d as int - c as int == 32
    ensures !('A' <= c <= 'Z') ==> d == c
  {
    if 'A' <= c <= 'Z' then (c as int + 32) as char else c
  }

  function ToLower(s: string): (r: string)
    ensures |r| == |s| && forall i :: 0 <= i < |s| ==> r[i] == LowerChar(s[i])
  {
    seq(|s|, i requires 0 <= i < |s| => LowerChar(s[i]))
  }

  /** `sub` occurs in `s` at some position. */
  ghost predicate Occurs(s: string, sub: string) {
    exists i, j :: 0 <= i <= j <= |s| && j - i == |sub| && s[i..j] == sub
  }

  /** An occurrence is at the front of `s` or in the rest of it. */
  lemma OccursInTail(s: string, sub: string)
    requires |sub| <= |s| && s[..|sub|] != sub
    ensures Occurs(s, sub) <==> Occurs(s[1..], sub)
  {
    if Occurs(s, sub) {
      var i, j :| 0 <= i <= j <= |s| && j - i == |sub| && s[i..j] == sub;
      assert i != 0 by {
        assert s[0..|sub|] == s[..|sub|];
      }
      assert s[1..][i - 1..j - 1] == s[i..j];
    }
    if Occurs(s[1..], sub) {
      var i, j :| 0 <= i <= j <= |s| - 1 && j - i == |sub| && s[1..][i..j] == sub;
      assert s[i + 1..j + 1] == s[1..][i..j];
    }
  }

  /** `s.includes(sub)`, searching from the front. */
  function Includes(s: string, sub: string): (b: bool)
    ensures b <==> Occurs(s, sub)
    decreases |s|
  {
    if |sub| > |s| then false
    else if s[..|sub|] == sub then assert s[0..|sub|] == sub; true
    else OccursInTail(s, sub); Includes(s[1..], sub)
  }
}
