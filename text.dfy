/**
 * Python `str` operations the service relies on, written out over `seq<char>`:
 * `find`, `rfind`, slicing with negative and out-of-range bounds, `strip`,
 * `lower`, `title`, `endswith`, one-character `replace` and `str(n)` for a
 * non-negative integer.
 */
module Text {

  /** `s[i:i+len(pat)] == pat` with `i` a real position of `s`. */
  predicate IsAt(s: string, pat: string, i: int) {
    0 <= i && i + |pat| <= |s| && s[i..i + |pat|] == pat
  }

  /** Python `pat in s`. */
  predicate Contains(s: string, pat: string) {
    exists i | 0 <= i <= |s| - |pat| :: IsAt(s, pat, i)
  }

  /** Python `s.find(pat, start)`: the lowest position at or after `start`, or -1. */
  function FindFrom(s: string, pat: string, start: nat): (r: int)
    ensures r == -1 || start <= r
    decreases |s| - start
  {
    if start + |pat| > |s| then -1
    else if IsAt(s, pat, start) then start
    else FindFrom(s, pat, start + 1)
  }

  /** Python `s.find(pat)`. */
  function Find(s: string, pat: string): (r: int)
    ensures -1 <= r
  {
    FindFrom(s, pat, 0)
  }

  /** `find` returns the first occurrence at or after `start`, and -1 exactly when there is none. */
  lemma {:induction false} FindFromIsFirst(s: string, pat: string, start: nat)
    ensures FindFrom(s, pat, start) == -1 <==> (forall i :: start <= i ==> !IsAt(s, pat, i))
    ensures FindFrom(s, pat, start) != -1 ==>
      start <= FindFrom(s, pat, start) && IsAt(s, pat, FindFrom(s, pat, start)) &&
      forall i :: start <= i < FindFrom(s, pat, start) ==> !IsAt(s, pat, i)
    decreases |s| - start
  {
    if start + |pat| > |s| {
    } else if IsAt(s, pat, start) {
    } else {
      FindFromIsFirst(s, pat, start + 1);
    }
  }

  /** `find` from 0 succeeds exactly when the pattern occurs, at its first occurrence. */
  lemma FindIsFirst(s: string, pat: string)
    ensures Find(s, pat) >= 0 <==> Contains(s, pat)
    ensures Contains(s, pat) ==>
      IsAt(s, pat, Find(s, pat)) && forall i :: 0 <= i < Find(s, pat) ==> !IsAt(s, pat, i)
  {
    FindFromIsFirst(s, pat, 0);
  }

  /** Search downwards from position `i` for the last occurrence. */
  function RFindFrom(s: string, pat: string, i: int): (r: int)
    ensures r == -1 || 0 <= r <= i
    decreases i + 1
  {
    if i < 0 then -1
    else if IsAt(s, pat, i) then i
    else RFindFrom(s, pat, i - 1)
  }

  /** Python `s.rfind(pat)`: the highest position of `pat`, or -1. */
  function RFind(s: string, pat: string): (r: int)
    ensures -1 <= r
  {
    RFindFrom(s, pat, |s| - |pat|)
  }

  lemma {:induction false} RFindFromIsLast(s: string, pat: string, i: int)
    ensures RFindFrom(s, pat, i) == -1 <==> (forall j :: j <= i ==> !IsAt(s, pat, j))
    ensures RFindFrom(s, pat, i) != -1 ==>
      RFindFrom(s, pat, i) <= i && IsAt(s, pat, RFindFrom(s, pat, i)) &&
      forall j :: RFindFrom(s, pat, i) < j <= i ==> !IsAt(s, pat, j)
    decreases i + 1
  {
    if i < 0 {
      assert RFindFrom(s, pat, i) == -1;
    } else if IsAt(s, pat, i) {
      assert RFindFrom(s, pat, i) == i;
    } else {
      RFindFromIsLast(s, pat, i - 1);
      assert RFindFrom(s, pat, i) == RFindFrom(s, pat, i - 1);
    }
  }

  /** `rfind` returns the last occurrence, and -1 exactly when there is none. */
  lemma RFindIsLast(s: string, pat: string)
    ensures RFind(s, pat) >= 0 <==> Contains(s, pat)
    ensures Contains(s, pat) ==>
      IsAt(s, pat, RFind(s, pat)) && forall j :: RFind(s, pat) < j ==> !IsAt(s, pat, j)
  {
    RFindFromIsLast(s, pat, |s| - |pat|);
    assert forall j :: IsAt(s, pat, j) ==> j <= |s| - |pat|;
  }

  /** How Python turns a slice bound into a position of a sequence of length `n`. */
  function SliceBound(k: int, n: nat): (r: nat)
    ensures r <= n
  {
    if k < 0 then (if k + n < 0 then 0 else k + n)
    else if k > n then n
    else k
  }

  /** Python `s[i:j]`: negative bounds count from the end, and the result is empty when they cross. */
  function Slice(s: string, i: int, j: int): string {
    var a, b := SliceBound(i, |s|), SliceBound(j, |s|);
    if a < b then s[a..b] else []
  }

  /** Python `s[:n]` for `n >= 0`: the first `n` characters, or all of `s` when shorter. */
  function Take(s: string, n: nat): (r: string)
    ensures |r| <= n && |r| <= |s|
    ensures r <= s
    ensures |s| <= n ==> r == s
  {
    Slice(s, 0, n)
  }

  /** The characters Python's `str.isspace` accepts (the code points `strip()` removes). */
  predicate IsSpace(c: char) {
    c == ' ' || ('\t' <= c <= '\r') || ('\U{1c}' <= c <= '\U{1f}') ||
    c == '\U{85}' || c == '\U{a0}' || c == '\U{1680}' ||
    ('\U{2000}' <= c <= '\U{200a}') || c == '\U{2028}' || c == '\U{2029}' ||
    c == '\U{202f}' || c == '\U{205f}' || c == '\U{3000}'
  }

  function StripLeft(s: string): string {
    if |s| > 0 && IsSpace(s[0]) then StripLeft(s[1..]) else s
  }

  function StripRight(s: string): string {
    if |s| > 0 && IsSpace(s[|s| - 1]) then StripRight(s[..|s| - 1]) else s
  }

  /** Python `s.strip()`. */
  function Strip(s: string): string {
    StripRight(StripLeft(s))
  }

  /** Left-stripping drops a run of leading whitespace and stops at a non-space. */
  lemma {:induction false} StripLeftIsSuffix(s: string) returns (a: nat)
    ensures a <= |s| && StripLeft(s) == s[a..]
    ensures forall k :: 0 <= k < a ==> IsSpace(s[k])
    ensures StripLeft(s) != [] ==> !IsSpace(StripLeft(s)[0])
  {
    if |s| > 0 && IsSpace(s[0]) {
      var a' := StripLeftIsSuffix(s[1..]);
      a := a' + 1;
      assert s[1..][a'..] == s[a..];
      forall k | 0 <= k < a ensures IsSpace(s[k]) {
        if k > 0 { assert s[k] == s[1..][k - 1]; }
      }
    } else {
      a := 0;
    }
  }

  /** Right-stripping drops a run of trailing whitespace and stops at a non-space. */
  lemma {:induction false} StripRightIsPrefix(s: string) returns (b: nat)
    ensures b <= |s| && StripRight(s) == s[..b]
    ensures forall k :: b <= k < |s| ==> IsSpace(s[k])
    ensures StripRight(s) != [] ==> !IsSpace(StripRight(s)[|StripRight(s)| - 1])
  {
    if |s| > 0 && IsSpace(s[|s| - 1]) {
      var t := s[..|s| - 1];
      b := StripRightIsPrefix(t);
      assert t[..b] == s[..b];
      forall k | b <= k < |s| ensures IsSpace(s[k]) {
        if k < |t| { assert s[k] == t[k]; }
      }
    } else {
      b := |s|;
    }
  }

  /** Whitespace at the end of a suffix `s[a..]` is whitespace at the end of `s`. */
  lemma {:induction false} SpacesOfSuffix(s: string, a: nat, b: nat)
    requires a <= |s| && b <= |s| - a
    requires forall k :: b <= k < |s| - a ==> IsSpace(s[a..][k])
    ensures forall k :: a + b <= k < |s| ==> IsSpace(s[k])
  {
    forall k | a + b <= k < |s| ensures IsSpace(s[k]) {
      assert s[k] == s[a..][k - a];
    }
  }

  /** `strip()` returns a contiguous piece of its input that neither starts nor ends with whitespace, and
      everything cut away is whitespace. */
  lemma {:induction false} StripIsTrimmedInfix(s: string)
    ensures exists a, b :: (0 <= a <= b <= |s| && Strip(s) == s[a..b] &&
                            (forall k :: 0 <= k < a ==> IsSpace(s[k])) &&
                            forall k :: b <= k < |s| ==> IsSpace(s[k]))
    ensures Strip(s) != [] ==> !IsSpace(Strip(s)[0]) && !IsSpace(Strip(s)[|Strip(s)| - 1])
  {
    var a := StripLeftIsSuffix(s);
    var t := StripLeft(s);
    var n := StripRightIsPrefix(t);
    assert t[..n] == s[a..a + n];
    SpacesOfSuffix(s, a, n);
    if Strip(s) != [] {
      assert Strip(s)[0] == t[0];
    }
    assert Strip(s) == s[a..a + n];
  }

  predicate IsUpperAscii(c: char) { 'A' <= c <= 'Z' }
  predicate IsLowerAscii(c: char) { 'a' <= c <= 'z' }

  function LowerChar(c: char): char {
    if IsUpperAscii(c) then (c as int + 32) as char else c
  }

  function UpperChar(c: char): char {
    if IsLowerAscii(c) then (c as int - 32) as char else c
  }

  /** Python `s.lower()` on the ASCII letters. */
  function Lower(s: string): (r: string)
    ensures |r| == |s|
    ensures forall k :: 0 <= k < |s| ==> r[k] == LowerChar(s[k])
  {
    seq(|s|, k requires 0 <= k < |s| => LowerChar(s[k]))
  }

  /** Python `s.title()` on ASCII: a letter after a letter is lowered, any other letter is raised. */
  function TitleAfter(s: string, afterLetter: bool): (r: string)
    ensures |r| == |s|
  {
    if s == [] then []
    else
      var c := s[0];
      [if afterLetter then LowerChar(c) else UpperChar(c)] +
      TitleAfter(s[1..], IsUpperAscii(c) || IsLowerAscii(c))
  }

  function Title(s: string): string {
    TitleAfter(s, false)
  }

  /** Every character of a title-cased text is its input's character with at most its case changed, and a
      letter that starts the text or follows a non-letter is upper case. */
  lemma {:induction false} TitleAfterAt(s: string, afterLetter: bool, k: nat)
    requires k < |s|
    ensures var prev := if k == 0 then afterLetter else IsUpperAscii(s[k - 1]) || IsLowerAscii(s[k - 1]);
      TitleAfter(s, afterLetter)[k] == (if prev then LowerChar(s[k]) else UpperChar(s[k]))
  {
    if k > 0 {
      TitleAfterAt(s[1..], IsUpperAscii(s[0]) || IsLowerAscii(s[0]), k - 1);
      if k >= 2 { assert s[1..][k - 2] == s[k - 1]; }
    }
  }

  /** Python `s.replace(old, new)` for one-character `old` and `new`. */
  function ReplaceChar(s: string, from: char, to: char): (r: string)
    ensures |r| == |s|
    ensures forall k :: 0 <= k < |s| ==> r[k] == (if s[k] == from then to else s[k])
  {
    seq(|s|, k requires 0 <= k < |s| => if s[k] == from then to else s[k])
  }

  /** Python `s.endswith(suffix)`. */
  predicate EndsWith(s: string, suffix: string) {
    |suffix| <= |s| && s[|s| - |suffix|..] == suffix
  }

  function DigitChar(d: nat): char
    requires d < 10
  {
    "0123456789"[d]
  }

  /** Python `str(n)` for `n >= 0`: decimal digits, no leading zero. */
  function NatToString(n: nat): (r: string)
    ensures |r| >= 1
    ensures forall k :: 0 <= k < |r| ==> '0' <= r[k] <= '9'
    decreases n
  {
    if n < 10 then [DigitChar(n)] else NatToString(n / 10) + [DigitChar(n % 10)]
  }

  /** Python `str(i)` for any integer: a minus sign before the digits of a negative number. */
  function IntToString(i: int): (r: string)
    ensures |r| >= 1
    ensures r[0] == '-' <==> i < 0
    ensures i >= 0 ==> r == NatToString(i)
  {
    if i < 0 then "-" + NatToString(-i) else NatToString(i)
  }

  /** Reading the decimal digits back gives the number, so `str(n)` is one-to-one. */
  function DigitsValue(s: string): int
    decreases |s|
  {
    if s == [] then 0 else DigitsValue(s[..|s| - 1]) * 10 + (s[|s| - 1] as int - '0' as int)
  }

  lemma {:induction false} NatToStringRoundTrip(n: nat)
    ensures DigitsValue(NatToString(n)) == n
    decreases n
  {
    if n >= 10 {
      NatToStringRoundTrip(n / 10);
      var r := NatToString(n);
      assert r[..|r| - 1] == NatToString(n / 10);
    }
  }

  lemma NatToStringInjective(m: nat, n: nat)
    requires NatToString(m) == NatToString(n)
    ensures m == n
  {
    NatToStringRoundTrip(m);
    NatToStringRoundTrip(n);
  }
}
