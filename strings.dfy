/**
 * The parts of Python's `str` behaviour the modelled code relies on:
 * `in`, `find`, `count`, `split`, `strip`, `join`, `lower`, the `\s+`
 * collapse used after every extraction, and `str(int)`.
 */
module Strings {

  /** Python's `str.isspace()` for one character (the Unicode whitespace set). */
  predicate IsSpace(c: char) {
    || ('\t' <= c <= '\r')
    || ('\U{1C}' <= c <= ' ')
    || c == '\U{85}' || c == '\U{A0}' || c == '\U{1680}'
    || ('\U{2000}' <= c <= '\U{200A}')
    || c == '\U{2028}' || c == '\U{2029}' || c == '\U{202F}'
    || c == '\U{205F}' || c == '\U{3000}'
  }

  predicate AllSpace(s: string) {
    forall k :: 0 <= k < |s| ==> IsSpace(s[k])
  }

  predicate IsPrefix(p: string, s: string) {
    |p| <= |s| && s[..|p|] == p
  }

  /** `p` occurs in `s` starting at index `k`. */
  predicate Occurs(s: string, p: string, k: int) {
    0 <= k && k + |p| <= |s| && s[k..k + |p|] == p
  }

  /** Python's `s.find(p)`: the lowest index where `p` occurs, or -1. */
  function Find(s: string, p: string): (r: int)
    ensures -1 <= r
    ensures r >= 0 ==> Occurs(s, p, r)
    ensures forall k :: 0 <= k && (r < 0 || k < r) ==> !Occurs(s, p, k)
    decreases |s|
  {
    if IsPrefix(p, s) then 0
    else if |s| == 0 then -1
    else
      var r := Find(s[1..], p);
      assert forall k :: 1 <= k ==> (Occurs(s, p, k) <==> Occurs(s[1..], p, k - 1)) by {
        forall k | 1 <= k ensures Occurs(s, p, k) <==> Occurs(s[1..], p, k - 1) {
          if k + |p| <= |s| {
            assert s[1..][k - 1..k - 1 + |p|] == s[k..k + |p|];
          }
        }
      }
      if r < 0 then -1 else r + 1
  }

  /** Python's `p in s`. */
  predicate Contains(s: string, p: string) {
    Find(s, p) >= 0
  }

  lemma OccursContains(s: string, p: string, k: int)
    requires Occurs(s, p, k)
    ensures Contains(s, p)
  {
  }

  lemma {:induction false} PrefixContains(s: string, p: string, t: string)
    requires Contains(s, p)
    ensures Contains(s + t, p) && Contains(t + s, p)
  {
    var k := Find(s, p);
    assert (s + t)[k..k + |p|] == s[k..k + |p|];
    OccursContains(s + t, p, k);
    assert (t + s)[|t| + k..|t| + k + |p|] == s[k..k + |p|];
    OccursContains(t + s, p, |t| + k);
  }

  /** Python's `any(p in s for p in pats)`. */
  predicate AnyIn(pats: seq<string>, s: string) {
    exists i :: 0 <= i < |pats| && Contains(s, pats[i])
  }

  /** A substring match survives putting text around the searched string. */
  lemma {:induction false} AnyInExtended(pats: seq<string>, d: string, a: string, b: string)
    requires AnyIn(pats, d)
    ensures AnyIn(pats, a + d + b)
  {
    var i :| 0 <= i < |pats| && Contains(d, pats[i]);
    PrefixContains(d, pats[i], b);
    PrefixContains(d + b, pats[i], a);
    assert a + (d + b) == a + d + b;
  }

  /** ASCII lower-casing, the part of `str.lower()` the URL tables need. */
  function LowerChar(c: char): (r: char)
    ensures 'A' <= c <= 'Z' ==> 'a' <= r <= 'z'
    ensures !('A' <= c <= 'Z') ==> r == c
  {
    if 'A' <= c <= 'Z' then (c as int + 32) as char else c
  }

  function Lower(s: string): (r: string)
    ensures |r| == |s|
    ensures forall k :: 0 <= k < |s| ==> r[k] == LowerChar(s[k])
  {
    seq(|s|, k requires 0 <= k < |s| => LowerChar(s[k]))
  }

  lemma AllSpaceConcat(a: string, b: string)
    ensures AllSpace(a + b) <==> AllSpace(a) && AllSpace(b)
  {
    if AllSpace(a + b) {
      forall k | 0 <= k < |a| ensures IsSpace(a[k]) { assert a[k] == (a + b)[k]; }
      forall k | 0 <= k < |b| ensures IsSpace(b[k]) { assert b[k] == (a + b)[|a| + k]; }
    }
  }

  /** Drop the leading whitespace, like `s.lstrip()`. */
  function TrimLeft(s: string): (r: string)
    ensures |r| <= |s| && r == s[|s| - |r|..]
    ensures r == [] || !IsSpace(r[0])
    ensures AllSpace(s[..|s| - |r|])
    decreases |s|
  {
    if |s| > 0 && IsSpace(s[0]) then
      var r := TrimLeft(s[1..]);
      assert s[..|s| - |r|] == [s[0]] + s[1..][..|s| - 1 - |r|];
      AllSpaceConcat([s[0]], s[1..][..|s| - 1 - |r|]);
      r
    else s
  }

  /** Drop the trailing whitespace, like `s.rstrip()`. */
  function TrimRight(s: string): (r: string)
    ensures |r| <= |s| && r == s[..|r|]
    ensures r == [] || !IsSpace(r[|r| - 1])
    ensures AllSpace(s[|r|..])
    decreases |s|
  {
    if |s| > 0 && IsSpace(s[|s| - 1]) then
      var r := TrimRight(s[..|s| - 1]);
      assert s[|r|..] == s[..|s| - 1][|r|..] + [s[|s| - 1]];
      AllSpaceConcat(s[..|s| - 1][|r|..], [s[|s| - 1]]);
      r
    else s
  }

  /** Python's `s.strip()`. */
  function Strip(s: string): (r: string)
    ensures |r| <= |s|
    ensures r == [] || (!IsSpace(r[0]) && !IsSpace(r[|r| - 1]))
  {
    TrimRight(TrimLeft(s))
  }

  /** The stripped text is a contiguous piece of the original. */
  lemma StripSlice(s: string) returns (i: nat)
    ensures i + |Strip(s)| <= |s|
    ensures Strip(s) == s[i..i + |Strip(s)|]
  {
    var l := TrimLeft(s);
    var r := TrimRight(l);
    i := |s| - |l|;
    assert r == l[..|r|];
    assert l == s[i..];
    assert s[i..][..|r|] == s[i..i + |r|];
  }

  /** Stripping leaves nothing exactly when the text is all whitespace. */
  lemma {:induction false} StripEmpty(s: string)
    ensures Strip(s) == [] <==> AllSpace(s)
  {
    var l := TrimLeft(s);
    var r := TrimRight(l);
    assert s == s[..|s| - |l|] + l;
    AllSpaceConcat(s[..|s| - |l|], l);
    assert r == [] ==> l[|r|..] == l;
    assert l != [] ==> l[0] == s[|s| - |l|];
  }

  /** No two adjacent spaces. */
  ghost predicate NoDoubleSpace(s: string) {
    forall j, k :: 0 <= j < k < |s| && k == j + 1 ==> !(s[j] == ' ' && s[k] == ' ')
  }

  /** `re.sub(r'\s+', ' ', s)`: every run of whitespace becomes one space. */
  function CollapseRuns(s: string): (r: string)
    ensures forall k :: 0 <= k < |r| && IsSpace(r[k]) ==> r[k] == ' '
    ensures NoDoubleSpace(r)
    ensures |r| > 0 && r[0] == ' ' ==> |s| > 0 && IsSpace(s[0])
    ensures AllSpace(r) <==> AllSpace(s)
    decreases |s|
  {
    if s == [] then []
    else if IsSpace(s[0]) then
      var t := TrimLeft(s);
      var c := CollapseRuns(t);
      assert s == s[..|s| - |t|] + t;
      AllSpaceConcat(s[..|s| - |t|], t);
      AllSpaceConcat([' '], c);
      [' '] + c
    else
      var c := CollapseRuns(s[1..]);
      assert !AllSpace(s) && !AllSpace([s[0]] + c) by {
        assert ([s[0]] + c)[0] == s[0];
      }
      [s[0]] + c
  }

  /**
   * `re.sub(r'\s+', ' ', s).strip()`: the clean-up applied to every
   * extracted page text.
   */
  function Normalize(s: string): (r: string)
    ensures r == [] <==> AllSpace(s)
  {
    StripEmpty(CollapseRuns(s));
    Strip(CollapseRuns(s))
  }

  /** The normalized text has no whitespace but single inner spaces. */
  ghost predicate IsNormal(s: string) {
    && (forall k :: 0 <= k < |s| && IsSpace(s[k]) ==> s[k] == ' ')
    && NoDoubleSpace(s)
    && (s == [] || (s[0] != ' ' && s[|s| - 1] != ' '))
  }

  lemma NormalizeIsNormal(s: string)
    ensures IsNormal(Normalize(s))
  {
    var c := CollapseRuns(s);
    var i := StripSlice(c);
    StripKeepsSpaces(c, i);
    StripKeepsNoDouble(c, i);
  }

  lemma StripKeepsSpaces(c: string, i: nat)
    requires i + |Strip(c)| <= |c| && Strip(c) == c[i..i + |Strip(c)|]
    requires forall k :: 0 <= k < |c| && IsSpace(c[k]) ==> c[k] == ' '
    ensures forall k :: 0 <= k < |Strip(c)| && IsSpace(Strip(c)[k]) ==> Strip(c)[k] == ' '
  {
    var r := Strip(c);
    forall k | 0 <= k < |r| && IsSpace(r[k]) ensures r[k] == ' ' {
      assert r[k] == c[i + k];
    }
  }

  lemma StripKeepsNoDouble(c: string, i: nat)
    requires i + |Strip(c)| <= |c| && Strip(c) == c[i..i + |Strip(c)|]
    requires NoDoubleSpace(c)
    ensures NoDoubleSpace(Strip(c))
  {
    var r := Strip(c);
    forall j, k | 0 <= j < k < |r| && k == j + 1 ensures !(r[j] == ' ' && r[k] == ' ') {
      assert r[j] == c[i + j] && r[k] == c[i + k];
    }
  }

  /** Python's `sep.join(parts)`. */
  function Join(sep: string, parts: seq<string>): string
    decreases |parts|
  {
    if |parts| == 0 then ""
    else if |parts| == 1 then parts[0]
    else parts[0] + sep + Join(sep, parts[1..])
  }

  /** An occurrence inside a prefix of `s` is an occurrence in `s`. */
  lemma OccursInPrefix(s: string, p: string, i: nat, k: int)
    requires i <= |s|
    ensures Occurs(s[..i], p, k) ==> Occurs(s, p, k)
  {
    if 0 <= k && k + |p| <= i {
      assert s[..i][k..k + |p|] == s[k..k + |p|];
    }
  }

  /** Occurrences in `s[1..]` are the occurrences in `s` shifted by one. */
  lemma OccursInTail(s: string, p: string, k: int)
    requires |s| > 0
    ensures 0 <= k ==> (Occurs(s[1..], p, k) <==> Occurs(s, p, k + 1))
  {
    if 0 <= k && k + 1 + |p| <= |s| {
      assert s[1..][k..k + |p|] == s[k + 1..k + 1 + |p|];
    }
  }

  /** Python's `s.split(sep)` for a non-empty separator. */
  function SplitOn(s: string, sep: string): (r: seq<string>)
    requires |sep| > 0
    ensures |r| >= 1
    ensures forall k :: 0 <= k < |r| ==> !Contains(r[k], sep)
    decreases |s|
  {
    var i := Find(s, sep);
    if i < 0 then [s]
    else
      var head := s[..i];
      var j := Find(head, sep);
      OccursInPrefix(s, sep, i, j);
      assert !Contains(head, sep);
      var tail := SplitOn(s[i + |sep|..], sep);
      assert forall k :: 1 <= k < |tail| + 1 ==> ([head] + tail)[k] == tail[k - 1];
      [head] + tail
  }

  /** Joining the pieces of a split with the separator gives back the string. */
  lemma {:induction false} SplitOnJoin(s: string, sep: string)
    requires |sep| > 0
    ensures Join(sep, SplitOn(s, sep)) == s
    decreases |s|
  {
    var i := Find(s, sep);
    if i >= 0 {
      var rest := s[i + |sep|..];
      var tail := SplitOn(rest, sep);
      SplitOnJoin(rest, sep);
      assert SplitOn(s, sep) == [s[..i]] + tail;
      assert ([s[..i]] + tail)[1..] == tail;
      assert Join(sep, [s[..i]] + tail) == s[..i] + sep + Join(sep, tail);
      assert s == s[..i] + sep + rest;
    }
  }

  /** The maximal run of non-whitespace characters at the front of `s`. */
  function WordPrefix(s: string): (w: string)
    ensures |w| <= |s| && w == s[..|w|]
    ensures forall k :: 0 <= k < |w| ==> !IsSpace(w[k])
    ensures |w| == |s| || IsSpace(s[|w|])
    ensures |s| > 0 && !IsSpace(s[0]) ==> |w| > 0
    decreases |s|
  {
    if |s| == 0 || IsSpace(s[0]) then "" else [s[0]] + WordPrefix(s[1..])
  }

  /** Python's `s.split()`: the maximal non-whitespace runs, in order. */
  function Words(s: string): (r: seq<string>)
    ensures forall k :: 0 <= k < |r| ==> |r[k]| > 0
    ensures r == [] <==> AllSpace(s)
    decreases |s|
  {
    if s == [] then []
    else if IsSpace(s[0]) then
      assert s == [s[0]] + s[1..];
      AllSpaceConcat([s[0]], s[1..]);
      Words(s[1..])
    else
      var w := WordPrefix(s);
      var rest := Words(s[|w|..]);
      assert forall k :: 1 <= k < |rest| + 1 ==> ([w] + rest)[k] == rest[k - 1];
      [w] + rest
  }

  /** Python's `s.count(p)` for a non-empty `p`: non-overlapping occurrences, left to right. */
  function Count(s: string, p: string): (n: nat)
    requires |p| > 0
    ensures n > 0 <==> Contains(s, p)
    ensures n <= |s|
    decreases |s|
  {
    if |s| < |p| then 0
    else if s[..|p|] == p then
      assert Occurs(s, p, 0);
      1 + Count(s[|p|..], p)
    else
      var n := Count(s[1..], p);
      var j := Find(s[1..], p);
      OccursInTail(s, p, j);
      OccursInTail(s, p, Find(s, p) - 1);
      n
  }

  function DigitChar(d: nat): char
    requires d < 10
  {
    "0123456789"[d]
  }

  /** Python's `str(n)` for a natural number. */
  function NatToString(n: nat): (r: string)
    ensures |r| >= 1
    ensures forall k :: 0 <= k < |r| ==> '0' <= r[k] <= '9'
    decreases n
  {
    if n < 10 then [DigitChar(n)] else NatToString(n / 10) + [DigitChar(n % 10)]
  }

  /** Python's `str(i)` for any integer. */
  function IntToString(i: int): (r: string)
    ensures |r| >= 1
  {
    if i < 0 then "-" + NatToString(-i) else NatToString(i)
  }
}
