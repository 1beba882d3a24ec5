/** Text helpers shared by the client and the backend models: the JavaScript
    and Python string operations the source relies on, written out. */
module Strings {

  predicate StartsWith(s: string, prefix: string) {
    |prefix| <= |s| && s[..|prefix|] == prefix
  }

  predicate EndsWith(s: string, suffix: string) {
    |suffix| <= |s| && s[|s| - |suffix|..] == suffix
  }

  /** `needle` occurs in `s` starting at index `i`. */
  predicate MatchesAt(s: string, needle: string, i: int) {
    0 <= i <= |s| - |needle| && s[i..i + |needle|] == needle
  }

  /** `needle` occurs somewhere in `s`. */
  ghost predicate OccursIn(needle: string, s: string) {
    exists i :: MatchesAt(s, needle, i)
  }

  /** A match in `s` past its first character is a match in `s[1..]`, one
      place earlier. */
  lemma MatchShifts(s: string, needle: string, i: int)
    requires |s| > 0 && i >= 1
    ensures MatchesAt(s, needle, i) <==> MatchesAt(s[1..], needle, i - 1)
  {
    if 0 <= i - 1 <= |s| - 1 - |needle| {
      assert s[i..i + |needle|] == s[1..][i - 1..i - 1 + |needle|];
    }
  }

  /** JavaScript's `s.includes(needle)`. */
  function Includes(s: string, needle: string): (b: bool)
    ensures b <==> OccursIn(needle, s)
    decreases |s|
  {
    if |s| < |needle| then false
    else if s[..|needle|] == needle then
      assert MatchesAt(s, needle, 0);
      true
    else
      var b := Includes(s[1..], needle);
      if b then
        var i :| MatchesAt(s[1..], needle, i);
        MatchShifts(s, needle, i + 1);
        true
      else
        assert !OccursIn(needle, s) by {
          forall i | MatchesAt(s, needle, i)
            ensures false
          {
            assert i != 0;
            MatchShifts(s, needle, i);
          }
        }
        false
  }

  /** A text ending in a non-empty suffix ends in that suffix's last character. */
  lemma EndsWithLast(s: string, suffix: string)
    requires suffix != []
    ensures EndsWith(s, suffix) ==> |s| > 0 && s[|s| - 1] == suffix[|suffix| - 1]
  {
    if EndsWith(s, suffix) {
      assert s[|s| - |suffix|..][|suffix| - 1] == s[|s| - 1];
    }
  }

  /** JavaScript's `s.replace(/\/$/, "")`: one trailing slash removed, if any. */
  function DropTrailingSlash(s: string): (r: string)
    ensures |s| - 1 <= |r| <= |s|
    ensures r == s[..|r|]
    ensures |r| < |s| <==> EndsWith(s, "/")
  {
    if EndsWith(s, "/") then s[..|s| - 1] else s
  }

  /** The first `n` characters, like Python's `s[:n]` for `n >= 0`. */
  function Take(s: string, n: nat): (r: string)
    ensures |r| == if |s| <= n then |s| else n
    ensures r == s[..|r|]
  {
    if |s| <= n then s else s[..n]
  }

  /** Python's `str.lower()` restricted to ASCII letters. Python also maps
      the Kelvin sign to `k` and `İ` to `i` plus a combining dot; as neither
      `k` nor the combining dot occurs in the suffixes compared against (`.xlsx`,
      `.xls`, `.csv`), an ends-with test against them comes out as in Python. */
  function LowerChar(c: char): char {
    if 'A' <= c <= 'Z' then (c as int + 32) as char else c
  }

  function Lower(s: string): (r: string)
    ensures |r| == |s|
    ensures forall i :: 0 <= i < |s| ==> r[i] == LowerChar(s[i])
  {
    if s == [] then [] else [LowerChar(s[0])] + Lower(s[1..])
  }

  /** Python's `str.upper()` for the letters that can land in an ASCII upper-case
      word: ASCII `a`-`z`, dotless `ı` (to `I`) and long `ſ` (to `S`). Every other
      character is kept. Python also expands a few characters (`ß` to `SS`, the
      `ﬀ`, `ﬁ`, `ﬂ`, `ﬅ`, `ﬆ` ligatures to `FF`, `FI`, `FL`, `ST`, `ST`); no
      upper-case word compared against here (`ADMIN`, `USER`, `MODERATOR`)
      contains those pairs, so an equality with such a word comes out as in
      Python. */
  function UpperChar(c: char): char {
    if 'a' <= c <= 'z' then (c as int - 32) as char
    else if c == '\U{131}' then 'I'
    else if c == '\U{17F}' then 'S'
    else c
  }

  function Upper(s: string): (r: string)
    ensures |r| == |s|
    ensures forall i :: 0 <= i < |s| ==> r[i] == UpperChar(s[i])
  {
    if s == [] then [] else [UpperChar(s[0])] + Upper(s[1..])
  }

  /** A string is pinned down by its characters: what `Lower` and `Upper`
      give for a literal. */
  lemma LowerPointwise(s: string, lower: string)
    requires |s| == |lower|
    requires forall i :: 0 <= i < |s| ==> LowerChar(s[i]) == lower[i]
    ensures Lower(s) == lower
  {
  }

  lemma UpperPointwise(s: string, upper: string)
    requires |s| == |upper|
    requires forall i :: 0 <= i < |s| ==> UpperChar(s[i]) == upper[i]
    ensures Upper(s) == upper
  {
  }

  /** The characters Python's `str.isspace()` accepts. */
  predicate IsPySpace(c: char) {
    || '\t' <= c <= '\r'
    || '\U{1C}' <= c <= ' '
    || c == '\U{85}' || c == '\U{A0}' || c == '\U{1680}'
    || '\U{2000}' <= c <= '\U{200A}'
    || c == '\U{2028}' || c == '\U{2029}' || c == '\U{202F}' || c == '\U{205F}'
    || c == '\U{3000}'
  }

  predicate AllSpace(s: string) {
    forall i :: 0 <= i < |s| ==> IsPySpace(s[i])
  }

  /** How many white-space characters follow index `i` of `s`. */
  function SpacesFrom(s: string, i: nat): (k: nat)
    requires i <= |s|
    ensures i + k <= |s| && forall j :: i <= j < i + k ==> IsPySpace(s[j])
    ensures i + k < |s| ==> !IsPySpace(s[i + k])
    decreases |s| - i
  {
    if i < |s| && IsPySpace(s[i]) then SpacesFrom(s, i + 1) + 1 else 0
  }

  /** How many white-space characters precede index `e` of `s`, not counting
      below index `lo`. */
  function SpacesBefore(s: string, lo: nat, e: nat): (k: nat)
    requires lo <= e <= |s|
    ensures k <= e - lo && forall j :: e - k <= j < e ==> IsPySpace(s[j])
    ensures k < e - lo ==> !IsPySpace(s[e - k - 1])
    decreases e - lo
  {
    if lo < e && IsPySpace(s[e - 1]) then SpacesBefore(s, lo, e - 1) + 1 else 0
  }

  /** `r` is `s` with a white-space prefix of length `k` and a white-space
      suffix removed. */
  predicate SpaceMargins(s: string, k: int, r: string) {
    0 <= k <= |s| - |r| && r == s[k..k + |r|]
    && AllSpace(s[..k]) && AllSpace(s[k + |r|..])
  }

  lemma CutMargins(s: string, a: nat, e: nat)
    requires a <= e <= |s|
    requires forall j :: 0 <= j < a ==> IsPySpace(s[j])
    requires forall j :: e <= j < |s| ==> IsPySpace(s[j])
    ensures SpaceMargins(s, a, s[a..e])
  {
    assert |s[a..e]| == e - a;
  }

  /** Python's `str.strip()` with no argument: `s` loses its white-space
      margins and nothing else. */
  function Strip(s: string): (r: string)
    ensures exists k :: SpaceMargins(s, k, r)
    ensures r != [] ==> !IsPySpace(r[0]) && !IsPySpace(r[|r| - 1])
  {
    var a := SpacesFrom(s, 0);
    var b := SpacesBefore(s, a, |s|);
    CutMargins(s, a, |s| - b);
    var r := s[a..|s| - b];
    assert r != [] ==> r[0] == s[a] && r[|r| - 1] == s[|s| - b - 1];
    r
  }

  /** A string strips to nothing exactly when it is all white space. */
  lemma StripEmptyIffAllSpace(s: string)
    ensures Strip(s) == [] <==> AllSpace(s)
  {
    var a := SpacesFrom(s, 0);
    var b := SpacesBefore(s, a, |s|);
    if AllSpace(s) {
      assert a == |s|;
    }
  }

  /** Stripping twice is stripping once. */
  lemma StripIdempotent(s: string)
    ensures Strip(Strip(s)) == Strip(s)
  {
    var r := Strip(s);
    if r != [] {
      assert SpacesFrom(r, 0) == 0;
      assert SpacesBefore(r, 0, |r|) == 0;
      assert r[0..|r| - 0] == r;
    }
  }
}
