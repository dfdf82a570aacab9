/**
  Character classes and string scanning used by the regular expressions of
  `app.py`: `\d`, `\w`, `\s`, `[a-zA-Z]`, `str.lower()` and `str.strip()`.
  `\d`, `\w` and the case mapping are restricted to ASCII; `\s` and `strip()`
  use Python's whole `str.isspace()` set.
*/
module Text {

  predicate IsDigit(c: char) { '0' <= c <= '9' }

  predicate IsAsciiLetter(c: char) { 'a' <= c <= 'z' || 'A' <= c <= 'Z' }

  predicate IsLowerLetter(c: char) { 'a' <= c <= 'z' }

  /** `\w`: letters, digits and the underscore. */
  predicate IsWordChar(c: char) { IsAsciiLetter(c) || IsDigit(c) || c == '_' }

  /** `\s` and the characters `str.strip()` removes (Python's `str.isspace()`). */
  predicate IsSpace(c: char) {
    || c == ' ' || '\t' <= c <= '\r' || '\U{1c}' <= c <= '\U{1f}'
    || c == '\U{85}' || c == '\U{a0}' || c == '\U{1680}'
    || '\U{2000}' <= c <= '\U{200a}' || c == '\U{2028}' || c == '\U{2029}'
    || c == '\U{202f}' || c == '\U{205f}' || c == '\U{3000}'
  }

  function LowerChar(c: char): (d: char)
    ensures !('A' <= d <= 'Z')
    ensures IsWordChar(d) == IsWordChar(c) && IsSpace(d) == IsSpace(c) && IsDigit(d) == IsDigit(c)
    ensures !('A' <= c <= 'Z') ==> d == c
  {
    if 'A' <= c <= 'Z' then (c as int + 32) as char else c
  }

  /** No ASCII upper-case letter occurs in `s`. */
  predicate NoUpper(s: string) {
    forall i :: 0 <= i < |s| ==> !('A' <= s[i] <= 'Z')
  }

  lemma NoUpperConcat(a: string, b: string)
    ensures NoUpper(a + b) <==> NoUpper(a) && NoUpper(b)
  {
    if NoUpper(a + b) {
      assert forall i :: 0 <= i < |a| ==> a[i] == (a + b)[i];
      assert forall i :: 0 <= i < |b| ==> b[i] == (a + b)[|a| + i];
    }
  }

  /** `s.lower()`, for ASCII letters. */
  function Lower(s: string): (r: string)
    ensures |r| == |s| && NoUpper(r)
    ensures forall i :: 0 <= i < |s| ==> r[i] == LowerChar(s[i])
  {
    seq(|s|, i requires 0 <= i < |s| => LowerChar(s[i]))
  }

  /** A text without upper-case letters is its own lower-case form. */
  lemma LowerKeeps(s: string)
    requires NoUpper(s)
    ensures Lower(s) == s
  {
  }

  /** Lower-casing works character by character, so it distributes over concatenation. */
  lemma LowerConcat(a: string, b: string)
    ensures Lower(a + b) == Lower(a) + Lower(b)
  {
    assert forall i :: 0 <= i < |a| ==> (a + b)[i] == a[i];
    assert forall i :: |a| <= i < |a| + |b| ==> (a + b)[i] == b[i - |a|];
  }

  /** The characters of `w` from the `k`-th on stand at `s[i + k..]`. Written
      character by character so that the verifier can evaluate it on literals. */
  predicate MatchesFrom(s: string, w: string, i: nat, k: nat)
    requires k <= |w|
    decreases |w| - k
  {
    k == |w| || (i + k < |s| && s[i + k] == w[k] && MatchesFrom(s, w, i, k + 1))
  }

  /** `w` occurs in `s` at position `i`. */
  predicate OccursAt(s: string, w: string, i: nat) {
    i + |w| <= |s| && MatchesFrom(s, w, i, 0)
  }

  lemma {:induction false} MatchesFromIff(s: string, w: string, i: nat, k: nat)
    requires k <= |w| && i + |w| <= |s|
    ensures MatchesFrom(s, w, i, k) <==> s[i + k..i + |w|] == w[k..]
    decreases |w| - k
  {
    if k < |w| {
      MatchesFromIff(s, w, i, k + 1);
      assert s[i + k..i + |w|] == [s[i + k]] + s[i + k + 1..i + |w|];
      assert w[k..] == [w[k]] + w[k + 1..];
    }
  }

  /** Matching only looks forward, so a prefix in front of the text changes nothing. */
  lemma {:induction false} MatchesFromShift(p: string, s: string, w: string, i: nat, k: nat)
    requires k <= |w|
    ensures MatchesFrom(p + s, w, |p| + i, k) == MatchesFrom(s, w, i, k)
    decreases |w| - k
  {
    if k < |w| {
      MatchesFromShift(p, s, w, i, k + 1);
      if i + k < |s| {
        assert (p + s)[|p| + i + k] == s[i + k];
      }
    }
  }

  lemma OccursAtShift(p: string, s: string, w: string, i: nat)
    ensures OccursAt(p + s, w, |p| + i) == OccursAt(s, w, i)
  {
    MatchesFromShift(p, s, w, i, 0);
  }

  /** `OccursAt` is the slice equality `s[i..i + |w|] == w`. */
  lemma OccursAtIff(s: string, w: string, i: nat)
    ensures OccursAt(s, w, i) <==> i + |w| <= |s| && s[i..i + |w|] == w
  {
    if i + |w| <= |s| {
      MatchesFromIff(s, w, i, 0);
    }
  }

  /** Python's `pat in text`: `pat` occurs in `text` at index `i` or later. */
  predicate ContainsFrom(text: string, pat: string, i: nat)
    decreases |text| - i
  {
    OccursAt(text, pat, i) || (i < |text| && ContainsFrom(text, pat, i + 1))
  }

  /** Python's `pat in text`: `pat` is a contiguous substring of `text`. */
  predicate Contains(text: string, pat: string) {
    ContainsFrom(text, pat, 0)
  }

  lemma {:induction false} ContainsFromIff(text: string, pat: string, i: nat)
    ensures ContainsFrom(text, pat, i) <==> exists j :: i <= j <= |text| && OccursAt(text, pat, j)
    decreases |text| - i
  {
    if i < |text| {
      ContainsFromIff(text, pat, i + 1);
    }
  }

  /** `Contains` agrees with the positional reading of `pat in text`. */
  lemma ContainsIff(text: string, pat: string)
    ensures Contains(text, pat) <==> exists j :: 0 <= j <= |text| && OccursAt(text, pat, j)
  {
    ContainsFromIff(text, pat, 0);
  }

  /** The number of digits (`\d*`) from index `i` on: the length of a greedy match at `i`. */
  function DigitRun(s: string, i: nat): (n: nat)
    requires i <= |s|
    ensures i + n <= |s|
    ensures forall k :: i <= k < i + n ==> IsDigit(s[k])
    ensures i + n == |s| || !IsDigit(s[i + n])
    decreases |s| - i
  {
    if i == |s| || !IsDigit(s[i]) then 0 else 1 + DigitRun(s, i + 1)
  }

  /** A run only looks forward, so a prefix in front of the text changes nothing. */
  lemma {:induction false} DigitRunShift(p: string, s: string, i: nat)
    requires i <= |s|
    ensures DigitRun(p + s, |p| + i) == DigitRun(s, i)
    decreases |s| - i
  {
    if i < |s| {
      assert (p + s)[|p| + i] == s[i];
      DigitRunShift(p, s, i + 1);
    }
  }

  /** The number of whitespace characters (`\s*`) from index `i` on: the length of a greedy match at `i`. */
  function SpaceRun(s: string, i: nat): (n: nat)
    requires i <= |s|
    ensures i + n <= |s|
    ensures forall k :: i <= k < i + n ==> IsSpace(s[k])
    ensures i + n == |s| || !IsSpace(s[i + n])
    decreases |s| - i
  {
    if i == |s| || !IsSpace(s[i]) then 0 else 1 + SpaceRun(s, i + 1)
  }

  /** A run only looks forward, so a prefix in front of the text changes nothing. */
  lemma {:induction false} SpaceRunShift(p: string, s: string, i: nat)
    requires i <= |s|
    ensures SpaceRun(p + s, |p| + i) == SpaceRun(s, i)
    decreases |s| - i
  {
    if i < |s| {
      assert (p + s)[|p| + i] == s[i];
      SpaceRunShift(p, s, i + 1);
    }
  }

  /** Only the plain space stands for whitespace and no two spaces are adjacent. */
  predicate SpacesCollapsed(s: string) {
    && (forall k :: 0 <= k < |s| && IsSpace(s[k]) ==> s[k] == ' ')
    && (forall j, k {:trigger s[j], s[k]} :: 0 <= j < |s| && 0 <= k < |s| && k == j + 1 ==> !(IsSpace(s[j]) && IsSpace(s[k])))
  }

  /** A character put in front of a collapsed text keeps it collapsed unless it
      is whitespace other than a space, or a space put before a space. */
  lemma CollapsedCons(c: char, r: string)
    requires SpacesCollapsed(r)
    requires IsSpace(c) ==> c == ' ' && (|r| > 0 ==> !IsSpace(r[0]))
    ensures SpacesCollapsed([c] + r)
  {
    var s := [c] + r;
    assert forall k :: 1 <= k < |s| ==> s[k] == r[k - 1];
  }

  /** The number of whitespace characters just before index `j`. */
  function TrailingSpaces(s: string, j: nat): (n: nat)
    requires j <= |s|
    ensures n <= j
    ensures forall k :: j - n <= k < j ==> IsSpace(s[k])
    ensures n == j || !IsSpace(s[j - n - 1])
    decreases j
  {
    if j == 0 || !IsSpace(s[j - 1]) then 0 else 1 + TrailingSpaces(s, j - 1)
  }

  /** A slice followed by a tail is its first character followed by the rest. */
  lemma SliceCons(s: string, i: nat, j: nat, tail: string)
    requires i < j <= |s|
    ensures [s[i]] + (s[i + 1..j] + tail) == s[i..j] + tail
  {
    assert s[i..j] == [s[i]] + s[i + 1..j];
  }

  /** `s.lstrip()`. */
  function StripLeft(s: string): (r: string)
    ensures |r| <= |s| && r == s[|s| - |r|..]
    ensures |r| > 0 ==> !IsSpace(r[0])
    ensures forall k :: 0 <= k < |s| - |r| ==> IsSpace(s[k])
    ensures NoUpper(s) ==> NoUpper(r)
    ensures SpacesCollapsed(s) ==> SpacesCollapsed(r)
  {
    s[SpaceRun(s, 0)..]
  }

  /** `s.rstrip()`. */
  function StripRight(s: string): (r: string)
    ensures |r| <= |s| && r == s[..|r|]
    ensures |r| > 0 ==> !IsSpace(r[|r| - 1])
    ensures forall k :: |r| <= k < |s| ==> IsSpace(s[k])
    ensures NoUpper(s) ==> NoUpper(r)
    ensures SpacesCollapsed(s) ==> SpacesCollapsed(r)
    ensures |s| > 0 && !IsSpace(s[0]) ==> |r| > 0 && r[0] == s[0]
  {
    s[..|s| - TrailingSpaces(s, |s|)]
  }

  /** `s.strip()`. */
  function Strip(s: string): (r: string)
    ensures |r| > 0 ==> !IsSpace(r[0]) && !IsSpace(r[|r| - 1])
    ensures NoUpper(s) ==> NoUpper(r)
    ensures SpacesCollapsed(s) ==> SpacesCollapsed(r)
  {
    StripRight(StripLeft(s))
  }

  /** One more leading space in front of a text that does not start with
      whitespace is stripped with the rest. */
  lemma StripSpaceCons(z: string)
    requires |z| > 0 ==> !IsSpace(z[0])
    ensures Strip([' '] + z) == Strip(z)
  {
    var t := [' '] + z;
    SpaceRunShift([' '], z, 0);
    assert SpaceRun(t, 0) == 1;
    assert t[1..] == z;
  }

  /** A text with nothing to strip is kept. */
  lemma StripKeeps(s: string)
    requires |s| > 0 ==> !IsSpace(s[0]) && !IsSpace(s[|s| - 1])
    ensures Strip(s) == s
  {
    if s != [] {
      assert SpaceRun(s, 0) == 0;
      assert StripLeft(s) == s;
      assert TrailingSpaces(s, |s|) == 0;
      assert StripRight(s) == s[..|s|];
    }
  }
}
