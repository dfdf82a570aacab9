/**
  `normalize_ingredient_name` (app.py): the canonical form of an ingredient or
  product name, used as the comparison key by every lookup. Each step of the
  rewrite chain of `app.py` is one function here, written as the left-to-right scan
  that Python's `re.sub` performs.
*/
module Normalizer {
  import opened Text
  import opened Wrappers

  /** The descriptive words removed as whole words, in the order `app.py` removes them. */
  const Modifiers: seq<string> :=
    ["fresh", "dried", "frozen", "canned", "whole", "sliced", "diced", "chopped", "minced"]

  /** The unit alternatives of the measurement pattern, in the order the regular
      expression tries them: the first one that matches wins, so `g` shadows `gram`. */
  const MeasureUnits: seq<string> :=
    ["oz", "ounce", "lb", "pound", "g", "gram", "kg", "cup", "tbsp", "tsp", "tablespoon", "teaspoon"]

  predicate AllWordChars(w: string) {
    forall k :: 0 <= k < |w| ==> IsWordChar(w[k])
  }

  // ---------------------------------------------------------------------------
  // Step 2: re.sub(r'\b' + word + r'\b', '', name)

  /** `\bw\b` matches at `i` (for a word `w` made of word characters). */
  predicate WholeWordAt(s: string, w: string, i: nat) {
    && OccursAt(s, w, i)
    && (i == 0 || !IsWordChar(s[i - 1]))
    && (i + |w| == |s| || !IsWordChar(s[i + |w|]))
  }

  /** The scan of `re.sub` from index `i`: a match is dropped and the scan resumes after it. */
  function RemoveWordFrom(s: string, w: string, i: nat): (r: string)
    requires |w| > 0 && i <= |s|
    ensures |r| <= |s| - i
    decreases |s| - i
  {
    if i == |s| then []
    else if WholeWordAt(s, w, i) then RemoveWordFrom(s, w, i + |w|)
    else [s[i]] + RemoveWordFrom(s, w, i + 1)
  }

  /** The scan only copies characters of `s`, so it brings in no upper case. */
  lemma {:induction false} RemoveWordFromNoUpper(s: string, w: string, i: nat)
    requires |w| > 0 && i <= |s| && NoUpper(s)
    ensures NoUpper(RemoveWordFrom(s, w, i))
    decreases |s| - i
  {
    if i < |s| {
      if WholeWordAt(s, w, i) {
        RemoveWordFromNoUpper(s, w, i + |w|);
      } else {
        RemoveWordFromNoUpper(s, w, i + 1);
      }
    }
  }

  function RemoveWord(s: string, w: string): (r: string)
    requires |w| > 0
    ensures NoUpper(s) ==> NoUpper(r)
  {
    if NoUpper(s) then RemoveWordFromNoUpper(s, w, 0); RemoveWordFrom(s, w, 0)
    else RemoveWordFrom(s, w, 0)
  }

  /** A stretch without the word's first letter is copied unchanged. */
  lemma {:induction false} RemoveWordFromSkips(s: string, w: string, i: nat, j: nat)
    requires |w| > 0 && i <= j <= |s|
    requires w[0] !in s[i..j]
    ensures RemoveWordFrom(s, w, i) == s[i..j] + RemoveWordFrom(s, w, j)
    decreases j - i
  {
    if i < j {
      assert s[i] in s[i..j];
      assert s[i + 1..j] == s[i..j][1..];
      RemoveWordFromSkips(s, w, i + 1, j);
      assert s[i..j] == [s[i]] + s[i + 1..j];
    }
  }

  /** A run of word characters other than `w`, ending at a word boundary, is
      copied unchanged: a match at its start would not end at a boundary, and none
      can start inside it, since `\b` needs a non-word character before the match. */
  lemma {:induction false} RemoveWordFromOtherWord(s: string, w: string, i: nat, j: nat)
    requires |w| > 0 && AllWordChars(w) && i < j <= |s|
    requires forall c :: c in s[i..j] ==> IsWordChar(c)
    requires j == |s| || !IsWordChar(s[j])
    requires s[i..j] != w
    ensures RemoveWordFrom(s, w, i) == s[i..j] + RemoveWordFrom(s, w, j)
  {
    NoMatchAtOtherWord(s, w, i, j);
    RemoveWordFromMiss(s, w, i);
    forall k | i <= k < j
      ensures IsWordChar(s[k])
    {
      assert s[k] == s[i..j][k - i];
    }
    InsideWordSkips(s, w, i + 1, j);
    var head, mid, tail := [s[i]], s[i + 1..j], RemoveWordFrom(s, w, j);
    assert s[i..j] == head + mid;
    assert head + (mid + tail) == (head + mid) + tail;
  }

  lemma RemoveWordFromMiss(s: string, w: string, i: nat)
    requires |w| > 0 && i < |s|
    requires !WholeWordAt(s, w, i)
    ensures RemoveWordFrom(s, w, i) == [s[i]] + RemoveWordFrom(s, w, i + 1)
  {
  }

  lemma NoMatchAtOtherWord(s: string, w: string, i: nat, j: nat)
    requires |w| > 0 && AllWordChars(w) && i < j <= |s|
    requires forall c :: c in s[i..j] ==> IsWordChar(c)
    requires j == |s| || !IsWordChar(s[j])
    requires s[i..j] != w
    ensures !WholeWordAt(s, w, i)
  {
    if OccursAt(s, w, i) {
      OccursAtIff(s, w, i);
      if i + |w| < j {
        assert s[i + |w|] in s[i..j];
      }
    }
  }

  lemma {:induction false} InsideWordSkips(s: string, w: string, i: nat, j: nat)
    requires |w| > 0 && 0 < i <= j <= |s|
    requires forall k :: i - 1 <= k < j ==> IsWordChar(s[k])
    ensures RemoveWordFrom(s, w, i) == s[i..j] + RemoveWordFrom(s, w, j)
    decreases j - i
  {
    if i < j {
      assert IsWordChar(s[i - 1]);
      RemoveWordFromMiss(s, w, i);
      InsideWordSkips(s, w, i + 1, j);
      assert s[i..j] == [s[i]] + s[i + 1..j];
    }
  }

  /** A tail shorter than the word holds no match. */
  lemma {:induction false} RemoveWordFromShortTail(s: string, w: string, i: nat)
    requires |w| > 0 && i <= |s| < i + |w|
    ensures RemoveWordFrom(s, w, i) == s[i..]
    decreases |s| - i
  {
    if i < |s| {
      assert !OccursAt(s, w, i);
      RemoveWordFromShortTail(s, w, i + 1);
      assert s[i..] == [s[i]] + s[i + 1..];
    }
  }

  /** No match can start at or after `i`: the word's first letter does not occur
      where a match could begin. */
  predicate NoStartFrom(s: string, w: string, i: nat)
    requires |w| > 0 && i <= |s|
  {
    |s| < i + |w| || w[0] !in s[i..|s| - |w| + 1]
  }

  lemma RemoveWordFromAbsent(s: string, w: string, i: nat)
    requires |w| > 0 && i <= |s|
    requires NoStartFrom(s, w, i)
    ensures RemoveWordFrom(s, w, i) == s[i..]
  {
    if |s| < i + |w| {
      RemoveWordFromShortTail(s, w, i);
    } else {
      var j := |s| - |w| + 1;
      RemoveWordFromSkips(s, w, i, j);
      RemoveWordFromShortTail(s, w, j);
      assert s[i..] == s[i..j] + s[j..];
    }
  }

  /** The loop over the modifier words from the `k`-th on: each removal runs on
      the previous one's result. */
  function RemoveWordsFrom(s: string, words: seq<string>, k: nat): (r: string)
    requires k <= |words|
    requires forall j :: 0 <= j < |words| ==> |words[j]| > 0
    ensures NoUpper(s) ==> NoUpper(r)
    decreases |words| - k
  {
    if k == |words| then s else RemoveWordsFrom(RemoveWord(s, words[k]), words, k + 1)
  }

  /** Words that leave the text alone can be skipped in the loop. */
  lemma {:induction false} RemoveWordsFromSkips(s: string, words: seq<string>, k: nat, k': nat)
    requires k <= k' <= |words|
    requires forall j :: 0 <= j < |words| ==> |words[j]| > 0
    requires forall j :: k <= j < k' ==> RemoveWord(s, words[j]) == s
    ensures RemoveWordsFrom(s, words, k) == RemoveWordsFrom(s, words, k')
    decreases k' - k
  {
    if k < k' {
      RemoveWordsFromSkips(s, words, k + 1, k');
    }
  }

  // Removal is local: a non-word character is a boundary no match crosses, so a
  // text split just after one is processed piecewise.

  /** A match of a word that starts at or before position `p` ends before it when
      `t[p]` is not a word character. */
  lemma MatchEndsBefore(t: string, w: string, i: nat, p: nat)
    requires AllWordChars(w) && OccursAt(t, w, i) && i <= p < |t| && !IsWordChar(t[p])
    ensures i + |w| <= p
  {
    OccursAtIff(t, w, i);
    assert forall q :: i <= q < i + |w| ==> t[q] == w[q - i] && IsWordChar(t[q]);
  }

  lemma WholeWordAtLeft(x: string, y: string, w: string, i: nat)
    requires |w| > 0 && AllWordChars(w) && i < |x| && !IsWordChar(x[|x| - 1])
    ensures WholeWordAt(x + y, w, i) <==> WholeWordAt(x, w, i)
  {
    var s := x + y;
    OccursAtIff(s, w, i);
    OccursAtIff(x, w, i);
    if OccursAt(s, w, i) || OccursAt(x, w, i) {
      if OccursAt(s, w, i) {
        MatchEndsBefore(s, w, i, |x| - 1);
      }
      if OccursAt(x, w, i) {
        MatchEndsBefore(x, w, i, |x| - 1);
      }
      assert s[i..i + |w|] == x[i..i + |w|];
      assert s[i + |w|] == x[i + |w|];
    }
    if 0 < i {
      assert s[i - 1] == x[i - 1];
    }
  }

  lemma WholeWordAtRight(x: string, y: string, w: string, k: nat)
    requires |w| > 0 && 0 < |x| && !IsWordChar(x[|x| - 1]) && k <= |y|
    ensures WholeWordAt(x + y, w, |x| + k) <==> WholeWordAt(y, w, k)
  {
    var s := x + y;
    OccursAtIff(s, w, |x| + k);
    OccursAtIff(y, w, k);
    if k + |w| <= |y| {
      assert s[|x| + k..|x| + k + |w|] == y[k..k + |w|];
    }
    if 0 < k {
      assert s[|x| + k - 1] == y[k - 1];
    } else {
      assert s[|x| - 1] == x[|x| - 1];
    }
    if k + |w| < |y| {
      assert s[|x| + k + |w|] == y[k + |w|];
    }
  }

  lemma {:induction false} RemoveWordFromShift(x: string, y: string, w: string, k: nat)
    requires |w| > 0 && 0 < |x| && !IsWordChar(x[|x| - 1]) && k <= |y|
    ensures RemoveWordFrom(x + y, w, |x| + k) == RemoveWordFrom(y, w, k)
    decreases |y| - k
  {
    if k == |y| {
      assert |x| + k == |x + y|;
    } else {
      RemoveWordShiftStep(x, y, w, k);
      if WholeWordAt(y, w, k) {
        RemoveWordFromShift(x, y, w, k + |w|);
        assert RemoveWordFrom(x + y, w, |x| + (k + |w|)) == RemoveWordFrom(y, w, k + |w|);
      } else {
        RemoveWordFromShift(x, y, w, k + 1);
        assert RemoveWordFrom(x + y, w, |x| + (k + 1)) == RemoveWordFrom(y, w, k + 1);
      }
    }
  }

  lemma RemoveWordShiftStep(x: string, y: string, w: string, k: nat)
    requires |w| > 0 && 0 < |x| && !IsWordChar(x[|x| - 1]) && k < |y|
    ensures WholeWordAt(y, w, k) ==> k + |w| <= |y| && RemoveWordFrom(x + y, w, |x| + k) == RemoveWordFrom(x + y, w, |x| + (k + |w|))
    ensures !WholeWordAt(y, w, k) ==> RemoveWordFrom(x + y, w, |x| + k) == [y[k]] + RemoveWordFrom(x + y, w, |x| + (k + 1))
    ensures WholeWordAt(y, w, k) ==> RemoveWordFrom(y, w, k) == RemoveWordFrom(y, w, k + |w|)
    ensures !WholeWordAt(y, w, k) ==> RemoveWordFrom(y, w, k) == [y[k]] + RemoveWordFrom(y, w, k + 1)
  {
    WholeWordAtRight(x, y, w, k);
    assert (x + y)[|x| + k] == y[k];
  }

  lemma {:induction false} RemoveWordFromSplit(x: string, y: string, w: string, i: nat)
    requires |w| > 0 && AllWordChars(w) && i <= |x| && 0 < |x| && !IsWordChar(x[|x| - 1])
    ensures RemoveWordFrom(x + y, w, i) == RemoveWordFrom(x, w, i) + RemoveWord(y, w)
    decreases |x| - i
  {
    if i == |x| {
      RemoveWordFromShift(x, y, w, 0);
    } else {
      var s := x + y;
      WholeWordAtLeft(x, y, w, i);
      if WholeWordAt(x, w, i) {
        assert RemoveWordFrom(s, w, i) == RemoveWordFrom(s, w, i + |w|);
        RemoveWordFromSplit(x, y, w, i + |w|);
      } else {
        RemoveWordFromSplit(x, y, w, i + 1);
        RemoveWordFromSplitCopy(x, y, w, i);
      }
    }
  }

  lemma RemoveWordFromSplitCopy(x: string, y: string, w: string, i: nat)
    requires |w| > 0 && i < |x| && !WholeWordAt(x + y, w, i)
    requires RemoveWordFrom(x + y, w, i + 1) == RemoveWordFrom(x, w, i + 1) + RemoveWord(y, w)
    requires !WholeWordAt(x, w, i)
    ensures RemoveWordFrom(x + y, w, i) == RemoveWordFrom(x, w, i) + RemoveWord(y, w)
  {
    var s := x + y;
    assert s[i] == x[i];
    RemoveWordFromMiss(s, w, i);
    RemoveWordFromMiss(x, w, i);
    var head, mid, tail := [x[i]], RemoveWordFrom(x, w, i + 1), RemoveWord(y, w);
    assert head + (mid + tail) == (head + mid) + tail;
  }

  /** The non-word character that ends `x` survives the removal. */
  lemma {:induction false} RemoveWordFromKeepsLast(x: string, w: string, i: nat)
    requires |w| > 0 && AllWordChars(w) && i < |x| && !IsWordChar(x[|x| - 1])
    ensures var r := RemoveWordFrom(x, w, i); |r| > 0 && r[|r| - 1] == x[|x| - 1]
    decreases |x| - i
  {
    if WholeWordAt(x, w, i) {
      MatchEndsBefore(x, w, i, |x| - 1);
      RemoveWordFromKeepsLast(x, w, i + |w|);
      assert RemoveWordFrom(x, w, i) == RemoveWordFrom(x, w, i + |w|);
    } else {
      RemoveWordFromMiss(x, w, i);
      var rest := RemoveWordFrom(x, w, i + 1);
      if i + 1 < |x| {
        RemoveWordFromKeepsLast(x, w, i + 1);
      } else {
        assert rest == [];
      }
      var r := [x[i]] + rest;
      assert r[|r| - 1] == if rest == [] then x[i] else rest[|rest| - 1];
    }
  }

  lemma {:induction false} RemoveWordsFromSplit(x: string, y: string, words: seq<string>, k: nat)
    requires k <= |words|
    requires forall j :: 0 <= j < |words| ==> |words[j]| > 0 && AllWordChars(words[j])
    requires 0 < |x| && !IsWordChar(x[|x| - 1])
    ensures RemoveWordsFrom(x + y, words, k) == RemoveWordsFrom(x, words, k) + RemoveWordsFrom(y, words, k)
    decreases |words| - k
  {
    if k < |words| {
      var w := words[k];
      RemoveWordFromSplit(x, y, w, 0);
      RemoveWordFromKeepsLast(x, w, 0);
      RemoveWordsFromSplit(RemoveWord(x, w), RemoveWord(y, w), words, k + 1);
    }
  }

  function RemoveModifiers(s: string): (r: string)
    ensures NoUpper(s) ==> NoUpper(r)
  {
    RemoveWordsFrom(s, Modifiers, 0)
  }

  /** One word, followed by at most one non-word character, is removed exactly
      when it is `w`. */
  lemma RemoveWordOfToken(t: string, tail: string, w: string)
    requires AllWordChars(t) && |w| > 0 && AllWordChars(w)
    requires tail == [] || (|tail| == 1 && !IsWordChar(tail[0]))
    ensures RemoveWord(t + tail, w) == (if t == w then [] else t) + tail
  {
    var s := t + tail;
    assert s[..|t|] == t;
    if |t| > 0 {
      assert forall c :: c in s[0..|t|] ==> IsWordChar(c);
    }
    if t == w {
      OccursAtIff(s, w, 0);
      assert WholeWordAt(s, w, 0);
    } else if |t| > 0 {
      RemoveWordFromOtherWord(s, w, 0, |t|);
    }
    if tail != [] {
      assert !OccursAt(s, w, |t|);
      assert RemoveWordFrom(s, w, |t|) == tail;
    }
  }

  lemma {:induction false} RemoveWordsFromToken(t: string, tail: string, words: seq<string>, k: nat)
    requires AllWordChars(t) && k <= |words|
    requires forall j :: 0 <= j < |words| ==> |words[j]| > 0 && AllWordChars(words[j])
    requires tail == [] || (|tail| == 1 && !IsWordChar(tail[0]))
    ensures RemoveWordsFrom(t + tail, words, k) == (if t in words[k..] then [] else t) + tail
    decreases |words| - k
  {
    if k < |words| {
      RemoveWordOfToken(t, tail, words[k]);
      assert words[k..] == [words[k]] + words[k + 1..];
      if t == words[k] {
        RemoveWordsFromToken([], tail, words, k + 1);
        assert [] + tail == tail;
      } else {
        RemoveWordsFromToken(t, tail, words, k + 1);
      }
    }
  }

  /** A single word, with or without one trailing non-word character, is removed
      exactly when it is one of the modifiers. */
  lemma RemoveModifiersOfToken(t: string, tail: string)
    requires AllWordChars(t)
    requires tail == [] || (|tail| == 1 && !IsWordChar(tail[0]))
    ensures RemoveModifiers(t + tail) == (if t in Modifiers then [] else t) + tail
  {
    assert forall j :: 0 <= j < |Modifiers| ==> |Modifiers[j]| > 0 && AllWordChars(Modifiers[j]);
    RemoveWordsFromToken(t, tail, Modifiers, 0);
    assert Modifiers[0..] == Modifiers;
  }

  /** Modifier removal works word by word: a text split just after a non-word
      character (a space, say) is processed as its two parts. */
  lemma RemoveModifiersSplit(x: string, y: string)
    requires 0 < |x| && !IsWordChar(x[|x| - 1])
    ensures RemoveModifiers(x + y) == RemoveModifiers(x) + RemoveModifiers(y)
  {
    assert forall j :: 0 <= j < |Modifiers| ==> |Modifiers[j]| > 0 && AllWordChars(Modifiers[j]);
    RemoveWordsFromSplit(x, y, Modifiers, 0);
  }

  /** The loop leaves a text alone when none of the nine words matches in it. */
  lemma RemoveModifiersKeeps(s: string)
    requires RemoveWord(s, "fresh") == s && RemoveWord(s, "dried") == s && RemoveWord(s, "frozen") == s
    requires RemoveWord(s, "canned") == s && RemoveWord(s, "whole") == s && RemoveWord(s, "sliced") == s
    requires RemoveWord(s, "diced") == s && RemoveWord(s, "chopped") == s && RemoveWord(s, "minced") == s
    ensures RemoveModifiers(s) == s
  {
    RemoveWordsFromSkips(s, Modifiers, 0, |Modifiers|);
  }

  // ---------------------------------------------------------------------------
  // Step 3: re.sub(r'\d+(\.\d+)?\s*(oz|ounce|...|teaspoon)', '', name)

  /** The first alternative in `units`, from the `j`-th on, that occurs at `k`:
      the leftmost-first choice of `(a|b|...)`. */
  function FirstUnitFrom(s: string, k: nat, units: seq<string>, j: nat): (u: Option<string>)
    requires j <= |units|
    ensures u.Some? ==> k + |u.value| <= |s|
    decreases |units| - j
  {
    if j == |units| then None
    else if OccursAt(s, units[j], k) then Some(units[j])
    else FirstUnitFrom(s, k, units, j + 1)
  }

  /** The choice is the leftmost alternative that occurs: none before it does,
      and there is no choice only when no alternative occurs. */
  lemma {:induction false} FirstUnitFromIsFirst(s: string, k: nat, units: seq<string>, j: nat)
    requires j <= |units|
    ensures var u := FirstUnitFrom(s, k, units, j);
      && (u.Some? ==> OccursAt(s, u.value, k))
      && (u.None? <==> forall j' :: j <= j' < |units| ==> !OccursAt(s, units[j'], k))
      && (u.Some? ==>
            exists j' :: j <= j' < |units| && units[j'] == u.value && (forall j'' :: j <= j'' < j' ==> !OccursAt(s, units[j''], k)))
    decreases |units| - j
  {
    if j < |units| {
      FirstUnitFromIsFirst(s, k, units, j + 1);
      if !OccursAt(s, units[j], k) && FirstUnitFrom(s, k, units, j).Some? {
        var j' :| j + 1 <= j' < |units| && units[j'] == FirstUnitFrom(s, k, units, j).value
          && (forall j'' :: j + 1 <= j'' < j' ==> !OccursAt(s, units[j''], k));
        assert forall j'' :: j <= j'' < j' ==> !OccursAt(s, units[j''], k);
      }
    }
  }

  /** Where a `g` stands, the alternative taken is `g`: none of `oz`, `ounce`,
      `lb` and `pound` before it starts with that letter. */
  lemma UnitGTaken(s: string, k: nat)
    requires OccursAt(s, "g", k)
    ensures FirstUnitFrom(s, k, MeasureUnits, 0) == Some("g")
  {
    assert s[k] == 'g';
    assert !OccursAt(s, "oz", k) && !OccursAt(s, "ounce", k) && !OccursAt(s, "lb", k) && !OccursAt(s, "pound", k);
  }

  /** The alternative `gram` is never taken, since `g` comes first: of `2 grams`
      the measurement is `2 g` and `rams` is left (`RemoveMeasuresDigitG`). */
  lemma UnitGramNeverTaken(s: string, k: nat)
    ensures FirstUnitFrom(s, k, MeasureUnits, 0) != Some("gram")
  {
    FirstUnitFromIsFirst(s, k, MeasureUnits, 0);
    if OccursAt(s, "gram", k) {
      assert s[k] == 'g';
      UnitGTaken(s, k);
    }
  }

  /** The length of the measurement match starting at `i`, or 0 when there is none.
      Each of `\d+`, `\.\d+` and `\s*` is greedy and giving characters back never
      helps the rest of the pattern (a digit or a dot cannot start `\s*` or a unit),
      so the match is determined by the maximal runs. */
  function MeasureLength(s: string, units: seq<string>, i: nat): (n: nat)
    requires i <= |s|
    ensures i + n <= |s|
    ensures n > 0 ==> IsDigit(s[i])
  {
    if i == |s| || !IsDigit(s[i]) then 0 else MeasureFromDigits(s, units, i, i + DigitRun(s, i))
  }

  /** Where the unit must start once `\d+` has taken everything up to `j`: after
      the optional `\.\d+` and the `\s*`. */
  function UnitStart(s: string, j: nat): (k: nat)
    requires j <= |s|
    ensures j <= k <= |s|
  {
    var j' := if j + 1 < |s| && s[j] == '.' && IsDigit(s[j + 1]) then j + 1 + DigitRun(s, j + 1) else j;
    j' + SpaceRun(s, j')
  }

  /** The rest of the measurement match, once `\d+` has taken `s[i..j]`. */
  function MeasureFromDigits(s: string, units: seq<string>, i: nat, j: nat): (n: nat)
    requires i < j <= |s|
    ensures i + n <= |s|
  {
    var k := UnitStart(s, j);
    var u := FirstUnitFrom(s, k, units, 0);
    if u.Some? then k + |u.value| - i else 0
  }

  function RemoveMeasuresFrom(s: string, units: seq<string>, i: nat): (r: string)
    requires i <= |s|
    decreases |s| - i
  {
    if i == |s| then []
    else
      var n := MeasureLength(s, units, i);
      if n > 0 then RemoveMeasuresFrom(s, units, i + n) else [s[i]] + RemoveMeasuresFrom(s, units, i + 1)
  }

  /** One step of the scan. */
  lemma RemoveMeasuresFromStep(s: string, units: seq<string>, i: nat)
    requires i < |s|
    ensures MeasureLength(s, units, i) > 0 ==> RemoveMeasuresFrom(s, units, i) == RemoveMeasuresFrom(s, units, i + MeasureLength(s, units, i))
    ensures MeasureLength(s, units, i) == 0 ==> RemoveMeasuresFrom(s, units, i) == [s[i]] + RemoveMeasuresFrom(s, units, i + 1)
  {
  }

  /** The scan only copies characters of `s`, so it brings in no upper case. */
  lemma {:induction false} RemoveMeasuresFromNoUpper(s: string, units: seq<string>, i: nat)
    requires i <= |s| && NoUpper(s)
    ensures NoUpper(RemoveMeasuresFrom(s, units, i))
    decreases |s| - i
  {
    if i < |s| {
      if MeasureLength(s, units, i) > 0 {
        RemoveMeasuresFromNoUpper(s, units, i + MeasureLength(s, units, i));
      } else {
        RemoveMeasuresFromNoUpper(s, units, i + 1);
      }
      NoUpperStep(s, units, i);
    }
  }

  lemma NoUpperStep(s: string, units: seq<string>, i: nat)
    requires i < |s| && NoUpper(s)
    requires MeasureLength(s, units, i) > 0 ==> NoUpper(RemoveMeasuresFrom(s, units, i + MeasureLength(s, units, i)))
    requires MeasureLength(s, units, i) == 0 ==> NoUpper(RemoveMeasuresFrom(s, units, i + 1))
    ensures NoUpper(RemoveMeasuresFrom(s, units, i))
  {
    RemoveMeasuresFromStep(s, units, i);
    NoUpperConcat([s[i]], RemoveMeasuresFrom(s, units, i + 1));
  }

  /** A stretch without digits is copied unchanged. */
  lemma {:induction false} RemoveMeasuresFromSkips(s: string, units: seq<string>, i: nat, j: nat)
    requires i <= j <= |s|
    requires forall c :: c in s[i..j] ==> !IsDigit(c)
    ensures RemoveMeasuresFrom(s, units, i) == s[i..j] + RemoveMeasuresFrom(s, units, j)
    decreases j - i
  {
    if i < j {
      assert s[i] in s[i..j];
      RemoveMeasuresFromStep(s, units, i);
      assert s[i + 1..j] == s[i..j][1..];
      RemoveMeasuresFromSkips(s, units, i + 1, j);
      SliceCons(s, i, j, RemoveMeasuresFrom(s, units, j));
    }
  }

  /** The measurement scan only looks forward, so a prefix in front of the text
      changes nothing from there on. */
  lemma {:induction false} FirstUnitFromShift(p: string, s: string, k: nat, units: seq<string>, j: nat)
    requires j <= |units|
    ensures FirstUnitFrom(p + s, |p| + k, units, j) == FirstUnitFrom(s, k, units, j)
    decreases |units| - j
  {
    if j < |units| {
      OccursAtShift(p, s, units[j], k);
      FirstUnitFromShift(p, s, k, units, j + 1);
    }
  }

  lemma UnitStartShift(p: string, s: string, j: nat)
    requires j <= |s|
    ensures UnitStart(p + s, |p| + j) == |p| + UnitStart(s, j)
  {
    var t := p + s;
    if j + 1 < |s| {
      assert t[|p| + j] == s[j] && t[|p| + j + 1] == s[j + 1];
      DigitRunShift(p, s, j + 1);
    }
    var j' := if j + 1 < |s| && s[j] == '.' && IsDigit(s[j + 1]) then j + 1 + DigitRun(s, j + 1) else j;
    SpaceRunShift(p, s, j');
  }

  lemma MeasureFromDigitsShift(p: string, s: string, units: seq<string>, i: nat, j: nat)
    requires i < j <= |s|
    ensures MeasureFromDigits(p + s, units, |p| + i, |p| + j) == MeasureFromDigits(s, units, i, j)
  {
    UnitStartShift(p, s, j);
    FirstUnitFromShift(p, s, UnitStart(s, j), units, 0);
  }

  lemma MeasureLengthShift(p: string, s: string, units: seq<string>, i: nat)
    requires i <= |s|
    ensures MeasureLength(p + s, units, |p| + i) == MeasureLength(s, units, i)
  {
    if i == |s| {
      assert |p| + i == |p + s|;
    } else if IsDigit(s[i]) {
      MeasureLengthDigitsShift(p, s, units, i);
    } else {
      assert (p + s)[|p| + i] == s[i];
    }
  }

  lemma MeasureLengthDigitsShift(p: string, s: string, units: seq<string>, i: nat)
    requires i < |s| && IsDigit(s[i])
    ensures MeasureLength(p + s, units, |p| + i) == MeasureLength(s, units, i)
  {
    var t := p + s;
    assert t[|p| + i] == s[i];
    DigitRunShift(p, s, i);
    var j := i + DigitRun(s, i);
    MeasureFromDigitsShift(p, s, units, i, j);
    MeasureLengthOfDigit(t, units, |p| + i, |p| + j);
    MeasureLengthOfDigit(s, units, i, j);
  }

  lemma MeasureLengthOfDigit(s: string, units: seq<string>, i: nat, j: nat)
    requires i < |s| && IsDigit(s[i]) && j == i + DigitRun(s, i)
    ensures MeasureLength(s, units, i) == MeasureFromDigits(s, units, i, j)
  {
  }

  lemma {:induction false} RemoveMeasuresFromShift(p: string, s: string, units: seq<string>, i: nat)
    requires i <= |s|
    ensures RemoveMeasuresFrom(p + s, units, |p| + i) == RemoveMeasuresFrom(s, units, i)
    decreases |s| - i
  {
    if i < |s| {
      var n := MeasureLength(s, units, i);
      if n > 0 {
        RemoveMeasuresFromShift(p, s, units, i + n);
      } else {
        RemoveMeasuresFromShift(p, s, units, i + 1);
      }
      RemoveMeasuresShiftStep(p, s, units, i);
    } else {
      assert |p| + i == |p + s|;
    }
  }

  lemma RemoveMeasuresShiftStep(p: string, s: string, units: seq<string>, i: nat)
    requires i < |s|
    requires MeasureLength(s, units, i) > 0 ==>
      RemoveMeasuresFrom(p + s, units, |p| + i + MeasureLength(s, units, i)) == RemoveMeasuresFrom(s, units, i + MeasureLength(s, units, i))
    requires MeasureLength(s, units, i) == 0 ==>
      RemoveMeasuresFrom(p + s, units, |p| + i + 1) == RemoveMeasuresFrom(s, units, i + 1)
    ensures RemoveMeasuresFrom(p + s, units, |p| + i) == RemoveMeasuresFrom(s, units, i)
  {
    MeasureLengthShift(p, s, units, i);
    if MeasureLength(s, units, i) > 0 {
      RemoveMeasuresShiftDrop(p, s, units, i);
    } else {
      RemoveMeasuresShiftCopy(p, s, units, i);
    }
  }

  lemma RemoveMeasuresShiftDrop(p: string, s: string, units: seq<string>, i: nat)
    requires i < |s| && MeasureLength(p + s, units, |p| + i) == MeasureLength(s, units, i) > 0
    requires RemoveMeasuresFrom(p + s, units, |p| + i + MeasureLength(s, units, i)) == RemoveMeasuresFrom(s, units, i + MeasureLength(s, units, i))
    ensures RemoveMeasuresFrom(p + s, units, |p| + i) == RemoveMeasuresFrom(s, units, i)
  {
    var t, n := p + s, MeasureLength(s, units, i);
    var a := RemoveMeasuresFrom(t, units, |p| + i);
    var b := RemoveMeasuresFrom(s, units, i);
    assert a == RemoveMeasuresFrom(t, units, |p| + i + n);
    assert b == RemoveMeasuresFrom(s, units, i + n);
  }

  lemma RemoveMeasuresShiftCopy(p: string, s: string, units: seq<string>, i: nat)
    requires i < |s| && MeasureLength(p + s, units, |p| + i) == MeasureLength(s, units, i) == 0
    requires RemoveMeasuresFrom(p + s, units, |p| + i + 1) == RemoveMeasuresFrom(s, units, i + 1)
    ensures RemoveMeasuresFrom(p + s, units, |p| + i) == RemoveMeasuresFrom(s, units, i)
  {
    var t := p + s;
    assert t[|p| + i] == s[i];
    assert RemoveMeasuresFrom(t, units, |p| + i) == [s[i]] + RemoveMeasuresFrom(t, units, |p| + i + 1);
    assert RemoveMeasuresFrom(s, units, i) == [s[i]] + RemoveMeasuresFrom(s, units, i + 1);
  }

  function RemoveMeasures(s: string): (r: string)
    ensures NoUpper(s) ==> NoUpper(r)
  {
    if NoUpper(s) then RemoveMeasuresFromNoUpper(s, MeasureUnits, 0); RemoveMeasuresFrom(s, MeasureUnits, 0)
    else RemoveMeasuresFrom(s, MeasureUnits, 0)
  }

  /** A leading character that is not a digit is kept and the rest is processed
      on its own. */
  lemma RemoveMeasuresCons(c: char, s: string)
    requires !IsDigit(c)
    ensures RemoveMeasures([c] + s) == [c] + RemoveMeasures(s)
  {
    var t := [c] + s;
    assert t[0] == c;
    assert RemoveMeasuresFrom(t, MeasureUnits, 0) == [c] + RemoveMeasuresFrom(t, MeasureUnits, 1);
    RemoveMeasuresFromShift([c], s, MeasureUnits, 0);
  }

  /** A text without digits holds no measurement. */
  lemma RemoveMeasuresKeeps(s: string)
    requires forall c :: c in s ==> !IsDigit(c)
    ensures RemoveMeasures(s) == s
  {
    assert s[0..|s|] == s;
    RemoveMeasuresFromSkips(s, MeasureUnits, 0, |s|);
  }

  /** A digit, a space and a `g` form a measurement even when the `g` starts the
      next word: the three characters are removed and a digit-free rest is kept.
      So `2 garlic` loses `2 g`, and so does `2 grams`. */
  lemma RemoveMeasuresDigitG(d: char, rest: string)
    requires IsDigit(d)
    requires forall c :: c in rest ==> !IsDigit(c)
    ensures RemoveMeasures([d, ' ', 'g'] + rest) == rest
  {
    var s := [d, ' ', 'g'] + rest;
    assert s[0] == d && s[1] == ' ' && s[2] == 'g';
    assert DigitRun(s, 0) == 1;
    assert SpaceRun(s, 1) == 1;
    assert UnitStart(s, 1) == 2;
    assert OccursAt(s, "g", 2);
    UnitGTaken(s, 2);
    assert MeasureLength(s, MeasureUnits, 0) == 3;
    RemoveMeasuresFromStep(s, MeasureUnits, 0);
    assert s[3..|s|] == rest;
    RemoveMeasuresFromSkips(s, MeasureUnits, 3, |s|);
  }

  // ---------------------------------------------------------------------------
  // Step 4: re.sub(r'\s+', ' ', name).strip()

  /** The scan of `re.sub(r'\s+', ' ', ...)` from index `i`: every maximal run of
      whitespace becomes one space. */
  function CollapseSpacesFrom(s: string, i: nat): (r: string)
    requires i <= |s|
    ensures |r| > 0 ==> i < |s| && (IsSpace(r[0]) ==> IsSpace(s[i]))
    decreases |s| - i
  {
    if i == |s| then []
    else if IsSpace(s[i]) then [' '] + CollapseSpacesFrom(s, i + SpaceRun(s, i))
    else [s[i]] + CollapseSpacesFrom(s, i + 1)
  }

  /** The scan leaves no whitespace but single plain spaces. */
  lemma {:induction false} CollapseSpacesFromCollapsed(s: string, i: nat)
    requires i <= |s|
    ensures SpacesCollapsed(CollapseSpacesFrom(s, i))
    decreases |s| - i
  {
    if i < |s| {
      if IsSpace(s[i]) {
        var n := SpaceRun(s, i);
        var rest := CollapseSpacesFrom(s, i + n);
        CollapseSpacesFromCollapsed(s, i + n);
        assert |rest| > 0 ==> !IsSpace(rest[0]);
        CollapsedCons(' ', rest);
        assert CollapseSpacesFrom(s, i) == [' '] + rest;
      } else {
        var rest := CollapseSpacesFrom(s, i + 1);
        CollapseSpacesFromCollapsed(s, i + 1);
        CollapsedCons(s[i], rest);
        CollapseSpacesFromCopy(s, i);
      }
    }
  }

  /** The scan copies characters of `s` or writes a space, so it brings in no upper case. */
  lemma {:induction false} CollapseSpacesFromNoUpper(s: string, i: nat)
    requires i <= |s| && NoUpper(s)
    ensures NoUpper(CollapseSpacesFrom(s, i))
    decreases |s| - i
  {
    if i < |s| {
      if IsSpace(s[i]) {
        CollapseSpacesFromNoUpper(s, i + SpaceRun(s, i));
      } else {
        CollapseSpacesFromNoUpper(s, i + 1);
      }
      CollapseNoUpperStep(s, i);
    }
  }

  lemma CollapseNoUpperStep(s: string, i: nat)
    requires i < |s| && NoUpper(s)
    requires IsSpace(s[i]) ==> NoUpper(CollapseSpacesFrom(s, i + SpaceRun(s, i)))
    requires !IsSpace(s[i]) ==> NoUpper(CollapseSpacesFrom(s, i + 1))
    ensures NoUpper(CollapseSpacesFrom(s, i))
  {
    if IsSpace(s[i]) {
      NoUpperConcat([' '], CollapseSpacesFrom(s, i + SpaceRun(s, i)));
    } else {
      NoUpperConcat([s[i]], CollapseSpacesFrom(s, i + 1));
    }
  }

  lemma CollapseSpacesFromCopy(s: string, i: nat)
    requires i < |s| && !IsSpace(s[i])
    ensures CollapseSpacesFrom(s, i) == [s[i]] + CollapseSpacesFrom(s, i + 1)
  {
  }

  /** A stretch without whitespace is copied unchanged. */
  lemma {:induction false} CollapseSpacesFromSkips(s: string, i: nat, j: nat)
    requires i <= j <= |s|
    requires forall c :: c in s[i..j] ==> !IsSpace(c)
    ensures CollapseSpacesFrom(s, i) == s[i..j] + CollapseSpacesFrom(s, j)
    decreases j - i
  {
    if i < j {
      assert s[i] in s[i..j];
      CollapseSpacesFromCopy(s, i);
      assert s[i + 1..j] == s[i..j][1..];
      CollapseSpacesFromSkips(s, i + 1, j);
      SliceCons(s, i, j, CollapseSpacesFrom(s, j));
    }
  }

  /** The whitespace scan only looks forward, so a prefix in front of the text
      changes nothing from there on. */
  lemma {:induction false} CollapseSpacesFromShift(p: string, s: string, i: nat)
    requires i <= |s|
    ensures CollapseSpacesFrom(p + s, |p| + i) == CollapseSpacesFrom(s, i)
    decreases |s| - i
  {
    if i < |s| {
      if IsSpace(s[i]) {
        CollapseSpacesFromShift(p, s, i + SpaceRun(s, i));
      } else {
        CollapseSpacesFromShift(p, s, i + 1);
      }
      CollapseShiftStep(p, s, i);
    } else {
      assert |p| + i == |p + s|;
    }
  }

  lemma CollapseShiftStep(p: string, s: string, i: nat)
    requires i < |s|
    requires IsSpace(s[i]) ==>
      CollapseSpacesFrom(p + s, |p| + i + SpaceRun(s, i)) == CollapseSpacesFrom(s, i + SpaceRun(s, i))
    requires !IsSpace(s[i]) ==> CollapseSpacesFrom(p + s, |p| + i + 1) == CollapseSpacesFrom(s, i + 1)
    ensures CollapseSpacesFrom(p + s, |p| + i) == CollapseSpacesFrom(s, i)
  {
    if IsSpace(s[i]) {
      CollapseShiftSpace(p, s, i);
    } else {
      CollapseShiftOther(p, s, i);
    }
  }

  lemma CollapseShiftSpace(p: string, s: string, i: nat)
    requires i < |s| && IsSpace(s[i])
    requires CollapseSpacesFrom(p + s, |p| + i + SpaceRun(s, i)) == CollapseSpacesFrom(s, i + SpaceRun(s, i))
    ensures CollapseSpacesFrom(p + s, |p| + i) == CollapseSpacesFrom(s, i)
  {
    var t, n := p + s, SpaceRun(s, i);
    assert t[|p| + i] == s[i];
    SpaceRunShift(p, s, i);
    assert CollapseSpacesFrom(t, |p| + i) == [' '] + CollapseSpacesFrom(t, |p| + i + n);
    assert CollapseSpacesFrom(s, i) == [' '] + CollapseSpacesFrom(s, i + n);
  }

  lemma CollapseShiftOther(p: string, s: string, i: nat)
    requires i < |s| && !IsSpace(s[i])
    requires CollapseSpacesFrom(p + s, |p| + i + 1) == CollapseSpacesFrom(s, i + 1)
    ensures CollapseSpacesFrom(p + s, |p| + i) == CollapseSpacesFrom(s, i)
  {
    assert (p + s)[|p| + i] == s[i];
  }

  function CollapseSpaces(s: string): (r: string)
    ensures SpacesCollapsed(r)
    ensures NoUpper(s) ==> NoUpper(r)
  {
    CollapseSpacesFromCollapsed(s, 0);
    if NoUpper(s) then CollapseSpacesFromNoUpper(s, 0); CollapseSpacesFrom(s, 0)
    else CollapseSpacesFrom(s, 0)
  }

  /** A text without whitespace is kept. */
  lemma CollapseSpacesKeeps(s: string)
    requires forall c :: c in s ==> !IsSpace(c)
    ensures CollapseSpaces(s) == s
  {
    assert s[0..|s|] == s;
    CollapseSpacesFromSkips(s, 0, |s|);
  }

  /** A leading space adds at most one space in front of the collapsed text, and
      stripping takes that away again. */
  lemma StripCollapseSpaceCons(y: string)
    ensures Strip(CollapseSpaces([' '] + y)) == Strip(CollapseSpaces(y))
  {
    var t := [' '] + y;
    var r := SpaceRun(y, 0);
    SpaceRunShift([' '], y, 0);
    assert SpaceRun(t, 0) == 1 + r;
    CollapseSpacesFromShift([' '], y, r);
    assert CollapseSpaces(t) == [' '] + CollapseSpacesFrom(y, r);
    if r > 0 {
      assert CollapseSpaces(y) == [' '] + CollapseSpacesFrom(y, r);
    }
    StripSpaceCons(CollapseSpacesFrom(y, r));
  }

  // ---------------------------------------------------------------------------
  // Step 5: the three end-of-string plural rewrites. The string has been
  // stripped, so `$` can only match at its very end.

  predicate EndsWith(s: string, suffix: string) {
    |suffix| <= |s| && s[|s| - |suffix|..] == suffix
  }

  /** What the last step keeps of the earlier ones: no upper case, collapsed
      whitespace and no leading space. */
  predicate Tidy(s: string) {
    NoUpper(s) && SpacesCollapsed(s) && (|s| > 0 ==> !IsSpace(s[0]))
  }

  /** re.sub(r'(\w+)ies$', r'\1y', name) */
  function SingularIes(s: string): (r: string)
    ensures Tidy(s) ==> Tidy(r)
  {
    if |s| >= 4 && EndsWith(s, "ies") && IsWordChar(s[|s| - 4]) then s[..|s| - 3] + "y" else s
  }

  /** re.sub(r'(\w+)oes$', r'\1o', name) */
  function SingularOes(s: string): (r: string)
    ensures Tidy(s) ==> Tidy(r)
  {
    if |s| >= 4 && EndsWith(s, "oes") && IsWordChar(s[|s| - 4]) then s[..|s| - 3] + "o" else s
  }

  /** re.sub(r'(\w+[^s])s$', r'\1', name): `[^s]` is any character but `s`, so
      the character before the final `s` need not be a letter. */
  function SingularS(s: string): (r: string)
    ensures Tidy(s) ==> Tidy(r)
  {
    if |s| >= 3 && s[|s| - 1] == 's' && s[|s| - 2] != 's' && IsWordChar(s[|s| - 3]) then s[..|s| - 1] else s
  }

  // ---------------------------------------------------------------------------

  /** `normalize_ingredient_name(name)`: the result is lower case, its whitespace
      is collapsed to single spaces and it does not start with a space. (It can end
      with one: `[^s]` in the last rule may be a space.) */
  function Normalize(name: string): (r: string)
    ensures Tidy(r)
  {
    if name == "" then ""
    else
      var lowered := Lower(name);
      var plain := RemoveMeasures(RemoveModifiers(lowered));
      var tidy := Strip(CollapseSpaces(plain));
      SingularS(SingularOes(SingularIes(tidy)))
  }

  /** The chain of `Normalize` split at the stripped text, so that a concrete name
      can be followed one step at a time. */
  lemma NormalizeThrough(name: string, tidy: string)
    requires name != ""
    requires tidy == Strip(CollapseSpaces(RemoveMeasures(RemoveModifiers(Lower(name)))))
    ensures Normalize(name) == SingularS(SingularOes(SingularIes(tidy)))
  {
  }

  /** The rewrite chain leaves nothing of the empty text, so the early return for
      `""` agrees with it. */
  lemma NormalizeChainEmpty()
    ensures Strip(CollapseSpaces(RemoveMeasures(RemoveModifiers(Lower(""))))) == ""
  {
    assert Lower("") == "";
    RemoveWordsFromSkips("", Modifiers, 0, |Modifiers|);
    RemoveMeasuresKeeps("");
    CollapseSpacesKeeps("");
  }

  /** A single word of letters that is not a modifier is only lower-cased and
      put through the plural rules. */
  lemma NormalizeWord(t: string)
    requires |t| > 0 && forall k :: 0 <= k < |t| ==> IsAsciiLetter(t[k])
    requires Lower(t) !in Modifiers
    ensures Normalize(t) == SingularS(SingularOes(SingularIes(Lower(t))))
  {
    var w := Lower(t);
    assert forall k :: 0 <= k < |w| ==> IsAsciiLetter(w[k]);
    RemoveModifiersOfToken(w, []);
    assert w + [] == w;
    RemoveMeasuresKeeps(w);
    CollapseSpacesKeeps(w);
    StripKeeps(w);
  }

  /** A name that is one modifier word (in any letter case) normalises to nothing. */
  lemma NormalizeModifierWord(m: string)
    requires AllWordChars(m) && Lower(m) in Modifiers
    ensures Normalize(m) == ""
  {
    var w := Lower(m);
    assert AllWordChars(w);
    RemoveModifiersOfToken(w, []);
    assert w + [] == w;
    NormalizeChainEmpty();
  }

  /** Lower-casing and modifier removal turn a leading modifier word and its
      space into that space alone. */
  lemma RemoveLeadingModifier(m: string, rest: string)
    requires AllWordChars(m) && Lower(m) in Modifiers
    ensures RemoveModifiers(Lower(m + " " + rest)) == [' '] + RemoveModifiers(Lower(rest))
  {
    var w := Lower(m);
    assert AllWordChars(w);
    LowerConcat(m, " ");
    LowerConcat(m + " ", rest);
    assert Lower(" ") == " ";
    assert Lower(m + " " + rest) == (w + " ") + Lower(rest);
    RemoveModifiersOfToken(w, " ");
    assert RemoveModifiers(w + " ") == [' '];
    RemoveModifiersSplit(w + " ", Lower(rest));
  }

  /** A leading modifier word (in any letter case) followed by a space does not
      change the normalised name: only the rest matters. */
  lemma NormalizeDropsModifier(m: string, rest: string)
    requires AllWordChars(m) && Lower(m) in Modifiers
    ensures Normalize(m + " " + rest) == Normalize(rest)
  {
    RemoveLeadingModifier(m, rest);
    var r := RemoveModifiers(Lower(rest));
    RemoveMeasuresCons(' ', r);
    StripCollapseSpaceCons(RemoveMeasures(r));
    if rest == "" {
      NormalizeChainEmpty();
    }
  }
}
