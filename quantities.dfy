/**
  Quantity texts such as `"500 gm"` or `"1.5 kg"` (app.py): `parse_quantity`,
  the unit compatibility and conversion of `parse_and_validate_quantity`, and
  that function itself.
*/
module Quantities {
  import opened Text
  import opened Wrappers
  import opened PyNumbers

  /** A parsed quantity: the amount and the lower-case unit. */
  datatype Quantity = Quantity(amount: PyNum, unit: string)

  /** What `parse_quantity` answers for an empty or unrecognised text: the int 1 and `"unit"`. */
  const DefaultQuantity := Quantity(PyInt(1), "unit")

  /** `[\d.]`: a character of the number. */
  predicate IsNumberChar(c: char) { IsDigit(c) || c == '.' }

  predicate AllDigits(s: string) {
    forall k :: 0 <= k < |s| ==> IsDigit(s[k])
  }

  predicate AllNumberChars(s: string) {
    forall k :: 0 <= k < |s| ==> IsNumberChar(s[k])
  }

  predicate AllLetters(s: string) {
    forall k :: 0 <= k < |s| ==> IsAsciiLetter(s[k])
  }

  /** The length of the greedy `[\d.]*` match at `i`. */
  function NumberRun(s: string, i: nat): (n: nat)
    requires i <= |s|
    ensures i + n <= |s|
    decreases |s| - i
  {
    if i == |s| || !IsNumberChar(s[i]) then 0 else 1 + NumberRun(s, i + 1)
  }

  /** `NumberRun` is a greedy match: digits and dots up to its end, and none just after. */
  lemma {:induction false} NumberRunIsGreedy(s: string, i: nat)
    requires i <= |s|
    ensures forall k :: i <= k < i + NumberRun(s, i) ==> IsNumberChar(s[k])
    ensures i + NumberRun(s, i) == |s| || !IsNumberChar(s[i + NumberRun(s, i)])
    decreases |s| - i
  {
    if i < |s| && IsNumberChar(s[i]) {
      NumberRunIsGreedy(s, i + 1);
    }
  }

  /** The length of the greedy `[a-zA-Z]*` match at `i`. */
  function LetterRun(s: string, i: nat): (n: nat)
    requires i <= |s|
    ensures i + n <= |s|
    decreases |s| - i
  {
    if i == |s| || !IsAsciiLetter(s[i]) then 0 else 1 + LetterRun(s, i + 1)
  }

  /** `LetterRun` is a greedy match: letters up to its end, and none just after. */
  lemma {:induction false} LetterRunIsGreedy(s: string, i: nat)
    requires i <= |s|
    ensures forall k :: i <= k < i + LetterRun(s, i) ==> IsAsciiLetter(s[k])
    ensures i + LetterRun(s, i) == |s| || !IsAsciiLetter(s[i + LetterRun(s, i)])
    decreases |s| - i
  {
    if i < |s| && IsAsciiLetter(s[i]) {
      LetterRunIsGreedy(s, i + 1);
    }
  }

  // ---------------------------------------------------------------------------
  // float() of a run of digits and dots

  /** The index of the first `.`, or `|t|` when there is none. */
  function DotIndex(t: string): (d: nat)
    ensures d <= |t|
    ensures d < |t| ==> t[d] == '.'
    ensures forall k :: 0 <= k < d ==> t[k] != '.'
    decreases |t|
  {
    if t == [] || t[0] == '.' then 0 else 1 + DotIndex(t[1..])
  }

  /** `float(t)` succeeds on a text of digits and dots exactly when it has at
      most one dot and at least one digit. */
  predicate FloatSyntax(t: string) {
    var d := DotIndex(t);
    if d == |t| then |t| > 0 && AllDigits(t)
    else AllDigits(t[..d]) && AllDigits(t[d + 1..]) && |t| > 1
  }

  function Pow10(n: nat): (p: real)
    ensures p >= 1.0
  {
    if n == 0 then 1.0 else 10.0 * Pow10(n - 1)
  }

  /** The exact decimal value of a float text: the binary rounding of `float()`
      is not modelled. */
  function FloatValue(t: string): (v: real)
    requires FloatSyntax(t)
    ensures v >= 0.0
  {
    var d := DotIndex(t);
    var whole := DigitsValue(t[..d]) as real;
    if d == |t| then whole else whole + DigitsValue(t[d + 1..]) as real / Pow10(|t| - d - 1)
  }

  // ---------------------------------------------------------------------------
  // parse_quantity

  /** The matched groups read as a quantity: `float(number)`, which raises
      (`None`) unless `number` has at most one dot and a digit, and the
      lower-cased word, or `"unit"` when it is empty. */
  function ReadQuantity(number: string, word: string): (r: Option<Quantity>)
    ensures r.Some? <==> FloatSyntax(number)
    ensures r.Some? ==> r.value.unit != [] && NoUpper(r.value.unit)
    ensures r.Some? ==> r.value.amount == PyFloat(FloatValue(number)) && r.value.amount.Value() >= 0.0
    ensures r.Some? && word != "" ==> r.value.unit == Lower(word)
  {
    if !FloatSyntax(number) then None
    else Some(Quantity(PyFloat(FloatValue(number)), if word == "" then "unit" else Lower(word)))
  }

  /** The `\s*([a-zA-Z]*)` part of the match: the letters after the spaces that
      follow index `n`. */
  function WordAfter(q: string, n: nat): (w: string)
    requires n <= |q|
    ensures |w| <= |q| - n
  {
    var k := n + SpaceRun(q, n);
    q[k..k + LetterRun(q, k)]
  }

  /** `parse_quantity(q)`: an anchored match of `([\d.]+)\s*([a-zA-Z]*)`; `None`
      stands for the `ValueError` that `float()` raises on a run such as `.` or
      `1.2.3`. The number is always a float once the pattern matches. */
  function ParseQuantity(q: string): (r: Option<Quantity>)
    ensures r.Some? ==> r.value.unit != [] && NoUpper(r.value.unit)
    ensures r.Some? ==> r.value.amount.Value() >= 0.0
  {
    if q == "" then Some(DefaultQuantity)
    else
      var n := NumberRun(q, 0);
      if n == 0 then Some(DefaultQuantity)
      else ReadQuantity(q[..n], WordAfter(q, n))
  }

  /** A parsed unit is `"unit"` or a lower-cased run of letters: never empty,
      letters only, no capitals. */
  lemma ParseQuantityUnit(q: string)
    requires ParseQuantity(q).Some?
    ensures var u := ParseQuantity(q).value.unit; u != "" && AllLetters(u) && NoUpper(u)
  {
    if q != "" && NumberRun(q, 0) > 0 {
      var n := NumberRun(q, 0);
      ParseQuantityRuns(q, n);
      WordAfterLetters(q, n);
      LowerLetters(WordAfter(q, n));
    }
  }

  lemma WordAfterLetters(q: string, n: nat)
    requires n <= |q|
    ensures AllLetters(WordAfter(q, n))
  {
    var k := n + SpaceRun(q, n);
    LetterRunIsGreedy(q, k);
  }

  lemma LowerLetters(w: string)
    requires AllLetters(w)
    ensures AllLetters(Lower(w))
  {
    forall i | 0 <= i < |w|
      ensures IsAsciiLetter(Lower(w)[i])
    {
      assert Lower(w)[i] == LowerChar(w[i]);
    }
  }

  /** The default answer comes exactly from the texts that do not start with a
      digit or a dot: a matched number is a float, never the int 1. */
  lemma ParseQuantityDefaultIff(q: string)
    ensures ParseQuantity(q) == Some(DefaultQuantity) <==> q == "" || !IsNumberChar(q[0])
  {
  }

  /** `float()` raises exactly when the leading run of digits and dots is not a
      number. */
  lemma ParseQuantityFailsIff(q: string)
    ensures ParseQuantity(q).None? <==> q != "" && IsNumberChar(q[0]) && !FloatSyntax(q[..NumberRun(q, 0)])
  {
  }

  lemma {:induction false} NumberRunOf(t: string, rest: string, i: nat)
    requires i <= |t| && AllNumberChars(t)
    requires rest == [] || !IsNumberChar(rest[0])
    ensures NumberRun(t + rest, i) == |t| - i
    decreases |t| - i
  {
    var s := t + rest;
    if i < |t| {
      assert s[i] == t[i];
      NumberRunOf(t, rest, i + 1);
    } else if rest != [] {
      assert s[i] == rest[0];
    }
  }

  lemma {:induction false} LetterRunOf(s: string, i: nat)
    requires i <= |s| && AllLetters(s[i..])
    ensures LetterRun(s, i) == |s| - i
    decreases |s| - i
  {
    if i < |s| {
      assert s[i..][0] == s[i];
      assert s[i + 1..] == s[i..][1..];
      LetterRunOf(s, i + 1);
    }
  }

  /** `parse_quantity` read through its three runs: `n` digits and dots, `m`
      spaces and `l` letters. */
  lemma ParseQuantityRuns(q: string, n: nat)
    requires 0 < n <= |q| && NumberRun(q, 0) == n
    ensures ParseQuantity(q) == ReadQuantity(q[..n], WordAfter(q, n))
  {
  }

  lemma NumberThenSpace(t: string, u: string)
    requires AllNumberChars(t)
    ensures NumberRun(t + " " + u, 0) == |t|
  {
    assert t + " " + u == t + (" " + u);
    NumberRunOf(t, " " + u, 0);
  }

  lemma SpaceThenLetters(t: string, u: string)
    requires AllLetters(u)
    ensures SpaceRun(t + " " + u, |t|) == 1
  {
    var q := t + " " + u;
    SpaceRunShift(t + " ", u, 0);
    if u != [] {
      assert !IsSpace(u[0]);
    }
    assert q[|t|] == ' ';
  }

  lemma LettersAtEnd(t: string, u: string)
    requires AllLetters(u)
    ensures LetterRun(t + " " + u, |t| + 1) == |u|
  {
    var q := t + " " + u;
    assert q[|t| + 1..] == u;
    LetterRunOf(q, |t| + 1);
  }

  lemma WordAfterSpace(t: string, u: string)
    requires AllLetters(u)
    ensures WordAfter(t + " " + u, |t|) == u
  {
    var q := t + " " + u;
    SpaceThenLetters(t, u);
    LettersAtEnd(t, u);
    assert q[|t| + 1..|t| + 1 + |u|] == u;
  }

  /** A number text, one space and a word of letters are read back as that number
      (as a float) and the lower-cased word, or `"unit"` for an empty word. */
  lemma ParseNumberAndUnit(t: string, u: string)
    requires AllNumberChars(t) && FloatSyntax(t) && AllLetters(u)
    ensures ParseQuantity(t + " " + u) == Some(Quantity(PyFloat(FloatValue(t)), if u == "" then "unit" else Lower(u)))
  {
    var q := t + " " + u;
    NumberThenSpace(t, u);
    WordAfterSpace(t, u);
    assert q[..|t|] == t;
    assert t != [] by {
      assert DotIndex(t) <= |t|;
    }
    ParseQuantityRuns(q, |t|);
  }

  /** `str()` of a non-negative int is a number text with that value. */
  lemma NatToStringIsNumber(n: nat)
    ensures AllNumberChars(NatToString(n)) && FloatSyntax(NatToString(n))
    ensures FloatValue(NatToString(n)) == n as real
  {
    var t := NatToString(n);
    assert DotIndex(t) == |t|;
    assert t[..|t|] == t;
    DigitsValueOfNatToString(n);
  }

  /** `str(x)` of the float `x` is a plain number text (digits and one dot, no
      exponent) whose exact value is `x`, so that `float()` reads it back. This
      holds of a value such as `1500.0`, and fails for one that Python prints
      with an exponent (`str(1e-05)` is `"1e-05"`), or whose binary value has
      no finite decimal expansion. */
  ghost predicate PrintsBack(num: Numerics, x: real) {
    var t := num.showFloat(x); AllNumberChars(t) && FloatSyntax(t) && FloatValue(t) == x
  }

  /** `parse_quantity(f"{v} {unit}")` gives back the value (as a float) and the
      unit, for a non-negative int, or for a float whose text reads back. */
  lemma ParseFormatted(num: Numerics, v: PyNum, u: string)
    requires v.Value() >= 0.0 && (v.PyFloat? ==> PrintsBack(num, v.Value()))
    requires AllLetters(u) && u != ""
    ensures ParseQuantity(FormatQty(num, v, u)) == Some(Quantity(PyFloat(v.Value()), Lower(u)))
  {
    match v
    case PyInt(i) =>
      NatToStringIsNumber(i);
      ParseNumberAndUnit(NatToString(i), u);
    case PyFloat(f) =>
      ParseNumberAndUnit(num.showFloat(f), u);
  }

  // ---------------------------------------------------------------------------
  // parse_and_validate_quantity

  /** The units that can be compared: equal ones, or both of a mass pair or both
      of a volume pair. (The `bunch` case of `app.py` is covered by equality.) */
  predicate UnitsCompatible(unit: string, base: string)
    ensures unit == base ==> UnitsCompatible(unit, base)
    ensures UnitsCompatible(unit, base) && unit != base ==> {unit, base} == {"gm", "kg"} || {unit, base} == {"ml", "liter"}
  {
    || unit == base
    || (unit in ["gm", "kg"] && base in ["gm", "kg"])
    || (unit in ["ml", "liter"] && base in ["ml", "liter"])
    || (unit == "bunch" && base == "bunch")
  }

  /** An amount in `from` expressed in `to`: kg/gm and liter/ml differ by 1000;
      every other pair is left unscaled. */
  function ConvertAmount(amount: real, from: string, to: string): (r: real)
    ensures from == to ==> r == amount
    ensures amount >= 0.0 ==> r >= 0.0
    ensures UnitsCompatible(from, to) && from != to ==> r == amount * 1000.0 || r == amount / 1000.0
  {
    if from == "gm" && to == "kg" then amount / 1000.0
    else if from == "kg" && to == "gm" then amount * 1000.0
    else if from == "ml" && to == "liter" then amount / 1000.0
    else if from == "liter" && to == "ml" then amount * 1000.0
    else amount
  }

  /** Converting to the other unit of a compatible pair and back gives the amount again. */
  lemma ConvertRoundTrip(amount: real, from: string, to: string)
    requires UnitsCompatible(from, to)
    ensures ConvertAmount(ConvertAmount(amount, from, to), to, from) == amount
  {
  }

  /** Conversion within a compatible pair never changes the sign of an amount. */
  lemma ConvertKeepsSign(amount: real, from: string, to: string)
    requires amount >= 0.0
    ensures ConvertAmount(amount, from, to) >= 0.0
  {
  }

  /** `q` parses to a quantity compatible with `base` whose amount, converted to
      `base`, is at least `minQty`. */
  predicate MeetsMinimum(q: string, minQty: real, base: string)
    ensures MeetsMinimum(q, minQty, base) ==> ParseQuantity(q).Some? && UnitsCompatible(ParseQuantity(q).value.unit, base)
    ensures ParseQuantity(q) == Some(DefaultQuantity) ==> (MeetsMinimum(q, minQty, base) <==> base == "unit" && minQty <= 1.0)
  {
    match ParseQuantity(q)
    case Some(Quantity(a, u)) => UnitsCompatible(u, base) && ConvertAmount(a.Value(), u, base) >= minQty
    case None => false
  }

  /** `parse_and_validate_quantity(recipe, default, min_qty, base_unit)`: the
      recipe text when it meets the minimum, `f"{min_qty} {base_unit}"` when it is
      compatible but too small, and the default otherwise (including a `float()`
      error). */
  function ValidateQuantity(num: Numerics, recipe: string, default: string, minQty: PyNum, base: string): (r: string)
    ensures recipe == "" ==> r == default
    ensures recipe != "" && MeetsMinimum(recipe, minQty.Value(), base) ==> r == recipe
    ensures recipe != "" && !MeetsMinimum(recipe, minQty.Value(), base) ==> r == default || r == FormatQty(num, minQty, base)
  {
    if recipe == "" then default
    else
      match ParseQuantity(recipe)
      case None => default
      case Some(Quantity(a, u)) =>
        if !UnitsCompatible(u, base) then default
        else if ConvertAmount(a.Value(), u, base) >= minQty.Value() then recipe
        else FormatQty(num, minQty, base)
  }

  /** The raised quantity `f"{min_qty} {base_unit}"` is read back as exactly the
      minimum in the base unit, so it meets the minimum itself. */
  lemma FormattedMeetsMinimum(num: Numerics, minQty: PyNum, base: string)
    requires minQty.Value() >= 0.0 && (minQty.PyFloat? ==> PrintsBack(num, minQty.Value()))
    requires base != "" && AllLetters(base) && NoUpper(base)
    ensures MeetsMinimum(FormatQty(num, minQty, base), minQty.Value(), base)
  {
    ParseFormatted(num, minQty, base);
    LowerKeeps(base);
  }

  /** A unit compatible with a parsed unit is itself a non-empty lower-case
      word: it is that unit, or one of `gm`, `kg`, `ml`, `liter`. */
  lemma CompatibleUnitIsWord(unit: string, base: string)
    requires unit != "" && AllLetters(unit) && NoUpper(unit)
    requires UnitsCompatible(unit, base)
    ensures base != "" && AllLetters(base) && NoUpper(base)
  {
    if unit != base {
      assert base in ["gm", "kg", "ml", "liter"];
    }
  }

  /** The answer is the default or a text that meets the minimum, for any base
      unit and any minimum. A base unit that no parsed unit matches (blank, or
      of several words) always gives the default, and a negative minimum is met
      by every compatible amount. */
  lemma ValidateMeetsMinimum(num: Numerics, recipe: string, default: string, minQty: PyNum, base: string)
    requires (minQty.PyFloat? && minQty.Value() >= 0.0) ==> PrintsBack(num, minQty.Value())
    ensures var r := ValidateQuantity(num, recipe, default, minQty, base);
      r == default || MeetsMinimum(r, minQty.Value(), base)
  {
    if recipe != "" && ParseQuantity(recipe).Some? {
      var q := ParseQuantity(recipe).value;
      ParseQuantityUnit(recipe);
      if UnitsCompatible(q.unit, base) {
        CompatibleUnitIsWord(q.unit, base);
        if minQty.Value() >= 0.0 {
          FormattedMeetsMinimum(num, minQty, base);
        } else {
          ConvertKeepsSign(q.amount.Value(), q.unit, base);
        }
      }
    }
  }

  /** A compatible quantity below the minimum is raised to exactly the minimum
      in the base unit. */
  lemma ValidateRaisesToMinimum(num: Numerics, recipe: string, default: string, minQty: PyNum, base: string)
    requires recipe != "" && ParseQuantity(recipe).Some?
    requires UnitsCompatible(ParseQuantity(recipe).value.unit, base)
    requires ConvertAmount(ParseQuantity(recipe).value.amount.Value(), ParseQuantity(recipe).value.unit, base) < minQty.Value()
    ensures ValidateQuantity(num, recipe, default, minQty, base) == FormatQty(num, minQty, base)
  {
  }

  /** A text that `float()` rejects, or whose unit cannot be compared with the
      base unit, gives the default. */
  lemma ValidateFallsBack(num: Numerics, recipe: string, default: string, minQty: PyNum, base: string)
    requires recipe != ""
    requires ParseQuantity(recipe).None? || !UnitsCompatible(ParseQuantity(recipe).value.unit, base)
    ensures ValidateQuantity(num, recipe, default, minQty, base) == default
  {
  }
}
