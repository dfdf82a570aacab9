/** Worked quantity texts: what `parse_quantity` and
    `parse_and_validate_quantity` answer on typical recipe quantities. */
module QuantitiesExamples {
  import opened Text
  import opened Wrappers
  import opened PyNumbers
  import opened Quantities

  /** `"500"` is a number text worth 500. */
  lemma FiveHundred()
    ensures NatToString(500) == "500"
    ensures AllNumberChars("500") && FloatSyntax("500") && FloatValue("500") == 500.0
  {
    NatToStringIsNumber(500);
  }

  /** `"100"` is a number text worth 100. */
  lemma Hundred()
    ensures AllNumberChars("100") && FloatSyntax("100") && FloatValue("100") == 100.0
  {
    NatToStringIsNumber(100);
    assert NatToString(100) == "100";
  }

  /** A float that `str()` prints as `"1000.0"`, as Python does, reads back. */
  lemma ThousandPrintsBack(num: Numerics)
    requires num.showFloat(1000.0) == "1000.0"
    ensures PrintsBack(num, 1000.0)
  {
    var t := "1000.0";
    assert t[1..] == "000.0" && t[1..][1..] == "00.0" && t[1..][1..][1..] == "0.0";
    assert DotIndex(".0") == 0;
    assert DotIndex(t) == 4;
    assert t[..4] == "1000" && t[5..] == "0";
    assert "1000"[..3] == "100" && "100"[..2] == "10" && "10"[..1] == "1" && "1"[..0] == "";
    assert DigitsValue("1") == 1;
    assert DigitsValue("10") == 10;
    assert DigitsValue("100") == 100;
    assert DigitsValue("1000") == 1000;
    assert "0"[..0] == "";
    assert DigitsValue("0") == 0;
    assert FloatSyntax(t);
    assert FloatValue(t) == 1000.0;
  }

  /** A float printed with an exponent, as `str(1e-05)` is, does not read back:
      `[\d.]+` stops at the `e`. */
  lemma ExponentDoesNotPrintBack(num: Numerics)
    requires num.showFloat(0.00001) == "1e-05"
    ensures !PrintsBack(num, 0.00001)
  {
    assert !IsNumberChar("1e-05"[1]);
  }

  /** An empty text is the default quantity. */
  lemma ParseEmpty()
    ensures ParseQuantity("") == Some(DefaultQuantity)
  {
  }

  /** `"500 gm"` reads as the float 500 in grams. */
  lemma ParseGrams()
    ensures ParseQuantity("500 gm") == Some(Quantity(PyFloat(500.0), "gm"))
  {
    var q := "500 gm";
    assert NumberRun(q, 0) == 3;
    assert SpaceRun(q, 3) == 1;
    assert LetterRun(q, 4) == 2;
    assert WordAfter(q, 3) == "gm";
    assert q[..3] == "500";
    FiveHundred();
    assert Lower("gm") == "gm";
    ParseQuantityRuns(q, 3);
  }

  /** A fraction stops at the slash: `"1/2 cup"` is the float 1 of `"unit"`. */
  lemma ParseFraction()
    ensures ParseQuantity("1/2 cup") == Some(Quantity(PyFloat(1.0), "unit"))
  {
    var q := "1/2 cup";
    assert NumberRun(q, 0) == 1;
    assert SpaceRun(q, 1) == 0;
    assert LetterRun(q, 1) == 0;
    assert WordAfter(q, 1) == "";
    assert q[..1] == "1";
    assert DotIndex("1") == 1;
    ParseQuantityRuns(q, 1);
  }

  /** A lone dot makes `float()` raise. */
  lemma ParseDot()
    ensures ParseQuantity(".") == None
  {
    assert NumberRun(".", 0) == 1;
    assert ".."[..1] == ".";
    assert DotIndex(".") == 0;
    ParseQuantityFailsIff(".");
  }

  /** `"100 gm"` reads as the float 100 in grams. */
  lemma ParseHundredGrams()
    ensures ParseQuantity("100 gm") == Some(Quantity(PyFloat(100.0), "gm"))
  {
    var q := "100 gm";
    assert NumberRun(q, 0) == 3;
    assert SpaceRun(q, 3) == 1;
    assert LetterRun(q, 4) == 2;
    assert WordAfter(q, 3) == "gm";
    assert q[..3] == "100";
    Hundred();
    assert Lower("gm") == "gm";
    ParseQuantityRuns(q, 3);
  }

  /** `"1 kg"` reads as the float 1 in kilograms. */
  lemma ParseKilo()
    ensures ParseQuantity("1 kg") == Some(Quantity(PyFloat(1.0), "kg"))
  {
    var q := "1 kg";
    assert NumberRun(q, 0) == 1;
    assert SpaceRun(q, 1) == 1;
    assert LetterRun(q, 2) == 2;
    assert WordAfter(q, 1) == "kg";
    assert q[..1] == "1";
    assert DotIndex("1") == 1;
    assert Lower("kg") == "kg";
    ParseQuantityRuns(q, 1);
  }

  /** `"2 cup"` reads as the float 2 of cups. */
  lemma ParseCups()
    ensures ParseQuantity("2 cup") == Some(Quantity(PyFloat(2.0), "cup"))
  {
    var q := "2 cup";
    assert NumberRun(q, 0) == 1;
    assert SpaceRun(q, 1) == 1;
    assert LetterRun(q, 2) == 3;
    assert WordAfter(q, 1) == "cup";
    assert q[..1] == "2";
    assert DotIndex("2") == 1;
    assert Lower("cup") == "cup";
    ParseQuantityRuns(q, 1);
  }

  /** The int 500 in grams is written `"500 gm"`. */
  lemma FormatFiveHundredGrams(num: Numerics)
    ensures FormatQty(num, PyInt(500), "gm") == "500 gm"
  {
    FiveHundred();
    assert "500" + " " + "gm" == "500 gm";
  }

  /** Too little of a compatible unit is raised to the minimum:
      `"100 gm"` becomes `"500 gm"` for a minimum of 500 gm. */
  lemma ValidateRaises(num: Numerics)
    ensures ValidateQuantity(num, "100 gm", "250 gm", PyInt(500), "gm") == "500 gm"
  {
    ParseHundredGrams();
    FormatFiveHundredGrams(num);
    ValidateRaisesToMinimum(num, "100 gm", "250 gm", PyInt(500), "gm");
  }

  /** Enough of a convertible unit is kept as written: `"1 kg"` is 1000 gm. */
  lemma ValidateKeepsKilo(num: Numerics)
    ensures ValidateQuantity(num, "1 kg", "250 gm", PyInt(500), "gm") == "1 kg"
  {
    ParseKilo();
    assert MeetsMinimum("1 kg", 500.0, "gm");
  }

  /** A unit that cannot be compared falls back to the default. */
  lemma ValidateCupsFallBack(num: Numerics)
    ensures ValidateQuantity(num, "2 cup", "250 gm", PyInt(500), "gm") == "250 gm"
  {
    ParseCups();
    ValidateFallsBack(num, "2 cup", "250 gm", PyInt(500), "gm");
  }

  /** A `float()` error falls back to the default as well. */
  lemma ValidateDotFallsBack(num: Numerics)
    ensures ValidateQuantity(num, ".", "250 gm", PyInt(500), "gm") == "250 gm"
  {
    ParseDot();
    ValidateFallsBack(num, ".", "250 gm", PyInt(500), "gm");
  }
}
