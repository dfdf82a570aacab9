/**
  Concrete names put through `normalize_ingredient_name`, from the comments of
  the plural rules (`berries`, `tomatoes`, `onions`) and from the way names are
  written in recipes (`Fresh Diced Tomatoes`). Each example is derived from the
  general laws of `Normalizer`; the facts about the letters of a literal are
  kept in a lemma of their own, apart from the statement about `Normalize`.
*/
module NormalizerExamples {
  import opened Text
  import opened Normalizer

  predicate Letters(t: string) {
    forall k :: 0 <= k < |t| ==> IsAsciiLetter(t[k])
  }

  lemma EmptyName()
    ensures Normalize("") == ""
  {
  }

  lemma TomatoesWord()
    ensures Letters("Tomatoes") && Lower("Tomatoes") !in Modifiers
  {
    assert Lower("Tomatoes") == "tomatoes";
  }

  lemma TomatoesRules()
    ensures SingularS(SingularOes(SingularIes(Lower("Tomatoes")))) == "tomato"
  {
    assert Lower("Tomatoes") == "tomatoes";
    assert SingularIes("tomatoes") == "tomatoes";
    assert SingularOes("tomatoes") == "tomato";
  }

  /** `tomatoes -> tomato`, with a capital letter on the way in. */
  lemma Tomatoes()
    ensures Normalize("Tomatoes") == "tomato"
  {
    TomatoesWord();
    TomatoesRules();
    NormalizeWord("Tomatoes");
  }

  lemma BerriesWord()
    ensures Letters("berries") && Lower("berries") !in Modifiers
  {
    assert Lower("berries") == "berries";
  }

  lemma BerriesRules()
    ensures SingularS(SingularOes(SingularIes(Lower("berries")))) == "berry"
  {
    assert Lower("berries") == "berries";
    assert "berries"[4..] == "ies" && "berries"[..4] == "berr";
    assert SingularIes("berries") == "berry";
    assert !EndsWith("berry", "oes");
    assert SingularOes("berry") == "berry";
    assert SingularS("berry") == "berry";
  }

  /** `berries -> berry` */
  lemma Berries()
    ensures Normalize("berries") == "berry"
  {
    BerriesWord();
    BerriesRules();
    NormalizeWord("berries");
  }

  lemma OnionsWord()
    ensures Letters("onions") && Lower("onions") !in Modifiers
  {
    assert Lower("onions") == "onions";
  }

  lemma OnionsRules()
    ensures SingularS(SingularOes(SingularIes(Lower("onions")))) == "onion"
  {
    assert Lower("onions") == "onions";
    assert SingularS("onions") == "onion";
  }

  /** `onions -> onion` */
  lemma Onions()
    ensures Normalize("onions") == "onion"
  {
    OnionsWord();
    OnionsRules();
    NormalizeWord("onions");
  }

  lemma GlassWord()
    ensures Letters("glass") && Lower("glass") !in Modifiers
  {
    assert Lower("glass") == "glass";
  }

  lemma GlassRules()
    ensures SingularS(SingularOes(SingularIes(Lower("glass")))) == "glass"
  {
    assert Lower("glass") == "glass";
    assert "glass"[2..] == "ass";
    assert !EndsWith("glass", "ies") && !EndsWith("glass", "oes");
    assert SingularIes("glass") == "glass";
    assert SingularOes("glass") == "glass";
    assert "glass"[3] == 's';
    assert SingularS("glass") == "glass";
  }

  /** A final `ss` is not a plural: `[^s]` refuses the second `s`. */
  lemma Glass()
    ensures Normalize("glass") == "glass"
  {
    GlassWord();
    GlassRules();
    NormalizeWord("glass");
  }

  lemma FreshDicedFacts()
    ensures AllWordChars("Fresh") && Lower("Fresh") in Modifiers
    ensures AllWordChars("Diced") && Lower("Diced") in Modifiers
  {
    assert Lower("Fresh") == "fresh" == Modifiers[0];
    assert Lower("Diced") == "diced" == Modifiers[6];
  }

  lemma FreshDicedSplit()
    ensures "Fresh" + " " + "Diced Tomatoes" == "Fresh Diced Tomatoes"
    ensures "Diced" + " " + "Tomatoes" == "Diced Tomatoes"
  {
  }

  /** Modifier words are dropped whatever their letter case. */
  lemma FreshDicedTomatoes()
    ensures Normalize("Fresh Diced Tomatoes") == "tomato"
  {
    FreshDicedFacts();
    NormalizeDropsModifier("Fresh", "Diced Tomatoes");
    NormalizeDropsModifier("Diced", "Tomatoes");
    Tomatoes();
    FreshDicedSplit();
  }

  lemma FreshsWord()
    ensures Letters("freshs") && Lower("freshs") !in Modifiers
  {
    assert Lower("freshs") == "freshs";
  }

  lemma FreshsRules()
    ensures SingularS(SingularOes(SingularIes(Lower("freshs")))) == "fresh"
  {
    assert Lower("freshs") == "freshs";
    assert SingularS("freshs") == "fresh";
  }

  lemma FreshWord()
    ensures AllWordChars("fresh") && Lower("fresh") in Modifiers
  {
    assert Lower("fresh") == "fresh" == Modifiers[0];
  }

  /** Normalising twice can differ from normalising once: the plural rule turns
      `freshs` into the modifier `fresh`, which a second pass removes. */
  lemma NotIdempotent()
    ensures Normalize("freshs") == "fresh"
    ensures Normalize(Normalize("freshs")) == ""
  {
    FreshsWord();
    FreshsRules();
    FreshWord();
    NormalizeWord("freshs");
    NormalizeModifierWord("fresh");
  }

  lemma TomatoWord()
    ensures Letters("tomato") && Lower("tomato") !in Modifiers
  {
    assert Lower("tomato") == "tomato";
  }

  lemma TomatoRules()
    ensures SingularS(SingularOes(SingularIes(Lower("tomato")))) == "tomato"
  {
    assert Lower("tomato") == "tomato";
    assert SingularIes("tomato") == "tomato";
    assert SingularOes("tomato") == "tomato";
  }

  /** A singular key such as `tomato` is its own normal form. */
  lemma Tomato()
    ensures Normalize("tomato") == "tomato"
  {
    TomatoWord();
    TomatoRules();
    NormalizeWord("tomato");
  }

  /** `2 w`, for a word `w` that is not a modifier, keeps both tokens through the
      modifier removal (the `2` is a word of its own for `\b`). */
  lemma CountedWordModifiers(w: string)
    requires AllWordChars(w) && w !in Modifiers
    ensures RemoveModifiers("2 " + w) == "2 " + w
  {
    assert AllWordChars("2") && "2" !in Modifiers;
    assert !IsWordChar(" "[0]);
    RemoveModifiersOfToken("2", " ");
    assert "2" + " " == "2 ";
    RemoveModifiersOfToken(w, []);
    assert w + [] == w;
    assert !IsWordChar("2 "[1]);
    RemoveModifiersSplit("2 ", w);
  }

  lemma GarlicLower()
    ensures Lower("2 garlic") == "2 garlic"
  {
    assert Lower("2 garlic") == "2 garlic";
  }

  lemma GarlicModifiers()
    ensures RemoveModifiers("2 garlic") == "2 garlic"
  {
    assert AllWordChars("garlic") && "garlic" !in Modifiers;
    CountedWordModifiers("garlic");
    assert "2 " + "garlic" == "2 garlic";
  }

  lemma GarlicMeasures()
    ensures RemoveMeasures("2 garlic") == "arlic"
  {
    assert "2 garlic" == ['2', ' ', 'g'] + "arlic";
    RemoveMeasuresDigitG('2', "arlic");
  }

  lemma ArlicTidy()
    ensures Strip(CollapseSpaces("arlic")) == "arlic"
  {
    CollapseSpacesKeeps("arlic");
    StripKeeps("arlic");
  }

  lemma ArlicRules()
    ensures SingularS(SingularOes(SingularIes("arlic"))) == "arlic"
  {
    assert !EndsWith("arlic", "ies") && !EndsWith("arlic", "oes");
    assert SingularIes("arlic") == "arlic";
    assert SingularOes("arlic") == "arlic";
    assert SingularS("arlic") == "arlic";
  }

  /** The measurement pattern has no word boundary after the unit: the `g` of
      `garlic` is taken as grams. */
  lemma TwoGarlic()
    ensures Normalize("2 garlic") == "arlic"
  {
    GarlicLower();
    GarlicModifiers();
    GarlicMeasures();
    ArlicTidy();
    ArlicRules();
    NormalizeThrough("2 garlic", "arlic");
  }

  lemma GramsLower()
    ensures Lower("2 grams") == "2 grams"
  {
    assert Lower("2 grams") == "2 grams";
  }

  lemma GramsModifiers()
    ensures RemoveModifiers("2 grams") == "2 grams"
  {
    assert AllWordChars("grams") && "grams" !in Modifiers;
    CountedWordModifiers("grams");
    assert "2 " + "grams" == "2 grams";
  }

  lemma GramsMeasures()
    ensures RemoveMeasures("2 grams") == "rams"
  {
    assert "2 grams" == ['2', ' ', 'g'] + "rams";
    RemoveMeasuresDigitG('2', "rams");
  }

  lemma RamsTidy()
    ensures Strip(CollapseSpaces("rams")) == "rams"
  {
    CollapseSpacesKeeps("rams");
    StripKeeps("rams");
  }

  lemma RamsRules()
    ensures SingularS(SingularOes(SingularIes("rams"))) == "ram"
  {
    assert !EndsWith("rams", "ies") && !EndsWith("rams", "oes");
    assert SingularIes("rams") == "rams";
    assert SingularOes("rams") == "rams";
    assert SingularS("rams") == "ram";
  }

  /** `gram` is shadowed by `g` in the alternation, so `2 grams` loses only
      `2 g`; the plural rule then makes `rams` into `ram`. */
  lemma TwoGrams()
    ensures Normalize("2 grams") == "ram"
  {
    GramsLower();
    GramsModifiers();
    GramsMeasures();
    RamsTidy();
    RamsRules();
    NormalizeThrough("2 grams", "rams");
  }
}
