/** Lookups in the built-in tables of app.py. */
module CatalogExamples {
  import opened Text
  import opened Wrappers
  import opened Catalog

  /** The keys of the built-in `PRODUCT_INFO`, in dict order. */
  lemma DefaultKeys()
    ensures Keys(DefaultInfo) == ["tomato", "onion", "potato", "carrot", "flour", "rice", "milk", "egg"]
  {
  }

  /** `"olive oil"` is an alias of `"oil"`, which is returned although
      `PRODUCT_INFO` has no `"oil"` key. */
  lemma OliveOil()
    ensures FindProductKey(DefaultInfo, Synonyms, "olive oil") == Some("oil")
    ensures "oil" !in Keys(DefaultInfo)
  {
    DefaultKeys();
    FindProductKeySynonym(DefaultInfo, Synonyms, "olive oil", 4);
  }

  /** An alias resolves to its canonical key. */
  lemma RomaTomato()
    ensures FindProductKey(DefaultInfo, Synonyms, "roma tomato") == Some("tomato")
  {
    DefaultKeys();
    FindProductKeySynonym(DefaultInfo, Synonyms, "roma tomato", 0);
  }

  /** A name that contains a key is resolved to it by the partial match. */
  lemma TomatoPaste()
    ensures FindProductKey(DefaultInfo, Synonyms, "tomato paste") == Some("tomato")
  {
    DefaultKeys();
    assert OccursAt("tomato paste", "tomato", 0);
    FindProductKeyPartial(DefaultInfo, Synonyms, "tomato paste", 0);
  }

  /** The empty name is inside every key, so it resolves to the first one. */
  lemma EmptyName()
    ensures FindProductKey(DefaultInfo, Synonyms, "") == Some("tomato")
  {
    DefaultKeys();
    EmptyMatchesEveryKey("tomato");
    FindProductKeyPartial(DefaultInfo, Synonyms, "", 0);
  }
}
