/** Prices of the built-in tomato entry: 0.002 per gram. */
module PricingExamples {
  import opened Wrappers
  import opened PyNumbers
  import opened Normalizer
  import opened Quantities
  import opened Catalog
  import opened Pricing
  import NormalizerExamples
  import QuantitiesExamples
  import CatalogExamples

  /** `"tomato"` resolves directly to the built-in tomato entry. */
  lemma TomatoInfo(products: seq<Product>)
    ensures PricingInfo(Tables(DefaultInfo, Synonyms, products), "tomato") == Some(DefaultInfo[0].info)
  {
    CatalogExamples.DefaultKeys();
    FindProductKeyDirect(DefaultInfo, Synonyms, "tomato");
  }

  /** 500 grams of tomato: 500 * 0.002. */
  lemma FiveHundredGramsPrice(num: Numerics, products: seq<Product>)
    requires RoundKeepsCents(num)
    ensures PriceOf(num, Tables(DefaultInfo, Synonyms, products), "tomato", ParseQuantity("500 gm")) == 1.0
  {
    TomatoInfo(products);
    QuantitiesExamples.ParseGrams();
    PriceFromInfo(num, Tables(DefaultInfo, Synonyms, products), "tomato", ParseQuantity("500 gm"), DefaultInfo[0].info, Quantity(PyFloat(500.0), "gm"));
    assert IsCents(1.0);
  }

  /** `("tomato", "500 gm")` costs 1.0 when `round` keeps whole cents. */
  lemma FiveHundredGramsOfTomato(num: Numerics, products: seq<Product>)
    requires RoundKeepsCents(num)
    ensures CalculatePrice(num, Tables(DefaultInfo, Synonyms, products), "tomato", "500 gm") == 1.0
  {
    NormalizerExamples.Tomato();
    FiveHundredGramsPrice(num, products);
  }

  /** A kilogram of tomato: 1000 grams at 0.002. */
  lemma OneKiloPrice(num: Numerics, products: seq<Product>)
    requires RoundKeepsCents(num)
    ensures PriceOf(num, Tables(DefaultInfo, Synonyms, products), "tomato", ParseQuantity("1 kg")) == 2.0
  {
    TomatoInfo(products);
    QuantitiesExamples.ParseKilo();
    PriceFromInfo(num, Tables(DefaultInfo, Synonyms, products), "tomato", ParseQuantity("1 kg"), DefaultInfo[0].info, Quantity(PyFloat(1.0), "kg"));
    assert IsCents(2.0);
  }

  /** `("tomato", "1 kg")` costs 2.0: the kilogram is converted to 1000 grams. */
  lemma OneKiloOfTomato(num: Numerics, products: seq<Product>)
    requires RoundKeepsCents(num)
    ensures CalculatePrice(num, Tables(DefaultInfo, Synonyms, products), "tomato", "1 kg") == 2.0
  {
    NormalizerExamples.Tomato();
    OneKiloPrice(num, products);
  }
}
