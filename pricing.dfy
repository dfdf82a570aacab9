/**
  `calculate_price(product_name, quantity)` of app.py: the name is normalised
  and resolved to a `PRODUCT_INFO` key; a resolved key prices the quantity,
  converted to the key's unit, at the key's unit price; otherwise the product
  collection is searched by normalised name; otherwise, and whenever
  `float()` raises, the price is 0.99.
*/
module Pricing {
  import opened Wrappers
  import opened PyNumbers
  import opened Normalizer
  import opened Quantities
  import opened Catalog

  /** The state `calculate_price` reads: `PRODUCT_INFO` in dict order, the
      synonym table and the product collection. */
  datatype Tables = Tables(info: seq<InfoEntry>, synonyms: seq<Synonym>, products: seq<Product>)

  /** The price used when nothing resolves and when an exception is caught. */
  const FallbackPrice: real := 0.99

  /** The `PRODUCT_INFO` entry a normalised name prices by: `None` when
      `find_product_key` finds no key, a falsy (empty) key, or a key that is no
      longer in `PRODUCT_INFO`. */
  function PricingInfo(t: Tables, norm: string): (r: Option<ProductInfo>)
    ensures r.Some? ==> exists k :: k != "" && FindProductKey(t.info, t.synonyms, norm) == Some(k) && Lookup(t.info, k) == r
  {
    var key := FindProductKey(t.info, t.synonyms, norm);
    if key.None? || key.value == "" then None else Lookup(t.info, key.value)
  }

  /** An amount at a unit price. */
  function Cost(amount: real, ppu: real): real {
    amount * ppu
  }

  /** `calculate_price` once the name is normalised to `norm` and the quantity
      text parsed to `parsed` (`None` when `float()` raises). */
  function PriceOf(num: Numerics, t: Tables, norm: string, parsed: Option<Quantity>): (r: real)
    ensures parsed.None? ==> r == FallbackPrice
    ensures PricingInfo(t, norm).None? && !HasNormalized(t.products, norm) ==> r == FallbackPrice
  {
    var pinfo := PricingInfo(t, norm);
    if pinfo.None? then
      var d := NormalizedIndex(t.products, norm, 0);
      if d == |t.products| || parsed.None? then FallbackPrice
      else
        var ppu := if t.products[d].pricePerUnit.Some? then t.products[d].pricePerUnit.value else 1.0;
        num.round2(Cost(parsed.value.amount.Value(), ppu))
    else if parsed.None? then FallbackPrice
    else num.round2(Cost(ConvertAmount(parsed.value.amount.Value(), parsed.value.unit, pinfo.value.unit), pinfo.value.pricePerUnit))
  }

  /** `calculate_price(product_name, quantity)` */
  function CalculatePrice(num: Numerics, t: Tables, productName: string, quantity: string): (r: real)
    ensures ParseQuantity(quantity).None? ==> r == FallbackPrice
    ensures var norm := Normalize(productName);
      PricingInfo(t, norm).None? && !HasNormalized(t.products, norm) ==> r == FallbackPrice
  {
    PriceOf(num, t, Normalize(productName), ParseQuantity(quantity))
  }

  /** A quantity text that `float()` rejects is priced 0.99 on every path. */
  lemma PriceOfUnparsable(num: Numerics, t: Tables, norm: string, parsed: Option<Quantity>)
    requires parsed.None?
    ensures PriceOf(num, t, norm, parsed) == FallbackPrice
  {
  }

  /** A name that resolves to no `PRODUCT_INFO` entry and to no product of the
      collection is priced 0.99. */
  lemma PriceOfUnknown(num: Numerics, t: Tables, norm: string, parsed: Option<Quantity>)
    requires PricingInfo(t, norm).None?
    requires !HasNormalized(t.products, norm)
    ensures PriceOf(num, t, norm, parsed) == FallbackPrice
  {
    var d := NormalizedIndex(t.products, norm, 0);
    assert d == |t.products|;
  }

  /** With a `PRODUCT_INFO` entry, the price is the amount converted to the
      entry's unit times its unit price, rounded to cents. */
  lemma PriceFromInfo(num: Numerics, t: Tables, norm: string, parsed: Option<Quantity>, pinfo: ProductInfo, q: Quantity)
    requires PricingInfo(t, norm) == Some(pinfo)
    requires parsed == Some(q)
    ensures PriceOf(num, t, norm, parsed) == num.round2(Cost(ConvertAmount(q.amount.Value(), q.unit, pinfo.unit), pinfo.pricePerUnit))
  {
  }

  /** Any unit pair other than kg/gm and liter/ml is used unscaled: `"2 unit"`
      of a product sold by the gram is priced as 2 grams. */
  lemma PriceUnscaled(num: Numerics, t: Tables, norm: string, parsed: Option<Quantity>, pinfo: ProductInfo, q: Quantity)
    requires PricingInfo(t, norm) == Some(pinfo)
    requires parsed == Some(q)
    requires !(q.unit in ["gm", "kg"] && pinfo.unit in ["gm", "kg"] && q.unit != pinfo.unit)
    requires !(q.unit in ["ml", "liter"] && pinfo.unit in ["ml", "liter"] && q.unit != pinfo.unit)
    ensures PriceOf(num, t, norm, parsed) == num.round2(Cost(q.amount.Value(), pinfo.pricePerUnit))
  {
    PriceFromInfo(num, t, norm, parsed, pinfo, q);
  }

  /** Two quantity texts that come to the same amount in the entry's unit,
      such as `"1 kg"` and `"1000 gm"` of a product sold by the gram, cost the same. */
  lemma PriceOfEquivalentQuantities(num: Numerics, t: Tables, norm: string, pinfo: ProductInfo, a: Quantity, b: Quantity)
    requires PricingInfo(t, norm) == Some(pinfo)
    requires ConvertAmount(a.amount.Value(), a.unit, pinfo.unit) == ConvertAmount(b.amount.Value(), b.unit, pinfo.unit)
    ensures PriceOf(num, t, norm, Some(a)) == PriceOf(num, t, norm, Some(b))
  {
    PriceFromInfo(num, t, norm, Some(a), pinfo, a);
    PriceFromInfo(num, t, norm, Some(b), pinfo, b);
  }

  /** Without an entry, the first product whose `name_normalized` is the
      normalised name prices the unconverted amount at its own unit price, or
      at 1 when it has none. */
  lemma PriceFromCollection(num: Numerics, t: Tables, norm: string, parsed: Option<Quantity>, d: nat, q: Quantity)
    requires PricingInfo(t, norm).None?
    requires FirstNormalized(t.products, norm, d)
    requires parsed == Some(q)
    ensures var ppu := if t.products[d].pricePerUnit.Some? then t.products[d].pricePerUnit.value else 1.0;
      PriceOf(num, t, norm, parsed) == num.round2(Cost(q.amount.Value(), ppu))
  {
    var e := NormalizedIndex(t.products, norm, 0);
    assert !(e < d) && !(d < e);
  }
  /** A name whose key is a synonym key missing from `PRODUCT_INFO` (such as
      `"oil"`) is priced through the collection, by its own normalised name. */
  lemma SynonymKeyWithoutInfo(t: Tables, norm: string, k: string)
    requires FindProductKey(t.info, t.synonyms, norm) == Some(k)
    requires k !in Keys(t.info)
    ensures PricingInfo(t, norm).None?
  {
  }
}
