/**
  The product tables of app.py and the two lookups over them:
  `find_product_key` over `PRODUCT_INFO` and `INGREDIENT_SYNONYMS`, and
  `find_matching_product` over the product collection. Python dicts iterate in
  insertion order and `find_one` returns the first document in collection order,
  so every table here is a sequence and "first" means the lowest index.
*/
module Catalog {
  import opened Text
  import opened Wrappers
  import opened PyNumbers

  /** A `PRODUCT_INFO` value: the default quantity text, the unit prices are
      quoted in, the price of one unit and the minimum quantity. */
  datatype ProductInfo = ProductInfo(defaultQty: string, unit: string, pricePerUnit: real, minQty: PyNum)

  /** One `PRODUCT_INFO` item, in dict order. */
  datatype InfoEntry = InfoEntry(key: string, info: ProductInfo)

  /** One `INGREDIENT_SYNONYMS` item: a canonical key and its aliases. */
  datatype Synonym = Synonym(key: string, aliases: seq<string>)

  /** A document of the product collection, as far as matching and pricing read
      it; `pricePerUnit` is `None` when the field is missing. */
  datatype Product = Product(id: string, name: string, nameNormalized: string, pricePerUnit: Option<real>)

  /** The built-in `PRODUCT_INFO` table. */
  const DefaultInfo: seq<InfoEntry> := [
    InfoEntry("tomato", ProductInfo("500 gm", "gm", 0.002, PyInt(500))),
    InfoEntry("onion", ProductInfo("250 gm", "gm", 0.0015, PyInt(250))),
    InfoEntry("potato", ProductInfo("1 kg", "kg", 1.2, PyInt(1))),
    InfoEntry("carrot", ProductInfo("500 gm", "gm", 0.0018, PyInt(500))),
    InfoEntry("flour", ProductInfo("1 kg", "kg", 0.8, PyInt(1))),
    InfoEntry("rice", ProductInfo("1 kg", "kg", 1.5, PyInt(1))),
    InfoEntry("milk", ProductInfo("1 liter", "liter", 1.2, PyInt(1))),
    InfoEntry("egg", ProductInfo("12 unit", "unit", 0.25, PyInt(6)))
  ]

  /** The `INGREDIENT_SYNONYMS` table. */
  const Synonyms: seq<Synonym> := [
    Synonym("tomato", ["roma tomato", "cherry tomato", "plum tomato"]),
    Synonym("onion", ["red onion", "white onion", "yellow onion", "spring onion", "scallion"]),
    Synonym("potato", ["russet potato", "yukon gold potato", "red potato", "sweet potato"]),
    Synonym("pepper", ["bell pepper", "red pepper", "green pepper", "yellow pepper", "chili pepper"]),
    Synonym("oil", ["olive oil", "vegetable oil", "canola oil", "cooking oil"]),
    Synonym("rice", ["white rice", "brown rice", "jasmine rice", "basmati rice"]),
    Synonym("flour", ["all-purpose flour", "bread flour", "cake flour", "wheat flour"])
  ]

  // ---------------------------------------------------------------------------
  // PRODUCT_INFO as an ordered table

  /** The keys of the table, in dict order. */
  function Keys(entries: seq<InfoEntry>): (ks: seq<string>)
    ensures |ks| == |entries|
    ensures forall i :: 0 <= i < |entries| ==> ks[i] == entries[i].key
  {
    seq(|entries|, i requires 0 <= i < |entries| => entries[i].key)
  }

  /** A dict has each key once. */
  predicate DistinctKeys(entries: seq<InfoEntry>) {
    forall i, j :: 0 <= i < j < |entries| ==> entries[i].key != entries[j].key
  }

  /** The index of the first entry at `i` or later with this key, or `|entries|`. */
  function KeyIndex(entries: seq<InfoEntry>, key: string, i: nat): (j: nat)
    requires i <= |entries|
    ensures i <= j <= |entries|
    ensures j < |entries| ==> entries[j].key == key
    ensures forall k :: i <= k < j ==> entries[k].key != key
    decreases |entries| - i
  {
    if i == |entries| || entries[i].key == key then i else KeyIndex(entries, key, i + 1)
  }

  /** `PRODUCT_INFO[key]`, or `None` when the key is absent. */
  function Lookup(entries: seq<InfoEntry>, key: string): (r: Option<ProductInfo>)
    ensures r.Some? <==> key in Keys(entries)
    ensures r.Some? ==> InfoEntry(key, r.value) in entries
  {
    var j := KeyIndex(entries, key, 0);
    if j < |entries| then Some(entries[j].info) else None
  }

  /** With distinct keys, the value found is the one stored under the key. */
  lemma LookupDistinct(entries: seq<InfoEntry>, i: nat)
    requires DistinctKeys(entries) && i < |entries|
    ensures Lookup(entries, entries[i].key) == Some(entries[i].info)
  {
    var j := KeyIndex(entries, entries[i].key, 0);
    assert !(i < j);
    assert !(j < i);
  }

  // ---------------------------------------------------------------------------
  // find_product_key

  /** `name == key or name in synonyms`: the name is the key or one of its aliases. */
  predicate SynonymHit(s: Synonym, name: string) {
    name == s.key || name in s.aliases
  }

  /** The index of the first synonym item at `i` or later that the name hits,
      or `|syns|` when there is none. */
  function SynonymIndex(syns: seq<Synonym>, name: string, i: nat): (j: nat)
    requires i <= |syns|
    ensures i <= j <= |syns|
    ensures j < |syns| ==> SynonymHit(syns[j], name)
    ensures forall k :: i <= k < j ==> !SynonymHit(syns[k], name)
    decreases |syns| - i
  {
    if i == |syns| || SynonymHit(syns[i], name) then i else SynonymIndex(syns, name, i + 1)
  }

  /** `key in name or name in key`: either text is a substring of the other. */
  predicate PartialMatch(key: string, name: string) {
    Contains(name, key) || Contains(key, name)
  }

  /** The index of the first key at `i` or later that partially matches the
      name, or `|entries|` when there is none. */
  function PartialIndex(entries: seq<InfoEntry>, name: string, i: nat): (j: nat)
    requires i <= |entries|
    ensures i <= j <= |entries|
    ensures j < |entries| ==> PartialMatch(entries[j].key, name)
    ensures forall k :: i <= k < j ==> !PartialMatch(entries[k].key, name)
    decreases |entries| - i
  {
    if i == |entries| || PartialMatch(entries[i].key, name) then i else PartialIndex(entries, name, i + 1)
  }

  /** `find_product_key(name)`: a direct key, else the first synonym key the
      name hits, else the first key that partially matches it. */
  function FindProductKey(entries: seq<InfoEntry>, syns: seq<Synonym>, name: string): (r: Option<string>)
    ensures r.Some? ==> r.value in Keys(entries) || exists k :: 0 <= k < |syns| && syns[k].key == r.value
  {
    if name in Keys(entries) then Some(name)
    else
      var j := SynonymIndex(syns, name, 0);
      if j < |syns| then Some(syns[j].key)
      else
        var p := PartialIndex(entries, name, 0);
        if p < |entries| then Some(entries[p].key) else None
  }

  /** A direct key always wins. */
  lemma FindProductKeyDirect(entries: seq<InfoEntry>, syns: seq<Synonym>, name: string)
    requires name in Keys(entries)
    ensures FindProductKey(entries, syns, name) == Some(name)
  {
  }

  /** Without a direct key the first synonym item hit gives its key, whether
      or not that key is in the table. */
  lemma FindProductKeySynonym(entries: seq<InfoEntry>, syns: seq<Synonym>, name: string, j: nat)
    requires name !in Keys(entries)
    requires j < |syns| && SynonymHit(syns[j], name)
    requires forall k :: 0 <= k < j ==> !SynonymHit(syns[k], name)
    ensures FindProductKey(entries, syns, name) == Some(syns[j].key)
  {
    var i := SynonymIndex(syns, name, 0);
    assert !(i < j);
    assert !(j < i);
  }

  /** Without a direct key or a synonym, the first key that partially matches wins. */
  lemma FindProductKeyPartial(entries: seq<InfoEntry>, syns: seq<Synonym>, name: string, p: nat)
    requires name !in Keys(entries)
    requires forall k :: 0 <= k < |syns| ==> !SynonymHit(syns[k], name)
    requires p < |entries| && PartialMatch(entries[p].key, name)
    requires forall k :: 0 <= k < p ==> !PartialMatch(entries[k].key, name)
    ensures FindProductKey(entries, syns, name) == Some(entries[p].key)
  {
    var i := PartialIndex(entries, name, 0);
    assert !(i < p);
    assert !(p < i);
  }

  /** `None` comes exactly from a name that is no key, hits no synonym and
      partially matches no key. */
  lemma FindProductKeyNoneIff(entries: seq<InfoEntry>, syns: seq<Synonym>, name: string)
    ensures FindProductKey(entries, syns, name).None? <==>
      && name !in Keys(entries)
      && (forall k :: 0 <= k < |syns| ==> !SynonymHit(syns[k], name))
      && (forall k :: 0 <= k < |entries| ==> !PartialMatch(entries[k].key, name))
  {
  }

  /** The empty text is inside every key, so it resolves to the first key. */
  lemma {:induction false} EmptyMatchesEveryKey(key: string)
    ensures PartialMatch(key, "")
  {
    assert OccursAt(key, "", 0);
  }

  // ---------------------------------------------------------------------------
  // find_matching_product

  /** The index of the first product at `i` or later whose `name_normalized` is
      `target`, or `|products|`. */
  function NormalizedIndex(products: seq<Product>, target: string, i: nat): (j: nat)
    requires i <= |products|
    ensures i <= j <= |products|
    ensures j < |products| ==> products[j].nameNormalized == target
    ensures forall k :: i <= k < j ==> products[k].nameNormalized != target
    decreases |products| - i
  {
    if i == |products| || products[i].nameNormalized == target then i else NormalizedIndex(products, target, i + 1)
  }

  /** Some product has `name_normalized == target`. */
  predicate HasNormalized(products: seq<Product>, target: string) {
    exists k :: 0 <= k < |products| && products[k].nameNormalized == target
  }

  /** The synonym loop from item `i` on: every item the name hits is tried in
      turn, and the first whose key names a product gives that product. */
  function SynonymProduct(products: seq<Product>, syns: seq<Synonym>, name: string, i: nat): (r: Option<Product>)
    requires i <= |syns|
    ensures r.Some? ==> exists k :: i <= k < |syns| && SynonymHit(syns[k], name) && r.value.nameNormalized == syns[k].key
    ensures r.Some? ==> r.value in products
    ensures r.None? <==> forall k :: i <= k < |syns| && SynonymHit(syns[k], name) ==> !HasNormalized(products, syns[k].key)
    decreases |syns| - i
  {
    if i == |syns| then None
    else
      var d := NormalizedIndex(products, syns[i].key, 0);
      if SynonymHit(syns[i], name) && d < |products| then Some(products[d])
      else SynonymProduct(products, syns, name, i + 1)
  }

  /** The fuzzy step: `name` matches `re.compile(f".*{re.escape(name)}.*", re.IGNORECASE)`,
      that is, it occurs in the display name ignoring case. */
  predicate NameMatches(p: Product, name: string) {
    Contains(Lower(p.name), Lower(name))
  }

  /** The index of the first product at `i` or later whose display name
      contains `name` ignoring case, or `|products|`. */
  function NameIndex(products: seq<Product>, name: string, i: nat): (j: nat)
    requires i <= |products|
    ensures i <= j <= |products|
    ensures j < |products| ==> NameMatches(products[j], name)
    ensures forall k :: i <= k < j ==> !NameMatches(products[k], name)
    decreases |products| - i
  {
    if i == |products| || NameMatches(products[i], name) then i else NameIndex(products, name, i + 1)
  }

  /** `find_matching_product(name)`: by `name_normalized`, then through the
      synonym table, then by a case-insensitive substring of the display name. */
  function FindMatchingProduct(products: seq<Product>, syns: seq<Synonym>, name: string): (r: Option<Product>)
    ensures r.Some? ==> r.value in products
  {
    var d := NormalizedIndex(products, name, 0);
    if d < |products| then Some(products[d])
    else
      var s := SynonymProduct(products, syns, name, 0);
      if s.Some? then s
      else
        var f := NameIndex(products, name, 0);
        if f < |products| then Some(products[f]) else None
  }

  /** An exact `name_normalized` hit beats every other step, and the first such
      product in collection order is returned. */
  lemma FindMatchingDirect(products: seq<Product>, syns: seq<Synonym>, name: string, d: nat)
    requires FirstNormalized(products, name, d)
    ensures FindMatchingProduct(products, syns, name) == Some(products[d])
  {
    var i := NormalizedIndex(products, name, 0);
    assert !(i < d);
    assert !(d < i);
  }

  /** `products[d]` is the first product whose `name_normalized` is `target`. */
  predicate FirstNormalized(products: seq<Product>, target: string, d: nat) {
    && d < |products| && products[d].nameNormalized == target
    && forall k :: 0 <= k < d ==> products[k].nameNormalized != target
  }

  /** The synonym loop from `i` on answers with the first product named by the
      first item `j` that the name hits and whose key names a product. */
  lemma {:induction false} SynonymProductFirst(products: seq<Product>, syns: seq<Synonym>, name: string, i: nat, j: nat, d: nat)
    requires i <= j < |syns| && SynonymHit(syns[j], name) && FirstNormalized(products, syns[j].key, d)
    requires forall k :: i <= k < j && SynonymHit(syns[k], name) ==> !HasNormalized(products, syns[k].key)
    ensures SynonymProduct(products, syns, name, i) == Some(products[d])
    decreases j - i
  {
    var e := NormalizedIndex(products, syns[i].key, 0);
    if i == j {
      assert !(e < d) && !(d < e);
    } else {
      if SynonymHit(syns[i], name) {
        assert !HasNormalized(products, syns[i].key);
        assert !(e < |products|);
      }
      SynonymProductFirst(products, syns, name, i + 1, j, d);
    }
  }

  /** Without an exact hit, a product found through a synonym beats a substring
      hit: the answer is the first product named by the first synonym item that
      the name hits and whose key names a product. */
  lemma FindMatchingSynonym(products: seq<Product>, syns: seq<Synonym>, name: string, j: nat, d: nat)
    requires !HasNormalized(products, name)
    requires j < |syns| && SynonymHit(syns[j], name) && FirstNormalized(products, syns[j].key, d)
    requires forall k :: 0 <= k < j && SynonymHit(syns[k], name) ==> !HasNormalized(products, syns[k].key)
    ensures FindMatchingProduct(products, syns, name) == Some(products[d])
  {
    assert NormalizedIndex(products, name, 0) == |products|;
    SynonymProductFirst(products, syns, name, 0, j, d);
  }

  /** The synonym loop keeps going past an item whose key names no product. */
  lemma SynonymProductSkips(products: seq<Product>, syns: seq<Synonym>, name: string, i: nat)
    requires i < |syns| && !HasNormalized(products, syns[i].key)
    ensures SynonymProduct(products, syns, name, i) == SynonymProduct(products, syns, name, i + 1)
  {
    var d := NormalizedIndex(products, syns[i].key, 0);
    assert !(d < |products|);
  }

  /** With no exact and no synonym hit, the first product whose display name
      contains the name ignoring case is returned. */
  lemma FindMatchingFuzzy(products: seq<Product>, syns: seq<Synonym>, name: string, f: nat)
    requires !HasNormalized(products, name)
    requires forall k :: 0 <= k < |syns| && SynonymHit(syns[k], name) ==> !HasNormalized(products, syns[k].key)
    requires f < |products| && NameMatches(products[f], name)
    requires forall k :: 0 <= k < f ==> !NameMatches(products[k], name)
    ensures FindMatchingProduct(products, syns, name) == Some(products[f])
  {
    var d := NormalizedIndex(products, name, 0);
    assert d == |products|;
    var i := NameIndex(products, name, 0);
    assert !(i < f);
    assert !(f < i);
  }

  /** No product is found only when no display name contains the name ignoring
      case (and, before that, no exact or synonym hit). */
  lemma FindMatchingNoneIff(products: seq<Product>, syns: seq<Synonym>, name: string)
    ensures FindMatchingProduct(products, syns, name).None? <==>
      && !HasNormalized(products, name)
      && (forall k :: 0 <= k < |syns| && SynonymHit(syns[k], name) ==> !HasNormalized(products, syns[k].key))
      && (forall k :: 0 <= k < |products| ==> !NameMatches(products[k], name))
  {
    var d := NormalizedIndex(products, name, 0);
    if d < |products| {
      assert HasNormalized(products, name);
    }
  }
}
