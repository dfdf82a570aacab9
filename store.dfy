/**
  `PRODUCT_INFO` as the mutable dict the admin routes of app.py maintain: adding
  a product inserts its entry only when the normalised name is new, editing a
  product overwrites the entry, and deleting a product removes it. The dict is
  kept as its items in insertion order; an overwritten key keeps its place.
*/
module InfoStore {
  import opened Text
  import opened Wrappers
  import opened PyNumbers
  import opened Normalizer
  import opened Quantities
  import opened Catalog

  /** The entry the admin routes build: `default_qty` is `f"1 {unit}"` and the
      minimum quantity is a float (it comes from `float()`). For a one-word unit
      the default quantity reads back as one of that unit; a blank unit reads
      back as one `unit`. */
  function AdminInfo(unit: string, pricePerUnit: real, minQty: real): (r: ProductInfo)
    ensures r.defaultQty == "1 " + unit && r.unit == unit
    ensures r.pricePerUnit == pricePerUnit && r.minQty == PyFloat(minQty)
    ensures AllLetters(unit) && NoUpper(unit) ==>
      ParseQuantity(r.defaultQty) == Some(Quantity(PyFloat(1.0), if unit == "" then "unit" else unit))
  {
    if AllLetters(unit) && NoUpper(unit) then
      AdminDefaultReadsBack(unit);
      ProductInfo("1 " + unit, unit, pricePerUnit, PyFloat(minQty))
    else
      ProductInfo("1 " + unit, unit, pricePerUnit, PyFloat(minQty))
  }

  lemma AdminDefaultReadsBack(unit: string)
    requires AllLetters(unit) && NoUpper(unit)
    ensures ParseQuantity("1 " + unit) == Some(Quantity(PyFloat(1.0), if unit == "" then "unit" else unit))
  {
    OneIsNumber();
    ParseNumberAndUnit("1", unit);
    OneSpaceUnit(unit);
    if unit != "" {
      LowerKeeps(unit);
    }
  }

  lemma OneSpaceUnit(unit: string)
    ensures "1" + " " + unit == "1 " + unit
  {
  }

  lemma OneIsNumber()
    ensures AllNumberChars("1") && FloatSyntax("1") && FloatValue("1") == 1.0
  {
    assert NatToString(1) == "1";
    NatToStringIsNumber(1);
  }

  /** `d[key] = info` on the dict items: the entry of an existing key is
      replaced in place, a new key is appended. */
  function Put(entries: seq<InfoEntry>, key: string, info: ProductInfo): (r: seq<InfoEntry>)
    ensures |r| == if key in Keys(entries) then |entries| else |entries| + 1
  {
    var j := KeyIndex(entries, key, 0);
    if j < |entries| then entries[j := InfoEntry(key, info)] else entries + [InfoEntry(key, info)]
  }

  /** `del d[key]` on the dict items. */
  function Delete(entries: seq<InfoEntry>, key: string): (r: seq<InfoEntry>)
    ensures |r| <= |entries|
    decreases |entries|
  {
    if entries == [] then []
    else if entries[0].key == key then Delete(entries[1..], key)
    else [entries[0]] + Delete(entries[1..], key)
  }

  /** The keys after `d[key] = info`: the old ones in the same order, with
      `key` appended when it is new. */
  lemma PutKeys(entries: seq<InfoEntry>, key: string, info: ProductInfo)
    ensures Keys(Put(entries, key, info)) == if key in Keys(entries) then Keys(entries) else Keys(entries) + [key]
  {
    var j := KeyIndex(entries, key, 0);
    var r := Put(entries, key, info);
    if j < |entries| {
      assert forall i :: 0 <= i < |r| ==> Keys(r)[i] == Keys(entries)[i];
    } else {
      assert key !in Keys(entries);
      assert forall i :: 0 <= i < |entries| ==> Keys(r)[i] == Keys(entries)[i];
    }
  }

  /** Putting keeps the keys distinct. */
  lemma PutDistinct(entries: seq<InfoEntry>, key: string, info: ProductInfo)
    requires DistinctKeys(entries)
    ensures DistinctKeys(Put(entries, key, info))
  {
    var j := KeyIndex(entries, key, 0);
    if j == |entries| {
      assert forall i :: 0 <= i < |entries| ==> entries[i].key == Keys(entries)[i];
    }
  }

  /** After `d[key] = info` the key maps to `info` and every other key keeps
      its value. */
  lemma PutLookup(entries: seq<InfoEntry>, key: string, info: ProductInfo, other: string)
    requires DistinctKeys(entries) && other != key
    ensures Lookup(Put(entries, key, info), key) == Some(info)
    ensures Lookup(Put(entries, key, info), other) == Lookup(entries, other)
  {
    var r := Put(entries, key, info);
    PutDistinct(entries, key, info);
    PutKeys(entries, key, info);
    var j := KeyIndex(entries, key, 0);
    var at := if j < |entries| then j else |entries|;
    assert r[at] == InfoEntry(key, info);
    LookupDistinct(r, at);
    if other in Keys(entries) {
      var m := KeyIndex(entries, other, 0);
      assert r[m] == entries[m];
      LookupDistinct(r, m);
      LookupDistinct(entries, m);
    }
  }

  /** What remains after `del d[key]`: exactly the entries with another key. */
  lemma {:induction false} DeleteMembers(entries: seq<InfoEntry>, key: string)
    ensures forall e :: e in Delete(entries, key) <==> e in entries && e.key != key
    decreases |entries|
  {
    if entries != [] {
      DeleteMembers(entries[1..], key);
      assert forall e :: e in entries <==> e == entries[0] || e in entries[1..];
    }
  }

  /** Deleting keeps the keys distinct. */
  lemma {:induction false} DeleteDistinct(entries: seq<InfoEntry>, key: string)
    requires DistinctKeys(entries)
    ensures DistinctKeys(Delete(entries, key))
    decreases |entries|
  {
    if entries != [] {
      var tail := entries[1..];
      assert DistinctKeys(tail) by {
        assert forall i :: 0 <= i < |tail| ==> tail[i] == entries[i + 1];
      }
      DeleteDistinct(tail, key);
      if entries[0].key != key {
        var rest := Delete(tail, key);
        DeleteMembers(tail, key);
        assert forall k :: 0 <= k < |tail| ==> tail[k].key != entries[0].key;
        assert forall k :: 0 <= k < |rest| ==> rest[k] in tail;
        DistinctCons(entries[0], rest);
      }
    }
  }

  lemma DistinctCons(e: InfoEntry, rest: seq<InfoEntry>)
    requires DistinctKeys(rest)
    requires forall k :: 0 <= k < |rest| ==> rest[k].key != e.key
    ensures DistinctKeys([e] + rest)
  {
    var r := [e] + rest;
    assert forall i :: 0 < i < |r| ==> r[i] == rest[i - 1];
  }

  /** After `del d[key]` the key is gone and every other key keeps its value. */
  lemma DeleteLookup(entries: seq<InfoEntry>, key: string, other: string)
    requires DistinctKeys(entries) && other != key
    ensures key !in Keys(Delete(entries, key))
    ensures Lookup(Delete(entries, key), other) == Lookup(entries, other)
  {
    var r := Delete(entries, key);
    DeleteMembers(entries, key);
    DeleteDistinct(entries, key);
    if other in Keys(entries) {
      var m := KeyIndex(entries, other, 0);
      assert entries[m] in r;
      var n :| 0 <= n < |r| && r[n] == entries[m];
      LookupDistinct(r, n);
      LookupDistinct(entries, m);
    }
  }

  /** A new key can be appended without repeating a key. */
  lemma AppendDistinct(entries: seq<InfoEntry>, e: InfoEntry)
    requires DistinctKeys(entries) && e.key !in Keys(entries)
    ensures DistinctKeys(entries + [e])
  {
    assert forall i :: 0 <= i < |entries| ==> entries[i].key == Keys(entries)[i];
  }

  /** The built-in table has each key once. */
  lemma DefaultInfoDistinct()
    ensures DistinctKeys(DefaultInfo)
  {
  }

  /** The `PRODUCT_INFO` dict, updated in place by the admin routes. */
  class ProductInfoTable {
    var entries: seq<InfoEntry>

    ghost predicate Valid()
      reads this
    {
      DistinctKeys(entries)
    }

    /** The dict as the module defines it. */
    constructor ()
      ensures Valid() && entries == DefaultInfo
    {
      entries := DefaultInfo;
      DefaultInfoDistinct();
    }

    /** Adding a product (app.py, `admin_panel`): a name and an image URL are
        required; the entry stored under the normalised name is created only
        when that name is not a key yet. */
    method AddProduct(name: string, imageUrl: string, unitText: string, pricePerUnit: real, minQty: real)
      requires Valid()
      modifies this
      ensures Valid()
      ensures var key := Normalize(Strip(name));
        entries == if Strip(name) == "" || Strip(imageUrl) == "" || key in Keys(old(entries)) then old(entries)
                   else old(entries) + [InfoEntry(key, AdminInfo(Strip(Lower(unitText)), pricePerUnit, minQty))]
    {
      var n := Strip(name);
      if n != "" && Strip(imageUrl) != "" {
        var key := Normalize(n);
        if key !in Keys(entries) {
          var info := AdminInfo(Strip(Lower(unitText)), pricePerUnit, minQty);
          AppendDistinct(entries, InfoEntry(key, info));
          entries := entries + [InfoEntry(key, info)];
        }
      }
    }

    /** Editing a product (app.py, `edit_product`): with a name and an image URL
        the entry under the normalised name is overwritten. */
    method EditProduct(name: string, imageUrl: string, unitText: string, pricePerUnit: real, minQty: real)
      requires Valid()
      modifies this
      ensures Valid()
      ensures entries == if Strip(name) == "" || Strip(imageUrl) == "" then old(entries)
                         else Put(old(entries), Normalize(Strip(name)), AdminInfo(Strip(Lower(unitText)), pricePerUnit, minQty))
    {
      var n := Strip(name);
      if n != "" && Strip(imageUrl) != "" {
        var info := AdminInfo(Strip(Lower(unitText)), pricePerUnit, minQty);
        PutDistinct(entries, Normalize(n), info);
        entries := Put(entries, Normalize(n), info);
      }
    }

    /** Deleting a product (app.py, `delete_product`): its entry goes only when
        the product's normalised name is non-empty and a key. */
    method DeleteProduct(nameNormalized: string)
      requires Valid()
      modifies this
      ensures Valid()
      ensures entries == if nameNormalized != "" && nameNormalized in Keys(old(entries)) then Delete(old(entries), nameNormalized) else old(entries)
    {
      if nameNormalized != "" && nameNormalized in Keys(entries) {
        DeleteDistinct(entries, nameNormalized);
        entries := Delete(entries, nameNormalized);
      }
    }
  }
}
