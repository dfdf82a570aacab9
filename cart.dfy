/**
  The session cart of app.py: a list of line dicts that `add_to_cart` merges
  into or appends to, `update_cart` changes one line of, `remove_from_cart`
  filters, and whose prices `view_cart` and `checkout` add up.
*/
module ShoppingCart {
  import opened Wrappers
  import opened PyNumbers
  import opened Quantities
  import opened Catalog
  import opened Pricing

  /** One cart line. `productId` is `""` when the line has no (or a falsy)
      `product_id`. */
  datatype CartLine = CartLine(
    id: string, productName: string, ingredientName: string, quantity: string, imageUrl: string,
    price: real, unit: string, minQty: PyNum, productId: string)

  /** The line ids, in cart order. */
  function Ids(lines: seq<CartLine>): (ids: seq<string>)
    ensures |ids| == |lines|
    ensures forall k :: 0 <= k < |lines| ==> ids[k] == lines[k].id
  {
    seq(|lines|, k requires 0 <= k < |lines| => lines[k].id)
  }

  /** No two lines share an id. */
  predicate DistinctIds(lines: seq<CartLine>) {
    forall i, j :: 0 <= i < j < |lines| ==> lines[i].id != lines[j].id
  }

  /** `sum(item["price"] for item in cart)` */
  function Total(lines: seq<CartLine>): (s: real)
    ensures (forall k :: 0 <= k < |lines| ==> lines[k].price >= 0.0) ==> s >= 0.0
    decreases |lines|
  {
    if lines == [] then 0.0 else Total(lines[..|lines| - 1]) + lines[|lines| - 1].price
  }

  // ---------------------------------------------------------------------------
  // add_to_cart

  /** The new line of `add_to_cart`: the requested quantity validated against
      the product's minimum, priced by `calculate_price`. */
  function NewLine(num: Numerics, t: Tables, id: string, productName: string, ingredientName: string,
                   recipeQuantity: string, imageUrl: string, productId: string, data: ProductInfo): (r: CartLine)
    ensures r.id == id && r.productName == productName && r.productId == productId
    ensures r.ingredientName == ingredientName && r.imageUrl == imageUrl
    ensures r.unit == data.unit && r.minQty == data.minQty
    ensures r.quantity == ValidateQuantity(num, recipeQuantity, data.defaultQty, data.minQty, data.unit)
    ensures r.quantity == data.defaultQty || r.quantity == recipeQuantity || r.quantity == FormatQty(num, data.minQty, data.unit)
    ensures r.price == CalculatePrice(num, t, productName, r.quantity)
  {
    var quantity := ValidateQuantity(num, recipeQuantity, data.defaultQty, data.minQty, data.unit);
    CartLine(id, productName, ingredientName, quantity, imageUrl, CalculatePrice(num, t, productName, quantity),
             data.unit, data.minQty, productId)
  }

  /** A new line asks for the product's default quantity or for at least its
      minimum. */
  lemma NewLineMeetsMinimum(num: Numerics, t: Tables, id: string, productName: string, ingredientName: string,
                            recipeQuantity: string, imageUrl: string, productId: string, data: ProductInfo)
    requires (data.minQty.PyFloat? && data.minQty.Value() >= 0.0) ==> PrintsBack(num, data.minQty.Value())
    ensures var r := NewLine(num, t, id, productName, ingredientName, recipeQuantity, imageUrl, productId, data);
      r.quantity == data.defaultQty || MeetsMinimum(r.quantity, data.minQty.Value(), data.unit)
  {
    ValidateMeetsMinimum(num, recipeQuantity, data.defaultQty, data.minQty, data.unit);
  }

  /** The match rule of the merge loop: the same truthy `product_id`, or no
      `product_id` on the cart line and the same `product_name`. */
  predicate SameProduct(line: CartLine, item: CartLine)
    ensures line.productId == item.productId && line.productName == item.productName ==> SameProduct(line, item)
    ensures line.productId != "" ==> (SameProduct(line, item) <==> line.productId == item.productId)
    ensures line.productId == "" ==> (SameProduct(line, item) <==> line.productName == item.productName)
  {
    || (line.productId != "" && line.productId == item.productId)
    || (line.productId == "" && line.productName == item.productName)
  }

  /** A matching line is merged only when both quantities parse and their
      units agree; a `float()` error on either skips the line. */
  predicate Mergeable(line: CartLine, item: CartLine)
    ensures line == item ==> (Mergeable(line, item) <==> ParseQuantity(line.quantity).Some?)
    ensures ParseQuantity(line.quantity).None? || ParseQuantity(item.quantity).None? ==> !Mergeable(line, item)
  {
    && SameProduct(line, item)
    && ParseQuantity(line.quantity).Some? && ParseQuantity(item.quantity).Some?
    && ParseQuantity(line.quantity).value.unit == ParseQuantity(item.quantity).value.unit
  }

  /** The quantity of a line whose quantity text parses. */
  function Parsed(line: CartLine): Quantity
    requires ParseQuantity(line.quantity).Some?
  {
    ParseQuantity(line.quantity).value
  }

  /** `f"{existing + new} {existing_unit}"` */
  function MergedQuantity(num: Numerics, line: CartLine, item: CartLine): (q: string)
    requires Mergeable(line, item)
    ensures ParseQuantity(line.quantity) == Some(DefaultQuantity) && ParseQuantity(item.quantity) == Some(DefaultQuantity) ==> q == "2 unit"
  {
    FormatQty(num, Add(Parsed(line).amount, Parsed(item).amount), Parsed(line).unit)
  }

  /** The merged line: the new quantity, priced by the line's own product name;
      everything else stays. */
  function Merge(num: Numerics, t: Tables, line: CartLine, item: CartLine): (r: CartLine)
    requires Mergeable(line, item)
    ensures r.id == line.id && r.productName == line.productName && r.ingredientName == line.ingredientName
    ensures r.imageUrl == line.imageUrl && r.unit == line.unit && r.minQty == line.minQty && r.productId == line.productId
    ensures r.quantity == MergedQuantity(num, line, item)
    ensures r.price == CalculatePrice(num, t, line.productName, r.quantity)
  {
    var q := MergedQuantity(num, line, item);
    line.(quantity := q, price := CalculatePrice(num, t, line.productName, q))
  }

  /** The index of the first line at `i` or later that the item merges into,
      or `|lines|`. */
  function MergeIndex(lines: seq<CartLine>, item: CartLine, i: nat): (j: nat)
    requires i <= |lines|
    ensures i <= j <= |lines|
    ensures j < |lines| ==> Mergeable(lines[j], item)
    ensures forall k :: i <= k < j ==> !Mergeable(lines[k], item)
    decreases |lines| - i
  {
    if i == |lines| || Mergeable(lines[i], item) then i else MergeIndex(lines, item, i + 1)
  }

  /** Once the scan has passed `i` without a merge, `MergeIndex` is the scan from `i`. */
  lemma {:induction false} MergeIndexFrom(lines: seq<CartLine>, item: CartLine, i: nat)
    requires i <= |lines| && i <= MergeIndex(lines, item, 0)
    ensures MergeIndex(lines, item, 0) == MergeIndex(lines, item, i)
  {
    if i > 0 {
      MergeIndexFrom(lines, item, i - 1);
    }
  }

  lemma MergeIndexHit(lines: seq<CartLine>, item: CartLine, i: nat)
    requires i < |lines| && i <= MergeIndex(lines, item, 0) && Mergeable(lines[i], item)
    ensures MergeIndex(lines, item, 0) == i
  {
    MergeIndexFrom(lines, item, i);
  }

  lemma MergeIndexMiss(lines: seq<CartLine>, item: CartLine, i: nat)
    requires i < |lines| && i <= MergeIndex(lines, item, 0) && !Mergeable(lines[i], item)
    ensures i + 1 <= MergeIndex(lines, item, 0)
  {
    MergeIndexFrom(lines, item, i);
  }

  /** The cart after `add_to_cart`'s loop. */
  function AddToCart(num: Numerics, t: Tables, lines: seq<CartLine>, item: CartLine): (r: seq<CartLine>)
    ensures |lines| <= |r| <= |lines| + 1
    ensures forall k :: 0 <= k < |lines| && k != MergeIndex(lines, item, 0) ==> r[k] == lines[k]
    ensures |r| == |lines| + 1 ==> r[|lines|] == item
  {
    var j := MergeIndex(lines, item, 0);
    if j < |lines| then lines[j := Merge(num, t, lines[j], item)] else lines + [item]
  }

  /** Merge: the first line the item merges into is replaced by the merged line
      and every other line stays. */
  lemma AddToCartMerges(num: Numerics, t: Tables, lines: seq<CartLine>, item: CartLine, j: nat)
    requires j < |lines| && Mergeable(lines[j], item)
    requires forall k :: 0 <= k < j ==> !Mergeable(lines[k], item)
    ensures var r := AddToCart(num, t, lines, item);
      && |r| == |lines| && r[j] == Merge(num, t, lines[j], item)
      && forall k :: 0 <= k < |lines| && k != j ==> r[k] == lines[k]
  {
    var m := MergeIndex(lines, item, 0);
    assert !(m < j) && !(j < m);
  }

  /** Append: when no line takes the item, it is added last and the old lines
      stay. */
  lemma AddToCartAppends(num: Numerics, t: Tables, lines: seq<CartLine>, item: CartLine)
    requires forall k :: 0 <= k < |lines| ==> !Mergeable(lines[k], item)
    ensures AddToCart(num, t, lines, item) == lines + [item]
  {
    var m := MergeIndex(lines, item, 0);
    assert !(m < |lines|);
  }

  /** Exactly one of the two happens: the cart keeps its length exactly when
      some line takes the item. */
  lemma AddToCartOutcome(num: Numerics, t: Tables, lines: seq<CartLine>, item: CartLine)
    ensures var r := AddToCart(num, t, lines, item);
      (|r| == |lines| <==> exists k :: 0 <= k < |lines| && Mergeable(lines[k], item))
      && (|r| == |lines| || |r| == |lines| + 1)
  {
  }

  /** Adding keeps the ids distinct when the new id is fresh: a merge keeps
      every id, an append adds the new one. */
  lemma AddToCartIds(num: Numerics, t: Tables, lines: seq<CartLine>, item: CartLine)
    requires DistinctIds(lines) && item.id !in Ids(lines)
    ensures DistinctIds(AddToCart(num, t, lines, item))
    ensures item.id in Ids(AddToCart(num, t, lines, item)) <==> forall k :: 0 <= k < |lines| ==> !Mergeable(lines[k], item)
  {
    var r := AddToCart(num, t, lines, item);
    var m := MergeIndex(lines, item, 0);
    if m < |lines| {
      assert forall k :: 0 <= k < |lines| ==> r[k].id == lines[k].id;
      assert Ids(r) == Ids(lines);
    } else {
      assert forall k :: 0 <= k < |lines| ==> lines[k].id == Ids(lines)[k];
      assert Ids(r)[|lines|] == item.id;
    }
  }

  /** The sum of two amounts is an int (both were the default `1 unit`), or a
      float whose text reads back. */
  ghost predicate SumPrintsBack(num: Numerics, a: Quantity, b: Quantity) {
    Add(a.amount, b.amount).PyFloat? ==> PrintsBack(num, a.amount.Value() + b.amount.Value())
  }

  /** The merged quantity is read back as the sum of the two parsed amounts in
      the line's unit, when the sum is an int or its float text reads back. */
  lemma MergedQuantityParses(num: Numerics, line: CartLine, item: CartLine, a: Quantity, b: Quantity)
    requires Mergeable(line, item)
    requires ParseQuantity(line.quantity) == Some(a) && ParseQuantity(item.quantity) == Some(b)
    requires SumPrintsBack(num, a, b)
    ensures ParseQuantity(MergedQuantity(num, line, item)) == Some(Quantity(PyFloat(a.amount.Value() + b.amount.Value()), a.unit))
  {
    MergedParsesAs(num, line, item, ParseQuantity(MergedQuantity(num, line, item)), a, b);
  }

  lemma MergedParsesAs(num: Numerics, line: CartLine, item: CartLine, z: Option<Quantity>, a: Quantity, b: Quantity)
    requires Mergeable(line, item)
    requires ParseQuantity(line.quantity) == Some(a) && ParseQuantity(item.quantity) == Some(b)
    requires SumPrintsBack(num, a, b)
    requires z == ParseQuantity(MergedQuantity(num, line, item))
    ensures z == Some(Quantity(PyFloat(a.amount.Value() + b.amount.Value()), a.unit))
  {
    assert MergedQuantity(num, line, item) == FormatQty(num, Add(a.amount, b.amount), a.unit);
    ParseQuantityUnit(line.quantity);
    SumParses(num, a, b);
  }

  lemma SumParses(num: Numerics, a: Quantity, b: Quantity)
    requires a.amount.Value() >= 0.0 && b.amount.Value() >= 0.0
    requires SumPrintsBack(num, a, b)
    requires a.unit != "" && AllLetters(a.unit) && Text.NoUpper(a.unit)
    ensures ParseQuantity(FormatQty(num, Add(a.amount, b.amount), a.unit))
      == Some(Quantity(PyFloat(a.amount.Value() + b.amount.Value()), a.unit))
  {
    SumParsesAs(num, a, b, Add(a.amount, b.amount), a.amount.Value() + b.amount.Value());
  }

  lemma SumParsesAs(num: Numerics, a: Quantity, b: Quantity, v: PyNum, x: real)
    requires x >= 0.0 && (v.PyFloat? ==> PrintsBack(num, x))
    requires a.unit != "" && AllLetters(a.unit) && Text.NoUpper(a.unit)
    requires v == Add(a.amount, b.amount) && x == a.amount.Value() + b.amount.Value()
    ensures ParseQuantity(FormatQty(num, v, a.unit)) == Some(Quantity(PyFloat(x), a.unit))
  {
    Text.LowerKeeps(a.unit);
    ParseFormatted(num, v, a.unit);
  }

  // ---------------------------------------------------------------------------
  // update_cart

  /** What `update_cart` does with a line. */
  datatype UpdateOutcome =
    | Updated          // quantity and price replaced
    | BelowMinimum     // the "Minimum quantity" warning; nothing changes
    | RemoveRequested  // a quantity of 0: redirect to `remove_from_cart`; nothing changes here
    | NotFound         // no line has the id

  /** The index of the first line at `i` or later with this id, or `|lines|`. */
  function IdIndex(lines: seq<CartLine>, id: string, i: nat): (j: nat)
    requires i <= |lines|
    ensures i <= j <= |lines|
    ensures j < |lines| ==> lines[j].id == id
    ensures forall k :: i <= k < j ==> lines[k].id != id
    decreases |lines| - i
  {
    if i == |lines| || lines[i].id == id then i else IdIndex(lines, id, i + 1)
  }

  /** The branch `update_cart` takes for `new_quantity`. */
  function UpdateOutcomeOf(lines: seq<CartLine>, id: string, newQty: real): (r: UpdateOutcome)
    ensures r == NotFound <==> forall k :: 0 <= k < |lines| ==> lines[k].id != id
    ensures r == Updated ==> newQty != 0.0
  {
    var j := IdIndex(lines, id, 0);
    if j == |lines| then NotFound
    else if newQty < lines[j].minQty.Value() then BelowMinimum
    else if newQty == 0.0 then RemoveRequested
    else Updated
  }

  /** The line with quantity `f"{new_quantity} {unit}"` and its new price. */
  function Requantify(num: Numerics, t: Tables, line: CartLine, newQty: real): (r: CartLine)
    ensures r.id == line.id && r.productName == line.productName && r.unit == line.unit && r.minQty == line.minQty
    ensures r.ingredientName == line.ingredientName && r.imageUrl == line.imageUrl && r.productId == line.productId
    ensures r.quantity == FormatQty(num, PyFloat(newQty), line.unit)
    ensures r.price == CalculatePrice(num, t, line.productName, r.quantity)
  {
    var q := FormatQty(num, PyFloat(newQty), line.unit);
    line.(quantity := q, price := CalculatePrice(num, t, line.productName, q))
  }

  /** The cart after `update_cart`. */
  function UpdateLines(num: Numerics, t: Tables, lines: seq<CartLine>, id: string, newQty: real): (r: seq<CartLine>)
    ensures |r| == |lines|
    ensures forall k :: 0 <= k < |lines| ==> r[k].id == lines[k].id
    ensures UpdateOutcomeOf(lines, id, newQty) != Updated ==> r == lines
  {
    var j := IdIndex(lines, id, 0);
    if UpdateOutcomeOf(lines, id, newQty) == Updated then lines[j := Requantify(num, t, lines[j], newQty)] else lines
  }

  /** A line is changed exactly when some line has the id, the new quantity is
      at least that line's minimum and it is not 0. */
  lemma UpdateOutcomeIff(lines: seq<CartLine>, id: string, newQty: real, j: nat)
    requires j < |lines| && lines[j].id == id && forall k :: 0 <= k < j ==> lines[k].id != id
    ensures UpdateOutcomeOf(lines, id, newQty) == Updated <==> newQty >= lines[j].minQty.Value() && newQty != 0.0
    ensures UpdateOutcomeOf(lines, id, newQty) == BelowMinimum <==> newQty < lines[j].minQty.Value()
  {
    var m := IdIndex(lines, id, 0);
    assert !(m < j) && !(j < m);
  }

  /** No line with the id: nothing to do. */
  lemma UpdateNotFound(lines: seq<CartLine>, id: string, newQty: real)
    ensures UpdateOutcomeOf(lines, id, newQty) == NotFound <==> id !in Ids(lines)
  {
    var m := IdIndex(lines, id, 0);
    if m < |lines| {
      assert Ids(lines)[m] == id;
    }
  }

  /** `update_cart` changes at most the first line with the id, and only its
      quantity and price; the ids stay as they were. */
  lemma UpdateOnlyFirst(num: Numerics, t: Tables, lines: seq<CartLine>, id: string, newQty: real, j: nat)
    requires j < |lines| && lines[j].id == id && forall k :: 0 <= k < j ==> lines[k].id != id
    ensures var r := UpdateLines(num, t, lines, id, newQty);
      && |r| == |lines| && Ids(r) == Ids(lines)
      && (forall k :: 0 <= k < |lines| && k != j ==> r[k] == lines[k])
      && r[j] == if newQty >= lines[j].minQty.Value() && newQty != 0.0 then Requantify(num, t, lines[j], newQty) else lines[j]
  {
    var m := IdIndex(lines, id, 0);
    assert !(m < j) && !(j < m);
    UpdateOutcomeIff(lines, id, newQty, j);
    var r := UpdateLines(num, t, lines, id, newQty);
    assert forall k :: 0 <= k < |lines| ==> r[k].id == lines[k].id;
  }

  // ---------------------------------------------------------------------------
  // remove_from_cart

  /** `[item for item in cart if item["id"] != item_id]` */
  function RemoveLines(lines: seq<CartLine>, id: string): (r: seq<CartLine>)
    ensures |r| <= |lines|
    decreases |lines|
  {
    if lines == [] then []
    else (if lines[0].id == id then [] else [lines[0]]) + RemoveLines(lines[1..], id)
  }

  /** The lines that `RemoveLines` drops. */
  function LinesWithId(lines: seq<CartLine>, id: string): (r: seq<CartLine>)
    decreases |lines|
  {
    if lines == [] then []
    else (if lines[0].id == id then [lines[0]] else []) + LinesWithId(lines[1..], id)
  }

  /** Removing keeps exactly the lines with another id. */
  lemma {:induction false} RemoveMembers(lines: seq<CartLine>, id: string)
    ensures forall l :: l in RemoveLines(lines, id) <==> l in lines && l.id != id
    decreases |lines|
  {
    if lines != [] {
      RemoveMembers(lines[1..], id);
      assert forall l :: l in lines <==> l == lines[0] || l in lines[1..];
    }
  }

  /** The filter works piece by piece, so the kept lines stay in cart order. */
  lemma {:induction false} RemoveConcat(a: seq<CartLine>, b: seq<CartLine>, id: string)
    ensures RemoveLines(a + b, id) == RemoveLines(a, id) + RemoveLines(b, id)
    decreases |a|
  {
    if a != [] {
      assert (a + b)[1..] == a[1..] + b;
      RemoveConcat(a[1..], b, id);
    } else {
      assert a + b == b;
    }
  }

  /** The cart gets shorter exactly when some line has the id; otherwise it
      stays as it was. */
  lemma RemoveShortens(lines: seq<CartLine>, id: string)
    ensures |RemoveLines(lines, id)| < |lines| <==> id in Ids(lines)
    ensures id !in Ids(lines) ==> RemoveLines(lines, id) == lines
  {
    if id in Ids(lines) {
      var j :| 0 <= j < |lines| && Ids(lines)[j] == id;
      RemoveDropsAt(lines, id, j);
    } else {
      forall k | 0 <= k < |lines|
        ensures lines[k].id != id
      {
        assert Ids(lines)[k] == lines[k].id;
      }
      RemoveKeepsAll(lines, id);
    }
  }

  lemma {:induction false} RemoveKeepsAll(lines: seq<CartLine>, id: string)
    requires forall k :: 0 <= k < |lines| ==> lines[k].id != id
    ensures RemoveLines(lines, id) == lines
    decreases |lines|
  {
    if lines != [] {
      var tail := lines[1..];
      assert forall k :: 0 <= k < |tail| ==> tail[k] == lines[k + 1];
      RemoveKeepsAll(tail, id);
      assert RemoveLines(lines, id) == [lines[0]] + tail;
      assert lines == [lines[0]] + tail;
    }
  }

  /** With distinct ids, as `uuid4()` gives them, removing drops at most one line. */
  lemma {:induction false} RemoveDropsAtMostOne(lines: seq<CartLine>, id: string)
    requires DistinctIds(lines)
    ensures |RemoveLines(lines, id)| + 1 >= |lines|
    decreases |lines|
  {
    if lines != [] {
      var tail := lines[1..];
      assert forall k :: 0 <= k < |tail| ==> tail[k] == lines[k + 1];
      if lines[0].id == id {
        assert forall k :: 0 <= k < |tail| ==> tail[k].id != id;
        RemoveKeepsAll(tail, id);
      } else {
        assert DistinctIds(tail);
        RemoveDropsAtMostOne(tail, id);
      }
    }
  }

  lemma {:induction false} RemoveDropsAt(lines: seq<CartLine>, id: string, j: nat)
    requires j < |lines| && lines[j].id == id
    ensures |RemoveLines(lines, id)| < |lines|
    decreases |lines|
  {
    var tail := lines[1..];
    if j > 0 {
      assert tail[j - 1] == lines[j];
      RemoveDropsAt(tail, id, j - 1);
    }
    assert |RemoveLines(lines, id)| == (if lines[0].id == id then 0 else 1) + |RemoveLines(tail, id)|;
  }

  /** The removed lines and the kept ones share the total between them. */
  lemma {:induction false} RemoveTotal(lines: seq<CartLine>, id: string)
    ensures Total(lines) == Total(RemoveLines(lines, id)) + Total(LinesWithId(lines, id))
    decreases |lines|
  {
    if lines != [] {
      RemoveTotal(lines[1..], id);
      var h := if lines[0].id == id then [] else [lines[0]];
      var g := if lines[0].id == id then [lines[0]] else [];
      TotalConcat(h, RemoveLines(lines[1..], id));
      TotalConcat(g, LinesWithId(lines[1..], id));
      assert lines == [lines[0]] + lines[1..];
      TotalConcat([lines[0]], lines[1..]);
    }
  }

  // ---------------------------------------------------------------------------
  // Totals

  /** The total of two parts is the sum of their totals. */
  lemma {:induction false} TotalConcat(a: seq<CartLine>, b: seq<CartLine>)
    ensures Total(a + b) == Total(a) + Total(b)
    decreases |b|
  {
    if b == [] {
      assert a + b == a;
    } else {
      var c := a + b;
      assert c[..|c| - 1] == a + b[..|b| - 1];
      TotalConcat(a, b[..|b| - 1]);
    }
  }

  /** Replacing one line changes the total by the difference of the two prices. */
  lemma TotalReplace(lines: seq<CartLine>, j: nat, x: CartLine)
    requires j < |lines|
    ensures Total(lines[j := x]) == Total(lines) - lines[j].price + x.price
  {
    var r := lines[j := x];
    assert lines == lines[..j] + [lines[j]] + lines[j + 1..];
    assert r == lines[..j] + [x] + lines[j + 1..];
    TotalConcat(lines[..j] + [lines[j]], lines[j + 1..]);
    TotalConcat(lines[..j], [lines[j]]);
    TotalConcat(lines[..j] + [x], lines[j + 1..]);
    TotalConcat(lines[..j], [x]);
  }

  /** Adding changes the total by the new line's price, or by the change in
      price of the merged line. */
  lemma AddToCartTotal(num: Numerics, t: Tables, lines: seq<CartLine>, item: CartLine)
    ensures var j := MergeIndex(lines, item, 0);
      Total(AddToCart(num, t, lines, item)) ==
        if j < |lines| then Total(lines) - lines[j].price + Merge(num, t, lines[j], item).price
        else Total(lines) + item.price
  {
    var j := MergeIndex(lines, item, 0);
    if j < |lines| {
      TotalReplace(lines, j, Merge(num, t, lines[j], item));
    } else {
      TotalConcat(lines, [item]);
    }
  }

  // ---------------------------------------------------------------------------
  // The session cart

  class Cart {
    var lines: seq<CartLine>

    /** The line ids are distinct: `uuid4()` gives each new line a fresh id. */
    ghost predicate Valid()
      reads this
    {
      DistinctIds(lines)
    }

    /** `session.get("cart", [])` on a new session. */
    constructor ()
      ensures Valid() && lines == []
    {
      lines := [];
    }

    /** `cart_total`: the sum of the line prices. */
    function TotalPrice(): (s: real)
      reads this
      ensures lines == [] ==> s == 0.0
    {
      Total(lines)
    }

    /** The loop of `add_to_cart`: merge into the first line that takes the
        item, or append it. `item.id` is the fresh `uuid4()` of the caller. */
    method AddOrMerge(num: Numerics, t: Tables, item: CartLine)
      requires Valid() && item.id !in Ids(lines)
      modifies this
      ensures Valid()
      ensures lines == AddToCart(num, t, old(lines), item)
    {
      AddToCartIds(num, t, lines, item);
      var cart := lines;
      var i := 0;
      while i < |cart|
        invariant i <= MergeIndex(cart, item, 0)
        decreases |cart| - i
      {
        if Mergeable(cart[i], item) {
          MergeIndexHit(cart, item, i);
          lines := cart[i := Merge(num, t, cart[i], item)];
          return;
        }
        MergeIndexMiss(cart, item, i);
        i := i + 1;
      }
      lines := cart + [item];
    }

    /** The loop of `update_cart`: the first line with the id is updated when
        the new quantity is allowed, then the loop stops. */
    method UpdateQuantity(num: Numerics, t: Tables, id: string, newQty: real) returns (outcome: UpdateOutcome)
      requires Valid()
      modifies this
      ensures Valid()
      ensures outcome == UpdateOutcomeOf(old(lines), id, newQty)
      ensures lines == UpdateLines(num, t, old(lines), id, newQty)
    {
      var i := 0;
      while i < |lines|
        invariant 0 <= i <= |lines|
        invariant lines == old(lines)
        invariant forall k :: 0 <= k < i ==> lines[k].id != id
        decreases |lines| - i
      {
        if lines[i].id == id {
          UpdateOnlyFirst(num, t, lines, id, newQty, i);
          UpdateOutcomeIff(lines, id, newQty, i);
          var line := lines[i];
          if newQty < line.minQty.Value() {
            outcome := BelowMinimum;
          } else if newQty == 0.0 {
            outcome := RemoveRequested;
          } else {
            outcome := Updated;
            IdsKeepDistinct(lines, UpdateLines(num, t, lines, id, newQty));
            lines := lines[i := Requantify(num, t, line, newQty)];
          }
          return;
        }
        i := i + 1;
      }
      outcome := NotFound;
    }

    /** `remove_from_cart`: drop the lines with the id; `found` is the
        "Item removed" branch. */
    method Remove(id: string) returns (found: bool)
      requires Valid()
      modifies this
      ensures Valid()
      ensures lines == RemoveLines(old(lines), id)
      ensures found <==> id in Ids(old(lines))
      ensures |lines| + 1 >= |old(lines)|
    {
      RemoveShortens(lines, id);
      RemoveDropsAtMostOne(lines, id);
      RemoveDistinct(lines, id);
      var before := |lines|;
      lines := RemoveLines(lines, id);
      found := |lines| < before;
    }
  }

  /** Two carts with the same ids in the same order are both distinct or both not. */
  lemma IdsKeepDistinct(a: seq<CartLine>, b: seq<CartLine>)
    requires DistinctIds(a) && Ids(a) == Ids(b)
    ensures DistinctIds(b)
  {
    assert forall i :: 0 <= i < |a| ==> a[i].id == Ids(a)[i] && b[i].id == Ids(b)[i];
  }

  /** Removing keeps the ids distinct. */
  lemma {:induction false} RemoveDistinct(lines: seq<CartLine>, id: string)
    requires DistinctIds(lines)
    ensures DistinctIds(RemoveLines(lines, id))
    decreases |lines|
  {
    if lines != [] {
      var tail := lines[1..];
      assert DistinctIds(tail) by {
        assert forall i :: 0 <= i < |tail| ==> tail[i] == lines[i + 1];
      }
      RemoveDistinct(tail, id);
      var rest := RemoveLines(tail, id);
      if lines[0].id != id {
        RemoveMembers(tail, id);
        assert forall k :: 0 <= k < |tail| ==> tail[k].id != lines[0].id;
        assert forall k :: 0 <= k < |rest| ==> rest[k] in tail;
        var r := [lines[0]] + rest;
        assert forall i :: 0 < i < |r| ==> r[i] == rest[i - 1];
      } else {
        assert [] + rest == rest;
      }
    }
  }
}
