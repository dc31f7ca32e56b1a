/** Cart validation for order creation: each item must name a catalog product,
    a size that product offers, and that size's catalog price. */
module CartValidation {
  import opened OrderTypes

  /** `i` is the index of the first variant of `size` in `quantities`. */
  ghost predicate FirstOfSize(quantities: seq<Variant>, size: string, i: int) {
    && 0 <= i < |quantities|
    && quantities[i].size == size
    && forall j :: 0 <= j < i ==> quantities[j].size != size
  }

  /** `product.quantities.find(q => q.size === item.size)`. */
  function FindVariant(quantities: seq<Variant>, size: string): (r: Option<Variant>)
    ensures r.None? <==> forall i :: 0 <= i < |quantities| ==> quantities[i].size != size
    ensures r.Some? ==> exists i :: FirstOfSize(quantities, size, i) && quantities[i] == r.value
  {
    if |quantities| == 0 then None
    else if quantities[0].size == size then
      assert FirstOfSize(quantities, size, 0);
      Some(quantities[0])
    else
      var r := FindVariant(quantities[1..], size);
      FirstOfSizeShift(quantities, size);
      r
  }

  /** Past a first variant of another size, first indices shift by one. */
  lemma FirstOfSizeShift(quantities: seq<Variant>, size: string)
    requires |quantities| > 0 && quantities[0].size != size
    ensures forall i :: FirstOfSize(quantities[1..], size, i) ==> FirstOfSize(quantities, size, i + 1)
  {
  }

  /** The check one iteration of the validation loop makes: the error it returns
      for `item`, or None when the item passes. */
  function ItemError(catalog: Catalog, item: Item): (r: Option<string>)
    ensures r == Some(InvalidProductMsg) <==> item.product.None? || item.product.value !in catalog
    ensures r == Some(InvalidSizeMsg) <==>
      && item.product.Some? && item.product.value in catalog
      && forall i :: 0 <= i < |catalog[item.product.value]| ==> catalog[item.product.value][i].size != item.size
    ensures r == Some(PriceMismatchMsg) <==>
      && item.product.Some? && item.product.value in catalog
      && exists i :: FirstOfSize(catalog[item.product.value], item.size, i)
                  && catalog[item.product.value][i].price != item.price
    ensures r.None? <==>
      && item.product.Some? && item.product.value in catalog
      && exists i :: FirstOfSize(catalog[item.product.value], item.size, i)
                  && catalog[item.product.value][i].price == item.price
  {
    if item.product.None? || item.product.value !in catalog then Some(InvalidProductMsg)
    else
      var quantities := catalog[item.product.value];
      match FindVariant(quantities, item.size)
      case None => Some(InvalidSizeMsg)
      case Some(v) =>
        FirstOfSizeUnique(quantities, item.size);
        if v.price != item.price then Some(PriceMismatchMsg) else None
  }

  /** The first index of a size is unique. */
  lemma FirstOfSizeUnique(quantities: seq<Variant>, size: string)
    ensures forall i, j :: FirstOfSize(quantities, size, i) && FirstOfSize(quantities, size, j) ==> i == j
  {
  }

  /** The error of the first item that fails validation, or None when all pass. */
  function FirstViolation(catalog: Catalog, items: seq<Item>): (r: Option<string>)
    ensures r.None? <==> forall i :: 0 <= i < |items| ==> ItemError(catalog, items[i]).None?
    ensures r.Some? ==> exists i :: 0 <= i < |items| && ItemError(catalog, items[i]) == r
                               && forall j :: 0 <= j < i ==> ItemError(catalog, items[j]).None?
  {
    if |items| == 0 then None
    else if ItemError(catalog, items[0]).Some? then ItemError(catalog, items[0])
    else
      var r := FirstViolation(catalog, items[1..]);
      assert forall i :: 1 <= i < |items| ==> items[1..][i - 1] == items[i];
      assert r.Some? ==> exists i :: 0 <= i < |items| && ItemError(catalog, items[i]) == r
                               && forall j :: 0 <= j < i ==> ItemError(catalog, items[j]).None? by {
        if r.Some? {
          var i :| 0 <= i < |items[1..]| && ItemError(catalog, items[1..][i]) == r
                 && forall j :: 0 <= j < i ==> ItemError(catalog, items[1..][j]).None?;
          assert ItemError(catalog, items[i + 1]) == r;
        }
      }
      r
  }

  /** `r` is `items` with some entries removed, the rest kept in order. */
  ghost predicate IsSubsequence(r: seq<Item>, items: seq<Item>)
    decreases |items|
  {
    r == [] ||
    (|items| > 0 &&
      ((r[0] == items[0] && IsSubsequence(r[1..], items[1..])) || IsSubsequence(r, items[1..])))
  }

  /** `order.items.filter(item => item.product)`: keeps the items that carry a
      product reference, in order and with their multiplicity. */
  function WithProduct(items: seq<Item>): (r: seq<Item>)
    ensures IsSubsequence(r, items)
    ensures forall it :: multiset(r)[it] == if it.product.Some? then multiset(items)[it] else 0
    ensures forall i :: 0 <= i < |r| ==> r[i].product.Some?
    ensures (forall i :: 0 <= i < |items| ==> items[i].product.Some?) ==> r == items
  {
    if |items| == 0 then []
    else
      var rest := WithProduct(items[1..]);
      assert items == [items[0]] + items[1..];
      assert forall i :: 1 <= i < |items| ==> items[1..][i - 1] == items[i];
      if items[0].product.Some? then
        assert ([items[0]] + rest)[1..] == rest;
        [items[0]] + rest
      else rest
  }

  /** The outcome of `/create`'s checks, in the order the handler makes them:
      the error message sent, or None when an order is persisted. */
  function CheckCart(catalog: Catalog, items: seq<Item>): (r: Option<string>)
    ensures |items| == 0 ==> r == Some(CartIsEmptyMsg)
    ensures |items| > 0 ==> r == FirstViolation(catalog, items)
    ensures r.None? <==> |items| > 0 && forall i :: 0 <= i < |items| ==> ItemError(catalog, items[i]).None?
    ensures r.None? ==> WithProduct(items) == items
    ensures r != Some(NoValidProductsMsg)
  {
    if |items| <= 0 then Some(CartIsEmptyMsg)
    else if FirstViolation(catalog, items).Some? then FirstViolation(catalog, items)
    else if |WithProduct(items)| == 0 then Some(NoValidProductsMsg)
    else None
  }

  /** A cart containing an item whose claimed price differs from its size's
      catalog price is refused, with that item's or an earlier item's error. */
  lemma PriceMismatchRefused(catalog: Catalog, items: seq<Item>, k: int)
    requires 0 <= k < |items|
    requires ItemError(catalog, items[k]) == Some(PriceMismatchMsg)
    ensures CheckCart(catalog, items).Some?
    ensures (forall j :: 0 <= j < k ==> ItemError(catalog, items[j]).None?) ==>
              CheckCart(catalog, items) == Some(PriceMismatchMsg)
  {
  }
}
