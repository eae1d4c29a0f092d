/** The cart page, app/cart/page.jsx: looking up every cart line, treating
    each failed lookup as a deleted product and removing it, the per-line
    price, subtotal and discount badge, and the quantity controls. */
module CartPage {
  import opened Common
  import opened Catalog
  import opened CartContext

  /** The reply to `GET /api/product/{id}`: a product, a success reply
      without one, or an error (a 404 or any other failure). */
  datatype FetchReply = Ok(product: Product) | OkWithoutProduct | Error(status: Option<nat>)

  /** A cart id with a positive quantity: the ids the page looks up. */
  function PositiveIn(c: Cart): string -> bool {
    k => k in c.vals && c.vals[k] > 0
  }

  function LookedUp(c: Cart): seq<string> {
    Filter(c.keys, PositiveIn(c))
  }

  function Missing(fetch: string -> FetchReply): string -> bool {
    k => !fetch(k).Ok?
  }

  /** `fetchCartProducts`: each looked-up id goes to `productsMap` when its
      reply carries a product, and to `deleted` otherwise, whatever the error. */
  method FetchCartProducts(cartItems: Cart, fetch: string -> FetchReply)
    returns (productsMap: map<string, Product>, deleted: seq<string>)
    ensures deleted == Filter(LookedUp(cartItems), Missing(fetch))
    ensures forall k :: k in productsMap <==> k in LookedUp(cartItems) && fetch(k).Ok?
    ensures forall k :: k in productsMap ==> productsMap[k] == fetch(k).product
    ensures forall k :: k in LookedUp(cartItems) ==> (k in productsMap <==> k !in deleted)
    ensures LookedUp(cartItems) == [] ==> productsMap == map[] && deleted == []
  {
    var productIds := LookedUp(cartItems);
    productsMap := map[];
    deleted := [];
    if |productIds| == 0 {
      return;
    }
    var missing := Missing(fetch);
    var i := 0;
    while i < |productIds|
      invariant 0 <= i <= |productIds|
      invariant deleted == Filter(productIds[..i], missing)
      invariant forall k :: k in productsMap <==> k in productIds[..i] && fetch(k).Ok?
      invariant forall k :: k in productsMap ==> productsMap[k] == fetch(k).product
    {
      var id := productIds[i];
      TakeNext(productIds, i);
      FilterAppend(productIds[..i], id, missing);
      match fetch(id) {
        case Ok(product) =>
          productsMap := productsMap[id := product];
        case OkWithoutProduct =>
          deleted := deleted + [id];
        case Error(_) =>
          deleted := deleted + [id];
      }
      i := i + 1;
    }
    assert productIds[..i] == productIds;
    FilterMembers(productIds, missing);
  }

  // ---------------------------------------------------------------------------
  // Removing the deleted products

  /** The page's removal pass as written: every `updateCartQuantity(id, 0)`
      of the pass clones the cart of the same render, so each call undoes
      the one before and only the last id is actually removed. */
  method RemoveDeletedAsWritten(s: CartSession, deleted: seq<string>)
    requires s.Valid()
    modifies s
    ensures s.Valid()
    ensures deleted == [] ==> s.items == old(s.items)
    ensures deleted != [] ==> s.items == WithQuantity(old(s.items), deleted[|deleted| - 1], 0)
    ensures deleted == [] ==> s.pending == old(s.pending)
    ensures deleted != [] ==> s.pending == Some(s.items)
    ensures s.products == old(s.products) && s.userId == old(s.userId)
    ensures s.guestCart == old(s.guestCart) && s.posted == old(s.posted)
  {
    var rendered := s.items;
    var i := 0;
    while i < |deleted|
      invariant 0 <= i <= |deleted|
      invariant s.Valid()
      invariant i == 0 ==> s.items == rendered && s.pending == old(s.pending)
      invariant i > 0 ==> s.items == WithQuantity(rendered, deleted[i - 1], 0) && s.pending == Some(s.items)
      invariant s.products == old(s.products) && s.userId == old(s.userId)
      invariant s.guestCart == old(s.guestCart) && s.posted == old(s.posted)
    {
      s.UpdateCartQuantity(rendered, deleted[i], 0);
      i := i + 1;
    }
  }

  /** Two deleted products in one pass: the first one stays in the cart. */
  lemma StaleRemovalKeepsFirst()
    ensures var rendered := Dict(["a", "b"], map["a" := 1, "b" := 2]);
      "a" in WithQuantity(rendered, "b", 0).vals
  {
    var rendered := Dict(["a", "b"], map["a" := 1, "b" := 2]);
    assert Entry(WithQuantity(rendered, "b", 0), "a") == Entry(rendered, "a");
  }

  /** The removal pass as intended: each call starts from the cart the
      previous one produced, so every deleted id leaves the cart and
      nothing else changes. */
  method RemoveDeleted(s: CartSession, deleted: seq<string>)
    requires s.Valid()
    modifies s
    ensures s.Valid()
    ensures forall k :: k in deleted ==> k !in s.items.vals
    ensures forall k :: k !in deleted ==> Entry(s.items, k) == Entry(old(s.items), k)
  {
    var i := 0;
    while i < |deleted|
      invariant 0 <= i <= |deleted|
      invariant s.Valid()
      invariant forall k :: k in deleted[..i] ==> k !in s.items.vals
      invariant forall k :: k !in deleted[..i] ==> Entry(s.items, k) == Entry(old(s.items), k)
    {
      TakeNext(deleted, i);
      s.UpdateCartQuantity(s.items, deleted[i], 0);
      i := i + 1;
    }
    assert deleted[..i] == deleted;
  }

  // ---------------------------------------------------------------------------
  // Lines, subtotals and quantity controls

  /** The rows the page renders: positive quantities whose product was fetched. */
  function ShownIn(c: Cart, productsMap: map<string, Product>): string -> bool {
    k => k in c.vals && c.vals[k] > 0 && k in productsMap
  }

  /** `displayPrice * cartItems[itemId]` for a rendered row, 0 for others. */
  function RowSubtotal(c: Cart, productsMap: map<string, Product>): string -> real {
    k => if ShownIn(c, productsMap)(k) then LineTotal(productsMap[k], c.vals[k]) else 0.0
  }

  /** When the fetched products are the catalog's, the rendered subtotals
      add up to the amount `getCartAmount` floors. */
  lemma {:induction false} SubtotalsMatchAmount(c: Cart, productsMap: map<string, Product>, products: seq<Product>)
    requires DictValid(c)
    requires forall k :: k in c.vals ==>
      (k in productsMap <==> FindProduct(products, k).Some?) &&
      (k in productsMap ==> productsMap[k] == FindProduct(products, k).value)
    ensures SumReal(Filter(c.keys, ShownIn(c, productsMap)), RowSubtotal(c, productsMap))
         == RawAmount(c, products)
  {
    var shown, sub := ShownIn(c, productsMap), RowSubtotal(c, productsMap);
    forall i | 0 <= i < |c.keys| && !shown(c.keys[i]) ensures sub(c.keys[i]) == 0.0 {
    }
    SumRealFilter(c.keys, sub, shown);
    forall i | 0 <= i < |c.keys| ensures sub(c.keys[i]) == AmountWeight(c, products)(c.keys[i]) {
      assert c.keys[i] in c.vals;
    }
    SumRealSame(c.keys, sub, AmountWeight(c, products));
  }

  /** The minus button: the quantity goes down by one, and a line at 1 is removed. */
  lemma MinusRemovesLastUnit(c: Cart, id: string)
    requires DictValid(c) && id in c.vals
    ensures c.vals[id] == 1 ==> id !in WithQuantity(c, id, c.vals[id] - 1).vals
    ensures c.vals[id] != 1 ==> Entry(WithQuantity(c, id, c.vals[id] - 1), id) == Some(c.vals[id] - 1)
  {
  }

  /** `Number(e.target.value)` of the number input: a whole number, the
      cleared field (`Number("")` is 0), or NaN. */
  datatype NumberInput = Num(value: int) | Cleared | NaN

  /** The quantity input forwards a value only when it is a number >= 0;
      clearing the field forwards 0, which removes the line. */
  function ForwardedQuantity(v: NumberInput): (r: Option<int>)
    ensures r.Some? <==> v.Cleared? || (v.Num? && v.value >= 0)
    ensures r.Some? ==> r.value == if v.Cleared? then 0 else v.value
  {
    match v
    case Num(n) => if n >= 0 then Some(n) else None
    case Cleared => Some(0)
    case NaN => None
  }
}
