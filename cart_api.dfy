/** The server side of the cart, app/api/cart/route.js: pruning a stored
    cart against the product table (GET) and storing a posted cart filtered
    to existing products with a positive quantity (POST). */
module CartApi {
  import opened Common
  import opened Catalog
  import opened CartContext

  /** The `updates` report of a sync. */
  datatype Updates = Updates(deletedItems: seq<string>, totalDeleted: nat, totalUpdated: nat)

  /** An id the sync keeps: its lookup found a product or threw. */
  function KeptBySync(lookup: string -> Lookup): string -> bool {
    k => !lookup(k).NotFound?
  }

  /** An id the sync drops: its lookup returned no product. */
  function DroppedBySync(lookup: string -> Lookup): string -> bool {
    k => lookup(k).NotFound?
  }

  function FoundBySync(lookup: string -> Lookup): string -> bool {
    k => lookup(k).Found?
  }

  /** `syncCartWithProducts`: every id is looked up in turn; an id with no
      product is dropped and reported, one whose lookup threw is kept. */
  method SyncCartWithProducts(cartItems: Cart, lookup: string -> Lookup)
    returns (syncedCart: Cart, updates: Updates)
    requires DictValid(cartItems)
    ensures syncedCart == FilterKeys(cartItems, KeptBySync(lookup))
    ensures updates.deletedItems == Filter(cartItems.keys, DroppedBySync(lookup))
    ensures updates.totalDeleted == |updates.deletedItems|
    ensures updates.totalUpdated == Count(cartItems.keys, FoundBySync(lookup))
  {
    var keep, dropped, found := KeptBySync(lookup), DroppedBySync(lookup), FoundBySync(lookup);
    var productIds := cartItems.keys;
    syncedCart := EmptyDict();
    var deletedItems: seq<string> := [];
    var totalDeleted, totalUpdated := 0, 0;
    var i := 0;
    FilteredStart(cartItems, keep);
    while i < |productIds|
      invariant 0 <= i <= |productIds|
      invariant FilteredUpTo(syncedCart, cartItems, keep, i)
      invariant deletedItems == Filter(productIds[..i], dropped)
      invariant totalDeleted == |deletedItems|
      invariant totalUpdated == Count(productIds[..i], found)
    {
      var productId := productIds[i];
      FilteredStep(syncedCart, cartItems, keep, i);
      TakeNext(productIds, i);
      FilterAppend(productIds[..i], productId, dropped);
      CountAppend(productIds[..i], productId, found);
      match lookup(productId) {
        case NotFound =>
          deletedItems := deletedItems + [productId];
          totalDeleted := totalDeleted + 1;
        case Found(_) =>
          syncedCart := Put(syncedCart, productId, cartItems.vals[productId]);
          totalUpdated := totalUpdated + 1;
        case Failed =>
          syncedCart := Put(syncedCart, productId, cartItems.vals[productId]);
      }
      i := i + 1;
    }
    assert productIds[..i] == productIds;
    FilteredDone(syncedCart, cartItems, keep);
    updates := Updates(deletedItems, totalDeleted, totalUpdated);
  }

  /** Every id of the stored cart is either kept or reported deleted, never
      both and never neither. */
  lemma SyncAccountsForEveryId(c: Cart, lookup: string -> Lookup)
    requires DictValid(c)
    ensures forall k :: k in c.keys ==>
      (k in FilterKeys(c, KeptBySync(lookup)).keys <==> k !in Filter(c.keys, DroppedBySync(lookup)))
    ensures |FilterKeys(c, KeptBySync(lookup)).keys| + |Filter(c.keys, DroppedBySync(lookup))| == |c.keys|
  {
    FilterMembers(c.keys, KeptBySync(lookup));
    FilterMembers(c.keys, DroppedBySync(lookup));
    FilterSplit(c.keys, KeptBySync(lookup), DroppedBySync(lookup));
  }

  /** The reply has a line for every product of the table whose id is in
      the cart. */
  lemma CartLinesCoverCart(products: seq<Product>, c: Cart, categoryName: string -> Option<string>)
    ensures forall p :: p in products && p.id in c.vals ==> p in LineProducts(CartLines(products, c, categoryName))
  {
    FilterMembers(products, InCart(c));
  }

  // ---------------------------------------------------------------------------
  // GET: the cart with product details and totals

  /** One entry of `products` in the reply: the product, its category name
      (or 'Uncategorized') and the cart quantity. */
  datatype CartLine = CartLine(product: Product, category: string, quantity: int)

  datatype CartView = CartView(data: Cart, lines: seq<CartLine>, totalItems: int,
                               totalAmount: real, updates: Updates)

  /** The products the lines are about, in order. */
  function LineProducts(lines: seq<CartLine>): (r: seq<Product>)
    ensures |r| == |lines|
    ensures forall i :: 0 <= i < |r| ==> r[i] == lines[i].product
  {
    if lines == [] then [] else [lines[0].product] + LineProducts(lines[1..])
  }

  /** `{_id: {$in: ids}}`: the product's id is a key of the cart. */
  function InCart(c: Cart): Product -> bool {
    (p: Product) => p.id in c.vals
  }

  /** `Product.find({_id: {$in: ids}})` mapped to reply lines: the products of
      the table whose id is in the cart, in table order, each with its
      category name (or 'Uncategorized') and the cart's quantity. */
  function CartLines(products: seq<Product>, c: Cart, categoryName: string -> Option<string>): (r: seq<CartLine>)
    ensures LineProducts(r) == Filter(products, InCart(c))
    ensures forall i :: 0 <= i < |r| ==>
      r[i].product in products && r[i].product.id in c.vals && r[i].quantity == c.vals[r[i].product.id] &&
      r[i].category == OrElse(categoryName(r[i].product.category), "Uncategorized")
  {
    if products == [] then []
    else
      var p := products[0];
      var rest := CartLines(products[1..], c, categoryName);
      if p.id in c.vals then [CartLine(p, OrElse(categoryName(p.category), "Uncategorized"), c.vals[p.id])] + rest
      else rest
  }

  function LineQuantity(): CartLine -> int {
    (l: CartLine) => l.quantity
  }

  function LineCost(): CartLine -> real {
    (l: CartLine) => LineTotal(l.product, l.quantity)
  }

  /** The two totals the GET loop accumulates: quantities, and unit price
      times quantity floored to cents. */
  method ComputeTotals(lines: seq<CartLine>) returns (totalItems: int, totalAmount: real)
    ensures totalItems == SumInt(lines, LineQuantity())
    ensures totalAmount == FloorCents(SumReal(lines, LineCost()))
  {
    totalItems := 0;
    var amount := 0.0;
    var i := 0;
    while i < |lines|
      invariant 0 <= i <= |lines|
      invariant totalItems == SumInt(lines[..i], LineQuantity())
      invariant amount == SumReal(lines[..i], LineCost())
    {
      TakeNext(lines, i);
      SumIntAppend(lines[..i], lines[i], LineQuantity());
      SumRealAppend(lines[..i], lines[i], LineCost());
      amount := amount + LineTotal(lines[i].product, lines[i].quantity);
      totalItems := totalItems + lines[i].quantity;
      i := i + 1;
    }
    assert lines[..i] == lines;
    totalAmount := FloorCents(amount);
  }

  /** Two carts that agree on every product of the table give the same lines. */
  lemma {:induction false} LinesAgree(products: seq<Product>, c: Cart, d: Cart, categoryName: string -> Option<string>)
    requires forall i :: 0 <= i < |products| ==>
      (products[i].id in c.vals <==> products[i].id in d.vals) &&
      (products[i].id in c.vals ==> c.vals[products[i].id] == d.vals[products[i].id])
    ensures CartLines(products, c, categoryName) == CartLines(products, d, categoryName)
  {
    if products != [] {
      assert forall i :: 0 <= i < |products[1..]| ==> products[1..][i] == products[i + 1];
      LinesAgree(products[1..], c, d, categoryName);
    }
  }

  /** When lookups agree with the table, pruning changes neither the lines nor
      the totals: a dropped id had no product to show or charge. */
  lemma PruneKeepsLines(products: seq<Product>, c: Cart, lookup: string -> Lookup,
                        categoryName: string -> Option<string>)
    requires DictValid(c)
    requires forall i :: 0 <= i < |products| ==> !lookup(products[i].id).NotFound?
    ensures CartLines(products, FilterKeys(c, KeptBySync(lookup)), categoryName)
         == CartLines(products, c, categoryName)
  {
    LinesAgree(products, FilterKeys(c, KeptBySync(lookup)), c, categoryName);
  }

  // ---------------------------------------------------------------------------
  // POST: the posted cart

  /** The `cartItems` field of the request body. */
  datatype CartInput = Unparsable | Missing | NotAnObject | CartObject(cart: Cart)

  /** POST keeps what guest validation keeps; filtering twice changes nothing,
      so re-posting a stored cart stores the same cart. */
  lemma ValidEntryIdempotent(c: Cart, products: seq<Product>)
    requires DictValid(c)
    ensures var v := FilterKeys(c, ValidEntry(c, products));
      FilterKeys(v, ValidEntry(v, products)) == v
  {
    var v := FilterKeys(c, ValidEntry(c, products));
    forall i | 0 <= i < |v.keys| ensures ValidEntry(v, products)(v.keys[i]) {
      assert v.keys[i] in v.vals;
    }
    FilterAllPass(v.keys, ValidEntry(v, products));
  }

  /** The filling loop of POST. */
  method ValidCartItems(cartItems: Cart, products: seq<Product>) returns (valid: Cart)
    requires DictValid(cartItems)
    ensures valid == FilterKeys(cartItems, ValidEntry(cartItems, products))
  {
    var keep := ValidEntry(cartItems, products);
    valid := EmptyDict();
    var i := 0;
    FilteredStart(cartItems, keep);
    while i < |cartItems.keys|
      invariant 0 <= i <= |cartItems.keys|
      invariant FilteredUpTo(valid, cartItems, keep, i)
    {
      var productId := cartItems.keys[i];
      FilteredStep(valid, cartItems, keep, i);
      var quantity := cartItems.vals[productId];
      if FindProduct(products, productId).Some? && quantity > 0 {
        valid := Put(valid, productId, quantity);
      }
      i := i + 1;
    }
    FilteredDone(valid, cartItems, keep);
  }

  /** Users' stored carts and the product table, as the route sees them. */
  class CartStore {
    var carts: map<string, Cart>   // user id to `cartItems`; a user exists iff present
    var products: seq<Product>

    ghost predicate Valid()
      reads this
    {
      forall u :: u in carts ==> DictValid(carts[u])
    }

    constructor (users: map<string, Cart>, table: seq<Product>)
      requires forall u :: u in users ==> DictValid(users[u])
      ensures Valid() && carts == users && products == table
    {
      carts := users;
      products := table;
    }

    predicate HasUser(id: Option<string>)
      reads this
    {
      id.Some? && id.value in carts
    }

    /** GET /api/cart. The stored cart is overwritten with the pruned one
        only when something was deleted. */
    method Get(session: Option<Session>, lookup: string -> Lookup, categoryName: string -> Option<string>)
      returns (r: Outcome<CartView>)
      requires Valid()
      modifies this`carts
      ensures Valid()
      ensures session.None? ==> r == Failure(401, "Unauthorized") && carts == old(carts)
      ensures session.Some? && !old(HasUser(session.value.id)) ==>
        r == Failure(404, "User not found") && carts == old(carts)
      ensures session.Some? && old(HasUser(session.value.id)) ==>
        var uid := session.value.id.value;
        var stored := old(carts)[uid];
        var synced := FilterKeys(stored, KeptBySync(lookup));
        var deleted := Filter(stored.keys, DroppedBySync(lookup));
        r.Success? &&
        r.value.data == synced &&
        r.value.updates.deletedItems == deleted &&
        r.value.updates.totalDeleted == |deleted| &&
        r.value.updates.totalUpdated == Count(stored.keys, FoundBySync(lookup)) &&
        (stored.keys == [] ==> r.value.lines == [] && r.value.totalItems == 0 && r.value.totalAmount == 0.0) &&
        (stored.keys != [] ==>
          r.value.lines == CartLines(products, synced, categoryName) &&
          r.value.totalItems == SumInt(r.value.lines, LineQuantity()) &&
          r.value.totalAmount == FloorCents(SumReal(r.value.lines, LineCost()))) &&
        carts == if |deleted| > 0 then old(carts)[uid := synced] else old(carts)
    {
      if session.None? {
        return Failure(401, "Unauthorized");
      }
      if !HasUser(session.value.id) {
        return Failure(404, "User not found");
      }
      var uid := session.value.id.value;
      var cartItems := carts[uid];
      if |cartItems.keys| == 0 {
        assert cartItems.keys == [];
        return Success(CartView(EmptyDict(), [], 0, 0.0, Updates([], 0, 0)));
      }
      var syncedCart, updates := SyncCartWithProducts(cartItems, lookup);
      if updates.totalDeleted > 0 {
        carts := carts[uid := syncedCart];
      }
      var lines := CartLines(products, syncedCart, categoryName);
      var totalItems, totalAmount := ComputeTotals(lines);
      r := Success(CartView(syncedCart, lines, totalItems, totalAmount, updates));
    }

    /** POST /api/cart. */
    method Post(session: Option<Session>, input: CartInput) returns (r: Outcome<Cart>)
      requires Valid() && (input.CartObject? ==> DictValid(input.cart))
      modifies this`carts
      ensures Valid()
      ensures session.None? ==> r == Failure(401, "Unauthorized") && carts == old(carts)
      ensures session.Some? && input.Unparsable? ==> r == Failure(500, "Failed to update cart") && carts == old(carts)
      ensures session.Some? && (input.Missing? || input.NotAnObject?) ==>
        r == Failure(400, "Invalid cart data") && carts == old(carts)
      ensures session.Some? && input.CartObject? && input.cart.keys != [] ==>
        if old(HasUser(session.value.id)) then
          var valid := FilterKeys(input.cart, ValidEntry(input.cart, products));
          r == Success(valid) && carts == old(carts)[session.value.id.value := valid]
        else r == Failure(404, "User not found") && carts == old(carts)
      ensures session.Some? && input.CartObject? && input.cart.keys == [] ==>
        if old(HasUser(session.value.id)) then
          r == Success(EmptyDict()) && carts == old(carts)[session.value.id.value := EmptyDict()]
        else r == Failure(500, "Failed to update cart") && carts == old(carts)
    {
      if session.None? {
        return Failure(401, "Unauthorized");
      }
      if input.Unparsable? {
        return Failure(500, "Failed to update cart");
      }
      if !input.CartObject? {
        return Failure(400, "Invalid cart data");
      }
      var cartItems := input.cart;
      if |cartItems.keys| > 0 {
        var validCartItems := ValidCartItems(cartItems, products);
        if !HasUser(session.value.id) {
          return Failure(404, "User not found");
        }
        carts := carts[session.value.id.value := validCartItems];
        return Success(validCartItems);
      }
      if !HasUser(session.value.id) {
        return Failure(500, "Failed to update cart");
      }
      carts := carts[session.value.id.value := EmptyDict()];
      r := Success(EmptyDict());
    }
  }
}
