/** Product records as the cart and order code reads them, and the pricing
    rules every caller shares: the unit price `offerPrice || price`, the
    discount badge, money floored to cents and the 2% tax. */
module Catalog {
  import opened Common

  /** A product document (models/Product.js); `category` is the category id,
      `offerPrice` is nullable. Money is exact (`real`). */
  datatype Product = Product(
    id: string,
    userId: string,
    name: string,
    description: string,
    price: real,
    offerPrice: Option<real>,
    category: string,
    image: seq<string>)

  /** Result of looking one product up by id: found, absent, or the lookup threw. */
  datatype Lookup = Found(product: Product) | NotFound | Failed

  /** An offer price that JavaScript treats as true: present and non-zero. */
  predicate HasOffer(p: Product) {
    p.offerPrice.Some? && p.offerPrice.value != 0.0
  }

  /** `offerPrice || price || 0`: the offer whenever it is set and non-zero,
      even when it is not below the list price. */
  function UnitPrice(p: Product): (r: real)
    ensures HasOffer(p) ==> r == p.offerPrice.value
    ensures !HasOffer(p) ==> r == p.price
    ensures HasOffer(p) && p.offerPrice.value <= p.price ==> r <= p.price
  {
    if HasOffer(p) then p.offerPrice.value else p.price
  }

  /** Unit price times quantity: what one cart line costs. */
  function LineTotal(p: Product, quantity: int): (r: real)
    ensures quantity >= 0 && UnitPrice(p) >= 0.0 ==> r >= 0.0
    ensures quantity == 1 ==> r == UnitPrice(p)
  {
    UnitPrice(p) * quantity as real
  }

  /** The cart page's discount badge: a true offer strictly below the list price. */
  predicate HasDiscount(p: Product) {
    HasOffer(p) && p.offerPrice.value < p.price
  }

  /** The badge shows exactly when the unit price is strictly below the list price. */
  lemma DiscountMeansCheaper(p: Product)
    ensures HasDiscount(p) <==> HasOffer(p) && UnitPrice(p) < p.price
  {
  }

  /** An offer equal to or above the list price is still what is charged. */
  lemma OfferChargedWithoutDiscount(p: Product)
    requires HasOffer(p) && p.offerPrice.value >= p.price
    ensures UnitPrice(p) == p.offerPrice.value && !HasDiscount(p)
  {
  }

  /** `Math.floor(x * 100) / 100`: `x` truncated to whole cents. */
  function FloorCents(x: real): (r: real)
    ensures r <= x < r + 0.01
    ensures (r * 100.0).Floor as real == r * 100.0
  {
    (x * 100.0).Floor as real / 100.0
  }

  /** `Math.floor(subtotal * 0.02)`: the order tax, in whole currency units. */
  function Tax(subtotal: real): (t: int)
    ensures t as real <= subtotal * 0.02 < t as real + 1.0
    ensures subtotal >= 0.0 ==> t >= 0
  {
    (subtotal * 0.02).Floor
  }

  /** A total of 199.999 is reported as 199.99: truncation, not rounding. */
  lemma FloorCentsTruncates()
    ensures FloorCents(199.999) == 199.99
  {
    assert (199.999 * 100.0).Floor == 19999;
  }

  /** `p` stands at some position of `products` before which no product
      has the id. */
  predicate FirstWithId(products: seq<Product>, p: Product, id: string) {
    exists i :: 0 <= i < |products| && products[i] == p &&
      forall k :: 0 <= k < i ==> products[k].id != id
  }

  /** A first match in the tail is a first match of the whole list when
      the head does not match. */
  lemma FirstWithIdShift(products: seq<Product>, id: string, p: Product)
    requires products != [] && products[0].id != id
    requires FirstWithId(products[1..], p, id)
    ensures FirstWithId(products, p, id)
  {
    var i :| 0 <= i < |products[1..]| && products[1..][i] == p &&
      forall k :: 0 <= k < i ==> products[1..][k].id != id;
    assert products[i + 1] == p;
    forall k | 0 <= k < i + 1
      ensures products[k].id != id
    {
      if k > 0 {
        assert products[k] == products[1..][k - 1];
      }
    }
  }

  /** `products.find(p => p._id === id)`: the first product with that id. */
  function FindProduct(products: seq<Product>, id: string): (r: Option<Product>)
    ensures r.Some? ==> r.value in products && r.value.id == id
    ensures r.None? <==> forall i :: 0 <= i < |products| ==> products[i].id != id
    ensures r.Some? ==> FirstWithId(products, r.value, id)
  {
    if products == [] then None
    else if products[0].id == id then Some(products[0])
    else
      var r := FindProduct(products[1..], id);
      if r.Some? then
        FirstWithIdShift(products, id, r.value);
        r
      else r
  }

  predicate IsHexDigit(c: char) {
    '0' <= c <= '9' || 'a' <= c <= 'f' || 'A' <= c <= 'F'
  }

  /** `mongoose.Types.ObjectId.isValid(s)` for a string: 24 hex digits, or any
      12-character string (read as 12 raw bytes). */
  predicate IsValidObjectId(s: string) {
    |s| == 12 || (|s| == 24 && forall i :: 0 <= i < |s| ==> IsHexDigit(s[i]))
  }
}
