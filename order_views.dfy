/** The three order listings: a seller's share of every order
    (app/api/seller/orders/route.js), every order with its products and
    customer for the admin (app/api/admin/orders/route.js), and a
    customer's own orders (app/api/order/get-orders/route.js). Product
    lookups are a parameter that can find a product, find none, or throw. */
module OrderViews {
  import opened Common
  import opened Catalog
  import opened Accounts
  import opened Orders

  /** The customer shown next to an order: the selected fields of a user
      (the role only where the route selects it), or a placeholder carrying
      the order's user id and neither image nor role. */
  datatype Party = Party(id: string, name: string, email: string, imageUrl: Option<string>, role: Option<string>)

  /** `User.findById(userId).select(...) || {name: missingName, email: "N/A", _id: userId}`,
      where the selection is "name email imageUrl", plus "role" when `withRole`. */
  function PartyFor(users: seq<User>, userId: string, missingName: string, withRole: bool): (r: Party)
    ensures r.id == userId
    ensures FindUser(users, userId).Some? ==>
      var u := users[FindUser(users, userId).value];
      r.name == u.name && r.email == u.email && r.imageUrl == Some(u.imageUrl) &&
      r.role == (if withRole then Some(u.role) else None)
    ensures FindUser(users, userId).None? ==> r == Party(userId, missingName, "N/A", None, None)
  {
    match FindUser(users, userId)
    case Some(i) =>
      Party(users[i].id, users[i].name, users[i].email, Some(users[i].imageUrl),
            if withRole then Some(users[i].role) else None)
    case None => Party(userId, missingName, "N/A", None, None)
  }

  // ---------------------------------------------------------------------------
  // Seller view

  /** An order line with its product, or null when the lookup found none or threw. */
  datatype JoinedItem = JoinedItem(item: OrderItem, product: Option<Product>)

  function Joined(lookup: string -> Lookup, it: OrderItem): (j: JoinedItem)
    ensures j.item == it
    ensures j.product.Some? <==> lookup(it.product).Found?
  {
    JoinedItem(it, if lookup(it.product).Found? then Some(lookup(it.product).product) else None)
  }

  /** `itemsWithProducts`: every line, in order, with its product or null. */
  function JoinAll(items: seq<OrderItem>, lookup: string -> Lookup): (r: seq<JoinedItem>)
    ensures |r| == |items|
    ensures forall k :: 0 <= k < |r| ==> r[k] == Joined(lookup, items[k])
  {
    if items == [] then [] else [Joined(lookup, items[0])] + JoinAll(items[1..], lookup)
  }

  /** `item.product && item.product.userId === sellerId`. */
  function OwnedBy(sellerId: string): JoinedItem -> bool {
    (j: JoinedItem) => j.product.Some? && j.product.value.userId == sellerId
  }

  function SellerItems(o: Order, lookup: string -> Lookup, sellerId: string): seq<JoinedItem> {
    Filter(JoinAll(o.items, lookup), OwnedBy(sellerId))
  }

  /** `(offerPrice || price || 0) * quantity` for a line with a product. */
  function JoinedCost(): JoinedItem -> real {
    (j: JoinedItem) => if j.product.Some? then LineTotal(j.product.value, j.item.quantity) else 0.0
  }

  /** A seller's part of one order. */
  datatype SellerOrder = SellerOrder(
    order: Order,
    customer: Party,
    items: seq<JoinedItem>,
    sellerAmount: real,
    totalItems: nat)

  function SellerOrderOf(o: Order, users: seq<User>, lookup: string -> Lookup, sellerId: string): (r: SellerOrder)
    ensures r.order == o && r.customer == PartyFor(users, o.userId, "Customer not found", false)
    ensures r.totalItems == |r.items|
  {
    var items := SellerItems(o, lookup, sellerId);
    SellerOrder(o, PartyFor(users, o.userId, "Customer not found", false), items, SumReal(items, JoinedCost()), |items|)
  }

  predicate HasSellerItems(o: Order, lookup: string -> Lookup, sellerId: string) {
    |SellerItems(o, lookup, sellerId)| > 0
  }

  /** The seller view of a list of orders: the orders with a seller line, in order. */
  function SellerView(orders: seq<Order>, users: seq<User>, lookup: string -> Lookup, sellerId: string): (r: seq<SellerOrder>)
    ensures |r| <= |orders|
  {
    if orders == [] then []
    else
      var rest := SellerView(orders[1..], users, lookup, sellerId);
      if HasSellerItems(orders[0], lookup, sellerId) then [SellerOrderOf(orders[0], users, lookup, sellerId)] + rest
      else rest
  }

  lemma {:induction false} SellerViewAppend(orders: seq<Order>, o: Order, users: seq<User>,
                                            lookup: string -> Lookup, sellerId: string)
    ensures SellerView(orders + [o], users, lookup, sellerId) ==
      SellerView(orders, users, lookup, sellerId) +
      (if HasSellerItems(o, lookup, sellerId) then [SellerOrderOf(o, users, lookup, sellerId)] else [])
  {
    if orders == [] {
      assert orders + [o] == [o];
    } else {
      assert (orders + [o])[1..] == orders[1..] + [o];
      SellerViewAppend(orders[1..], o, users, lookup, sellerId);
    }
  }

  /** A line is in the seller's part iff its product was found and belongs
      to the seller. */
  lemma SellerItemsKeptIff(o: Order, lookup: string -> Lookup, sellerId: string)
    ensures forall j :: j in SellerItems(o, lookup, sellerId) <==>
      j in JoinAll(o.items, lookup) && j.product.Some? && j.product.value.userId == sellerId
  {
    FilterMembers(JoinAll(o.items, lookup), OwnedBy(sellerId));
  }

  /** An order is in the view iff it has a seller line, and then exactly
      as `SellerOrderOf` builds it. */
  lemma {:induction false} SellerViewMembers(orders: seq<Order>, users: seq<User>,
                                             lookup: string -> Lookup, sellerId: string)
    ensures forall x :: x in SellerView(orders, users, lookup, sellerId) ==>
      x.order in orders && HasSellerItems(x.order, lookup, sellerId) &&
      x == SellerOrderOf(x.order, users, lookup, sellerId)
    ensures forall o :: o in orders && HasSellerItems(o, lookup, sellerId) ==>
      SellerOrderOf(o, users, lookup, sellerId) in SellerView(orders, users, lookup, sellerId)
  {
    if orders != [] {
      SellerViewMembers(orders[1..], users, lookup, sellerId);
      assert orders == [orders[0]] + orders[1..];
    }
  }

  ghost predicate NewestFirstView(v: seq<SellerOrder>) {
    forall i, j :: 0 <= i < j < |v| ==> v[i].order.date >= v[j].order.date
  }

  /** No order in the view is later than every order it came from. */
  lemma {:induction false} SellerViewDatesBounded(orders: seq<Order>, users: seq<User>,
                                                  lookup: string -> Lookup, sellerId: string, latest: int)
    requires forall k :: 0 <= k < |orders| ==> orders[k].date <= latest
    ensures forall x :: x in SellerView(orders, users, lookup, sellerId) ==> x.order.date <= latest
  {
    if orders != [] {
      SellerViewDatesBounded(orders[1..], users, lookup, sellerId, latest);
    }
  }

  /** Orders given newest first stay newest first in the view. */
  lemma {:induction false} SellerViewNewestFirst(orders: seq<Order>, users: seq<User>,
                                                 lookup: string -> Lookup, sellerId: string)
    requires forall i, j :: 0 <= i < j < |orders| ==> orders[i].date >= orders[j].date
    ensures NewestFirstView(SellerView(orders, users, lookup, sellerId))
  {
    if orders != [] {
      var rest := SellerView(orders[1..], users, lookup, sellerId);
      SellerViewNewestFirst(orders[1..], users, lookup, sellerId);
      if HasSellerItems(orders[0], lookup, sellerId) {
        SellerViewDatesBounded(orders[1..], users, lookup, sellerId, orders[0].date);
        var v := [SellerOrderOf(orders[0], users, lookup, sellerId)] + rest;
        forall i, j | 0 <= i < j < |v| ensures v[i].order.date >= v[j].order.date {
          assert v[j] == rest[j - 1];
          if i > 0 {
            assert v[i] == rest[i - 1];
          }
        }
      }
    }
  }

  /** A line weighs its cost when it is the seller's, and nothing otherwise. */
  function OwnedCost(sellerId: string): JoinedItem -> real {
    (j: JoinedItem) => if OwnedBy(sellerId)(j) then JoinedCost()(j) else 0.0
  }

  /** The seller amount is the whole order's sum with every other seller's
      lines weighing nothing. */
  lemma SellerAmountCountsOwnLines(o: Order, users: seq<User>, lookup: string -> Lookup, sellerId: string)
    ensures SellerOrderOf(o, users, lookup, sellerId).sellerAmount ==
      SumReal(JoinAll(o.items, lookup), OwnedCost(sellerId))
  {
    var all := JoinAll(o.items, lookup);
    var mine := Filter(all, OwnedBy(sellerId));
    FilterMembers(all, OwnedBy(sellerId));
    forall k | 0 <= k < |mine| ensures JoinedCost()(mine[k]) == OwnedCost(sellerId)(mine[k]) {
      assert mine[k] in mine;
    }
    SumRealSame(mine, JoinedCost(), OwnedCost(sellerId));
    SumRealFilter(all, OwnedCost(sellerId), OwnedBy(sellerId));
  }

  /** The `forEach` that adds up `sellerAmount`. */
  method SellerAmount(items: seq<JoinedItem>) returns (amount: real)
    ensures amount == SumReal(items, JoinedCost())
  {
    amount := 0.0;
    var i := 0;
    while i < |items|
      invariant 0 <= i <= |items|
      invariant amount == SumReal(items[..i], JoinedCost())
    {
      TakeNext(items, i);
      SumRealAppend(items[..i], items[i], JoinedCost());
      var line := if items[i].product.Some? then LineTotal(items[i].product.value, items[i].item.quantity) else 0.0;
      amount := amount + line;
      i := i + 1;
    }
    assert items[..i] == items;
  }

  /** GET /api/seller/orders: every order, newest first, reduced to the
      session user's lines; orders without such a line are left out. */
  method SellerOrders(session: Option<Session>, orders: seq<Order>, users: seq<User>, lookup: string -> Lookup)
    returns (r: Outcome<seq<SellerOrder>>)
    ensures session.None? || !Truthy(session.value.id) ==> r == Failure(401, "Not authenticated")
    ensures session.Some? && Truthy(session.value.id) && !IsStaff(session.value.role) ==>
      r == Failure(403, "Unauthorized. Seller access required.")
    ensures session.Some? && Truthy(session.value.id) && IsStaff(session.value.role) ==>
      r == Success(SellerView(NewestFirst(orders), users, lookup, session.value.id.value))
  {
    if session.None? || !Truthy(session.value.id) {
      return Failure(401, "Not authenticated");
    }
    if !IsStaff(session.value.role) {
      return Failure(403, "Unauthorized. Seller access required.");
    }
    var sellerId := session.value.id.value;
    var allOrders := NewestFirst(orders);
    var sellerOrders: seq<SellerOrder> := [];
    var i := 0;
    while i < |allOrders|
      invariant 0 <= i <= |allOrders|
      invariant sellerOrders == SellerView(allOrders[..i], users, lookup, sellerId)
    {
      var order := allOrders[i];
      var itemsWithProducts := JoinAll(order.items, lookup);
      var sellerItems := Filter(itemsWithProducts, OwnedBy(sellerId));
      TakeNext(allOrders, i);
      SellerViewAppend(allOrders[..i], order, users, lookup, sellerId);
      if |sellerItems| > 0 {
        var customer := PartyFor(users, order.userId, "Customer not found", false);
        var sellerAmount := SellerAmount(sellerItems);
        sellerOrders := sellerOrders + [SellerOrder(order, customer, sellerItems, sellerAmount, |sellerItems|)];
      }
      i := i + 1;
    }
    assert allOrders[..i] == allOrders;
    r := Success(sellerOrders);
  }

  // ---------------------------------------------------------------------------
  // Admin view

  /** The product of an admin line: the product, or the placeholder
      `{name: "Product not found", _id: item.product}` when the lookup
      found none or threw. */
  datatype ProductRef = Full(product: Product) | Placeholder(name: string, id: string)

  datatype AdminItem = AdminItem(item: OrderItem, product: ProductRef)

  datatype AdminOrder = AdminOrder(order: Order, user: Party, items: seq<AdminItem>)

  function AdminItemOf(lookup: string -> Lookup, it: OrderItem): (r: AdminItem)
    ensures r.item == it
    ensures r.product.Full? <==> lookup(it.product).Found?
    ensures r.product.Full? ==> r.product.product == lookup(it.product).product
    ensures r.product.Placeholder? ==> r.product == Placeholder("Product not found", it.product)
  {
    match lookup(it.product)
    case Found(p) => AdminItem(it, Full(p))
    case NotFound => AdminItem(it, Placeholder("Product not found", it.product))
    case Failed => AdminItem(it, Placeholder("Product not found", it.product))
  }

  function AdminItems(items: seq<OrderItem>, lookup: string -> Lookup): (r: seq<AdminItem>)
    ensures |r| == |items|
    ensures forall k :: 0 <= k < |r| ==> r[k] == AdminItemOf(lookup, items[k])
  {
    if items == [] then [] else [AdminItemOf(lookup, items[0])] + AdminItems(items[1..], lookup)
  }

  function AdminOrderOf(o: Order, users: seq<User>, lookup: string -> Lookup): (r: AdminOrder)
    ensures r.order == o && r.user == PartyFor(users, o.userId, "User not found", true)
    ensures r.items == AdminItems(o.items, lookup)
  {
    AdminOrder(o, PartyFor(users, o.userId, "User not found", true), AdminItems(o.items, lookup))
  }

  function AdminOrdersOf(orders: seq<Order>, users: seq<User>, lookup: string -> Lookup): (r: seq<AdminOrder>)
    ensures |r| == |orders|
    ensures forall k :: 0 <= k < |r| ==> r[k] == AdminOrderOf(orders[k], users, lookup)
  {
    if orders == [] then [] else [AdminOrderOf(orders[0], users, lookup)] + AdminOrdersOf(orders[1..], users, lookup)
  }

  /** GET /api/admin/orders: only an admin passes; every order, newest first. */
  function AdminOrdersRoute(session: Option<Session>, orders: seq<Order>, users: seq<User>,
                            lookup: string -> Lookup): (r: Outcome<seq<AdminOrder>>)
    ensures session.None? || !Truthy(session.value.id) ==> r == Failure(401, "Not authenticated")
    ensures session.Some? && Truthy(session.value.id) && session.value.role != Some("admin") ==>
      r == Failure(403, "Unauthorized. Admin access required.")
    ensures session.Some? && Truthy(session.value.id) && session.value.role == Some("admin") ==>
      r == Success(AdminOrdersOf(NewestFirst(orders), users, lookup))
  {
    if session.None? || !Truthy(session.value.id) then Failure(401, "Not authenticated")
    else if session.value.role != Some("admin") then Failure(403, "Unauthorized. Admin access required.")
    else Success(AdminOrdersOf(NewestFirst(orders), users, lookup))
  }

  /** Enrichment drops nothing: the admin sees every order, newest first,
      each with all its lines and quantities. */
  lemma AdminSeesEveryOrder(orders: seq<Order>, users: seq<User>, lookup: string -> Lookup)
    ensures var v := AdminOrdersOf(NewestFirst(orders), users, lookup);
      |v| == |orders| &&
      (forall o :: o in orders ==> exists k :: 0 <= k < |v| && v[k].order == o) &&
      (forall i, j :: 0 <= i < j < |v| ==> v[i].order.date >= v[j].order.date) &&
      (forall k :: 0 <= k < |v| ==> |v[k].items| == |v[k].order.items|) &&
      (forall k, m :: 0 <= k < |v| && 0 <= m < |v[k].items| ==>
        v[k].items[m].item.quantity == v[k].order.items[m].quantity)
  {
    var sorted := NewestFirst(orders);
    NewestFirstOrdered(orders);
    forall o | o in orders ensures exists k :: 0 <= k < |sorted| && sorted[k] == o {
      assert o in multiset(sorted);
    }
  }

  // ---------------------------------------------------------------------------
  // A customer's own orders

  /** A line of the customer's view: the product summary when it was
      found, otherwise the raw product id. */
  datatype ItemProduct =
    | Summary(id: string, name: string, price: real, offerPrice: Option<real>, image: seq<string>)
    | RawId(productId: string)

  datatype CustomerItem = CustomerItem(product: ItemProduct, quantity: int)

  datatype CustomerOrder = CustomerOrder(order: Order, items: seq<CustomerItem>)

  function CustomerItemOf(lookup: string -> Lookup, it: OrderItem): (r: CustomerItem)
    ensures r.quantity == it.quantity
    ensures r.product.Summary? <==> lookup(it.product).Found?
    ensures r.product.RawId? ==> r.product.productId == it.product
    ensures r.product.Summary? ==> var p := lookup(it.product).product;
      r.product.id == p.id && r.product.name == p.name && r.product.image == p.image &&
      r.product.price == p.price && r.product.offerPrice == p.offerPrice
  {
    match lookup(it.product)
    case Found(p) => CustomerItem(Summary(p.id, p.name, p.price, p.offerPrice, p.image), it.quantity)
    case NotFound => CustomerItem(RawId(it.product), it.quantity)
    case Failed => CustomerItem(RawId(it.product), it.quantity)
  }

  function CustomerItems(items: seq<OrderItem>, lookup: string -> Lookup): (r: seq<CustomerItem>)
    ensures |r| == |items|
    ensures forall k :: 0 <= k < |r| ==> r[k] == CustomerItemOf(lookup, items[k])
  {
    if items == [] then [] else [CustomerItemOf(lookup, items[0])] + CustomerItems(items[1..], lookup)
  }

  function CustomerOrdersOf(orders: seq<Order>, lookup: string -> Lookup): (r: seq<CustomerOrder>)
    ensures |r| == |orders|
    ensures forall k :: 0 <= k < |r| ==> r[k] == CustomerOrder(orders[k], CustomerItems(orders[k].items, lookup))
  {
    if orders == [] then []
    else [CustomerOrder(orders[0], CustomerItems(orders[0].items, lookup))] + CustomerOrdersOf(orders[1..], lookup)
  }

  /** `Order.find({userId})`. */
  function PlacedBy(userId: string): Order -> bool {
    (o: Order) => o.userId == userId
  }

  /** The reply: the orders, and "No orders found" when there are none. */
  datatype CustomerReply = CustomerReply(orders: seq<CustomerOrder>, message: Option<string>)

  /** GET /api/order/get-orders. */
  function CustomerOrdersRoute(session: Option<Session>, orders: seq<Order>, lookup: string -> Lookup)
    : (r: Outcome<CustomerReply>)
    ensures session.None? || !Truthy(session.value.id) <==> r == Failure(401, "Not authenticated")
    ensures session.Some? && Truthy(session.value.id) ==> r.Success?
    ensures r.Success? ==>
      var mine := NewestFirst(Filter(orders, PlacedBy(session.value.id.value)));
      r.value.orders == CustomerOrdersOf(mine, lookup) &&
      (r.value.message == Some("No orders found") <==> mine == [])
  {
    if session.None? || !Truthy(session.value.id) then Failure(401, "Not authenticated")
    else
      var mine := NewestFirst(Filter(orders, PlacedBy(session.value.id.value)));
      if |mine| == 0 then Success(CustomerReply([], Some("No orders found")))
      else Success(CustomerReply(CustomerOrdersOf(mine, lookup), None))
  }

  /** A customer sees exactly their own orders, newest first. */
  lemma CustomerSeesOwnOrders(orders: seq<Order>, userId: string, lookup: string -> Lookup)
    ensures var v := CustomerOrdersOf(NewestFirst(Filter(orders, PlacedBy(userId))), lookup);
      (forall k :: 0 <= k < |v| ==> v[k].order.userId == userId && v[k].order in orders) &&
      (forall o :: o in orders && o.userId == userId ==> exists k :: 0 <= k < |v| && v[k].order == o) &&
      (forall i, j :: 0 <= i < j < |v| ==> v[i].order.date >= v[j].order.date)
  {
    var mine := Filter(orders, PlacedBy(userId));
    var sorted := NewestFirst(mine);
    FilterMembers(orders, PlacedBy(userId));
    NewestFirstOrdered(mine);
    forall k | 0 <= k < |sorted| ensures sorted[k] in mine {
      assert sorted[k] in multiset(mine);
    }
    forall o | o in orders && o.userId == userId ensures exists k :: 0 <= k < |sorted| && sorted[k] == o {
      assert o in mine;
      assert o in multiset(sorted);
    }
  }
}
