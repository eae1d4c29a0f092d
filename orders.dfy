/** Orders: placing one from a request (app/api/order/create/route.js), the
    newest-first order every listing uses, and the staff routes that change
    an order's status or payment type or delete it
    (app/api/order/update-status/route.js,
    app/api/admin/orders/update-status/route.js,
    app/api/admin/orders/update-payment/route.js,
    app/api/order/delete/route.js). */
module Orders {
  import opened Common
  import opened Catalog
  import opened CartContext
  import opened Accounts
  import opened Sorting

  /** One ordered line: the product id and the quantity, as requested. */
  datatype OrderItem = OrderItem(product: string, quantity: int)

  /** The shipping address an order copies from the user's address book;
      the order stores `pinCode` where the address has `pincode`. */
  datatype ShippingAddress = ShippingAddress(
    fullName: string,
    phoneNumber: string,
    pinCode: string,
    area: string,
    city: string,
    state: string)

  /** An order document; `date` is its creation time in milliseconds. */
  datatype Order = Order(
    id: string,
    userId: string,
    address: ShippingAddress,
    items: seq<OrderItem>,
    amount: real,
    status: string,
    paymentType: string,
    date: int)

  /** `.sort({date: -1})`: a later order comes first. */
  function LaterOrSame(): (Order, Order) -> bool {
    (a: Order, b: Order) => a.date >= b.date
  }

  function NewestFirst(orders: seq<Order>): seq<Order> {
    SortBy(orders, LaterOrSame())
  }

  /** The listing holds the same orders, newest first. */
  lemma NewestFirstOrdered(orders: seq<Order>)
    ensures multiset(NewestFirst(orders)) == multiset(orders)
    ensures forall i, j :: 0 <= i < j < |NewestFirst(orders)| ==>
      NewestFirst(orders)[i].date >= NewestFirst(orders)[j].date
  {
    assert TotalPreorder(LaterOrSame());
    SortBySorted(orders, LaterOrSame());
  }

  /** `Order.findById(id)`: the position of the order with that id. */
  function FindOrder(orders: seq<Order>, id: string): (r: Option<nat>)
    ensures r.Some? ==> r.value < |orders| && orders[r.value].id == id
    ensures r.None? <==> forall i :: 0 <= i < |orders| ==> orders[i].id != id
  {
    if orders == [] then None
    else if orders[0].id == id then Some(0)
    else match FindOrder(orders[1..], id)
      case None => None
      case Some(i) => Some(i + 1)
  }

  /** `user.addresses.find(addr => addr._id.toString() === id)`. */
  function FindAddress(addrs: seq<Address>, id: string): (r: Option<nat>)
    ensures r.Some? ==> r.value < |addrs| && addrs[r.value].id == id
    ensures r.None? <==> forall i :: 0 <= i < |addrs| ==> addrs[i].id != id
  {
    if addrs == [] then None
    else if addrs[0].id == id then Some(0)
    else match FindAddress(addrs[1..], id)
      case None => None
      case Some(i) => Some(i + 1)
  }

  function Shipping(a: Address): (s: ShippingAddress)
    ensures s.fullName == a.fullName && s.phoneNumber == a.phoneNumber && s.pinCode == a.pincode
    ensures s.area == a.area && s.city == a.city && s.state == a.state
  {
    ShippingAddress(a.fullName, a.phoneNumber, a.pincode, a.area, a.city, a.state)
  }

  // ---------------------------------------------------------------------------
  // Pricing a request

  /** A line of the request body. */
  datatype RequestItem = RequestItem(product: string, quantity: int)

  /** The request body: the chosen address id and the lines. */
  datatype OrderRequest = OrderRequest(address: Option<string>, items: Option<seq<RequestItem>>)

  /** The line's product is not in the catalog. */
  predicate Unavailable(products: seq<Product>, it: RequestItem) {
    FindProduct(products, it.product).None?
  }

  /** The first line whose product does not exist. */
  function FirstUnavailable(items: seq<RequestItem>, products: seq<Product>): (r: Option<nat>)
    ensures r.Some? ==> r.value < |items| && Unavailable(products, items[r.value])
    ensures r.Some? ==> forall j :: 0 <= j < r.value ==> !Unavailable(products, items[j])
    ensures r.None? <==> forall j :: 0 <= j < |items| ==> !Unavailable(products, items[j])
  {
    if items == [] then None
    else if Unavailable(products, items[0]) then Some(0)
    else match FirstUnavailable(items[1..], products)
      case None => None
      case Some(j) => Some(j + 1)
  }

  /** `(offerPrice || price) * quantity` for a line whose product exists. */
  function ItemCost(products: seq<Product>): RequestItem -> real {
    (it: RequestItem) => match FindProduct(products, it.product)
      case Some(p) => LineTotal(p, it.quantity)
      case None => 0.0
  }

  function Subtotal(items: seq<RequestItem>, products: seq<Product>): real {
    SumReal(items, ItemCost(products))
  }

  /** The order lines keep the requested products and quantities, in order. */
  function AsOrderItems(items: seq<RequestItem>): (r: seq<OrderItem>)
    ensures |r| == |items|
    ensures forall j :: 0 <= j < |r| ==> r[j].product == items[j].product && r[j].quantity == items[j].quantity
  {
    if items == [] then [] else [OrderItem(items[0].product, items[0].quantity)] + AsOrderItems(items[1..])
  }

  /** What the pricing loop produces when every product exists. */
  datatype Priced = Priced(subtotal: real, orderItems: seq<OrderItem>)

  /** The 404 text for a line whose product is missing. */
  function NotFoundMessage(id: string): string {
    "Product " + id + " not found"
  }

  /** The pricing loop of the create route: the first line whose product is
      missing ends the request with 404; otherwise the subtotal and the
      order lines. */
  method PriceItems(items: seq<RequestItem>, products: seq<Product>) returns (r: Outcome<Priced>)
    ensures match FirstUnavailable(items, products)
      case Some(j) => r == Failure(404, NotFoundMessage(items[j].product))
      case None => r == Success(Priced(Subtotal(items, products), AsOrderItems(items)))
  {
    var totalAmount := 0.0;
    var orderItems: seq<OrderItem> := [];
    var i := 0;
    while i < |items|
      invariant 0 <= i <= |items|
      invariant FirstUnavailable(items, products).None? || FirstUnavailable(items, products).value >= i
      invariant totalAmount == Subtotal(items[..i], products)
      invariant orderItems == AsOrderItems(items[..i])
    {
      var item := items[i];
      var product := FindProduct(products, item.product);
      if product.None? {
        return Failure(404, NotFoundMessage(item.product));
      }
      AvailablePast(items, products, i);
      PriceStep(items, products, i, product.value);
      totalAmount := totalAmount + LineTotal(product.value, item.quantity);
      orderItems := orderItems + [OrderItem(item.product, item.quantity)];
      i := i + 1;
    }
    assert items[..i] == items;
    r := Success(Priced(totalAmount, orderItems));
  }

  /** An available line moves the first missing one, if any, past it. */
  lemma AvailablePast(items: seq<RequestItem>, products: seq<Product>, i: nat)
    requires i < |items| && !Unavailable(products, items[i])
    requires FirstUnavailable(items, products).None? || FirstUnavailable(items, products).value >= i
    ensures FirstUnavailable(items, products).None? || FirstUnavailable(items, products).value >= i + 1
  {
  }

  /** One more priced line adds its cost to the subtotal and its order line
      to the end. */
  lemma PriceStep(items: seq<RequestItem>, products: seq<Product>, i: nat, p: Product)
    requires i < |items| && FindProduct(products, items[i].product) == Some(p)
    ensures Subtotal(items[..i + 1], products) == Subtotal(items[..i], products) + LineTotal(p, items[i].quantity)
    ensures AsOrderItems(items[..i + 1]) == AsOrderItems(items[..i]) + [OrderItem(items[i].product, items[i].quantity)]
  {
    TakeNext(items, i);
    SumRealAppend(items[..i], items[i], ItemCost(products));
    var a := AsOrderItems(items[..i + 1]);
    var b := AsOrderItems(items[..i]) + [OrderItem(items[i].product, items[i].quantity)];
    assert |a| == |b|;
    forall j | 0 <= j < |a| ensures a[j] == b[j] {
    }
  }

  /** Every catalog price is non-negative. */
  ghost predicate PricesNonNegative(products: seq<Product>) {
    forall p :: p in products ==> UnitPrice(p) >= 0.0
  }

  lemma {:induction false} SubtotalNonNegative(items: seq<RequestItem>, products: seq<Product>)
    requires PricesNonNegative(products)
    requires forall j :: 0 <= j < |items| ==> items[j].quantity >= 0
    ensures Subtotal(items, products) >= 0.0
  {
    if items != [] {
      SubtotalNonNegative(items[1..], products);
    }
  }

  /** The order amount is the subtotal plus a whole-unit tax of at most 2%. */
  lemma AmountBounds(items: seq<RequestItem>, products: seq<Product>)
    requires PricesNonNegative(products)
    requires forall j :: 0 <= j < |items| ==> items[j].quantity >= 0
    ensures var s := Subtotal(items, products);
      s >= 0.0 && s <= s + Tax(s) as real <= s * 1.02
  {
    SubtotalNonNegative(items, products);
  }

  // ---------------------------------------------------------------------------
  // Staff updates

  /** `Order.findById` throws a CastError for an id that is not an ObjectId. */
  predicate Castable(id: string) {
    IsValidObjectId(id)
  }

  /** The order with the supplied fields replaced; an absent or empty field
      keeps its value. */
  function Patched(o: Order, status: Option<string>, paymentType: Option<string>): (r: Order)
    ensures r.status == OrElse(status, o.status)
    ensures r.paymentType == OrElse(paymentType, o.paymentType)
    ensures r.(status := o.status, paymentType := o.paymentType) == o
  {
    o.(status := OrElse(status, o.status), paymentType := OrElse(paymentType, o.paymentType))
  }

  /** The same update applied twice changes nothing more. */
  lemma PatchIdempotent(o: Order, status: Option<string>, paymentType: Option<string>)
    ensures Patched(Patched(o, status, paymentType), status, paymentType) == Patched(o, status, paymentType)
  {
  }

  /** The reply of the update route: the order after the update and the
      values it now holds. */
  datatype OrderUpdate = OrderUpdate(order: Order, status: string, paymentType: string)

  const InvalidStatusMessage: string :=
    "Invalid status. Must be one of: Order Placed, Processing, Shipped, Delivered, Cancelled"
  const InvalidPaymentMessage: string :=
    "Invalid payment type. Must be one of: COD, Paid, Pending, Refunded"

  /** `orderId || orderIdFromBody`: the query parameter wins when it is set;
      a body that does not parse counts as no body id. */
  function ResolveOrderId(query: Option<string>, body: Option<string>): (r: Option<string>)
    ensures Truthy(query) ==> r == query
    ensures !Truthy(query) ==> r == body
    ensures Truthy(r) <==> Truthy(query) || Truthy(body)
  {
    if Truthy(query) then query else body
  }

  /** Order ids do not repeat. */
  ghost predicate UniqueIds(orders: seq<Order>) {
    forall i, j :: 0 <= i < j < |orders| ==> orders[i].id != orders[j].id
  }

  /** Deleting the order found for an id leaves no order with that id and
      every other order in place. */
  lemma DeleteRemovesExactlyOne(orders: seq<Order>, id: string)
    requires UniqueIds(orders)
    requires FindOrder(orders, id).Some?
    ensures var i := FindOrder(orders, id).value;
      var after := orders[..i] + orders[i + 1..];
      FindOrder(after, id).None? && |after| == |orders| - 1 &&
      forall o :: o in orders && o.id != id ==> o in after
  {
    var i := FindOrder(orders, id).value;
    var after := orders[..i] + orders[i + 1..];
    forall j | 0 <= j < |after| ensures after[j].id != id {
      if j < i {
        assert after[j] == orders[j];
      } else {
        assert after[j] == orders[j + 1];
      }
    }
    forall o | o in orders && o.id != id ensures o in after {
      var k :| 0 <= k < |orders| && orders[k] == o;
      if k < i {
        assert after[k] == o;
      } else {
        assert k != i;
        assert after[k - 1] == o;
      }
    }
  }

  /** The users, products and orders the order routes read and write. */
  class OrderStore {
    var users: seq<User>
    var products: seq<Product>
    var orders: seq<Order>

    constructor (users0: seq<User>, products0: seq<Product>, orders0: seq<Order>)
      ensures users == users0 && products == products0 && orders == orders0
    {
      users, products, orders := users0, products0, orders0;
    }

    /** POST /api/order/create. Nothing is written unless every check
        passes; the order is appended first and the user's cart emptied
        after. `newId` and `now` are the id and date the store assigns. */
    method PlaceOrder(session: Option<Session>, request: OrderRequest, newId: string, now: int)
      returns (r: Outcome<Order>)
      modifies this`users, this`orders
      ensures r.Failure? ==> users == old(users) && orders == old(orders)
      ensures session.None? || !Truthy(session.value.email) ==> r == Failure(401, "Unauthorized")
      ensures session.Some? && Truthy(session.value.email) ==>
        if !Truthy(request.address) || request.items.None? || request.items.value == [] then
          r == Failure(400, "Address and items are required")
        else match FindUserByEmail(old(users), session.value.email.value)
          case None => r == Failure(404, "User not found")
          case Some(u) => match FindAddress(old(users)[u].addresses, request.address.value)
            case None => r == Failure(404, "Address not found")
            case Some(a) => match FirstUnavailable(request.items.value, products)
              case Some(j) => r == Failure(404, NotFoundMessage(request.items.value[j].product))
              case None =>
                var subtotal := Subtotal(request.items.value, products);
                r.Success? &&
                r.value == Order(newId, old(users)[u].id, Shipping(old(users)[u].addresses[a]),
                                 AsOrderItems(request.items.value), subtotal + Tax(subtotal) as real,
                                 "Order Placed", "COD", now) &&
                orders == old(orders) + [r.value] &&
                users == old(users)[u := old(users)[u].(cartItems := EmptyDict())]
    {
      if session.None? || !Truthy(session.value.email) {
        return Failure(401, "Unauthorized");
      }
      if !Truthy(request.address) || request.items.None? || request.items.value == [] {
        return Failure(400, "Address and items are required");
      }
      var items := request.items.value;
      var u := FindUserByEmail(users, session.value.email.value);
      if u.None? {
        return Failure(404, "User not found");
      }
      var user := users[u.value];
      var a := FindAddress(user.addresses, request.address.value);
      if a.None? {
        return Failure(404, "Address not found");
      }
      var priced := PriceItems(items, products);
      if priced.Failure? {
        return Failure(priced.status, priced.message);
      }
      assert FirstUnavailable(items, products).None?;
      var subtotal := priced.value.subtotal;
      var tax := Tax(subtotal);
      var order := Order(newId, user.id, Shipping(user.addresses[a.value]), priced.value.orderItems,
                         subtotal + tax as real, "Order Placed", "COD", now);
      orders := orders + [order];
      users := users[u.value := user.(cartItems := EmptyDict())];
      r := Success(order);
    }

    /** PUT /api/order/update-status: checks in order, then only the
        supplied fields change; the reply echoes the values now stored. */
    method UpdateOrder(session: Option<Session>, orderId: Option<string>,
                       status: Option<string>, paymentType: Option<string>)
      returns (r: Outcome<OrderUpdate>)
      modifies this`orders
      ensures r.Failure? ==> orders == old(orders)
      ensures r == (
        if session.None? || !Truthy(session.value.id) then Failure(401, "Unauthorized - Please login")
        else if !IsStaff(session.value.role) then
          Failure(403, "Forbidden - Only admins and sellers can update orders")
        else if !Truthy(orderId) then Failure(400, "Order ID is required")
        else if !Truthy(status) && !Truthy(paymentType) then
          Failure(400, "At least one field (status or paymentType) is required to update")
        else if Truthy(status) && status.value !in OrderStatuses then Failure(400, InvalidStatusMessage)
        else if Truthy(paymentType) && paymentType.value !in PaymentTypes then Failure(400, InvalidPaymentMessage)
        else if !Castable(orderId.value) then Failure(400, "Invalid Order ID format")
        else if FindOrder(old(orders), orderId.value).None? then Failure(404, "Order not found")
        else
          var o := Patched(old(orders)[FindOrder(old(orders), orderId.value).value], status, paymentType);
          Success(OrderUpdate(o, o.status, o.paymentType)))
      ensures r.Success? ==>
        var i := FindOrder(old(orders), orderId.value).value;
        orders == old(orders)[i := Patched(old(orders)[i], status, paymentType)] &&
        r.value == OrderUpdate(orders[i], orders[i].status, orders[i].paymentType)
    {
      if session.None? || !Truthy(session.value.id) {
        return Failure(401, "Unauthorized - Please login");
      }
      if !IsStaff(session.value.role) {
        return Failure(403, "Forbidden - Only admins and sellers can update orders");
      }
      if !Truthy(orderId) {
        return Failure(400, "Order ID is required");
      }
      if !Truthy(status) && !Truthy(paymentType) {
        return Failure(400, "At least one field (status or paymentType) is required to update");
      }
      if Truthy(status) && status.value !in OrderStatuses {
        return Failure(400, InvalidStatusMessage);
      }
      if Truthy(paymentType) && paymentType.value !in PaymentTypes {
        return Failure(400, InvalidPaymentMessage);
      }
      if !Castable(orderId.value) {
        return Failure(400, "Invalid Order ID format");
      }
      var found := FindOrder(orders, orderId.value);
      if found.None? {
        return Failure(404, "Order not found");
      }
      var i := found.value;
      var order := orders[i];
      var updated := Patched(order, status, paymentType);
      orders := orders[i := updated];
      r := Success(OrderUpdate(updated, OrElse(status, order.status), OrElse(paymentType, order.paymentType)));
    }

    /** PATCH /api/admin/orders/update-status: only `status` changes. A
        malformed id throws and is reported as a generic 500. */
    method SetStatus(session: Option<Session>, orderId: Option<string>, status: Option<string>)
      returns (r: Outcome<Order>)
      modifies this`orders
      ensures r.Failure? ==> orders == old(orders)
      ensures r == (
        if session.None? || !Truthy(session.value.id) then Failure(401, "Not authenticated")
        else if !IsStaff(session.value.role) then Failure(403, "Unauthorized. Admin or Seller access required.")
        else if !Truthy(orderId) || !Truthy(status) then Failure(400, "Order ID and status are required")
        else if status.value !in OrderStatuses then Failure(400, InvalidStatusMessage)
        else if !Castable(orderId.value) then Failure(500, "Failed to update order status")
        else if FindOrder(old(orders), orderId.value).None? then Failure(404, "Order not found")
        else Success(old(orders)[FindOrder(old(orders), orderId.value).value].(status := status.value)))
      ensures r.Success? ==>
        var i := FindOrder(old(orders), orderId.value).value;
        orders == old(orders)[i := old(orders)[i].(status := status.value)] && r.value == orders[i]
    {
      if session.None? || !Truthy(session.value.id) {
        return Failure(401, "Not authenticated");
      }
      if !IsStaff(session.value.role) {
        return Failure(403, "Unauthorized. Admin or Seller access required.");
      }
      if !Truthy(orderId) || !Truthy(status) {
        return Failure(400, "Order ID and status are required");
      }
      if status.value !in OrderStatuses {
        return Failure(400, InvalidStatusMessage);
      }
      if !Castable(orderId.value) {
        return Failure(500, "Failed to update order status");
      }
      var found := FindOrder(orders, orderId.value);
      if found.None? {
        return Failure(404, "Order not found");
      }
      var i := found.value;
      orders := orders[i := orders[i].(status := status.value)];
      r := Success(orders[i]);
    }

    /** PATCH /api/admin/orders/update-payment: only `paymentType` changes. */
    method SetPaymentType(session: Option<Session>, orderId: Option<string>, paymentType: Option<string>)
      returns (r: Outcome<Order>)
      modifies this`orders
      ensures r.Failure? ==> orders == old(orders)
      ensures r == (
        if session.None? || !Truthy(session.value.id) then Failure(401, "Not authenticated")
        else if !IsStaff(session.value.role) then Failure(403, "Unauthorized. Admin or Seller access required.")
        else if !Truthy(orderId) || !Truthy(paymentType) then Failure(400, "Order ID and payment type are required")
        else if paymentType.value !in PaymentTypes then Failure(400, InvalidPaymentMessage)
        else if !Castable(orderId.value) then Failure(500, "Failed to update payment type")
        else if FindOrder(old(orders), orderId.value).None? then Failure(404, "Order not found")
        else Success(old(orders)[FindOrder(old(orders), orderId.value).value].(paymentType := paymentType.value)))
      ensures r.Success? ==>
        var i := FindOrder(old(orders), orderId.value).value;
        orders == old(orders)[i := old(orders)[i].(paymentType := paymentType.value)] && r.value == orders[i]
    {
      if session.None? || !Truthy(session.value.id) {
        return Failure(401, "Not authenticated");
      }
      if !IsStaff(session.value.role) {
        return Failure(403, "Unauthorized. Admin or Seller access required.");
      }
      if !Truthy(orderId) || !Truthy(paymentType) {
        return Failure(400, "Order ID and payment type are required");
      }
      if paymentType.value !in PaymentTypes {
        return Failure(400, InvalidPaymentMessage);
      }
      if !Castable(orderId.value) {
        return Failure(500, "Failed to update payment type");
      }
      var found := FindOrder(orders, orderId.value);
      if found.None? {
        return Failure(404, "Order not found");
      }
      var i := found.value;
      orders := orders[i := orders[i].(paymentType := paymentType.value)];
      r := Success(orders[i]);
    }

    /** DELETE /api/order/delete: the id comes from the query, else the body;
        the order found for it is removed and its id returned. */
    method DeleteOrder(session: Option<Session>, queryId: Option<string>, bodyId: Option<string>)
      returns (r: Outcome<string>)
      modifies this`orders
      ensures r.Failure? ==> orders == old(orders)
      ensures var id := ResolveOrderId(queryId, bodyId);
        r == (
        if session.None? || !Truthy(session.value.id) then Failure(401, "Unauthorized - Please login")
        else if !IsStaff(session.value.role) then
          Failure(403, "Forbidden - Only admins and sellers can delete orders")
        else if !Truthy(id) then Failure(400, "Order ID is required")
        else if !Castable(id.value) then Failure(400, "Invalid Order ID format")
        else if FindOrder(old(orders), id.value).None? then Failure(404, "Order not found")
        else Success(id.value))
      ensures r.Success? ==>
        var i := FindOrder(old(orders), r.value).value;
        orders == old(orders)[..i] + old(orders)[i + 1..]
    {
      if session.None? || !Truthy(session.value.id) {
        return Failure(401, "Unauthorized - Please login");
      }
      if !IsStaff(session.value.role) {
        return Failure(403, "Forbidden - Only admins and sellers can delete orders");
      }
      var finalId := ResolveOrderId(queryId, bodyId);
      if !Truthy(finalId) {
        return Failure(400, "Order ID is required");
      }
      if !Castable(finalId.value) {
        return Failure(400, "Invalid Order ID format");
      }
      var found := FindOrder(orders, finalId.value);
      if found.None? {
        return Failure(404, "Order not found");
      }
      var i := found.value;
      orders := orders[..i] + orders[i + 1..];
      r := Success(finalId.value);
    }
  }
}
