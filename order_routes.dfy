/**
 * The order routes (backend/routes/orderRoutes.js). `OrderDb` holds the order collection
 * and the per-user cart records; each handler looks an order up by id (a path id that is
 * no ObjectId makes the lookup throw, a 500), checks in the order 404, 403, 400, assigns
 * the fields it changes and saves the document back.
 * The principal is what the authentication middleware attaches to the request.
 */
module OrderRoutes {
  import opened Optional
  import opened Accounts
  import opened Seqs
  import opened Cart
  import opened Checkout

  /** What the payment gateway reported; every field may be missing from the request body. */
  datatype PaymentResult = PaymentResult(
    id: Option<string>,
    status: Option<string>,
    updateTime: Option<string>,
    emailAddress: Option<string>)

  /** A stored order. Time stamps are opaque numbers supplied by the caller. */
  datatype Order = Order(
    id: string,
    user: string,
    orderItems: seq<OrderItem>,
    shippingAddress: Address,
    paymentMethod: string,
    itemsPrice: real,
    taxPrice: real,
    shippingPrice: real,
    totalPrice: real,
    status: string,
    isPaid: bool,
    paidAt: Option<int>,
    paymentResult: Option<PaymentResult>,
    isDelivered: bool,
    deliveredAt: Option<int>,
    createdAt: int)

  /** The body of `POST /`; `orderItems` may be left out of it. */
  datatype CreateBody = CreateBody(
    orderItems: Option<seq<OrderItem>>,
    shippingAddress: Address,
    paymentMethod: string,
    itemsPrice: real,
    taxPrice: real,
    shippingPrice: real,
    totalPrice: real)

  /** The `shippingAddress` of an edit request: only the fields it names are replaced. */
  datatype AddressPatch = AddressPatch(
    fullName: Option<string>,
    address: Option<string>,
    city: Option<string>,
    postalCode: Option<string>,
    country: Option<string>,
    phone: Option<string>)

  /** The responses: 200 with an order or a list, 201, 400, 403, 404, the admin middleware's refusal, 500. */
  datatype Reply =
    | Ok(order: Order)
    | Listed(orders: seq<Order>)
    | Created(order: Order)
    | BadRequest(message: string)
    | Forbidden(message: string)
    | NotFound
    | NotAdmin
    | ServerError

  const NoItems := "No order items"
  const ViewDenied := "Not authorized to view this order"
  const PayDenied := "Not authorized to update this order"
  const CancelDenied := "Not authorized to cancel this order"
  const EditDenied := "Not authorized to edit this order"
  const CancelConflict := "Cannot cancel order that has been shipped or delivered"
  const EditConflict := "Cannot edit order that has been shipped or delivered"

  const Cancelled := "Cancelled"
  const Shipped := "Shipped"
  const OutForDelivery := "Out for delivery"
  const Delivered := "Delivered"

  // ---------------------------------------------------------------- guards

  /** The owner-or-admin test of get, pay, cancel and edit. */
  predicate CanAccess(principal: User, o: Order) {
    principal.isAdmin || o.user == principal.id
  }

  /** The statuses in which `/cancel` refuses. */
  predicate CancelBlocked(status: string) {
    status == Delivered || status == Shipped || status == OutForDelivery
  }

  /** The statuses in which `/edit` refuses. */
  predicate EditBlocked(status: string) {
    status == Shipped || status == OutForDelivery || status == Delivered
  }

  /** A cancelled order is not blocked: cancelling it again succeeds. */
  lemma CancelledStaysCancellable()
    ensures !CancelBlocked(Cancelled) && !EditBlocked(Cancelled)
  {
    assert Cancelled[0] != Delivered[0] && Cancelled[0] != Shipped[0] && Cancelled[0] != OutForDelivery[0];
  }

  // ---------------------------------------------------------------- documents

  function HasOrderId(id: string): Order -> bool { (o: Order) => o.id == id }

  /** `findById`: the position of the order with that id, or -1. */
  function IndexOf(orders: seq<Order>, id: string): (k: int)
    ensures -1 <= k < |orders|
    ensures k >= 0 ==> orders[k].id == id
    ensures k == -1 <==> forall j :: 0 <= j < |orders| ==> orders[j].id != id
  {
    FirstIndex(orders, HasOrderId(id))
  }

  /** Order ids are unique in the collection. */
  ghost predicate UniqueIds(orders: seq<Order>) {
    forall i, j :: 0 <= i < j < |orders| ==> orders[i].id != orders[j].id
  }

  /** The document `new Order({...})` builds: the body's fields as given, owned by the principal. */
  function Placed(principal: User, body: CreateBody, id: string, now: int, defaultStatus: string): Order {
    Order(
      id, principal.id, body.orderItems.GetOr([]), body.shippingAddress, body.paymentMethod,
      body.itemsPrice, body.taxPrice, body.shippingPrice, body.totalPrice,
      defaultStatus, false, None, None, false, None, now)
  }

  /** `Cart.findOneAndUpdate({ user }, { items: [], totalAmount: 0 })`: no cart is created for a user without one. */
  function ClearedCarts(carts: map<string, Cart>, user: string): (r: map<string, Cart>)
    ensures r.Keys == carts.Keys
    ensures user in carts ==> r[user] == EmptyCart
    ensures forall u :: u in carts && u != user ==> r[u] == carts[u]
  {
    if user in carts then carts[user := EmptyCart] else carts
  }

  /** The spread `{ ...old, ...patch }` on an address: each field the patch names is replaced. */
  function MergeAddress(a: Address, patch: AddressPatch): (r: Address)
    ensures r.fullName == patch.fullName.GetOr(a.fullName)
    ensures r.address == patch.address.GetOr(a.address)
    ensures r.city == patch.city.GetOr(a.city)
    ensures r.postalCode == patch.postalCode.GetOr(a.postalCode)
    ensures r.country == patch.country.GetOr(a.country)
    ensures r.phone == patch.phone.GetOr(a.phone)
  {
    Address(
      patch.fullName.GetOr(a.fullName), patch.address.GetOr(a.address), patch.city.GetOr(a.city),
      patch.postalCode.GetOr(a.postalCode), patch.country.GetOr(a.country), patch.phone.GetOr(a.phone))
  }

  /** A patch naming no field keeps the address. */
  lemma MergeEmptyPatch(a: Address)
    ensures MergeAddress(a, AddressPatch(None, None, None, None, None, None)) == a
  {
  }

  /** Applying the same patch twice is applying it once. */
  lemma MergeIdempotent(a: Address, patch: AddressPatch)
    ensures MergeAddress(MergeAddress(a, patch), patch) == MergeAddress(a, patch)
  {
  }

  /** A patch naming every field replaces the whole address, whatever it was. */
  lemma MergeFullPatch(a: Address, b: Address)
    ensures MergeAddress(a, AddressPatch(Some(b.fullName), Some(b.address), Some(b.city),
                                         Some(b.postalCode), Some(b.country), Some(b.phone))) == b
  {
  }

  /** The order after `/pay`: paid at `now` with the gateway's result; nothing else changes. */
  function Paid(o: Order, result: PaymentResult, now: int): (r: Order)
    ensures r.isPaid && r.paidAt == Some(now) && r.paymentResult == Some(result)
    ensures r.(isPaid := o.isPaid, paidAt := o.paidAt, paymentResult := o.paymentResult) == o
  {
    o.(isPaid := true, paidAt := Some(now), paymentResult := Some(result))
  }

  /** The order after `/deliver`: delivered at `now`; its status and everything else unchanged. */
  function MarkedDelivered(o: Order, now: int): (r: Order)
    ensures r.isDelivered && r.deliveredAt == Some(now) && r.status == o.status
    ensures r.(isDelivered := o.isDelivered, deliveredAt := o.deliveredAt) == o
  {
    o.(isDelivered := true, deliveredAt := Some(now))
  }

  /** Paying checks no status: a cancelled order can still be marked paid, and stays cancelled. */
  lemma PayIgnoresStatus(o: Order, result: PaymentResult, now: int)
    requires o.status == Cancelled
    ensures Paid(o, result, now).isPaid && Paid(o, result, now).status == Cancelled
  {
  }

  /** The delivered flag and the status are independent: delivering leaves a "Processing" order "Processing". */
  lemma DeliveredFlagDecoupled(o: Order, now: int)
    requires o.status == "Processing"
    ensures MarkedDelivered(o, now).isDelivered && MarkedDelivered(o, now).status != Delivered
  {
    assert MarkedDelivered(o, now).status[0] != Delivered[0];
  }

  /** The key that sorts newest first: `createdAt`, negated. */
  function Age(o: Order): real { -(o.createdAt as real) }

  /** The list is ordered by `createdAt`, newest first. */
  predicate NewestFirst(list: seq<Order>) {
    forall i, j :: 0 <= i < j < |list| ==> list[i].createdAt >= list[j].createdAt
  }

  /** `.sort({ createdAt: -1 })`: newest first, a permutation of the input. */
  function ByNewest(list: seq<Order>): (r: seq<Order>)
    ensures NewestFirst(r)
    ensures multiset(r) == multiset(list)
    ensures forall i :: 0 <= i < |r| ==> r[i] in list
    ensures forall j :: 0 <= j < |list| ==> list[j] in r
  {
    var r := SortByKey(list, Age);
    assert forall i, j :: 0 <= i < j < |r| ==> Age(r[i]) <= Age(r[j]);
    SameElements(list, r);
    r
  }

  function OwnedBy(user: string): Order -> bool { (o: Order) => o.user == user }

  /** The user's orders, newest first, are exactly the orders the user placed. */
  lemma OwnNewest(orders: seq<Order>, user: string)
    ensures var list := ByNewest(Filter(orders, OwnedBy(user)));
            forall i :: 0 <= i < |list| ==> list[i] in orders && list[i].user == user
    ensures var list := ByNewest(Filter(orders, OwnedBy(user)));
            forall j :: 0 <= j < |orders| && orders[j].user == user ==> orders[j] in list
  {
    var own := Filter(orders, OwnedBy(user));
    var list := ByNewest(own);
    FilterComplete(orders, OwnedBy(user));
    forall i | 0 <= i < |list| ensures list[i] in orders && list[i].user == user {
      assert list[i] in own;
    }
    forall j | 0 <= j < |orders| && orders[j].user == user ensures orders[j] in list {
      assert OwnedBy(user)(orders[j]);
      assert orders[j] in own;
    }
  }

  // ---------------------------------------------------------------- prices

  /** The create body a checkout submits. */
  function BodyOf(d: OrderData): CreateBody {
    CreateBody(Some(d.orderItems), d.shippingAddress, d.paymentMethod,
               d.itemsPrice, d.taxPrice, d.shippingPrice, d.totalPrice)
  }

  /**
   * The server stores whatever prices it is sent: a body whose total disagrees with its
   * parts is saved with that total.
   */
  lemma PricesTrusted(principal: User, body: CreateBody, id: string, now: int, status: string)
    requires body.totalPrice != body.itemsPrice + body.taxPrice + body.shippingPrice
    ensures var o := Placed(principal, body, id, now, status);
            && o.itemsPrice == body.itemsPrice && o.taxPrice == body.taxPrice
            && o.shippingPrice == body.shippingPrice && o.totalPrice == body.totalPrice
            && o.totalPrice != o.itemsPrice + o.taxPrice + o.shippingPrice
  {
  }

  /**
   * An order placed from the checkout page's payload, for a consistent cart, is
   * consistent: its lines add up to `itemsPrice` and its total is the sum of its parts.
   */
  lemma CheckoutOrderConsistent(principal: User, cart: Cart, a: Address, paymentMethod: string,
                                id: string, now: int, status: string)
    requires Consistent(cart)
    ensures var o := Placed(principal, BodyOf(OrderDataFor(cart, a, paymentMethod)), id, now, status);
            && ItemsTotal(o.orderItems) == o.itemsPrice
            && o.totalPrice == o.itemsPrice + o.taxPrice + o.shippingPrice
            && o.user == principal.id
  {
    SnapshotTotalMatches(cart, a, paymentMethod);
  }

  // ---------------------------------------------------------------- the handlers

  class OrderDb {
    var orders: seq<Order>
    var carts: map<string, Cart>
    /** The status the order schema gives a new order. */
    const defaultStatus: string

    ghost predicate Valid()
      reads this
    {
      UniqueIds(orders)
    }

    constructor (defaultStatus: string)
      ensures Valid() && orders == [] && carts == map[] && this.defaultStatus == defaultStatus
    {
      orders := [];
      carts := map[];
      this.defaultStatus := defaultStatus;
    }

    /**
     * `POST /`: an explicitly empty item list is refused; otherwise the order is saved,
     * owned by the principal, with the prices as sent, and the principal's cart (if one
     * exists) is emptied. `accepted` is whether the order schema's validators accept the
     * document; when they do not, the save throws and the route answers 500.
     */
    method Create(principal: User, body: CreateBody, id: string, now: int, accepted: bool) returns (reply: Reply)
      requires Valid()
      requires IndexOf(orders, id) < 0
      modifies this`orders, this`carts
      ensures Valid()
      ensures body.orderItems == Some([]) ==>
                reply == BadRequest(NoItems) && orders == old(orders) && carts == old(carts)
      ensures body.orderItems != Some([]) && !accepted ==>
                reply == ServerError && orders == old(orders) && carts == old(carts)
      ensures body.orderItems != Some([]) && accepted ==>
                && reply == Created(Placed(principal, body, id, now, defaultStatus))
                && orders == old(orders) + [reply.order]
                && carts == ClearedCarts(old(carts), principal.id)
    {
      if body.orderItems.Some? && |body.orderItems.value| == 0 {
        return BadRequest(NoItems);
      }
      var order := Placed(principal, body, id, now, defaultStatus);
      if !accepted {
        return ServerError;
      }
      orders := orders + [order];
      if principal.id in carts {
        carts := carts[principal.id := EmptyCart];
      }
      reply := Created(order);
    }

    /** `GET /myorders`: exactly the principal's orders, newest first. */
    method MyOrders(principal: User) returns (list: seq<Order>)
      ensures forall i :: 0 <= i < |list| ==> list[i] in orders && list[i].user == principal.id
      ensures forall j :: 0 <= j < |orders| && orders[j].user == principal.id ==> orders[j] in list
      ensures multiset(list) == multiset(Filter(orders, OwnedBy(principal.id)))
      ensures NewestFirst(list)
    {
      list := ByNewest(Filter(orders, OwnedBy(principal.id)));
      OwnNewest(orders, principal.id);
    }

    /**
     * `GET /:id`: 500 for an id that is no ObjectId, 404 for an unknown id, then 403 unless
     * the principal is the owner or an admin. `castable` is whether Mongoose can cast the
     * path id to an ObjectId; when it cannot, `findById` throws and the route answers 500.
     */
    method GetById(principal: User, id: string, castable: bool) returns (reply: Reply)
      ensures !castable <==> reply == ServerError
      ensures castable && IndexOf(orders, id) < 0 <==> reply == NotFound
      ensures reply.Forbidden? <==>
                castable && IndexOf(orders, id) >= 0 && !CanAccess(principal, orders[IndexOf(orders, id)])
      ensures reply.Forbidden? ==> reply.message == ViewDenied
      ensures reply.Ok? ==> reply.order in orders && reply.order.id == id && CanAccess(principal, reply.order)
      ensures reply.ServerError? || reply.NotFound? || reply.Forbidden? || reply.Ok?
    {
      if !castable {
        return ServerError;
      }
      var k := IndexOf(orders, id);
      if k == -1 {
        return NotFound;
      }
      if principal.isAdmin || orders[k].user == principal.id {
        reply := Ok(orders[k]);
      } else {
        reply := Forbidden(ViewDenied);
      }
    }

    /** `PUT /:id/pay`: 500 for an id that is no ObjectId; then for the owner or an admin, whatever the status. */
    method Pay(principal: User, id: string, castable: bool, result: PaymentResult, now: int) returns (reply: Reply)
      requires Valid()
      modifies this`orders
      ensures Valid()
      ensures !castable ==> reply == ServerError && orders == old(orders)
      ensures var k := IndexOf(old(orders), id);
              castable && k < 0 ==> reply == NotFound && orders == old(orders)
      ensures var k := IndexOf(old(orders), id);
              castable && k >= 0 && !CanAccess(principal, old(orders)[k]) ==>
                reply == Forbidden(PayDenied) && orders == old(orders)
      ensures var k := IndexOf(old(orders), id);
              castable && k >= 0 && CanAccess(principal, old(orders)[k]) ==>
                orders == old(orders)[k := Paid(old(orders)[k], result, now)] && reply == Ok(orders[k])
    {
      if !castable {
        return ServerError;
      }
      var k := IndexOf(orders, id);
      if k == -1 {
        return NotFound;
      }
      var order := orders[k];
      if !(principal.isAdmin || order.user == principal.id) {
        return Forbidden(PayDenied);
      }
      order := order.(isPaid := true);
      order := order.(paidAt := Some(now));
      order := order.(paymentResult := Some(result));
      orders := orders[k := order];
      reply := Ok(order);
    }

    /** `PUT /:id/deliver` (admin only): sets the delivered flag and leaves the status alone. */
    method Deliver(principal: User, id: string, castable: bool, now: int) returns (reply: Reply)
      requires Valid()
      modifies this`orders
      ensures Valid()
      ensures !principal.isAdmin ==> reply == NotAdmin && orders == old(orders)
      ensures principal.isAdmin && !castable ==> reply == ServerError && orders == old(orders)
      ensures var k := IndexOf(old(orders), id);
              principal.isAdmin && castable && k < 0 ==> reply == NotFound && orders == old(orders)
      ensures var k := IndexOf(old(orders), id);
              principal.isAdmin && castable && k >= 0 ==>
                orders == old(orders)[k := MarkedDelivered(old(orders)[k], now)] && reply == Ok(orders[k])
    {
      if !principal.isAdmin {
        return NotAdmin;
      }
      if !castable {
        return ServerError;
      }
      var k := IndexOf(orders, id);
      if k == -1 {
        return NotFound;
      }
      var order := orders[k];
      order := order.(isDelivered := true);
      order := order.(deliveredAt := Some(now));
      orders := orders[k := order];
      reply := Ok(order);
    }

    /** `GET /` (admin only): every order, newest first. */
    method ListAll(principal: User) returns (reply: Reply)
      ensures !principal.isAdmin <==> reply == NotAdmin
      ensures principal.isAdmin ==> reply.Listed? && NewestFirst(reply.orders)
      ensures principal.isAdmin ==> multiset(reply.orders) == multiset(orders)
    {
      if !principal.isAdmin {
        return NotAdmin;
      }
      reply := Listed(ByNewest(orders));
    }

    /**
     * `PUT /:id/status` (admin only): the status is overwritten with the value sent, with
     * no transition check. `accepted` is whether the order schema's validators accept it.
     */
    method SetStatus(principal: User, id: string, castable: bool, status: string, accepted: bool) returns (reply: Reply)
      requires Valid()
      modifies this`orders
      ensures Valid()
      ensures !principal.isAdmin ==> reply == NotAdmin && orders == old(orders)
      ensures principal.isAdmin && !castable ==> reply == ServerError && orders == old(orders)
      ensures var k := IndexOf(old(orders), id);
              principal.isAdmin && castable && k < 0 ==> reply == NotFound && orders == old(orders)
      ensures var k := IndexOf(old(orders), id);
              principal.isAdmin && castable && k >= 0 && !accepted ==> reply == ServerError && orders == old(orders)
      ensures var k := IndexOf(old(orders), id);
              principal.isAdmin && castable && k >= 0 && accepted ==>
                orders == old(orders)[k := old(orders)[k].(status := status)] && reply == Ok(orders[k])
    {
      if !principal.isAdmin {
        return NotAdmin;
      }
      if !castable {
        return ServerError;
      }
      var k := IndexOf(orders, id);
      if k == -1 {
        return NotFound;
      }
      var order := orders[k].(status := status);
      if !accepted {
        return ServerError;
      }
      orders := orders[k := order];
      reply := Ok(order);
    }

    /**
     * `PUT /:id/cancel`: 500 for an id that is no ObjectId, 404, then 403, then 400 once
     * shipped; otherwise the status becomes "Cancelled".
     */
    method Cancel(principal: User, id: string, castable: bool) returns (reply: Reply)
      requires Valid()
      modifies this`orders
      ensures Valid()
      ensures !castable ==> reply == ServerError && orders == old(orders)
      ensures var k := IndexOf(old(orders), id);
              castable && k < 0 ==> reply == NotFound && orders == old(orders)
      ensures var k := IndexOf(old(orders), id);
              castable && k >= 0 && !CanAccess(principal, old(orders)[k]) ==>
                reply == Forbidden(CancelDenied) && orders == old(orders)
      ensures var k := IndexOf(old(orders), id);
              castable && k >= 0 && CanAccess(principal, old(orders)[k]) && CancelBlocked(old(orders)[k].status) ==>
                reply == BadRequest(CancelConflict) && orders == old(orders)
      ensures var k := IndexOf(old(orders), id);
              castable && k >= 0 && CanAccess(principal, old(orders)[k]) && !CancelBlocked(old(orders)[k].status) ==>
                orders == old(orders)[k := old(orders)[k].(status := Cancelled)] && reply == Ok(orders[k])
    {
      if !castable {
        return ServerError;
      }
      var k := IndexOf(orders, id);
      if k == -1 {
        return NotFound;
      }
      var order := orders[k];
      if !(principal.isAdmin || order.user == principal.id) {
        return Forbidden(CancelDenied);
      }
      if order.status == Delivered || order.status == Shipped || order.status == OutForDelivery {
        return BadRequest(CancelConflict);
      }
      order := order.(status := Cancelled);
      orders := orders[k := order];
      reply := Ok(order);
    }

    /**
     * `PUT /:id/edit`: 500 for an id that is no ObjectId, 404, then 403, then 400 once
     * shipped; otherwise the address fields sent replace the old ones, and without a
     * `shippingAddress` the order is saved as it was. `accepted` is whether the order
     * schema's validators accept the merged document; when they do not, the save throws
     * and the route answers 500.
     */
    method Edit(principal: User, id: string, castable: bool, patch: Option<AddressPatch>, accepted: bool)
      returns (reply: Reply)
      requires Valid()
      modifies this`orders
      ensures Valid()
      ensures !castable ==> reply == ServerError && orders == old(orders)
      ensures var k := IndexOf(old(orders), id);
              castable && k < 0 ==> reply == NotFound && orders == old(orders)
      ensures var k := IndexOf(old(orders), id);
              castable && k >= 0 && !CanAccess(principal, old(orders)[k]) ==>
                reply == Forbidden(EditDenied) && orders == old(orders)
      ensures var k := IndexOf(old(orders), id);
              castable && k >= 0 && CanAccess(principal, old(orders)[k]) && EditBlocked(old(orders)[k].status) ==>
                reply == BadRequest(EditConflict) && orders == old(orders)
      ensures var k := IndexOf(old(orders), id);
              (castable && k >= 0 && CanAccess(principal, old(orders)[k]) && !EditBlocked(old(orders)[k].status)
               && !accepted) ==> reply == ServerError && orders == old(orders)
      ensures var k := IndexOf(old(orders), id);
              (castable && k >= 0 && CanAccess(principal, old(orders)[k]) && !EditBlocked(old(orders)[k].status)
               && accepted) ==>
                && reply.Ok? && orders == old(orders)[k := reply.order]
                && reply.order.shippingAddress
                   == (if patch.Some? then MergeAddress(old(orders)[k].shippingAddress, patch.value)
                       else old(orders)[k].shippingAddress)
                && reply.order.(shippingAddress := old(orders)[k].shippingAddress) == old(orders)[k]
    {
      if !castable {
        return ServerError;
      }
      var k := IndexOf(orders, id);
      if k == -1 {
        return NotFound;
      }
      var order := orders[k];
      if order.user != principal.id && !principal.isAdmin {
        return Forbidden(EditDenied);
      }
      if order.status == Shipped || order.status == OutForDelivery || order.status == Delivered {
        return BadRequest(EditConflict);
      }
      if patch.Some? {
        order := order.(shippingAddress := MergeAddress(order.shippingAddress, patch.value));
      }
      if !accepted {
        return ServerError;
      }
      orders := orders[k := order];
      reply := Ok(order);
    }
  }
}
