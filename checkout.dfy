/**
 * The checkout page (frontend/src/pages/Checkout.jsx): its initial form state, the
 * required-address check, and the order payload built from the cart in `handleSubmit`.
 */
module Checkout {
  import opened Optional
  import opened Accounts
  import opened Seqs
  import opened ProductModel
  import opened Cart

  /** A shipping address as the form holds it; an unfilled field is `""`. */
  datatype Address = Address(
    fullName: string,
    address: string,
    city: string,
    postalCode: string,
    country: string,
    phone: string)

  /** An order line: a copy of the cart line's product details, not a reference to the product. */
  datatype OrderItem = OrderItem(
    product: string,
    name: string,
    image: Option<string>,
    price: real,
    quantity: int,
    size: string,
    color: string)

  /** The payload of `createOrder`. */
  datatype OrderData = OrderData(
    orderItems: seq<OrderItem>,
    shippingAddress: Address,
    paymentMethod: string,
    itemsPrice: real,
    taxPrice: real,
    shippingPrice: real,
    totalPrice: real)

  /** The tax rate, 8%, as an exact fraction. */
  const TaxRate: real := 8.0 / 100.0

  /** The payment methods the radio buttons offer. */
  const Card := "stripe"
  const CashOnDelivery := "cod"

  // ---------------------------------------------------------------- initial state

  datatype Form = Form(paymentMethod: string, shippingAddress: Address)

  /** The form before any input: card payment, and the full name prefilled from the user. */
  function InitialForm(user: Option<User>): (f: Form)
    ensures f.paymentMethod == Card
    ensures user.Some? ==> f.shippingAddress.fullName == user.value.name
    ensures user.None? ==> f.shippingAddress.fullName == ""
    ensures f.shippingAddress.(fullName := "") == Address("", "", "", "", "", "")
  {
    Form(Card, Address(if user.Some? then user.value.name else "", "", "", "", "", ""))
  }

  // ---------------------------------------------------------------- the view

  datatype View = EmptyCartView | CheckoutFormView

  /** An empty cart shows the empty-cart view instead of the form. */
  function ViewFor(cart: Cart): (v: View)
    ensures v == EmptyCartView <==> cart.items == []
  {
    if |cart.items| == 0 then EmptyCartView else CheckoutFormView
  }

  // ---------------------------------------------------------------- handleSubmit

  /** The address fields, named as in `requiredFields`. */
  datatype Field = FullName | AddressLine | City | PostalCode | Country | Phone

  const RequiredFields: seq<Field> := [FullName, AddressLine, City, PostalCode, Country, Phone]

  /** `shippingAddress[field]`. */
  function FieldValue(a: Address, field: Field): string {
    match field
    case FullName => a.fullName
    case AddressLine => a.address
    case City => a.city
    case PostalCode => a.postalCode
    case Country => a.country
    case Phone => a.phone
  }

  /**
   * `requiredFields.filter((field) => !shippingAddress[field])`: the required fields left
   * empty, in the order of `RequiredFields`.
   */
  function MissingFields(a: Address): (r: seq<Field>)
    ensures forall i :: 0 <= i < |r| ==> r[i] in RequiredFields && FieldValue(a, r[i]) == ""
    ensures forall f :: f in RequiredFields && FieldValue(a, f) == "" ==> f in r
    ensures r == [] <==> a.fullName != "" && a.address != "" && a.city != ""
                         && a.postalCode != "" && a.country != "" && a.phone != ""
  {
    var r := MissingAmong(RequiredFields, a);
    NoneMissing(a, r);
    r
  }

  /** A list holding exactly the empty required fields is empty just when every field is filled. */
  lemma NoneMissing(a: Address, r: seq<Field>)
    requires forall i :: 0 <= i < |r| ==> FieldValue(a, r[i]) == ""
    requires forall f :: f in RequiredFields && FieldValue(a, f) == "" ==> f in r
    ensures r == [] <==> a.fullName != "" && a.address != "" && a.city != ""
                         && a.postalCode != "" && a.country != "" && a.phone != ""
  {
    assert FullName in RequiredFields && AddressLine in RequiredFields && City in RequiredFields;
    assert PostalCode in RequiredFields && Country in RequiredFields && Phone in RequiredFields;
    if r != [] {
      assert FieldValue(a, r[0]) == "";
    }
  }

  function MissingAmong(fields: seq<Field>, a: Address): (r: seq<Field>)
    ensures forall i :: 0 <= i < |r| ==> r[i] in fields && FieldValue(a, r[i]) == ""
    ensures forall f :: f in fields && FieldValue(a, f) == "" ==> f in r
  {
    if fields == [] then []
    else (if FieldValue(a, fields[0]) == "" then [fields[0]] else []) + MissingAmong(fields[1..], a)
  }

  /** The line's order snapshot: the product's id, name and first image, and the line's price, quantity and variant. */
  function Snapshot(l: CartLine): OrderItem {
    OrderItem(
      l.product.id, l.product.name,
      if |l.product.images| > 0 then Some(l.product.images[0]) else None,
      l.price, l.quantity, l.size, l.color)
  }

  function ItemAmount(i: OrderItem): real {
    i.price * i.quantity as real
  }

  /** The sum of price times quantity over an order's lines. */
  function ItemsTotal(items: seq<OrderItem>): real {
    Sum(items, ItemAmount)
  }

  /** The `orderData` object: the cart's lines, one for one, and the prices derived from `cart.totalAmount`. */
  function OrderDataFor(cart: Cart, a: Address, paymentMethod: string): (d: OrderData)
    ensures |d.orderItems| == |cart.items|
    ensures forall i :: 0 <= i < |cart.items| ==>
              && d.orderItems[i].product == cart.items[i].product.id
              && d.orderItems[i].name == cart.items[i].product.name
              && d.orderItems[i].price == cart.items[i].price
              && d.orderItems[i].quantity == cart.items[i].quantity
              && d.orderItems[i].size == cart.items[i].size
              && d.orderItems[i].color == cart.items[i].color
    ensures d.shippingAddress == a && d.paymentMethod == paymentMethod
    ensures d.itemsPrice == cart.totalAmount && d.shippingPrice == 0.0
    ensures d.totalPrice == d.itemsPrice + d.taxPrice + d.shippingPrice
  {
    OrderData(
      seq(|cart.items|, i requires 0 <= i < |cart.items| => Snapshot(cart.items[i])),
      a, paymentMethod,
      cart.totalAmount, cart.totalAmount * TaxRate, 0.0, cart.totalAmount * (108.0 / 100.0))
  }

  /**
   * `handleSubmit`: nothing is submitted while a required field is empty; otherwise the
   * order payload is built from the cart.
   */
  function HandleSubmit(cart: Cart, a: Address, paymentMethod: string): (r: Option<OrderData>)
    ensures r.None? <==> MissingFields(a) != []
    ensures r.Some? ==> r.value == OrderDataFor(cart, a, paymentMethod)
  {
    if |MissingFields(a)| > 0 then None else Some(OrderDataFor(cart, a, paymentMethod))
  }

  /** The tax is 8% of the cart total and the grand total 108% of it. */
  lemma OrderPricing(cart: Cart, a: Address, paymentMethod: string)
    ensures OrderDataFor(cart, a, paymentMethod).taxPrice == cart.totalAmount * TaxRate
    ensures OrderDataFor(cart, a, paymentMethod).totalPrice == cart.totalAmount * (1.0 + TaxRate)
  {
  }

  /** For a consistent cart, the snapshot's own lines add up to the `itemsPrice` sent with them. */
  lemma SnapshotTotalMatches(cart: Cart, a: Address, paymentMethod: string)
    requires Consistent(cart)
    ensures ItemsTotal(OrderDataFor(cart, a, paymentMethod).orderItems) == OrderDataFor(cart, a, paymentMethod).itemsPrice
  {
    var d := OrderDataFor(cart, a, paymentMethod);
    SumPointwise(d.orderItems, ItemAmount, cart.items, LineAmount);
  }

  /** One product at 100 with quantity 2: items 200, tax 16, total 216. */
  lemma TwoAtOneHundred(p: Product, id: string, a: Address)
    ensures var line := CartLine(id, p, 2, "", "", 100.0);
            var cart := Cart([line], Total([line]));
            var d := OrderDataFor(cart, a, Card);
            d.itemsPrice == 200.0 && d.taxPrice == 16.0 && d.shippingPrice == 0.0 && d.totalPrice == 216.0
  {
    var line := CartLine(id, p, 2, "", "", 100.0);
    assert [line][..0] == [];
    assert Sum([line][..0], LineAmount) == 0.0;
    assert Total([line]) == 200.0;
  }
}
