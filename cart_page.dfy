/**
 * The cart page (frontend/src/pages/Cart.jsx): how the quantity buttons are dispatched,
 * where "Proceed to Checkout" leads, and the order summary's figures.
 */
module CartPage {
  import opened Optional
  import opened Accounts
  import opened Seqs
  import opened Cart
  import opened Checkout
  import MockApp

  /** The store call a quantity change turns into. */
  datatype CartAction = RemoveLine(itemId: string) | UpdateLine(itemId: string, quantity: int)

  /** `handleQuantityChange`: below 1 removes the line, otherwise sets the quantity asked for. */
  function HandleQuantityChange(itemId: string, newQuantity: int): (a: CartAction)
    ensures a.itemId == itemId
    ensures a.RemoveLine? <==> newQuantity < 1
    ensures a.UpdateLine? ==> a.quantity == newQuantity && a.quantity >= 1
  {
    if newQuantity < 1 then RemoveLine(itemId) else UpdateLine(itemId, newQuantity)
  }

  /** The minus button asks for one less. */
  function MinusPressed(line: CartLine): CartAction {
    HandleQuantityChange(line.id, line.quantity - 1)
  }

  /** The plus button asks for one more. */
  function PlusPressed(line: CartLine): CartAction {
    HandleQuantityChange(line.id, line.quantity + 1)
  }

  /** Minus on a line of quantity 1 removes it; on a larger quantity it lowers it by one; plus on a positive quantity raises it by one. */
  lemma QuantityButtons(line: CartLine)
    ensures line.quantity == 1 ==> MinusPressed(line) == RemoveLine(line.id)
    ensures line.quantity > 1 ==> MinusPressed(line) == UpdateLine(line.id, line.quantity - 1)
    ensures line.quantity >= 1 ==> PlusPressed(line) == UpdateLine(line.id, line.quantity + 1)
  {
  }

  /** The lines after the store carries out the action. */
  function Dispatch(items: seq<CartLine>, a: CartAction): seq<CartLine> {
    match a
    case RemoveLine(itemId) => MockApp.RemovedLines(items, itemId)
    case UpdateLine(itemId, quantity) => MockApp.UpdatedLines(items, itemId, quantity)
  }

  /**
   * With unique line ids, sending a quantity below 1 to remove instead of to update
   * makes no difference to the cart.
   */
  lemma DispatchAgreesWithUpdate(items: seq<CartLine>, itemId: string, newQuantity: int)
    requires forall i, j :: 0 <= i < j < |items| && items[i].id == itemId ==> items[j].id != itemId
    ensures Dispatch(items, HandleQuantityChange(itemId, newQuantity)) == MockApp.UpdatedLines(items, itemId, newQuantity)
  {
    if newQuantity < 1 {
      MockApp.UpdateNonPositiveIsRemove(items, itemId, newQuantity);
    }
  }

  // ---------------------------------------------------------------- navigation

  /** `handleCheckout`: signed-out users go to the login page, which returns to checkout. */
  function CheckoutTarget(user: Option<User>): (path: string)
    ensures user.None? <==> path == "/login?redirect=/checkout"
    ensures user.Some? <==> path == "/checkout"
  {
    if user.None? then "/login?redirect=/checkout" else "/checkout"
  }

  /** `!cart.items || cart.items.length === 0`: the page shows its empty-cart view instead of the lines. */
  predicate ShowsEmptyCart(cart: Cart) {
    |cart.items| == 0
  }

  /** The cart page and the checkout page show their empty-cart views on the same carts. */
  lemma EmptyViewsAgree(cart: Cart)
    ensures ShowsEmptyCart(cart) <==> ViewFor(cart) == EmptyCartView
  {
  }

  // ---------------------------------------------------------------- summary

  function Units(l: CartLine): real { l.quantity as real }

  /** The "Subtotal (n items)" count: the line quantities summed. */
  function ItemCount(items: seq<CartLine>): real {
    Sum(items, Units)
  }

  /** Adding `q` units of a product raises the item count by `q`, whether it merges or appends. */
  lemma AddRaisesItemCount(items: seq<CartLine>, product: ProductModel.Product, q: int, size: string, color: string,
                           newId: string)
    ensures ItemCount(MockApp.AddedLines(items, product, q, size, color, newId)) == ItemCount(items) + q as real
  {
    var k := MockApp.VariantIndex(items, product.id, size, color);
    if k >= 0 {
      var raised := items[k].(quantity := items[k].quantity + q);
      assert MockApp.AddedLines(items, product, q, size, color, newId) == items[k := raised];
      SumUpdate(items, k, raised, Units);
    } else {
      var line := CartLine(newId, product, q, size, color, product.price);
      assert MockApp.AddedLines(items, product, q, size, color, newId) == items + [line];
      SumAppend(items, [line], Units);
      assert [line][..0] == [];
      assert Sum([line], Units) == Units(line);
    }
  }

  /** The summary's tax line: 8% of the cart total. */
  function DisplayedTax(cart: Cart): real {
    cart.totalAmount * (8.0 / 100.0)
  }

  /** The summary's total line: 108% of the cart total, with free shipping. */
  function DisplayedTotal(cart: Cart): real {
    cart.totalAmount * (108.0 / 100.0)
  }

  /** The summary shows the tax and the total the checkout page then submits, and the total is subtotal plus tax. */
  lemma SummaryMatchesCheckout(cart: Cart, a: Address, paymentMethod: string)
    ensures DisplayedTax(cart) == OrderDataFor(cart, a, paymentMethod).taxPrice
    ensures DisplayedTotal(cart) == OrderDataFor(cart, a, paymentMethod).totalPrice
    ensures DisplayedTotal(cart) == cart.totalAmount + DisplayedTax(cart)
  {
  }
}
