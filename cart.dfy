/**
 * The cart shape shared by the client store, the cart page and checkout: lines carrying
 * a price snapshot, and a `totalAmount` that every mutation recomputes with
 * `items.reduce((total, item) => total + item.price * item.quantity, 0)`.
 */
module Cart {
  import opened Seqs
  import opened ProductModel

  /**
   * A cart line. `id` is `"item-" + Date.now()` at add time, so two lines may share it;
   * `price` is the catalog price when the line was added.
   */
  datatype CartLine = CartLine(
    id: string,
    product: Product,
    quantity: int,
    size: string,
    color: string,
    price: real)

  datatype Cart = Cart(items: seq<CartLine>, totalAmount: real)

  /** `{ items: [], totalAmount: 0 }`. */
  const EmptyCart := Cart([], 0.0)

  function LineAmount(l: CartLine): real {
    l.price * l.quantity as real
  }

  /** The recomputed total: price times quantity, summed over the lines. */
  function Total(items: seq<CartLine>): real {
    Sum(items, LineAmount)
  }

  /** The standing invariant of a cart: its stored total is the sum over its lines. */
  predicate Consistent(c: Cart) {
    c.totalAmount == Total(c.items)
  }

  /** The empty cart is consistent. */
  lemma EmptyCartConsistent()
    ensures Consistent(EmptyCart)
  {
  }
}
