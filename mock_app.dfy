/**
 * The client store (frontend/src/context/MockAppContext.js): the signed-in token, the
 * cart with its recomputed total, the placed orders, and the catalog filter and sort.
 * The cart operations are specified by functions on the list of lines; `MockStore`
 * holds the state the provider keeps and its methods update it.
 */
module MockApp {
  import opened Optional
  import opened Accounts
  import opened Seqs
  import opened JsText
  import opened ProductModel
  import opened Cart
  import opened Checkout
  import ProductRoutes

  /** The six products of the built-in catalog (their `specifications` are not modelled). */
  const MockProducts: seq<Product> := [
    Product("1", "iPhone 15 Pro", "Titanium. So strong. So light. So Pro.", 999.0, Some(1099.0),
      "iPhone", None,
      ["https://images.unsplash.com/photo-1592899677977-9c10ca588bbd?w=400",
       "https://images.unsplash.com/photo-1511707171634-5f897ff02aa9?w=400"],
      ["128GB", "256GB", "512GB", "1TB"],
      ["Natural Titanium", "Blue Titanium", "White Titanium", "Black Titanium"],
      true, true, true),
    Product("2", "MacBook Pro 14\"", "Supercharged by M3, M3 Pro, and M3 Max chips.", 1599.0, Some(1799.0),
      "Mac", None,
      ["https://images.unsplash.com/photo-1541807084-5c52b6b3adef?w=400",
       "https://images.unsplash.com/photo-1517336714731-489689fd1ca4?w=400"],
      ["512GB", "1TB", "2TB"],
      ["Space Gray", "Silver"],
      true, true, true),
    Product("3", "iPad Air", "Light. Bright. Full of might.", 599.0, None,
      "iPad", None,
      ["https://images.unsplash.com/photo-1544244015-0df4b3ffc6b0?w=400",
       "https://images.unsplash.com/photo-1561154464-82e9adf32764?w=400"],
      ["64GB", "256GB"],
      ["Space Gray", "Starlight", "Pink", "Purple", "Blue"],
      false, true, true),
    Product("4", "Apple Watch Series 9", "Smarter. Brighter. Mightier.", 399.0, None,
      "Watch", None,
      ["https://images.unsplash.com/photo-1434493789847-2f02dc6ca35d?w=400",
       "https://images.unsplash.com/photo-1510017098667-27dfc7150479?w=400"],
      ["41mm", "45mm"],
      ["Midnight", "Starlight", "Silver", "Product Red"],
      true, false, true),
    Product("5", "AirPods Pro (2nd generation)", "Adaptive Audio. Now playing.", 249.0, None,
      "AirPods", None,
      ["https://images.unsplash.com/photo-1606220945770-b5b6c2c55bf1?w=400",
       "https://images.unsplash.com/photo-1572569511254-d8f925fe2cbb?w=400"],
      [],
      ["White"],
      true, true, true),
    Product("6", "Mac Studio", "Supercharged by M2 Max and M2 Ultra.", 1999.0, None,
      "Mac", None,
      ["https://images.unsplash.com/photo-1527864550417-7fd91fc51a46?w=400",
       "https://images.unsplash.com/photo-1484788984921-03950022c9ef?w=400"],
      ["M2 Max", "M2 Ultra"],
      ["Silver"],
      false, true, true)
  ]

  // ---------------------------------------------------------------- lookups

  function IdIs(id: string): Product -> bool { (p: Product) => p.id == id }

  /** `catalog.find((p) => p._id === id)`: the first product with that id, if any. */
  function FindProduct(catalog: seq<Product>, id: string): (r: Option<Product>)
    ensures r.Some? ==> r.value in catalog && r.value.id == id
    ensures r.None? <==> forall i :: 0 <= i < |catalog| ==> catalog[i].id != id
  {
    var k := FirstIndex(catalog, IdIs(id));
    if k == -1 then None else Some(catalog[k])
  }

  /** A line holds the given variant: same product id, size and colour. */
  predicate SameVariant(l: CartLine, productId: string, size: string, color: string) {
    l.product.id == productId && l.size == size && l.color == color
  }

  function OfVariant(productId: string, size: string, color: string): CartLine -> bool {
    l => SameVariant(l, productId, size, color)
  }

  /** The index of the first line holding the variant, or -1. */
  function VariantIndex(items: seq<CartLine>, productId: string, size: string, color: string): int {
    FirstIndex(items, OfVariant(productId, size, color))
  }

  function HasId(itemId: string): CartLine -> bool { (l: CartLine) => l.id == itemId }

  function NotId(itemId: string): CartLine -> bool { (l: CartLine) => l.id != itemId }

  /** The index of the first line with the given line id, or -1. */
  function LineIndex(items: seq<CartLine>, itemId: string): int {
    FirstIndex(items, HasId(itemId))
  }

  // ---------------------------------------------------------------- cart specification

  /**
   * The lines after `addToCart`: an existing line of the same variant has its quantity
   * raised; otherwise one line is appended, priced at the product's current price.
   */
  function AddedLines(items: seq<CartLine>, product: Product, quantity: int, size: string, color: string,
                      newId: string): (r: seq<CartLine>)
    ensures var k := VariantIndex(items, product.id, size, color);
            k >= 0 ==> && |r| == |items|
                       && r[k] == items[k].(quantity := items[k].quantity + quantity)
                       && forall j :: 0 <= j < |items| && j != k ==> r[j] == items[j]
    ensures var k := VariantIndex(items, product.id, size, color);
            k < 0 ==> && |r| == |items| + 1 && r[..|items|] == items
                      && r[|items|] == CartLine(newId, product, quantity, size, color, product.price)
  {
    var k := VariantIndex(items, product.id, size, color);
    if k > -1 then
      items[k := items[k].(quantity := items[k].quantity + quantity)]
    else
      items + [CartLine(newId, product, quantity, size, color, product.price)]
  }

  /** Adding raises the total by the added quantity at the price of the line that receives it. */
  lemma AddedTotal(items: seq<CartLine>, product: Product, quantity: int, size: string, color: string, newId: string)
    ensures var k := VariantIndex(items, product.id, size, color);
            Total(AddedLines(items, product, quantity, size, color, newId))
            == Total(items) + (if k >= 0 then items[k].price else product.price) * quantity as real
  {
    if VariantIndex(items, product.id, size, color) >= 0 {
      MergedTotal(items, product, quantity, size, color, newId);
    } else {
      NewLineTotal(items, product, quantity, size, color, newId);
    }
  }

  /** The merge case of `AddedTotal`. */
  lemma MergedTotal(items: seq<CartLine>, product: Product, quantity: int, size: string, color: string, newId: string)
    requires VariantIndex(items, product.id, size, color) >= 0
    ensures var k := VariantIndex(items, product.id, size, color);
            Total(AddedLines(items, product, quantity, size, color, newId)) == Total(items) + items[k].price * quantity as real
  {
    var k := VariantIndex(items, product.id, size, color);
    var raised := items[k := items[k].(quantity := items[k].quantity + quantity)];
    AddedLinesMerge(items, product, quantity, size, color, newId);
    assert AddedLines(items, product, quantity, size, color, newId) == raised;
    RaisedTotal(items, k, quantity);
    assert Total(raised) == Total(items) + items[k].price * quantity as real;
  }

  /** The append case of `AddedTotal`. */
  lemma NewLineTotal(items: seq<CartLine>, product: Product, quantity: int, size: string, color: string, newId: string)
    requires VariantIndex(items, product.id, size, color) < 0
    ensures Total(AddedLines(items, product, quantity, size, color, newId)) == Total(items) + product.price * quantity as real
  {
    var line := CartLine(newId, product, quantity, size, color, product.price);
    AddedLinesAppend(items, product, quantity, size, color, newId);
    AppendedTotal(items, line);
    assert LineAmount(line) == product.price * quantity as real;
  }

  /** The lines `AddedLines` gives when the variant is present. */
  lemma AddedLinesMerge(items: seq<CartLine>, product: Product, quantity: int, size: string, color: string, newId: string)
    requires VariantIndex(items, product.id, size, color) >= 0
    ensures var k := VariantIndex(items, product.id, size, color);
            AddedLines(items, product, quantity, size, color, newId) == items[k := items[k].(quantity := items[k].quantity + quantity)]
  {
  }

  /** The lines `AddedLines` gives when the variant is absent. */
  lemma AddedLinesAppend(items: seq<CartLine>, product: Product, quantity: int, size: string, color: string, newId: string)
    requires VariantIndex(items, product.id, size, color) < 0
    ensures AddedLines(items, product, quantity, size, color, newId) == items + [CartLine(newId, product, quantity, size, color, product.price)]
  {
  }

  lemma RaisedTotal(items: seq<CartLine>, k: nat, q: int)
    requires k < |items|
    ensures Total(items[k := items[k].(quantity := items[k].quantity + q)]) == Total(items) + items[k].price * q as real
  {
    SumUpdate(items, k, items[k].(quantity := items[k].quantity + q), LineAmount);
    RaisedAmount(items[k], q);
  }

  lemma AppendedTotal(items: seq<CartLine>, line: CartLine)
    ensures Total(items + [line]) == Total(items) + LineAmount(line)
  {
    SumAppend(items, [line], LineAmount);
    SumSingleton(line, LineAmount);
  }

  /** Raising a line's quantity by `q` raises its amount by `q` units at the line's price. */
  lemma RaisedAmount(l: CartLine, q: int)
    ensures LineAmount(l.(quantity := l.quantity + q)) == LineAmount(l) + l.price * q as real
  {
    calc {
      LineAmount(l.(quantity := l.quantity + q));
      l.price * (l.quantity + q) as real;
      l.price * (l.quantity as real + q as real);
      l.price * l.quantity as real + l.price * q as real;
    }
  }

  /**
   * Adding the same variant twice leaves one line for it: the second add appends nothing
   * and raises that line's quantity by the second amount.
   */
  lemma AddSameVariantTwice(items: seq<CartLine>, product: Product, q1: int, q2: int, size: string, color: string,
                            id1: string, id2: string)
    ensures var once := AddedLines(items, product, q1, size, color, id1);
            var twice := AddedLines(once, product, q2, size, color, id2);
            var k := VariantIndex(once, product.id, size, color);
            && |twice| == |once|
            && 0 <= k < |once|
            && twice[k].quantity == once[k].quantity + q2
  {
    var once := AddedLines(items, product, q1, size, color, id1);
    var k0 := VariantIndex(items, product.id, size, color);
    var k := VariantIndex(once, product.id, size, color);
    if k0 >= 0 {
      assert SameVariant(once[k0], product.id, size, color);
    } else {
      assert SameVariant(once[|items|], product.id, size, color);
    }
  }

  /**
   * The lines after `updateCartItem`: nothing changes for an unknown id; a quantity of 0
   * or less splices out the first line with the id; otherwise only that line's quantity
   * is set.
   */
  function UpdatedLines(items: seq<CartLine>, itemId: string, quantity: int): (r: seq<CartLine>)
    ensures LineIndex(items, itemId) < 0 ==> r == items
    ensures var k := LineIndex(items, itemId);
            k >= 0 && quantity <= 0 ==> |r| == |items| - 1 && r == items[..k] + items[k + 1..]
    ensures var k := LineIndex(items, itemId);
            k >= 0 && quantity > 0 ==> && |r| == |items|
                                       && r[k] == items[k].(quantity := quantity)
                                       && forall j :: 0 <= j < |items| && j != k ==> r[j] == items[j]
  {
    var k := LineIndex(items, itemId);
    if k == -1 then items
    else if quantity <= 0 then items[..k] + items[k + 1..]
    else items[k := items[k].(quantity := quantity)]
  }

  /** The total after an update: the line's amount is taken out, and for a positive quantity put back at the new quantity. */
  lemma UpdatedTotal(items: seq<CartLine>, itemId: string, quantity: int)
    ensures var k := LineIndex(items, itemId);
            Total(UpdatedLines(items, itemId, quantity))
            == if k < 0 then Total(items)
               else if quantity <= 0 then Total(items) - LineAmount(items[k])
               else Total(items) - LineAmount(items[k]) + items[k].price * quantity as real
  {
    var k := LineIndex(items, itemId);
    if k >= 0 && quantity <= 0 {
      SplicedTotal(items, itemId, quantity);
    } else if k >= 0 {
      UpdatedLinesSet(items, itemId, quantity);
      SetTotal(items, k, quantity);
    }
  }

  /** The non-positive case of `UpdatedTotal`: the line's amount is taken out. */
  lemma SplicedTotal(items: seq<CartLine>, itemId: string, quantity: int)
    requires LineIndex(items, itemId) >= 0 && quantity <= 0
    ensures var k := LineIndex(items, itemId);
            Total(UpdatedLines(items, itemId, quantity)) == Total(items) - LineAmount(items[k])
  {
    var k := LineIndex(items, itemId);
    assert UpdatedLines(items, itemId, quantity) == items[..k] + items[k + 1..];
    SumRemoveAt(items, k, LineAmount);
  }

  /** Setting one line's quantity replaces its amount in the total. */
  lemma SetTotal(items: seq<CartLine>, k: nat, q: int)
    requires k < |items|
    ensures Total(items[k := items[k].(quantity := q)]) == Total(items) - LineAmount(items[k]) + items[k].price * q as real
  {
    SumUpdate(items, k, items[k].(quantity := q), LineAmount);
  }

  /** The lines `UpdatedLines` gives for a present id and a positive quantity. */
  lemma UpdatedLinesSet(items: seq<CartLine>, itemId: string, quantity: int)
    requires LineIndex(items, itemId) >= 0 && quantity > 0
    ensures var k := LineIndex(items, itemId);
            UpdatedLines(items, itemId, quantity) == items[k := items[k].(quantity := quantity)]
  {
  }

  /** The lines after `removeFromCart`: every line with the id is dropped, the others kept in order. */
  function RemovedLines(items: seq<CartLine>, itemId: string): (r: seq<CartLine>)
    ensures forall i :: 0 <= i < |r| ==> r[i].id != itemId && r[i] in items
    ensures forall j :: 0 <= j < |items| && items[j].id != itemId ==> items[j] in r
    ensures LineIndex(items, itemId) < 0 ==> r == items
  {
    var r := Filter(items, NotId(itemId));
    FilterComplete(items, NotId(itemId));
    assert LineIndex(items, itemId) < 0 ==> r == items by {
      if LineIndex(items, itemId) < 0 {
        FilterKeepsAll(items, NotId(itemId));
      }
    }
    r
  }

  /** When one line at most carries the id, removing it is splicing out the line an update to 0 would. */
  lemma RemoveUniqueIsSplice(items: seq<CartLine>, itemId: string)
    requires forall i, j :: 0 <= i < j < |items| && items[i].id == itemId ==> items[j].id != itemId
    requires LineIndex(items, itemId) >= 0
    ensures var k := LineIndex(items, itemId);
            RemovedLines(items, itemId) == items[..k] + items[k + 1..]
  {
    var k := LineIndex(items, itemId);
    forall j | 0 <= j < |items| && j != k ensures NotId(itemId)(items[j]) {
      if j > k {
        assert items[k].id == itemId;
      }
    }
    FilterDropsOne(items, NotId(itemId), k);
  }

  /** With unique line ids, an update to a quantity of 0 or less is the same as a remove. */
  lemma UpdateNonPositiveIsRemove(items: seq<CartLine>, itemId: string, quantity: int)
    requires forall i, j :: 0 <= i < j < |items| && items[i].id == itemId ==> items[j].id != itemId
    requires quantity <= 0
    ensures UpdatedLines(items, itemId, quantity) == RemovedLines(items, itemId)
  {
    if LineIndex(items, itemId) >= 0 {
      RemoveUniqueIsSplice(items, itemId);
    }
  }

  /**
   * Line ids come from the clock, so two lines can share one; then an update to 0 drops
   * only the first of them while a remove drops both.
   */
  lemma SharedIdUpdateDiffersFromRemove(a: CartLine, b: CartLine)
    requires a.id == b.id
    ensures |UpdatedLines([a, b], a.id, 0)| == 1
    ensures RemovedLines([a, b], a.id) == []
  {
    assert HasId(a.id)([a, b][0]);
    assert [a, b][1..] == [b] && [b][1..] == [];
    assert Filter([b], NotId(a.id)) == [];
    assert Filter([a, b], NotId(a.id)) == [];
  }

  // ---------------------------------------------------------------- catalog filter

  /** The `filters` argument of `getProducts`; `""` stands for an absent entry. */
  datatype Filters = Filters(category: string, search: string, sort: string)

  function InCategory(category: string): Product -> bool { (p: Product) => p.category == category }

  /** The name or the description contains the search text, ignoring ASCII case. */
  predicate Mentions(p: Product, search: string) {
    Includes(ToLower(p.name), ToLower(search)) || Includes(ToLower(p.description), ToLower(search))
  }

  function Mentioning(search: string): Product -> bool { p => Mentions(p, search) }

  /** What `getProducts` keeps: the given category exactly, and the search text in the name or description. */
  predicate MockMatches(p: Product, f: Filters) {
    && (f.category != "" ==> p.category == f.category)
    && (f.search != "" ==> Mentions(p, f.search))
  }

  function Matching(f: Filters): Product -> bool { p => MockMatches(p, f) }

  function ByCategory(catalog: seq<Product>, category: string): seq<Product> {
    if category != "" then Filter(catalog, InCategory(category)) else catalog
  }

  function BySearch(ps: seq<Product>, search: string): seq<Product> {
    if search != "" then Filter(ps, Mentioning(search)) else ps
  }

  /** `getProducts`: the category filter, then the search filter, then the price sort. */
  function FilteredProducts(catalog: seq<Product>, f: Filters): (r: seq<Product>)
    ensures forall i :: 0 <= i < |r| ==> r[i] in catalog && MockMatches(r[i], f)
    ensures forall j :: 0 <= j < |catalog| && MockMatches(catalog[j], f) ==> catalog[j] in r
    ensures multiset(r) == multiset(Filter(catalog, Matching(f)))
    ensures f.sort == "price-low-high" ==> forall i, j :: 0 <= i < j < |r| ==> r[i].price <= r[j].price
    ensures f.sort == "price-high-low" ==> forall i, j :: 0 <= i < j < |r| ==> r[i].price >= r[j].price
    ensures f.sort != "price-low-high" && f.sort != "price-high-low" ==> r == Filter(catalog, Matching(f))
  {
    var kept := BySearch(ByCategory(catalog, f.category), f.search);
    KeptMatches(catalog, f);
    var r := ProductRoutes.SortProducts(kept, f.sort);
    SameMatches(catalog, f, r);
    r
  }

  /** A permutation of the matching products holds every matching product and nothing else. */
  lemma SameMatches(catalog: seq<Product>, f: Filters, r: seq<Product>)
    requires multiset(r) == multiset(Filter(catalog, Matching(f)))
    ensures forall i :: 0 <= i < |r| ==> r[i] in catalog && MockMatches(r[i], f)
    ensures forall j :: 0 <= j < |catalog| && MockMatches(catalog[j], f) ==> catalog[j] in r
  {
    var found := Filter(catalog, Matching(f));
    FilterComplete(catalog, Matching(f));
    SameElements(found, r);
    forall i | 0 <= i < |r| ensures r[i] in catalog && MockMatches(r[i], f) {
      assert r[i] in found;
    }
    forall j | 0 <= j < |catalog| && MockMatches(catalog[j], f) ensures catalog[j] in r {
      assert Matching(f)(catalog[j]);
      assert catalog[j] in found;
    }
  }

  /** The two filters in sequence keep exactly the products `MockMatches` admits. */
  lemma KeptMatches(catalog: seq<Product>, f: Filters)
    ensures BySearch(ByCategory(catalog, f.category), f.search) == Filter(catalog, Matching(f))
  {
    var cat, srch := InCategory(f.category), Mentioning(f.search);
    if f.category != "" && f.search != "" {
      FilterFilter(catalog, cat, srch, Matching(f));
    } else if f.category != "" {
      FilterSame(catalog, cat, Matching(f));
    } else if f.search != "" {
      FilterSame(catalog, srch, Matching(f));
    } else {
      FilterKeepsAll(catalog, Matching(f));
    }
  }

  /** Filters with predicates that agree everywhere on the sequence agree. */
  lemma {:induction false} FilterSame(s: seq<Product>, p: Product -> bool, q: Product -> bool)
    requires forall x :: p(x) == q(x)
    ensures Filter(s, p) == Filter(s, q)
  {
    if s != [] {
      FilterSame(s[1..], p, q);
    }
  }

  /** A server search (name only, exact category) never admits a product the client search rejects. */
  lemma ServerMatchWithinMock(p: Product, q: ProductRoutes.ListQuery)
    requires ProductRoutes.Matches(p, q)
    ensures MockMatches(p, Filters(q.category, q.search, q.sort))
  {
  }

  // ---------------------------------------------------------------- orders

  /** An order as `createOrder` builds it: the payload plus id, status, time stamp and the paid flag. */
  datatype MockOrder = MockOrder(id: string, data: OrderData, status: string, createdAt: string, isPaid: bool)

  /** `createOrder`'s new order: status "Order Placed", and paid unless the method is exactly "COD". */
  function PlacedOrder(data: OrderData, id: string, now: string): (o: MockOrder)
    ensures o.status == "Order Placed" && o.data == data && o.id == id && o.createdAt == now
    ensures o.isPaid <==> data.paymentMethod != "COD"
  {
    MockOrder(id, data, "Order Placed", now, data.paymentMethod != "COD")
  }

  /**
   * The checkout page sends "cod" in lower case, so the client store would record a
   * cash-on-delivery order as paid. (The app as shipped wires checkout to the HTTP-backed
   * context instead, which sends the order to the server.)
   */
  lemma CashOnDeliveryMarkedPaid(cart: Cart, a: Address, id: string, now: string)
    ensures PlacedOrder(OrderDataFor(cart, a, CashOnDelivery), id, now).isPaid
  {
    assert CashOnDelivery != "COD" by {
      assert CashOnDelivery[0] == 'c';
    }
  }

  // ---------------------------------------------------------------- the store

  /** The provider's state. `token` is the stored token; `null` and `""` both count as signed out. */
  class MockStore {
    var token: Option<string>
    var user: Option<User>
    var products: seq<Product>
    var cart: Cart
    var orders: seq<MockOrder>
    const catalog: seq<Product>

    /** The cart's total is the sum over its lines. */
    ghost predicate Valid()
      reads this
    {
      Consistent(cart)
    }

    predicate SignedIn()
      reads this
    {
      token.Some? && token.value != ""
    }

    /** The initial state: the stored token, the full catalog, an empty cart and no orders. */
    constructor (storedToken: Option<string>)
      ensures Valid()
      ensures token == storedToken && user == None && orders == []
      ensures catalog == MockProducts && products == MockProducts && cart == EmptyCart
    {
      token := storedToken;
      user := None;
      catalog := MockProducts;
      products := MockProducts;
      cart := EmptyCart;
      orders := [];
    }

    /**
     * `addToCart`: signed out, or an unknown product, changes nothing. The source's default
     * arguments (quantity 1, no size, no colour) are the caller's: pass 1, `""` and `""`.
     */
    method AddToCart(productId: string, quantity: int, size: string, color: string, newId: string)
      requires Valid()
      modifies this`cart
      ensures Valid()
      ensures !old(SignedIn()) || FindProduct(catalog, productId).None? ==> cart == old(cart)
      ensures old(SignedIn()) && FindProduct(catalog, productId).Some? ==>
                cart.items == AddedLines(old(cart.items), FindProduct(catalog, productId).value,
                                         quantity, size, color, newId)
    {
      if !SignedIn() {
        return;
      }
      var product := FindProduct(catalog, productId);
      if product.None? {
        return;
      }
      var items := cart.items;
      var k := VariantIndex(items, productId, size, color);
      if k > -1 {
        items := items[k := items[k].(quantity := items[k].quantity + quantity)];
      } else {
        items := items + [CartLine(newId, product.value, quantity, size, color, product.value.price)];
      }
      cart := Cart(items, Total(items));
    }

    /** `updateCartItem`: an unknown id leaves the cart as it was. */
    method UpdateCartItem(itemId: string, quantity: int)
      requires Valid()
      modifies this`cart
      ensures Valid()
      ensures cart.items == UpdatedLines(old(cart.items), itemId, quantity)
    {
      var items := cart.items;
      var k := LineIndex(items, itemId);
      if k == -1 {
        return;
      }
      if quantity <= 0 {
        items := items[..k] + items[k + 1..];
      } else {
        items := items[k := items[k].(quantity := quantity)];
      }
      cart := Cart(items, Total(items));
    }

    /** `removeFromCart`. */
    method RemoveFromCart(itemId: string)
      modifies this`cart
      ensures Valid()
      ensures cart.items == RemovedLines(old(cart.items), itemId)
    {
      var items := Filter(cart.items, NotId(itemId));
      cart := Cart(items, Total(items));
    }

    /** `clearCart`. */
    method ClearCart()
      modifies this`cart
      ensures Valid() && cart == EmptyCart
    {
      cart := EmptyCart;
    }

    /** `createOrder`: the new order goes in front of the earlier ones and the cart is emptied. */
    method CreateOrder(data: OrderData, id: string, now: string) returns (o: MockOrder)
      modifies this`orders, this`cart
      ensures o == PlacedOrder(data, id, now)
      ensures orders == [o] + old(orders)
      ensures Valid() && cart == EmptyCart
    {
      o := MockOrder(id, data, "Order Placed", now, data.paymentMethod != "COD");
      orders := [o] + orders;
      ClearCart();
    }

    /** `logout`: signed out, with an empty cart and no orders. */
    method Logout()
      modifies this`token, this`user, this`cart, this`orders
      ensures !SignedIn() && user == None && orders == []
      ensures Valid() && cart == EmptyCart
    {
      token := None;
      user := None;
      cart := EmptyCart;
      orders := [];
    }

    /** `getProducts`: the filtered, sorted catalog, also kept as the product list. */
    method GetProducts(f: Filters) returns (ps: seq<Product>)
      modifies this`products
      ensures ps == FilteredProducts(catalog, f) && products == ps
    {
      var kept := catalog;
      if f.category != "" {
        kept := Filter(kept, InCategory(f.category));
      }
      if f.search != "" {
        kept := Filter(kept, Mentioning(f.search));
      }
      ps := ProductRoutes.SortProducts(kept, f.sort);
      products := ps;
    }
  }
}
