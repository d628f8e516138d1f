# Storefront cart-to-order path in Dafny

This project models the cart-to-order path of a storefront with an Express/Mongoose
back end and a React front end. It follows a cart from the client store to a placed
order, and then through the server's order routes. The parts modelled are:

- **Order routes** (`order_routes.dfy`). `OrderDb` holds the order collection and the
  per-user cart records. Each handler (create, my orders, get by id, pay, deliver,
  list all, set status, cancel, edit) is a method that:
  - looks the order up by id;
  - checks for 404, then 403, then 400;
  - assigns the fields it changes and saves the order back.
- **Client store** (`mock_app.dfy`). `MockStore` holds the token, the cart, the placed
  orders and the product list. Its cart methods are proved against three functions on
  the list of lines (`AddedLines`, `UpdatedLines`, `RemovedLines`). Each method keeps
  the invariant that `totalAmount` is the sum of price times quantity. The catalog filter
  and the price sort are pure functions.
- **Checkout page** (`checkout.dfy`): the required-address check and the order payload
  built from the cart.
- **Cart page** (`cart_page.dfy`): the quantity buttons, where "Proceed to Checkout"
  leads, and the summary figures.
- **Order history page** (`orders_page.dfy`): which statuses offer cancel and edit
  buttons, the status colours, and the editing state around a save.
- **Product schema** (`product_model.dfy`): its validators and defaults.
- **Product routes** (`product_routes.dfy`): the list query with its sort, and product
  creation from a multipart form. Creation covers the `imageUrls` parsing and the upload
  loop.
- **Admin form helpers** (`admin_page.dfy`): the comma lists, the list of image URL
  fields (always 1 to 5 fields), the file limit and the admin guard.
- **Helper modules.** `Seqs` holds JavaScript's `findIndex`, `filter`, a stable sort by
  key and `reduce` as a sum. `JsText` holds `trim`, ASCII `toLowerCase`, `includes`,
  `split` and `join`. `Cart` holds the cart shape. `Optional` and `Accounts` hold the
  option type and the principal.

Money is `real`, and the tax rate is exactly 8/100. The following are inputs to the
model:

- Time stamps and generated ids.
- What `JSON.parse` and `Number` return for a form field (`None` when they throw or give
  NaN).
- The image host, as a function that returns a URL or fails.
- The principal that the authentication middleware attaches.
- Whether the order schema's validators accept a document (`accepted`).
- Whether Mongoose can cast a route's path id to an ObjectId (`castable`). When it cannot, `findById` throws and the route answers 500.

Where the code behaves in ways a reader may not expect, the model follows the code:

- Paying checks no status, so even a cancelled order can be paid (`PayIgnoresStatus`).
- A cancelled order is not terminal: it can be cancelled again and edited
  (`CancelledStaysCancellable`).
- The server stores the prices the client sends, without recomputing or rounding them
  (`PricesTrusted`).
- `POST /` rejects only an explicitly empty item list. A body without `orderItems` is
  saved.
- The client store's `updateCartItem` silently ignores an unknown line id.
- An update to quantity 0 is the same as a remove only when line ids are unique
  (`UpdateNonPositiveIsRemove`, `SharedIdUpdateDiffersFromRemove`).
- The client store never rejects a zero or negative quantity or price.
- The client store names a new order "Order Placed", a status the order page
  recognises in neither its buttons nor its colours (`PlacedOrderHasNoButtons`,
  `UnnamedStatusesGrey`).
- The client store marks an order paid unless the method is "COD". The checkout page
  sends "cod", so the client store would record cash-on-delivery orders as paid
  (`CashOnDeliveryMarkedPaid`). The app as shipped wires checkout to the HTTP-backed
  context instead, which is not part of this model.
- The order page's address editor never changes a stored address (`PageEditsKeepAddress`):
  - Saving without typing sends the old address back.
  - Typing turns the draft into a string, whose spread names no address field.
- A `sizes` or `colors` field holding one JSON string is wrapped into a one-entry list,
  as the `[String]` schema path casts it.

## Model

| member | source | states |
|---|---|---|
| OrderRoutes.OrderDb.constructor | backend/routes/orderRoutes.js:1-5 | an empty order collection and no cart records, with the schema's default status as a parameter |
| OrderRoutes.OrderDb.Create | backend/routes/orderRoutes.js:8-53 | an explicitly empty item list gives 400 and changes nothing. A rejected document gives 500 and changes nothing. Otherwise 201: the order is owned by the principal, stores the body's prices as sent, is appended, and the principal's cart record (if any) becomes empty with total 0. Ids stay unique |
| OrderRoutes.ClearedCarts | backend/routes/orderRoutes.js:38-41 | the user's cart, if one exists, becomes the empty cart. No cart is created and every other user's cart is unchanged |
| OrderRoutes.OrderDb.MyOrders | backend/routes/orderRoutes.js:56-71 | the result holds exactly the principal's orders (membership both ways, same multiset as the filter) and is ordered newest first |
| OrderRoutes.OwnNewest | backend/routes/orderRoutes.js:58-60 | sorting the principal's orders keeps exactly the orders whose owner is the principal |
| OrderRoutes.ByNewest | backend/routes/orderRoutes.js:58-60 | `sort({ createdAt: -1 })` gives a permutation of its input, ordered by `createdAt` descending |
| OrderRoutes.IndexOf | backend/routes/orderRoutes.js:76 | `findById` finds the order with that id, and reports -1 exactly when no order has it |
| OrderRoutes.OrderDb.GetById | backend/routes/orderRoutes.js:74-109 | 500 exactly for an id that is no ObjectId; then 404 exactly for an unknown id; otherwise 403 exactly when the principal is neither admin nor owner; otherwise the order with that id |
| OrderRoutes.OrderDb.Pay | backend/routes/orderRoutes.js:112-153 | 500 for an id that is no ObjectId, then 404, then 403 for a non-owner non-admin; otherwise only that order changes, to `Paid`, whatever its status |
| OrderRoutes.Paid | backend/routes/orderRoutes.js:121-128 | the order is paid at `now` with the gateway's result, and every other field is unchanged |
| OrderRoutes.PayIgnoresStatus | backend/routes/orderRoutes.js:117-128 | a cancelled order can be marked paid and stays cancelled |
| OrderRoutes.OrderDb.Deliver | backend/routes/orderRoutes.js:156-181 | a non-admin gets the admin refusal; then 500 for an id that is no ObjectId; then 404; otherwise only that order changes, to `MarkedDelivered` |
| OrderRoutes.MarkedDelivered | backend/routes/orderRoutes.js:161-162 | the delivered flag and time are set, and the status and all other fields are unchanged |
| OrderRoutes.DeliveredFlagDecoupled | backend/routes/orderRoutes.js:160-162 | delivering a "Processing" order leaves its status "Processing", not "Delivered" |
| OrderRoutes.OrderDb.ListAll | backend/routes/orderRoutes.js:184-199 | a non-admin gets the admin refusal; an admin gets every order (same multiset), newest first |
| OrderRoutes.OrderDb.SetStatus | backend/routes/orderRoutes.js:202-226 | admin only, then 500 for an id that is no ObjectId, then 404; a rejected value gives 500; otherwise only that order's status is overwritten with the value sent |
| OrderRoutes.OrderDb.Cancel | backend/routes/orderRoutes.js:229-269 | 500 for an id that is no ObjectId, then 404, then 403, then 400 with nothing changed for "Delivered", "Shipped" or "Out for delivery"; otherwise only that order's status becomes "Cancelled" |
| OrderRoutes.CancelledStaysCancellable | backend/routes/orderRoutes.js:238 | "Cancelled" is blocked by neither the cancel guard nor the edit guard |
| OrderRoutes.OrderDb.Edit | backend/routes/orderRoutes.js:272-319 | 500 for an id that is no ObjectId, then 404, then 403, then 400 once shipped. Then 500 with nothing changed when the schema rejects the merged address. Otherwise the address fields sent replace the old ones and nothing else in the order changes. Without a `shippingAddress` the order stays as it was |
| OrderRoutes.MergeAddress | backend/routes/orderRoutes.js:301-306 | each field the patch names is replaced and every other field is kept |
| OrderRoutes.MergeEmptyPatch | backend/routes/orderRoutes.js:302-305 | a patch naming no field keeps the address |
| OrderRoutes.MergeIdempotent | backend/routes/orderRoutes.js:302-305 | merging the same patch twice is merging it once |
| OrderRoutes.MergeFullPatch | backend/routes/orderRoutes.js:302-305 | a patch naming every field replaces the whole address |
| OrderRoutes.PricesTrusted | backend/routes/orderRoutes.js:14-33 | any body whose total disagrees with its parts is placed with all four prices as sent, so the order is inconsistent |
| OrderRoutes.CheckoutOrderConsistent | backend/routes/orderRoutes.js:24-33 | an order placed from the checkout payload of a consistent cart has lines that add up to `itemsPrice`, and a total equal to the sum of its parts |
| MockApp.FindProduct | frontend/src/context/MockAppContext.js:308-311 | a found product is in the catalog with that id, and none is found exactly when no product has the id |
| MockApp.AddedLines | frontend/src/context/MockAppContext.js:326-347 | an existing line of the same product, size and colour has its quantity raised and nothing else changes. Otherwise exactly one line is appended, priced at the product's current price |
| MockApp.AddedTotal | frontend/src/context/MockAppContext.js:336-353 | adding raises the total by the quantity times the price of the line that receives it |
| MockApp.AddSameVariantTwice | frontend/src/context/MockAppContext.js:329-337 | a second add of the same variant appends nothing and raises that line's quantity by the second amount |
| MockApp.MockStore.constructor | frontend/src/context/MockAppContext.js:210-216 | the stored token, no user, the full catalog, an empty cart and no orders |
| MockApp.MockStore.AddToCart | frontend/src/context/MockAppContext.js:314-357 | signed out, or an unknown product, leaves the cart unchanged; otherwise the lines become `AddedLines` and the total stays the sum over them |
| MockApp.UpdatedLines | frontend/src/context/MockAppContext.js:359-369 | an unknown id changes nothing. A quantity of 0 or less splices out the first line with the id. Otherwise only that line's quantity is set |
| MockApp.UpdatedTotal | frontend/src/context/MockAppContext.js:365-375 | the total loses the line's amount, and for a positive quantity gains the line's price times the new quantity |
| MockApp.MockStore.UpdateCartItem | frontend/src/context/MockAppContext.js:359-378 | the lines become `UpdatedLines` and the total stays the sum over them |
| MockApp.RemovedLines | frontend/src/context/MockAppContext.js:382 | no line with the id remains, every other line is kept, nothing is added, and an unknown id changes nothing |
| MockApp.RemoveUniqueIsSplice | frontend/src/context/MockAppContext.js:382 | when one line at most has the id, removing it splices out that line |
| MockApp.UpdateNonPositiveIsRemove | frontend/src/context/MockAppContext.js:365-366 | with unique line ids, an update to a quantity of 0 or less equals a remove |
| MockApp.SharedIdUpdateDiffersFromRemove | frontend/src/context/MockAppContext.js:340 | two lines that share an id (ids come from the clock) are both dropped by a remove, while an update to 0 drops only one |
| MockApp.MockStore.RemoveFromCart | frontend/src/context/MockAppContext.js:380-392 | the lines become `RemovedLines` and the total stays the sum over them |
| MockApp.MockStore.ClearCart | frontend/src/context/MockAppContext.js:394-396 | the cart is the empty cart with total 0 |
| MockApp.MockStore.Logout | frontend/src/context/MockAppContext.js:265-272 | signed out, no user, no orders, and the empty cart |
| MockApp.PlacedOrder | frontend/src/context/MockAppContext.js:405-411 | the payload with status "Order Placed", and paid exactly when the method is not "COD" |
| MockApp.CashOnDeliveryMarkedPaid | frontend/src/context/MockAppContext.js:410 | the client store would record as paid an order the checkout page submits with its cash-on-delivery choice |
| MockApp.MockStore.CreateOrder | frontend/src/context/MockAppContext.js:399-419 | the new order is `PlacedOrder`, it goes in front of the earlier orders, and the cart is emptied |
| MockApp.FilteredProducts | frontend/src/context/MockAppContext.js:281-301 | the result holds exactly the products of the given category whose name or description contains the search text, ignoring case. The two price sorts give ascending and descending permutations, and any other sort keeps catalog order |
| MockApp.KeptMatches | frontend/src/context/MockAppContext.js:283-295 | the category filter followed by the search filter keeps exactly the products that meet both conditions |
| MockApp.ServerMatchWithinMock | frontend/src/context/MockAppContext.js:289-294 | every product the server's name search admits, the client's name-or-description search admits too |
| MockApp.MockStore.GetProducts | frontend/src/context/MockAppContext.js:275-306 | the product list becomes `FilteredProducts` of the catalog and is returned |
| Cart.EmptyCartConsistent | frontend/src/context/MockAppContext.js:213 | the empty cart's total is the sum over its lines |
| Checkout.InitialForm | frontend/src/pages/Checkout.jsx:11-19 | card payment; the full name comes from the user, or is empty without one; every other field is empty |
| Checkout.ViewFor | frontend/src/pages/Checkout.jsx:83-100 | the empty-cart view is shown exactly when the cart has no lines |
| Checkout.MissingFields | frontend/src/pages/Checkout.jsx:34-44 | exactly the required fields left empty, and none exactly when all six are filled |
| Checkout.OrderDataFor | frontend/src/pages/Checkout.jsx:53-69 | one order line per cart line, in order, copying product id, name, price, quantity, size and colour. `itemsPrice` is the cart total, shipping is 0, and the total is the sum of its parts |
| Checkout.HandleSubmit | frontend/src/pages/Checkout.jsx:28-72 | nothing is submitted exactly when some required field is empty; otherwise the payload is `OrderDataFor` |
| Checkout.OrderPricing | frontend/src/pages/Checkout.jsx:66-68 | tax is 8% and the total 108% of the cart total |
| Checkout.SnapshotTotalMatches | frontend/src/pages/Checkout.jsx:54-65 | for a consistent cart, the order lines add up to the `itemsPrice` sent with them |
| Checkout.TwoAtOneHundred | frontend/src/pages/Checkout.jsx:65-68 | two units at 100 give items 200, tax 16, shipping 0 and total 216 |
| CartPage.HandleQuantityChange | frontend/src/pages/Cart.jsx:12-18 | a quantity below 1 becomes a remove and never an update; otherwise an update to exactly that quantity |
| CartPage.QuantityButtons | frontend/src/pages/Cart.jsx:89-101 | minus on quantity 1 removes the line; minus on more lowers it by one; plus raises it by one |
| CartPage.DispatchAgreesWithUpdate | frontend/src/pages/Cart.jsx:12-18 | with unique line ids, sending a quantity below 1 to remove leaves the same cart as sending it to update |
| CartPage.EmptyViewsAgree | frontend/src/pages/Cart.jsx:28 | the cart page shows its empty-cart view exactly on the carts for which checkout shows its own (Checkout.jsx:83): those without lines |
| CartPage.CheckoutTarget | frontend/src/pages/Cart.jsx:20-26 | without a user the login page, which returns to checkout; with one the checkout page |
| CartPage.AddRaisesItemCount | frontend/src/pages/Cart.jsx:137 | the item count, the sum of line quantities, rises by exactly the quantity added, whether the add merges or appends |
| CartPage.SummaryMatchesCheckout | frontend/src/pages/Cart.jsx:143-156 | the tax and total shown are the ones checkout submits, and the total is the subtotal plus tax |
| OrdersPage.ButtonStatuses | frontend/src/pages/Orders.js:57-63 | cancel is offered exactly for "Pending" and "Processing", and edit exactly for "Pending" |
| OrdersPage.EditableIsCancellable | frontend/src/pages/Orders.js:57-63 | every editable status is cancellable |
| OrdersPage.ClientGuardsWithinServer | frontend/src/pages/Orders.js:57-63 | no status the page offers a cancel or an edit for is refused by the server's guards |
| OrdersPage.PlacedOrderHasNoButtons | frontend/src/pages/Orders.js:57-63 | an order the client store places ("Order Placed") gets neither button, though the server would accept both |
| OrdersPage.StatusColor | frontend/src/pages/Orders.js:40-55 | the default grey exactly for statuses outside the five named ones |
| OrdersPage.NamedColoursDistinct | frontend/src/pages/Orders.js:42-51 | the five named statuses get five different colours |
| OrdersPage.UnnamedStatusesGrey | frontend/src/pages/Orders.js:52-53 | "Out for delivery" and "Order Placed" are shown grey |
| OrdersPage.StartEdit | frontend/src/pages/Orders.js:20-25 | editing starts on that order, with its address object as the draft |
| OrdersPage.TypeAddress | frontend/src/pages/Orders.js:136-141 | typing replaces the draft with the text typed and keeps the order being edited |
| OrdersPage.SentPatch | frontend/src/pages/Orders.js:27-28 | the server sees no address without a draft or with empty text. An address draft names all six fields with its values. Non-empty text names no field |
| OrdersPage.TypedAddressIgnored | backend/routes/orderRoutes.js:299-306 | saving a typed address leaves the stored address as it was |
| OrdersPage.TypedAllDraft | frontend/src/pages/Orders.js:138-141 | after typing, the draft is the last text typed |
| OrdersPage.PageEditsKeepAddress | frontend/src/pages/Orders.js:20-33 | whatever is typed between starting an edit and saving it, the stored address stays the order's old address |
| OrdersPage.AfterSave | frontend/src/pages/Orders.js:27-33 | the editing state is cleared on success and kept unchanged otherwise |
| OrdersPage.FailedSaveKeepsDraft | frontend/src/pages/Orders.js:27-33 | after a failed save the address draft is still there; after a successful one nothing is being edited |
| ProductModel.Save | backend/models/Product.js:3-72 | a draft is saved exactly when name, description, price and category are present, the category is one of the seven, and no image is empty. The result is valid and keeps every given field. The flags default to not a bestseller, not featured and in stock |
| ProductModel.SaveDefaults | backend/models/Product.js:52-63 | a draft without flags is saved as not a bestseller, not featured, in stock |
| ProductRoutes.SortProducts | backend/routes/productRoutes.js:30-34 | a permutation that is non-decreasing in price for "price-low-high" and non-increasing for "price-high-low"; any other value keeps the order |
| ProductRoutes.ListProducts | backend/routes/productRoutes.js:12-46 | exactly the products matching category, sub-category and the case-insensitive name search (membership both ways, same multiset as the filter), sorted as the query asks |
| ProductRoutes.ListAllUnsorted | backend/routes/productRoutes.js:14-27 | an empty query lists the whole collection in its own order |
| ProductRoutes.KeptUrls | backend/routes/productRoutes.js:108 | every URL kept is non-blank, and there are no more than the entries given |
| ProductRoutes.KeptUrlsFilter | backend/routes/productRoutes.js:108 | on an array whose entries do not make the test throw, exactly the non-blank string entries are kept, in order, and every falsy entry is dropped |
| ProductRoutes.KeptUrlsSingle | backend/routes/productRoutes.js:108 | one entry is kept exactly when it is a non-blank string, so `null`, `false`, `0` and `""` are dropped |
| ProductRoutes.UrlsFromForm | backend/routes/productRoutes.js:104-115 | only non-blank URLs. An absent field gives none, and so does a blank field that is not a JSON array |
| ProductRoutes.UrlsFromStringArray | backend/routes/productRoutes.js:104-108 | the URL list the admin form stringifies arrives as its non-blank entries, in order |
| ProductRoutes.KeptUrlsOfStrings | backend/routes/productRoutes.js:108 | on an array of strings, the filter keeps exactly the non-blank ones, in order |
| ProductRoutes.UnfilterableUrlTrimmed | backend/routes/productRoutes.js:106-113 | a non-blank field that is not JSON, is JSON but not an array, or is an array with a truthy non-string entry, becomes that one URL, trimmed |
| ProductRoutes.NumberEntryFallsBack | backend/routes/productRoutes.js:108-113 | `[1]`: the number entry has no `trim`, so the whole field becomes the one URL |
| ProductRoutes.Uploaded | backend/routes/productRoutes.js:132-145 | all hosted URLs in file order exactly when every upload succeeds |
| ProductRoutes.UploadFiles | backend/routes/productRoutes.js:133-144 | the loop returns `Uploaded`. It stops at the first failure, after every earlier upload succeeded |
| ProductRoutes.StringList | backend/routes/productRoutes.js:160-161 | an absent field gives `[]`. A value that does not parse fails. A JSON array of strings gives exactly those strings, and a lone JSON string gives a one-entry list. Any other value fails |
| ProductRoutes.OptionalNumber | backend/routes/productRoutes.js:156 | an absent field gives no price; otherwise the number, or a failure for NaN |
| ProductRoutes.Assemble | backend/routes/productRoutes.js:152-167 | created exactly when sizes, colours and the original price convert, a given `specifications` field is JSON, the price is a number, the category is one of the seven, and no image is empty; otherwise a failure. The product is valid and has every field from the form: name, description, price, original price, category, sub-category, the images given, and the converted sizes and colours. The flags are true only for the string "true", and the product is in stock |
| ProductRoutes.BadSpecificationsFail | backend/routes/productRoutes.js:164 | a `specifications` field that is not JSON throws, so the route answers 500 whatever the rest of the form |
| ProductRoutes.ListsDefaultEmpty | backend/routes/productRoutes.js:160-161 | a product created from a form without sizes and colours has both lists empty |
| ProductRoutes.CreateProduct | backend/routes/productRoutes.js:71-182 | more than five files are refused by the upload middleware, and exactly those requests, before anything else. Then 400 for a missing required field before any upload. Then 400 without files and without URLs. A failed upload gives 500. Otherwise the document is assembled with the uploaded URLs followed by the form URLs. A created product is valid and has at least one image |
| AdminPage.ArrayInput | frontend/src/pages/Admin.jsx:47-53 | every entry is non-empty, trimmed and free of commas |
| AdminPage.ArrayInputParts | frontend/src/pages/Admin.jsx:47-53 | every entry read is a trimmed comma part, and every comma part that is not blank is read, trimmed |
| AdminPage.KeepsNonBlank | frontend/src/pages/Admin.jsx:49-51 | trimming and dropping the empty parts keeps every part that is not blank |
| AdminPage.ArrayInputOnePart | frontend/src/pages/Admin.jsx:47-53 | a value without a comma gives itself trimmed, or nothing when blank |
| AdminPage.ArrayInputAtComma | frontend/src/pages/Admin.jsx:47-53 | the entries before the first comma come first, then the entries of the rest, so the order is kept |
| AdminPage.BlankPartDropped | frontend/src/pages/Admin.jsx:51 | a blank part between two commas is dropped and the parts around it keep their order |
| AdminPage.ArrayInputExample | frontend/src/pages/Admin.jsx:47-53 | the value `"a, ,b"`, for any two letters that are neither white space nor commas, gives `["a", "b"]` |
| AdminPage.ArrayInputRoundTrip | frontend/src/pages/Admin.jsx:47-53 | non-empty, trimmed, comma-free entries joined with commas are read back unchanged |
| AdminPage.TrimWithin | frontend/src/pages/Admin.jsx:50 | trimming adds no character |
| AdminPage.ReplaceUrlAt | frontend/src/pages/Admin.jsx:65-69 | only the entry at the index changes, and the length is kept |
| AdminPage.AddUrlField | frontend/src/pages/Admin.jsx:72-81 | an empty field is appended exactly when there are fewer than five; otherwise the list is unchanged |
| AdminPage.RemoveUrlField | frontend/src/pages/Admin.jsx:84-89 | exactly the entry at the index is removed when there is more than one; otherwise the list is unchanged |
| AdminPage.KeepOthers | frontend/src/pages/Admin.jsx:86 | filtering out one position gives the entries before it followed by those after it |
| AdminPage.EditKeepsBounds | frontend/src/pages/Admin.jsx:65-89 | each edit keeps between one and five fields |
| AdminPage.EditsKeepBounds | frontend/src/pages/Admin.jsx:65-89 | from any list of one to five fields, any run of offered edits keeps between one and five fields |
| AdminPage.FormKeepsBounds | frontend/src/pages/Admin.jsx:26 | from the fresh form's single empty field, any run of offered edits keeps between one and five fields |
| AdminPage.ImageChange | frontend/src/pages/Admin.jsx:55-62 | more than five files are refused and the chosen images stay unchanged; otherwise the selection is taken |
| AdminPage.ViewFor | frontend/src/pages/Admin.jsx:148-159 | the dashboard exactly for a signed-in admin |
| Seqs.FirstIndex | frontend/src/context/MockAppContext.js:329-334 | `findIndex`: the first index satisfying the predicate, and -1 exactly when none does |
| Seqs.Filter | frontend/src/context/MockAppContext.js:382 | `filter`: only elements of the input that satisfy the predicate |
| Seqs.FilterComplete | frontend/src/context/MockAppContext.js:382 | `filter` drops no element that satisfies the predicate |
| Seqs.SortByKey | backend/routes/productRoutes.js:31-33 | the sort by a numeric comparator gives a permutation ordered by key |
| JsText.Trim | backend/routes/productRoutes.js:111-112 | the result of `trim` has no white space at either end, and is `""` exactly when the input is all white space |
| JsText.TrimIsSlice | backend/routes/productRoutes.js:111-112 | `trim` gives the slice of the input between its leading and its trailing white space, both of which are white space only |
| JsText.TrimIdempotent | frontend/src/pages/Admin.jsx:50 | trimming twice is trimming once |
| JsText.Split | frontend/src/pages/Admin.jsx:49 | `split` gives at least one part, no part holds the separator, and joining the parts gives back the string |
| JsText.SplitJoin | frontend/src/pages/Admin.jsx:49 | splitting undoes joining when no part holds the separator |
| JsText.ToLower | frontend/src/context/MockAppContext.js:292-293 | `toLowerCase` keeps the length and lowers each ASCII letter |

## Left out

- Persistence, the network, toasts, the simulated delays and the loading flags are not modelled. The collections are in memory, and every handler runs to completion in sequence.
- The order schema (`backend/models/Order.js`) is not part of this model. Its default status is a parameter of `OrderDb`, and its validators are the `accepted` flag of `Create`, `SetStatus` and `Edit`, the handlers that save values taken from the request.
- `OrderRoutes.OrderDb`: `Pay`, `Deliver` and `Cancel` always save. They assign only a flag, the current time, the gateway's result and the status "Cancelled", so a validator rejecting the document there is not modelled.
- `OrderRoutes.OrderDb` takes whether a path id casts to an ObjectId as the `castable` input. Mongoose's casting rule itself is not modelled.
- The server's cart model and cart routes are not part of this model. A user's cart record is the client's cart shape.
- The `protect` and `admin` middleware are not part of this model. The principal is an input, and the admin refusal is the `NotAdmin` reply.
- `populate` of the order's user, and the `createdAt` time stamp that the database assigns: the stamp is an input.
- A failure between saving an order and clearing the cart is not modelled, because storage failures are out of scope. The two steps run in sequence.
- Floating point: money and the tax rate are exact reals. `toFixed(2)` and IEEE rounding are not modelled.
- `ProductRoutes.StringList` fails for a JSON value other than an array of strings or a lone string. Mongoose would cast numbers and booleans to their text, and those casts, together with JavaScript's number formatting, are not modelled.
- `ProductRoutes.Uploaded` takes the image host as a function of the file's contents, so two identical files always get the same outcome. A host that answers differently per call is not modelled.
- The draft the order page sends is the order's address object or the typed text. The Mongoose subdocument internals that `{ ...order.shippingAddress }` spreads are not modelled.
- `JsText.ToLower` lowers the ASCII letters only. JavaScript's full Unicode case mapping is not modelled.
- `ProductRoutes.ListProducts` treats the server's `search`, a regular expression in the source, as plain text, so metacharacters are not interpreted. An invalid pattern such as `"("` makes the query throw, which gives 500 (productRoutes.js:39-44); that error path is not modelled.
- `ProductRoutes.SortProducts`: ties in price keep their input order, as JavaScript's stable `sort` does. The order of the collection Mongo returns is taken as given.
- `ProductRoutes.Assemble` models only whether a `specifications` field parses as JSON. It takes any JSON value as accepted. Mongoose's cast of that value to a map of strings, which can reject it, is not modelled, and neither is the map itself.
- The product time stamps are not modelled.
- `ProductRoutes.CreateProduct` answers `TooManyFiles` for more than five files. The status the server's error handler gives that refusal is not part of this model.
- `GET /:id`, `PUT /:id` and `DELETE /:id` of the product routes are not modelled. The client's `getProduct` is `FindProduct`.
- Login, registration, payment routes and the seeding scripts are not modelled.
- The effect that loads the demo user and the demo orders when a token is present is not modelled.
- React state aliasing is not modelled. The client store spreads the cart but mutates the shared items array. The model gives each update a new list, so it does not capture that the previous state is changed as well.
- The cart and checkout pages read their cart from the HTTP-backed context, which is not part of this model. They are connected to the client store's specification functions instead.
- `handleCancelEdit` and `handleInputChange` only reset or copy form state. There is nothing to state beyond the assignment.
- `handleSubmit` of the admin form builds multipart data and sends it over the network. Its server side is `CreateProduct`, and the round trips of the comma lists and URL lists are proved there and in `ArrayInputRoundTrip`.
- `AdminPage.ReplaceUrlAt` requires an index within the list, since the page only edits fields it shows.
- `CartPage.ItemCount` sums quantities as reals, so it can share the sum lemmas of the totals.
- `Checkout.OrderDataFor`: the copied first image is stated only through `Snapshot`, which takes `images[0]` when the product has images.
