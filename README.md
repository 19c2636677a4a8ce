# Shop state of a point-of-sale page, in Dafny

This project models the in-memory state of a small grocery point-of-sale
page (`script.js`). The page keeps four arrays: the product catalog, the
cart, the customers and the order ledger. It also remembers the selected
payment method and whether the checkout dialog is open. The model covers
the handlers that change this state:

- adding a product to the cart, with its stock checks and its merge into
  an existing line;
- removing a cart line;
- the cart total and the quantity buttons that keep a quantity at 0.5 or more;
- the product and user forms (edit or create, with the duplicate-phone check
  on create);
- deleting a product or a user;
- opening checkout, which refuses an empty cart;
- the checkout commit, which records an order, updates the customer's
  history, lowers stock and empties the cart.

Layout, one module per file:

- `wrappers.dfy`: `Wrappers`, the `Option` and `Result` types.
- `collections.dfy`: `Collections`, the array idioms the page uses on its
  id-carrying records. These are `find`/`findIndex` by id, `filter` on an id,
  the new id `Math.max(...ids) + 1` (or 1 for an empty array), and
  `splice(index, 1)`. Each is generic in the record type and takes the
  function that reads the id.
- `data.dfy`: `ShopData`, the records `Product`, `CartLine`, `User` and
  `Order`.
- `cart.dfy`: `Cart`, the quantity field, the cart total and `addToCart` as
  the pure function `TryAdd`.
- `catalog.dfy`: `Catalog`, the product form and product deletion.
- `customers.dfy`: `Customers`, the user form and user deletion.
- `checkout.dfy`: `Checkout`, the commit step on pure state and the shop
  invariant.
- `shop.dfy`: `ShopState`, the class `Shop`. Its fields are the four
  collections, the payment method and the dialog flag. Each handler is a
  method that changes these fields in place. Every handler keeps the
  invariant `Valid()`. Every handler except `SelectPayment` and `CloseCheckout`
  is proved against a pure function above. Those two only set the dialog flag
  and the payment method, and their contracts give the new values outright.
  `RecordInHistory` and `DecrementStock` are steps inside `ProcessPayment`,
  not handlers. `DecrementStock` changes only stock and keeps `Valid()`.
  `RecordInHistory` alone may break it: it can push onto a history an order
  id that is not yet in the ledger. `ProcessPayment` appends the order first,
  so the invariant holds once it returns.

The invariant says four things:

- product, customer and order ids increase along their arrays;
- the cart has at most one line per product;
- every order's total equals the total of its lines;
- every id in a customer's history names an order in the ledger.

Numbers are exact reals. Browser inputs become parameters:

- A quantity field is an `Option<real>`, where `None` stands for an
  unparseable field.
- A hidden id field is an `Option<int>`, where `None` means the field is empty.
- The customer selection is an `Option<int>`, where `None` means walk-in.
- A `confirm()` dialog is a `bool`.
- The clock readings are a date string and a timestamp.

Persistence (`saveData`) has no effect in the model.

Behaviour worth knowing. The model follows the code in each of these
cases, though a reader might expect otherwise:

- **Merging into an existing cart line.** The line keeps its stored price.
  Its total, however, is recomputed with the product's current catalog
  price (`script.js:169`). `Cart.MergeUsesCatalogPrice` shows a case where
  the stored price is 45 and the catalog price is 50: the line ends up with
  6 kg at a stored 45 and a total of 300. `Cart.AddKeepsLinesConsistent`
  proves that lines stay consistent while the catalog price is unchanged.
- **Ids can be reused.** A new id is one more than the largest id still on
  file (`script.js:290`, `script.js:391`). So after the record with the
  largest id is deleted, its id is given out again
  (`Catalog.DeletedTopIdIsReissued`). Order ids are never reused, because
  orders are never deleted.
- **Editing with an unknown id.** The form then changes nothing. It does not
  append a new record (`script.js:285`, `script.js:379`).
- **Quantities are not checked to be positive.** `addToCart` accepts any
  parsed quantity that is not 0 and does not exceed the stock, so a
  negative quantity is accepted.
- **`processPayment` does not check for an empty cart itself.** The only
  guard is in `openCheckout` (`script.js:452`).

## Model

| member | source | states |
|---|---|---|
| `Collections.FindIndex` | script.js:284 | the first position holding the id, or none exactly when no record has it |
| `Collections.MaxKey` | script.js:290 | `Math.max` over the ids is an upper bound of every id and is the id of some record |
| `Collections.NextId` | script.js:290 | a new id is above every id in use (so not in use), is 1 for an empty array, and is otherwise one more than an id in use |
| `Collections.FindIndexSnoc` | script.js:291 | `find` after an append returns the old answer, or the new position if only the new record matches |
| `Collections.Without` | script.js:346 | `filter` on an id never returns a longer array, and the result has no record with that id |
| `Collections.WithoutMembers` | script.js:346 | a record survives the filter exactly when it was present and has another id |
| `Collections.WithoutConcat` | script.js:346 | filtering distributes over concatenation, so the survivors keep their relative order |
| `Collections.WithoutAbsent` | script.js:443 | deleting an id nobody has changes nothing |
| `Collections.WithoutUniqueAt` | script.js:346 | with unique ids, deleting the id of the record at k removes exactly position k and keeps the rest in order |
| `Collections.WithoutIncreasing` | script.js:443 | deletion keeps ids increasing |
| `Collections.SpliceStart` | script.js:201 | where `splice` starts: the index itself when in range, counted from the end when negative, 0 when more negative than the length, the length when past the end |
| `Collections.SpliceOne` | script.js:201 | `splice(index, 1)` removes exactly line `index` when in range, counts a negative index from the end, removes the first line when the index is more negative than the length, is a no-op past the end, and leaves an empty array empty |
| `Collections.SpliceOneUnique` | script.js:200-201 | removing a line keeps product ids unique in the cart |
| `Cart.QuantityOrOne` | script.js:153 | `parseFloat(v) \|\| 1` is never 0: an unparseable field and a zero field both read as 1, any other number as itself |
| `Cart.StepQuantity` | script.js:187-192 | the quantity buttons write `max(0.5, current + delta)`, never below 0.5 |
| `Cart.ClampQuantity` | script.js:194-198 | a typed quantity is written back as `max(0.5, value)`, never below 0.5 |
| `Cart.CartTotal` | script.js:251-253 | the sum of the line totals, non-negative when every line total is |
| `Cart.CartTotalConcat` | script.js:251-253 | the total of two carts end to end is the sum of their totals |
| `Cart.CartTotalRemove` | script.js:200-201 | removing line i lowers the total by exactly that line's total |
| `Cart.CartTotalReplace` | script.js:168-169 | replacing a line changes the total by the difference of the two line totals |
| `Cart.TryAdd` | script.js:148-179 | the add is refused as an unknown product exactly when no product has the id; after a successful add the product's line exists and its quantity does not exceed the product's stock |
| `Cart.ProductFor` | script.js:149 | the product `find` returns is in the catalog and has the id |
| `Cart.AddMerges` | script.js:160-169 | for a product already in the cart: success exactly when neither the request nor the merged quantity exceeds stock; then only that line changes: the quantity is summed, the stored product id, name, price and unit are kept, and the total is set to the merged quantity × current catalog price |
| `Cart.AddAppends` | script.js:170-179 | for a product not in the cart: success exactly when the request does not exceed stock; then one line with the catalog's name, price and unit and total quantity × price is appended |
| `Cart.AddKeepsLinesUnique` | script.js:160-179 | a successful add never creates a second line for a product |
| `Cart.AddThenRemove` | script.js:170-179 | removing the line a first add appended gives the old cart back |
| `Cart.AddKeepsLinesConsistent` | script.js:162-178 | while the catalog price equals the line's stored price, lines stay `total = quantity × price` and the cart total grows by quantity × price |
| `Cart.MergeKeepsConsistent` | script.js:162-169 | the merge case of the previous row |
| `Cart.AppendKeepsConsistent` | script.js:170-178 | the append case of the previous row |
| `Cart.MergeUsesCatalogPrice` | script.js:168-169 | after a catalog price change a merged line's total is no longer quantity × stored price (3 kg at 45, re-added at 50: total 300, not 270) |
| `Catalog.SaveProduct` | script.js:282-292 | an edit keeps length and every id, and an edit of an id no product has changes nothing; a create keeps the old catalog as a prefix and appends the form's product under `NextId` (above all others); ids stay increasing |
| `Catalog.SaveProductEdits` | script.js:284-286 | editing replaces exactly that product, in place and under its id, with the form's fields; every other product is unchanged |
| `Catalog.SaveThenFind` | script.js:282-292 | after a save, looking up the saved id (edited or fresh) finds the form's fields |
| `Catalog.DeleteUndoesCreate` | script.js:344-351 | deleting a product right after creating it restores the catalog |
| `Catalog.DeletedTopIdIsReissued` | script.js:290 | after deleting the product with the largest id, the next created product gets that id again |
| `Customers.SaveUser` | script.js:376-393 | refused exactly for a create whose phone is already on file; an edit keeps every id and history, and an edit of an id nobody has changes nothing; a create keeps the old customers as a prefix and appends the form's name and phone with an empty history under `NextId` (above all others) |
| `Customers.SaveUserEdits` | script.js:378-381 | editing an existing customer is never refused and replaces exactly that entry, in place, with the form's name and phone, keeping id and history; every other customer is unchanged |
| `Customers.CreateKeepsPhonesUnique` | script.js:383-392 | creating customers never makes two of them share a phone |
| `Customers.EditCanSharePhone` | script.js:376-381 | an edit is not checked: customer 2 can be given customer 1's phone |
| `Customers.SaveUserIncreasing` | script.js:378-392 | saving keeps customer ids increasing |
| `Customers.SaveUserKeepsHistories` | script.js:380 | saving keeps every history entry pointing at an order |
| `Customers.DeleteKeepsHistories` | script.js:441-448 | deleting a customer keeps the remaining histories pointing at orders |
| `Checkout.CheckoutGuard` | script.js:451-455 | checkout is refused exactly when the cart is empty |
| `Checkout.SelectedCustomer` | script.js:664-665 | the customer found is a registered customer with the selected id; none only for walk-in or an id nobody has |
| `Checkout.NewOrder` | script.js:667-677 | the new order's id is `NextId` of the ledger, `max(ids) + 1`, so above every existing order id (1 for the first order); it holds the cart and its total, the selection and payment method, the date and timestamp passed in, and the customer's name and phone, or "Walk-in Customer" and no phone |
| `Checkout.RecordOrder` | script.js:682-685 | recording keeps the number of customers and their ids |
| `Checkout.RecordOrderAppends` | script.js:682-685 | the selected customer's history gains the order id at its end; every other customer is unchanged |
| `Checkout.RecordOrderWalkIn` | script.js:682 | for walk-in or an unknown id no history changes |
| `Checkout.RecordOrderKeepsHistories` | script.js:679-685 | after the order is appended and recorded, every history entry still names an order |
| `Checkout.ReducedStock` | script.js:691 | `max(0, stock - quantity)` is never negative and never below stock - quantity |
| `Checkout.Decrement` | script.js:689-692 | one stock step changes nothing but stock |
| `Checkout.ApplyStock` | script.js:688-693 | the stock loop changes nothing but stock |
| `Checkout.StockAfter` | script.js:688-693 | the expected stock is non-negative when the old one was, and unchanged for a product with no cart line |
| `Checkout.ApplyStockPerProduct` | script.js:688-693 | with unique ids, every product's stock becomes `max(0, stock - quantity)` of its cart line, and products not in the cart keep their stock |
| `Checkout.ApplyStockNonNegative` | script.js:691 | stock that was never negative stays non-negative |
| `Checkout.ApplyStockIncreasing` | script.js:688-693 | the stock loop keeps product ids increasing, since it changes only stock |
| `Checkout.CheckoutKeepsInvariant` | script.js:663-696 | the commit keeps the shop invariant: increasing ids, one line per product, balanced orders, histories naming orders |
| `ShopState.Shop.constructor` | script.js:2-6 | an empty shop satisfies the invariant, pays cash, dialog closed |
| `ShopState.Shop.AddToCart` | script.js:148-185 | the cart becomes `TryAdd`'s result, or stays as it was on refusal, with the reason returned; nothing else changes |
| `ShopState.Shop.RemoveFromCart` | script.js:200-205 | the cart becomes `splice(index, 1)` of the old cart; an in-range removal lowers the total by the line's total |
| `ShopState.Shop.SubmitProductForm` | script.js:271-299 | the catalog becomes `SaveProduct` of the old one; the invariant holds |
| `ShopState.Shop.DeleteProduct` | script.js:344-351 | once confirmed the catalog loses exactly the products with the id, otherwise it is unchanged |
| `ShopState.Shop.SubmitUserForm` | script.js:369-400 | customers become `SaveUser`'s result, or stay unchanged on a duplicate phone, with the refusal returned |
| `ShopState.Shop.DeleteUser` | script.js:441-448 | once confirmed the customers with the id go; orders and histories stay consistent |
| `ShopState.Shop.OpenCheckout` | script.js:451-460 | an empty cart is refused with nothing changed; otherwise the dialog opens; the invariant holds |
| `ShopState.Shop.SelectPayment` | script.js:507-508 | the selected payment method is recorded; nothing else changes and the invariant holds |
| `ShopState.Shop.CloseCheckout` | script.js:462-472 | the dialog closes and payment goes back to cash; the cart survives and the invariant holds |
| `ShopState.Shop.ProcessPayment` | script.js:663-704 | exactly one order appended; it holds the old cart and its total; history recorded; every product's stock is `StockAfter`; cart emptied; dialog closed; invariant kept |
| `ShopState.Shop.RecordInHistory` | script.js:681-685 | the customers become `RecordOrder` of the old ones |
| `ShopState.Shop.DecrementStock` | script.js:687-693 | the `forEach` stock loop leaves the catalog equal to `ApplyStock` of the old catalog and the cart, and keeps the invariant |
| `ShopState.OnionCart` | script.js:148-179 | creating product 1 (45 per kg, 10 in stock) in an empty shop and adding 3 twice leaves one merged line of 6 totalling 270, with no customers or orders |

## Left out

- Rendering and event plumbing are left out because they are UI: `renderProducts`, `renderCart`, `updateCartBadge` (a sum of quantities shown in a badge), `renderProductsList`, `renderUsersList`, `renderCheckoutItems`, `showReceipt`, `filterProducts`, the modal helpers, and the `alert` messages. So is resetting the quantity field to 1 after an add (`script.js:184`).
- `selectPayment` is modelled only for the payment method it records. Its QR generation and scanning (`generateQRCode`, `startQRScanner`, `stopQRScanner`, `handleQRScanResult`) go through external libraries, promises and timers. Comparing a scanned floating-point amount with the cart total has no exact meaning here.
- `saveData`, `loadData` and `init` are `localStorage` and JSON I/O. Persistence has no effect in the model, and the seed catalog and the image-field migration are not modelled. A stored state is assumed to satisfy the invariant that the constructor establishes. A stored customer record missing its `orders` array (`script.js:683`) is not modelled, because every `User` has a history.
- `ShopState.Shop.ProcessPayment`: its `cart == []` is the in-memory cart only. The page calls `saveData()` (`script.js:695`) before it empties the cart (`script.js:696`), so storage still holds the committed lines. After a reload they come back and could be checked out again. The model does not capture this because it has no storage.
- `printReceipt`, `downloadBill` and `sendWhatsApp` are output channels.
- `handleImageError` and `getProductImage` only build URLs for images.
- `updateHistoryFilters` and `renderHistory` are read-only views built on date parsing and the local time zone.
- Floating-point arithmetic and `toFixed` formatting are not modelled: numbers are exact reals. NaN is modelled only for the quantity field (as `None`). The price and stock read by the product form are taken as given reals.
- `parseInt` of a hidden id field is modelled by its result: an `Option<int>`. An unparseable id behaves like an id nobody has.
- The order's `items: [...cart]` is a shallow copy in the page. The model copies values. The page then replaces the cart with a new empty array, so no later cart change can reach a committed order, and the two agree.
- The clock (`new Date()`, `Date.now()`) gives `ProcessPayment`'s `date` and `timestamp` parameters.
