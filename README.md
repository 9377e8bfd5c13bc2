# Self-checkout cart controller

A model of the state logic of a browser self-checkout counter. A camera scanner
sends a barcode. The barcode is looked up in a remote product catalogue. The
shopper then adjusts the quantity of the found product (the *working item*)
and commits it to a cart, which shows a running bill. The component keeps four
state cells: the last scanned `code`, the working item `productDetails` (absent
or a product with a quantity), the `recentProduct` history, and the `cart`.

Files and modules:

- `wrappers.dfy` (`Wrappers`): `Option`. `None` stands for JavaScript's `null`
  and for a lookup that found nothing.
- `products.dfy` (`Products`): the catalogue record `Product` (id, barcode,
  name, price in minor units), `Line` (a product with a quantity) and its
  `Cost`.
- `recent.dfy` (`RecentList`): the recent-list update, the rendered prefix, and
  the invariant kept over any run of successful scans.
- `cart.dfy` (`CartLines`): the new carts that `addToCart`, `increaseCart` and
  `decreaseCart` compute; the bill as a left fold; and how each handler changes
  the bill.
- `counter.dfy` (`SelfCounter`): class `App`, with the four state cells as
  fields and each handler as a method. Every method states its whole new state
  and keeps the invariant `Valid()`: the working quantity is at least 1, the
  recent list has at most 5 entries and no repeated barcode, and the cart has one
  line per `_id` with quantities of at least 1. In `CheckoutSession`, a product priced 50 is committed with 1 unit and then
  with 2 units. This gives one line of 3 units and a bill of 150. A barcode with
  no product then changes nothing but `code`.

The remote lookup is not modelled. Its outcome is a parameter of
`GetProductDetails`: `Some(product)` when a product came back, `None` when none
was found or the request failed. Each handler is one atomic transition.

Behaviour of the code worth noting:

- The recent list keeps up to 5 entries (`[product, ...prev.slice(0, 4)]`), and
  only the first 2 are rendered.
- Re-scanning a barcode that is already in the recent list leaves the list
  exactly as it was; nothing moves to the front. `RecentList.RescanKeepsOrder`
  proves that scanning a, b, a gives `[b, a]`.
- When a product already in the cart is committed again, the merged line keeps
  the product fields of the line already in the cart, including its price. Only
  the quantity grows. `CartLines.TotalAfterAdd` states this.

## Model

Two helpers have no row of their own. `Products.Cost` is `item.price * item.quantity` (src/App.jsx:102), used by `CartLines.Total`. `RecentList.HasBarcode` is the `prev.some(...)` duplicate test (src/App.jsx:32), used by `RecentList.Update`.

| member | source | states |
|---|---|---|
| `RecentList.Update` | src/App.jsx:31-37 | The list is unchanged exactly when an entry already has the product's barcode. Otherwise the product comes first, followed by the first older entries, for min(old length + 1, 5) entries in all. The barcode is always present afterwards. A list of at most 5 entries stays at most 5, and distinct barcodes stay distinct. |
| `RecentList.ReplayKeepsInvariant` | src/App.jsx:26-37 | Over any run of successful lookups, a list that starts with at most 5 entries and no repeated barcode keeps both properties. |
| `RecentList.RescanKeepsOrder` | src/App.jsx:32-36 | Scanning a, then b, then a again (distinct barcodes) leaves `[b, a]`: a re-scan moves nothing to the front. |
| `RecentList.Displayed` | src/App.jsx:143 | At most 2 entries are rendered, and they are a prefix of the list. A list of 2 or more entries shows exactly 2; a shorter list is shown whole. |
| `SelfCounter.App.RecentShown` | src/App.jsx:143 | The rendered recent entries are a prefix of the component's recent list: exactly 2 when the list holds at least 2, the whole list otherwise. In a valid state they are distinct by barcode. |
| `CartLines.FindIndex` | src/App.jsx:63 | The result is -1 exactly when no line has the id. Otherwise it is the position of a line with that id, and no earlier line has it. |
| `CartLines.AddLine` | src/App.jsx:63-77 | A new id is appended as the last line. For an id already present, the first line with it keeps its product and grows by exactly the working quantity. Length and all other lines are unchanged. |
| `CartLines.AddLineKeepsInvariant` | src/App.jsx:63-77 | The committed product's id is in the cart afterwards. A cart with one line per id keeps that property. Quantities of at least 1 stay at least 1 when the committed quantity is at least 1. |
| `CartLines.IncreaseLines` | src/App.jsx:83-89 | Same length, same products, same order. Lines with the id gain exactly 1 unit, and all other lines are unchanged. Unique ids and positive quantities are preserved. |
| `CartLines.DecreaseLines` | src/App.jsx:91-100 | Same length, same products, same order, so no line is removed. Lines with the id lose 1 unit when they hold more than 1, and are set to 1 otherwise, so they never drop below 1. All other lines are unchanged. Unique ids and positive quantities are preserved. |
| `CartLines.DecreaseUndoesIncrease` | src/App.jsx:83-100 | On a cart whose quantities are all at least 1, decreasing a line after increasing it restores the original cart. |
| `CartLines.Total` | src/App.jsx:102 | The bill is a left fold of price × quantity over the lines, starting at 0, so it is 0 for the empty cart. How it moves under each handler is stated by the `CartLines.Total...` lemmas below. |
| `CartLines.TotalAppend` | src/App.jsx:102 | The bill of two carts placed end to end is the sum of their bills. |
| `CartLines.TotalCons` | src/App.jsx:102 | The bill is the first line's price times quantity plus the bill of the remaining lines. |
| `CartLines.TotalUpdate` | src/App.jsx:102 | Replacing one line changes the bill by the new line's cost minus the old line's cost. |
| `CartLines.TotalSnoc` | src/App.jsx:102 | Appending a line adds its price times quantity to the bill. |
| `CartLines.TotalAddUnits` | src/App.jsx:102 | Adding n units to one line adds n times that line's price to the bill. |
| `CartLines.TotalNonNegative` | src/App.jsx:102 | With non-negative prices and quantities of at least 1, the bill is at least 0. |
| `CartLines.TotalAfterAdd` | src/App.jsx:63-77 | Committing the working item raises the bill by its quantity times a price. The price is that of the cart line it merges into, or its own when it is appended. |
| `CartLines.TotalAfterMerge` | src/App.jsx:65-73 | Committing an item whose id is already in the cart raises the bill by its quantity times the price stored on the existing line. |
| `CartLines.IncreaseIsUpdate` | src/App.jsx:83-89 | With unique ids, increasing an id that is not in the cart leaves the cart as it was. Increasing a present id changes exactly its one line, by 1 unit. |
| `CartLines.DecreaseIsUpdate` | src/App.jsx:91-100 | With unique ids and positive quantities, decreasing leaves the cart as it was when the id is absent or its line holds 1 unit. Otherwise it changes exactly that line, by minus 1 unit. |
| `CartLines.TotalAfterIncrease` | src/App.jsx:83-89 | With unique ids, increasing a line raises the bill by that line's price. An id not in the cart leaves the bill unchanged. |
| `CartLines.TotalAfterDecrease` | src/App.jsx:91-100 | With unique ids and positive quantities, decreasing a line lowers the bill by its price when the line held more than 1 unit. Otherwise the bill is unchanged. |
| `SelfCounter.App.constructor` | src/App.jsx:9-12 | The initial state: empty code, no working item, empty recent list, empty cart. It satisfies the invariant. |
| `SelfCounter.App.GetProductDetails` | src/App.jsx:14-46 | `code` becomes the scanned barcode and the cart is untouched. A found product becomes the working item with quantity 1, and the recent list is updated by `RecentList.Update`. Not found or an error clears the working item and leaves the recent list unchanged. The invariant is kept. |
| `SelfCounter.App.IncreaseTemp` | src/App.jsx:48-52 | A working item gains exactly 1 unit. Without a working item nothing changes, and no other field changes. The invariant is kept. |
| `SelfCounter.App.DecreaseTemp` | src/App.jsx:54-58 | A working item with more than 1 unit loses exactly one. Otherwise nothing changes. No other field changes, and the working quantity stays at least 1. |
| `SelfCounter.App.AddToCart` | src/App.jsx:60-81 | Without a working item the cart is unchanged. Otherwise the cart becomes `CartLines.AddLine` of the old cart and the working item. Either way the working item is absent afterwards. Unique ids and positive quantities are kept. |
| `SelfCounter.App.IncreaseCart` | src/App.jsx:83-89 | The cart becomes `CartLines.IncreaseLines` of the old cart. Nothing else changes, and the invariant is kept. |
| `SelfCounter.App.DecreaseCart` | src/App.jsx:91-100 | The cart becomes `CartLines.DecreaseLines` of the old cart. Nothing else changes, and the invariant is kept. |
| `SelfCounter.App.TotalBill` | src/App.jsx:102 | The displayed bill is the fold `CartLines.Total` over the current cart, which is 0 for an empty cart. Non-negativity is `CartLines.TotalNonNegative`. |

## Left out

- The scanner component (src/scanner.jsx): camera enumeration, the third-party barcode decoder, the beep and the torch toggle are device I/O and foreign library code. This includes the path where a failed beep reports the string `'error'` as a barcode.
- The HTTP request to the catalogue (src/App.jsx:19-22). It is replaced by the lookup outcome passed to `GetProductDetails`. Any response whose `product` is falsy counts as not found, just like a transport error.
- Asynchrony: the barcode is stored before the request is awaited, and overlapping lookups can interleave. `addToCart` also reads `cart` from its closure while its setter gets `prev`. The model applies each handler as one atomic step on the current state.
- Console logging, all JSX rendering, CSS classes, the `toFixed(2)` formatting of the bill and the rendering of the working-item object at line 112. The rendered recent prefix is kept as `RecentList.Displayed`.
- Floating point: prices are integers in minor units, and quantities and the bill are unbounded integers. JavaScript's double-precision arithmetic (exact up to 2^53) is not modelled.
