# FoodSphere order service and client cart, in Dafny

This project models the two pieces of logic in the FoodSphere food-ordering application:

- the **order service** (`src/controllers/orderController.js`): pricing a submitted cart
  (subtotal = Σ price × quantity, tax = 10 % of the subtotal, a fixed delivery fee of 5,
  total = subtotal + tax + fee), recording the new pending order and appending its id to
  the caller's order history, listing a user's orders, reading one order (404 when
  missing), the unguarded status update and the guarded cancel (only from `pending` or
  `confirmed`, otherwise 400);
- the **browser client's state** (`public/js/app.js`): the `state` object's cart, order
  list and restaurant list; `addToCart` (merge by id or append), `removeFromCart`, the
  cart count, the cart summary and checkout review, the demo-mode order placement of
  `handleCheckout`, the restaurant search filter and the reset done by `logout`.

Modules:

| file | module | content |
|---|---|---|
| `wrappers.dfy` | `Wrappers` | `Option`, for `null`, `undefined` and `NaN` |
| `decimal.dfy` | `Decimal` | decimal rendering of a timestamp and reading digits back |
| `pricing.dfy` | `Pricing` | the shared pricing rule, the accumulation loop of `createOrder` |
| `orders.dfy` | `Orders` | orders, statuses, the `OrderStore` class (order map + per-user id lists) |
| `client.dfy` | `Client` | cart functions, `parseInt`, search, the `AppState` class |

The persistence layer is replaced by `Orders.OrderStore`, a class holding the order
collection as a map from order id to `Order`, each user's order history as a map from
user id to a sequence of order ids, and the next id to hand out. Its invariant
(`LedgerInvariant`) says that every order is filed under its own id, is correctly priced
(tax = 10 % of the items' subtotal, fee = 5, total = subtotal + tax + fee), and that each
user's history lists distinct ids of stored orders placed by that user. The client's
`state` object is `Client.AppState`; its invariant is that no two cart entries share an
item id.

Money is Dafny's exact `real`, so 0.1 is exact and the identities hold exactly; quantities
are `int`. Timestamps (`Date.now()`) are parameters.

The model follows the code: `createOrder` performs no validation at all (no check that items are non-empty,
that quantities are positive, that prices are non-negative or that the restaurant
exists), and nothing is rounded to two decimals (rounding happens only in `toFixed`
display formatting, which is not modelled).

## Model

| member | source | states |
|---|---|---|
| `Pricing.Subtotal` | src/controllers/orderController.js:10-13 | no contract of its own: the reference Σ price × quantity as a left fold; `ComputeSubtotal` is proved equal to it and `SubtotalAppend`, `SubtotalNonNegative` state its properties |
| `Pricing.ComputeSubtotal` | src/controllers/orderController.js:10-13 | the accumulation loop returns exactly Σ price × quantity over the lines (the `Subtotal` fold) |
| `Pricing.SubtotalAppend` | src/controllers/orderController.js:10-13 | the subtotal of two concatenated item lists is the sum of their subtotals |
| `Pricing.SubtotalNonNegative` | src/controllers/orderController.js:10-13 | with non-negative prices and quantities the subtotal is non-negative |
| `Pricing.LineTotalNonNegative` | src/controllers/orderController.js:12 | a line with non-negative price and quantity adds a non-negative amount |
| `Pricing.Tax` | src/controllers/orderController.js:15 | no contract of its own: a tenth of the subtotal; `TotalIdentities` states it |
| `Pricing.GrandTotal` | src/controllers/orderController.js:16-17 | no contract of its own: subtotal + tax + 5; `TotalIdentities` and `TotalAtLeastFee` state 1.1 × subtotal + 5 and the lower bound 5 |
| `Pricing.TotalIdentities` | src/controllers/orderController.js:15-17 | tax is a tenth of the subtotal; total = 1.1 × subtotal + 5; total − tax − fee gives back the subtotal |
| `Pricing.TotalAtLeastFee` | src/controllers/orderController.js:15-17 | with non-negative prices and quantities the total is at least the delivery fee 5 |
| `Pricing.WorkedExample` | src/controllers/orderController.js:10-17 | 12.99 × 2 + 4.99 × 1 prices to subtotal 30.97, tax 3.097, total 39.067 |
| `Decimal.Render` | src/controllers/orderController.js:20 | a timestamp is written as a non-empty digit string with no leading zero (except 0 itself) |
| `Decimal.ValueOfRender` | src/controllers/orderController.js:20 | reading the written digits back gives the timestamp |
| `Decimal.RenderInjective` | src/controllers/orderController.js:20 | distinct timestamps are written differently |
| `Orders.OrderNumber` | src/controllers/orderController.js:20 | no contract of its own: the template `ORD-${Date.now()}` (also used by the client's demo order); `OrderNumberShape` states its prefix, that the timestamp is recovered from it, and that it is injective |
| `Orders.OrderNumberShape` | src/controllers/orderController.js:20 | the order number is "ORD-" followed by the timestamp's digits, from which the timestamp is recovered; equal order numbers mean equal timestamps |
| `Orders.NewOrder` | src/controllers/orderController.js:15-32 | no contract of its own: the record `createOrder` builds; `NewOrderPriced` states that it is pending and priced from its items |
| `Orders.NewOrderPriced` | src/controllers/orderController.js:15-32 | a new order is pending, its tax, fee and total agree with its items, total − tax − fee is the subtotal, and the total is at least 5 for non-negative items |
| `Orders.CancelTransition` | src/controllers/orderController.js:113-118 | no contract of its own: the cancel guard and update on one order; `CancelIsFinal` states when it succeeds and that it cannot be applied twice |
| `Orders.CancelIsFinal` | src/controllers/orderController.js:113-117 | cancel succeeds exactly from pending or confirmed, changes only the status to cancelled, and cancelling the result again fails with 400 |
| `Orders.UpdateTransition` | src/controllers/orderController.js:85-88 | no contract of its own: the status and `updatedAt` overwrite; `UpdateIsUnguarded` states that it has no guard and changes nothing else |
| `Orders.UpdateIsUnguarded` | src/controllers/orderController.js:85-88 | the status update stores any requested status from any status, changes only status and updatedAt, keeps pricing intact, and can revive a cancelled order |
| `Orders.OrdersOf` | src/controllers/orderController.js:54 | the listing holds exactly the stored orders of the user in the id range, in increasing id order |
| `Orders.OrdersOfExtend` | src/controllers/orderController.js:34-40 | storing an order under the next id appends it to its own user's listing and leaves other listings unchanged |
| `Orders.OrderStore.CreateOrder` | src/controllers/orderController.js:5-45 | stores the priced pending order under a fresh id with exactly the submitted restaurant, items, address and payment method and the caller's id; appends the id to the end of the caller's history (no change when the caller has no user record), leaves other users untouched, keeps the store invariant, and the caller's listing gains the order at its end; no input is rejected |
| `Orders.OrderStore.UserOrders` | src/controllers/orderController.js:52-61 | returns exactly the stored orders whose user is the caller, in creation order |
| `Orders.OrderStore.GetOrder` | src/controllers/orderController.js:64-78 | returns the stored order (correctly priced) when the id is known and 404 otherwise |
| `Orders.OrderStore.UpdateOrderStatus` | src/controllers/orderController.js:81-102 | 404 and no change for an unknown id; otherwise the order gets the requested status and the new updatedAt whatever its status was, and no other order, history or id changes |
| `Orders.OrderStore.CancelOrder` | src/controllers/orderController.js:105-127 | 404 for an unknown id, 400 with nothing changed unless the status is pending or confirmed, otherwise only that order's status becomes cancelled |
| `Orders.ReadTwice` | src/controllers/orderController.js:66-74 | two consecutive reads give the same reply, which holds because a read is a function of the store; the reply is found exactly when the id is stored |
| `Orders.CancelTwice` | src/controllers/orderController.js:107-118 | a second cancel of the same order always fails, with 400 when the order exists |
| `Orders.PlaceOneOrder` | src/controllers/orderController.js:10-40 | one item 9.99 × 3 gives a pending order with tax 2.997, fee 5 and total 37.967, listed for its user |
| `Client.TrimStart` | public/js/app.js:453 | strips leading white space (as `parseInt` skips it): the result is a suffix of the input, everything removed before it is white space, and it does not start with white space |
| `Client.TrimEnd` | public/js/app.js:210 | strips trailing white space: the result is a prefix of the input, everything removed after it is white space, and it does not end with white space |
| `Client.Trim` | public/js/app.js:210 | no contract of its own: `.trim()` as `TrimEnd` after `TrimStart`, whose rows state what each part removes and keeps |
| `Client.LeadingDigits` | public/js/app.js:453 | the longest digit prefix that `parseInt` reads: all digits, followed by a non-digit or the end |
| `Client.LeadingDigitsOfDigits` | public/js/app.js:453 | a string of digits is read in full |
| `Client.ParseInt` | public/js/app.js:453 | no contract of its own: `parseInt` in base 10 (skip white space, optional sign, longest digit run, NaN as `None`); `ParseIntOfRender` states that it reads back the text of every integer |
| `Client.ParseIntOfRender` | public/js/app.js:453 | the text of a number parses back to that number, with a minus sign to its negation |
| `Client.RequestedQuantity` | public/js/app.js:453 | the requested quantity is never 0 |
| `Client.RequestedQuantityCases` | public/js/app.js:453 | the quantity is the typed number, 1 for 0, an empty or a non-numeric field, and a typed negative number is kept |
| `Client.FindEntry` | public/js/app.js:455 | finds the first cart entry with the item id, or reports that none has it |
| `Client.Without` | public/js/app.js:473 | the filtered cart holds exactly the cart's entries whose id differs (an entry is kept if and only if it is in the cart with another id), and it is no longer than the cart |
| `Client.WithoutRemovesEntry` | public/js/app.js:473 | in a cart with distinct ids, removal drops exactly the entry with the id and keeps the others in their order |
| `Client.WithoutKeepsDistinct` | public/js/app.js:473 | removal keeps the cart's ids pairwise distinct |
| `Client.AppendKeepsDistinct` | public/js/app.js:459-465 | appending an entry whose id no cart entry has keeps the cart's ids pairwise distinct |
| `Client.BumpKeepsDistinct` | public/js/app.js:457 | growing one entry's quantity in place keeps the cart's ids pairwise distinct |
| `Client.CartCount` | public/js/app.js:491 | no contract of its own: Σ quantity over the cart; `CartCountConcat`, `CartCountBump` and `CartCountWithout` state how cart updates change it |
| `Client.CartCountConcat` | public/js/app.js:491 | the cart count of two concatenated carts is the sum of their counts |
| `Client.Bumped` | public/js/app.js:457 | the in-place `existingItem.quantity += quantity`: the cart keeps its length, the entry at the index is that entry with its quantity grown by q, and every other entry is unchanged |
| `Client.CartCountBump` | public/js/app.js:457 | growing one entry's quantity by q grows the cart count by q |
| `Client.CartCountWithout` | public/js/app.js:473 | removing an entry lowers the cart count by that entry's quantity |
| `Client.CartSubtotal` | public/js/app.js:521 | no contract of its own: the `reduce` Σ price × quantity over the cart (also at lines 545 and 627); `CartSubtotalAppend`, `CartSummaryBounds` and `DemoOrderPricing` state its properties |
| `Client.CartSubtotalAppend` | public/js/app.js:521 | appending an entry adds its price × quantity to the cart subtotal |
| `Client.CartSummary` | public/js/app.js:520-524 | no contract of its own: subtotal, tax, fee and total of the cart summary; `CartSummaryShape` and `CartSummaryBounds` state the fee rule and the bounds |
| `Client.CartSummaryShape` | public/js/app.js:520-530 | the summary's fee is 0 exactly for the empty cart and 5 otherwise; total = 1.1 × subtotal + fee |
| `Client.CartSummaryBounds` | public/js/app.js:521-524 | for non-negative items a non-empty cart totals at least 5 and the empty cart totals 0 |
| `Client.Checkout` | public/js/app.js:532-548 | no contract of its own: the checkout view; `CheckoutAgreesWithSummary` ties it to `CartSummary` |
| `Client.CheckoutAgreesWithSummary` | public/js/app.js:532-548 | checkout refuses an empty cart first, then a visitor without a token, and otherwise shows exactly the cart summary |
| `Client.RestaurantName` | public/js/app.js:635 | no contract of its own: the current restaurant's name, or "Sample Restaurant" when there is none or it is empty; used by `DemoOrder` |
| `Client.DemoOrder` | public/js/app.js:627-649 | no contract of its own: the demo order record; `DemoOrderPricing` states its status and pricing |
| `Client.DemoOrderPricing` | public/js/app.js:627-654 | a demo order is pending, its items price to the cart subtotal, the details view's total − tax − fee gives that subtotal back, and its total is the summary total for a non-empty cart but 5 for an empty one |
| `Client.DisplayedSubtotal` | public/js/app.js:751 | no contract of its own: the details view's `totalPrice - tax - deliveryFee`; `DemoOrderPricing` and `AppState.HandleCheckout` state that it gives back the cart subtotal |
| `Client.ToLower` | public/js/app.js:221 | lower-casing keeps the length; `ToLowerChars` states the characters |
| `Client.ToLowerChars` | public/js/app.js:221 | after lower-casing no capital letter remains, every character that is not a capital is kept, and each capital becomes the letter 32 code points above it |
| `Client.MatchesQuery` | public/js/app.js:220-223 | no contract of its own: the filter's test (lower-cased name, cuisine or non-empty description contains the query); `FilterRestaurants` keeps exactly the restaurants it accepts, and `SearchExample` shows a match |
| `Client.FilterRestaurants` | public/js/app.js:220-224 | the result holds exactly the restaurants of the list whose lower-cased name, cuisine or description contains the query |
| `Client.FilterConcat` | public/js/app.js:220-224 | the filter keeps the list's order: filtering a concatenation concatenates the filtered parts |
| `Client.SearchExample` | public/js/app.js:210-224 | the query "PIZZA " is lower-cased and trimmed and then matches "Pizza Palace" |
| `Client.AppState.constructor` | public/js/app.js:4-11 | the initial state: empty cart, order and restaurant lists, no user; a token exactly when a non-empty one is stored (an empty stored string counts as no token) |
| `Client.AppState.AddToCart` | public/js/app.js:446-470 | without a token nothing changes; an entry with the id grows by the requested quantity in place (length unchanged, other entries untouched); otherwise a new entry tagged with the current restaurant's id is appended at the end (nothing changes when there is no current restaurant); ids stay distinct and the count grows by the requested quantity |
| `Client.AppState.RemoveFromCart` | public/js/app.js:472-476 | the cart becomes the filtered cart, ids stay distinct, and the count drops by the removed entry's quantity |
| `Client.AppState.SearchRestaurants` | public/js/app.js:209-252 | without a token or with an empty query the list is unchanged; otherwise it becomes the matching restaurants, unless none match and the original list is kept |
| `Client.IsRealRestaurant` | public/js/app.js:593 | no contract of its own: a current restaurant whose id does not start with "sample"; `AppState.HandleCheckout` sends the order to the server exactly in that case |
| `Client.AppState.HandleCheckout` | public/js/app.js:580-662 | without a token nothing changes; for a real restaurant the cart is emptied when the server accepts the order; otherwise the pending demo order priced from the cart is put first in the order list and the cart is emptied |
| `Client.AppState.Logout` | public/js/app.js:133-143 | token and user are cleared and the cart is emptied (count 0); orders and restaurants are kept |

## Left out

- Persistence: the document store, `save`, `findById`, `findByIdAndUpdate`, the `$push`
  update and the `populate` joins are replaced by the two maps of `OrderStore`; the
  returned orders are the stored records, without restaurant or menu-item resolution.
- Store failures and the 500 replies: every write succeeds; a failure between the order
  write and the history append in `createOrder` is not modelled.
- Authentication: the caller's user id is a parameter.
- Order ids: the store's generated identifier is modelled by a counter, so ids are fresh
  and increase with creation; the listing of `getUserOrders` is in that creation order.
- `src/models/Order.js` is not part of this model: statuses are the six values
  `pending`, `confirmed`, `preparing`, `out_for_delivery`, `delivered`, `cancelled`, so a
  request asking for any other label is not modelled; `createdAt` and `updatedAt` are
  taken to start at the creation time; `estimatedDeliveryTime` of server orders is left
  out.
- Orders.OrderStore.CancelOrder: leaves `updatedAt` as it was, since the handler sets
  only the status before saving and any timestamp hook of the schema is not visible.
- Floating point: money is exact `real`; IEEE-754 rounding and `toFixed` formatting are
  not modelled.
- Network and browser: `fetch`, `localStorage`, the DOM, notifications and all rendering
  (`display*`, `show*`, `hideAllSections`, `updateNavVisibility`), login and
  registration, `loadRestaurants`, `loadOrders`, `clearSearch`, `increaseQty`,
  `decreaseQty`.
- Client.AppState.HandleCheckout: the server reply of the real-restaurant branch is the
  `serverAccepted` parameter and the order list it reloads is not modelled; both demo
  ids come from one `now`, where the source reads the clock twice. In the demo branch,
  `showOrders()` (public/js/app.js:656, 825) starts `loadOrders()`, which later replaces
  `state.orders` with the server's list, or with `[]` when the server cannot be reached
  (public/js/app.js:675-681); the model ends at the step that puts the demo order first
  and does not capture that the reload afterwards discards it.
- Interleaving: every handler is one atomic step. The source awaits between reading and
  writing in two places the model does not capture: `cancelOrder` reads the order at
  src/controllers/orderController.js:107 and saves it at line 118, so an
  `updateOrderStatus` completing in between is overwritten with `cancelled` and the
  "only from pending or confirmed" guard holds only for calls that do not overlap; and
  `handleCheckout` empties the cart only after its `fetch` completes
  (public/js/app.js:597-617), so cart changes made meanwhile are lost.
- Client.AppState.SearchRestaurants: the asynchronous reload started by the
  restaurant view and the ten-second restoration timer are not modelled.
- Client.ParseInt: the `0x` hexadecimal prefix, the non-ASCII white space that `parseInt`
  skips (no-break space, line and paragraph separators, byte order mark and the other
  Unicode space separators) and the precision loss of very large numbers are not modelled.
- Client.ToLower: ASCII letters only.
- Client.TrimStart and Client.TrimEnd: the ASCII white space characters (space, tab,
  line feed, vertical tab, form feed, carriage return) only; the non-ASCII white space
  that `trim` also removes is not modelled.
- Client.AppState.AddToCart: the quantity field's text is a parameter; a missing field
  element is not modelled.
- Emoji tables (`getRestaurantImage`, `getMenuItemImage`) and the sample restaurants and
  menus: presentation and fixed data.
