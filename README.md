# Maldives Eats storefront: cart and order bookkeeping in Dafny

This project models the client-side bookkeeping of the Maldives Eats
storefront, a Next.js shop whose pages talk to a REST backend. The model
covers three pages:

- the **storefront** (`app/page.js`): the session cart (add, change
  quantity, remove, total, badge count), the product-detail quantity
  buttons, the product title search, the banner carousel and the merge of
  per-product rating summaries onto the catalog;
- the **cart page** (`app/cart/page.js`): its own copies of the quantity and
  removal operations, the totals, and the checkout (`handleSubmitOrder`).
  Checkout validates the contact form, reuses or creates the session id,
  builds the request body, and on success archives the order under
  `placedOrders` and removes the stored cart;
- the **dashboard** (`app/dashboard/page.js`): loading the order list and
  selecting its first order, the search filter, the status badge colour, and
  the status update. The update is applied to the list and to the selected
  order only after the backend confirms it.

The cart is a sequence of lines `{id, product, quantity, price}`. Every
mutation keeps `ValidCart`: each quantity is at least 1, no two lines share
a product id, and each line's price snapshot equals its product snapshot's
price. Line-id uniqueness (`LineIdsUnique`) is kept too, provided each new
line id is fresh. `Date.now()` does not guarantee that on its own.

Browser session storage is the class `Storage.SessionStorage`. It is a map
from key to stored value, with `getItem`, `setItem` and `removeItem`. Each
page is a class whose fields are the component state. Its methods say
exactly how the fields and the storage change. Each page's `Valid()` also
requires that a stored cart, when present, is the cart on screen.

Prices are integer cents. Backend requests, random tokens and clock readings
are parameters: `PlaceOutcome`, `RatingsFetch`, `Option<seq<…>>` responses,
`generatedId`, `lineId` and `created`.

Where the specification of the system and the code disagree, the model
follows the code:

- Checkout rejects only an empty name or phone (`!name || !phone`). A
  whitespace-only value passes.
- A successful checkout removes the stored `cart` key but does not reset the
  page's in-memory cart. The page switches to its success view instead.
- The dashboard search lower-cases only the name and email. Phone and id are
  matched as typed.
- The ratings map is keyed by the `id` field of each ratings response. A
  failed request's fallback body carries the product slug as its id. A
  successful body reaches its product only if it names that product's slug
  in `id` (`Storefront.ProductGetsOwnRatings` states the condition). A body
  without an `id` is stored under the key "undefined".
- Loading the stored cart does not catch malformed JSON.

## Model

| member | source | states |
|---|---|---|
| CartLines.IndexOfProduct | app/page.js:205-207 | Returns -1 exactly when no line has the product id. Otherwise returns the first index whose line has it. |
| CartLines.AddToCart | app/page.js:204-226 | For a product already in the cart: same length, that line's quantity is one higher, its other fields and all other lines are unchanged. For a new product: one line appended at the end with quantity 1 and `price == product.price`, and the old lines are the prefix. |
| CartLines.UpdateQuantity | app/page.js:258-263 | A new quantity below 1 leaves the cart as it is. Otherwise the length is unchanged, and every line keeps id, product and price. Lines with the given id take the new quantity and the rest keep theirs. The cart page's copy (app/cart/page.js:32-37) is the same operation. |
| CartLines.RemoveLine | app/page.js:251-252 | The result holds only lines of the input whose id differs, and holds every such line. The cart page's `removeItem` is the same operation. |
| CartLines.RemoveLineKeepsOrder | app/cart/page.js:43-44 | Removal yields a subsequence of the cart, so relative order is kept. Each surviving line keeps its multiplicity and removed lines occur zero times. |
| CartLines.SnapshotTotalIsSumOfSubtotals | app/cart/page.js:49-59 | The left-fold `calculateTotal` over `item.price * item.quantity` equals the sum of `calculateSubtotal(item)` over the lines (exact arithmetic). |
| CartLines.ItemCountIsSumOfQuantities | app/page.js:392 | The badge's reduce equals the sum of the line quantities. |
| CartLines.TotalsAgree | app/page.js:270-273 | The storefront's `cartTotal` (over `item.product.price`) equals the cart page's total (over the `item.price` snapshot) whenever the snapshots agree. |
| CartLines.AddToCartCount | app/page.js:211-225 | Adding a product raises the badge count by exactly 1, in both branches. |
| CartLines.AddToCartTotal | app/page.js:211-225 | Adding raises the total by the unit price of the affected line. That is the existing line's snapshot price, or the product's price for a new line. |
| CartLines.AddToCartKeepsValid | app/page.js:204-226 | If quantities are at least 1, product ids are unique and price snapshots agree before an add, they still hold after it. |
| CartLines.AddToCartKeepsLineIds | app/page.js:219-224 | A line id not already in the cart keeps the line ids distinct. |
| CartLines.UpdateQuantityKeepsValid | app/page.js:258-267 | `updateQuantity` keeps the cart invariant and keeps line ids distinct. |
| CartLines.RemoveLineKeepsValid | app/page.js:251-255 | Removal keeps the cart invariant. |
| CartLines.RemoveLineKeepsLineIds | app/cart/page.js:43-47 | Removal keeps line ids distinct. |
| CartLines.CountAtLeastLines | app/page.js:390-393 | When every quantity is at least 1, the badge count is at least the number of lines. |
| CartLines.DisplayedQuantity | app/page.js:962-967 | The detail view shows the quantity of the product's first line (`cart.find(...).quantity`), or 0 when it has none. In a valid cart a shown line is at least 1. |
| Orders.ResolveSessionId | app/cart/page.js:76-79 | A stored non-empty session id is reused unchanged. A missing or empty one is replaced by the generated token. |
| Orders.SessionIdIsStable | app/cart/page.js:76-82 | Once a non-empty id has been chosen and stored, the next submission resolves to the same id. |
| Orders.PayloadItems | app/cart/page.js:92-95 | Has the same length and order as the cart. Entry k is `(cart[k].product.id, cart[k].quantity)`. |
| Orders.PlacedItems | app/cart/page.js:111-118 | Has one archived item per cart line, in order. Each item carries the product id, title, quantity and price snapshot. |
| Orders.Payload | app/cart/page.js:85-96 | The request body carries the form, the given session id, the items above, and a total equal to the sum of the line subtotals. |
| Orders.PlacedRecord | app/cart/page.js:102-119 | The archived record has the backend's id, the form and the creation time. Its status is "pending", its total is the sum of subtotals, and its items come from the cart. |
| Orders.RecordMatchesPayload | app/cart/page.js:85-119 | The archived record and the request body agree on the total and on every item's product id and quantity. |
| Storage.StoredCart | app/page.js:67-70 | Yields the stored cart exactly when the `cart` key holds one. |
| Storage.StoredSessionId | app/cart/page.js:77 | Yields the stored text exactly when the `sessionId` key holds one. |
| Storage.StoredOrders | app/cart/page.js:122-124 | With no `placedOrders` key the list is empty. Otherwise it is the stored list. |
| Storage.SessionStorage.GetItem | app/page.js:67 | Returns `Some` exactly for a present key, with its value. |
| Storage.SessionStorage.SetItem | app/page.js:230 | The key is bound to the value and every other key is unchanged. |
| Storage.SessionStorage.RemoveItem | app/cart/page.js:129 | The key is gone and every other key is unchanged. |
| Storefront.NextSlide | app/page.js:286-288 | The index stays in `[0, count)`. It advances by one and wraps from the last banner to 0. |
| Storefront.PrevSlide | app/page.js:290-292 | The index stays in `[0, count)`. |
| Storefront.SlideStepsAreInverse | app/page.js:286-292 | "previous" after "next" restores the index, and so does "next" after "previous". |
| Storefront.FilterProducts | app/page.js:276-284 | Keeps exactly the catalog products whose lower-cased title contains the lower-cased search term. |
| Storefront.FilterProductsKeepsOrder | app/page.js:278-283 | The filtered list is an order-preserving subsequence of the catalog. Each matching product keeps its multiplicity. |
| Storefront.EmptySearchKeepsAll | app/page.js:279-281 | The empty search term keeps the whole catalog. |
| Storefront.SettledBody | app/page.js:104-113 | A failed ratings request settles to `{id: slug, ratings: [], average: 0}`. A successful one settles to its parsed body. |
| Storefront.SettledBodies | app/page.js:104-116 | Gives one settled body per requested slug, in request order. |
| Storefront.Slugs | app/page.js:149 | Gives the products' slugs, in order. |
| Storefront.Summarize | app/page.js:121-124 | Missing ratings become `[]` and a missing average becomes 0. Present values are kept. |
| Storefront.BuildRatingsMap | app/page.js:119-125 | The `forEach` loop leaves exactly the map in which each body was written in turn under its key. |
| Storefront.RatingsMapKeys | app/page.js:119-125 | A key is in the ratings map exactly when some settled body carries it. |
| Storefront.RatingsMapLastWins | app/page.js:120-125 | The entry for a key is the summary of the last body carrying that key. |
| Storefront.WithRatings | app/page.js:156-160 | Id, slug, title and price are unchanged. A product with no map entry gets `ratings = []` and `average_rating = 0`; otherwise it gets its entry's values. |
| Storefront.AttachRatings | app/page.js:156-160 | Keeps the product count and order. Product k is `WithRatings(products[k])`. |
| Storefront.LoadedProducts | app/page.js:148-165 | The stored list has the fetched count and order, with ids, slugs and titles unchanged. |
| Storefront.ProductGetsOwnRatings | app/page.js:101-162 | Assume slugs are distinct and every successful body names its own slug. Then each product gets the ratings of its own request, whatever the arrival order. A failed request leaves `[]` and 0. |
| Storefront.StorefrontPage.constructor | app/page.js:65-70 | The page starts with the stored cart if one is stored, otherwise an empty one, and with slide 0. |
| Storefront.StorefrontPage.AddToCart | app/page.js:203-230 | The cart becomes the merge result and is written under `cart`. No other storage key changes and the page invariant is kept. |
| Storefront.StorefrontPage.RemoveFromCart | app/page.js:251-255 | The cart becomes the lines with a different id, and that cart is written under `cart`. |
| Storefront.StorefrontPage.UpdateQuantity | app/page.js:258-267 | Below 1, neither the cart nor storage changes. Otherwise the cart is updated and written under `cart`. |
| Storefront.StorefrontPage.CartTotal | app/page.js:270-273 | The drawer total equals the sum of the line subtotals. |
| Storefront.StorefrontPage.BadgeCount | app/page.js:390-393 | The badge shows the sum of quantities, which is never less than the number of lines. |
| Storefront.StorefrontPage.FilteredProducts | app/page.js:276-284 | Shows exactly the matching products for the current search box. |
| Storefront.StorefrontPage.GoToNextSlide | app/page.js:286-288 | The slide index takes the next step and stays in range. The rotation timer (app/page.js:77-79) takes the same step. |
| Storefront.StorefrontPage.GoToPrevSlide | app/page.js:290-292 | The slide index takes the previous step and stays in range. |
| Storefront.StorefrontPage.FetchProducts | app/page.js:134-175 | On failure: empty list and an error message. On success: the ratings-merged list and no error. In both cases `loading` ends false. |
| Storefront.StorefrontPage.DetailDecrement | app/page.js:935-945 | With a first line above 1, the cart becomes `updateQuantity(line.id, quantity - 1)` and is written under `cart`. Otherwise neither the cart nor storage changes. The shown quantity drops by one but never below 1, and the number of lines is unchanged. |
| Storefront.StorefrontPage.DetailIncrement | app/page.js:971-986 | With a line, the cart becomes `updateQuantity(line.id, quantity + 1)`; without one, `addToCart(product)`. Either way the new cart is written under `cart` and no other key changes. The shown quantity rises by exactly one. |
| CheckoutPage.CartPage.constructor | app/cart/page.js:24-30 | The page starts with the stored cart if one is stored, otherwise an empty one, and with an empty form. |
| CheckoutPage.CartPage.UpdateQuantity | app/cart/page.js:32-41 | Below 1, neither the cart nor storage changes. Otherwise only matching lines' quantities change and the cart is written under `cart`. |
| CheckoutPage.CartPage.RemoveItem | app/cart/page.js:43-47 | The cart becomes the lines with a different id, written under `cart`. |
| CheckoutPage.CartPage.CalculateTotal | app/cart/page.js:53-59 | The total equals the sum of `calculateSubtotal` over the lines. |
| CheckoutPage.CartPage.SubmitOrder | app/cart/page.js:61-137 | See the checkout paragraph below this table. |
| CheckoutPage.SubmitTwice | app/cart/page.js:76-82 | Two submissions in one tab send the same session id, whatever the first one's outcome. |
| Dashboard.WithStatus | app/dashboard/page.js:93-95 | Keeps the order count. Orders with the id get the new status and everything else in them is unchanged. All other orders are unchanged. |
| Dashboard.FilterOrders | app/dashboard/page.js:114-120 | Keeps exactly the orders whose name or email contains the term ignoring case, or whose phone or decimal id contains it as typed. |
| Dashboard.FilterOrdersKeepsOrder | app/dashboard/page.js:114-120 | The filtered list is an order-preserving subsequence. Each matching order keeps its multiplicity. |
| Dashboard.EmptySearchKeepsAllOrders | app/dashboard/page.js:119 | The empty term lists every order, because every id includes the empty string. |
| Dashboard.NameMatchIgnoresCase | app/dashboard/page.js:116 | Names that differ only in letter case match the same searches. |
| Dashboard.BadgeClass | app/dashboard/page.js:269-279 | "delivered", "processing", "shipped" and "cancelled" each map to their own class, and only they do. Every other status, "pending" included, is yellow. |
| Dashboard.DashboardPage.constructor | app/dashboard/page.js:26-31 | The page starts with no orders and no selection, and `loading` set. |
| Dashboard.DashboardPage.FetchOrders | app/dashboard/page.js:37-69 | A non-empty list replaces the orders and selects the first one. An empty list clears the orders and keeps the selection. A failure keeps both and sets the error. |
| Dashboard.DashboardPage.UpdateOrderStatus | app/dashboard/page.js:71-112 | Returns whether the backend accepted the change and its response body parsed. If not, orders and selection are unchanged. Otherwise orders become `WithStatus`, and the selection gets the new status only when its id matches. `statusUpdating` ends false. |
| Dashboard.DashboardPage.SelectOrder | app/dashboard/page.js:133-135 | The clicked order becomes the selection. |
| Dashboard.DashboardPage.FilteredOrders | app/dashboard/page.js:114-120 | Shows exactly the matching orders for the current search box. |
| Text.DecimalString | app/dashboard/page.js:119 | An order id renders as a non-empty string of decimal digits that spells the id (`DigitsValue` reads it back) with no leading zero. |

What `CheckoutPage.CartPage.SubmitOrder` states, case by case:

- **Empty name or phone.** No request is sent and storage is unchanged.
- **Otherwise.** The request body is built from the cart, and the session id
  in it is also the one left in storage.
- **The backend rejects the request.** Nothing else changes.
- **The backend accepts the request.** One pending record with the computed
  total is appended to `placedOrders`, and `cart` is removed.

## Left out

- Network requests, `Promise.all` and async ordering. The backend is a
  parameter: a settled outcome per request. Stale closures are not modelled:
  each add is applied to the cart left by the one before. In the page, two
  adds inside `addToCart`'s 100 ms delay both start from the same `cart`
  array. Increments of an existing line both land, because the incremented
  line object is shared (see Aliasing below). A line appended by the first
  add is lost when the second writes its own copy of the old array. Late
  responses are not modelled either.
- DOM and timers: the fly-to-cart animation, `getBoundingClientRect`, the
  early return when no cart button is found (app/page.js:189) and the
  rotation interval's timing. The interval's step itself is modelled.
- Floating point: `parseFloat` and `toFixed(2)`. Prices are exact integer
  cents.
- `Math.random`, `Date.now()` and `new Date().toISOString()` are
  parameters.
- JSON serialization. Storage holds typed values, and each key the pages use
  holds what the pages write under it. Malformed or foreign values are not
  modelled, including the uncaught `JSON.parse` throw when the page loads.
- Aliasing. `addToCart` copies the array shallowly (app/page.js:213-214), so
  the incremented line object is shared with the previous state array. The
  model works on values and does not capture that sharing.
- `toLowerCase`: only ASCII letters are lowered.
- Categories (app/page.js:84-99, 177-180), the category query parameter
  (app/page.js:137-140), `openProductDetail`/`closeProductDetail`
  (app/page.js:294-323) and `formatDate` (app/dashboard/page.js:122-131).
  These are backend queries, display or locale formatting.
- The outer `catch` of `fetchProductRatings` (app/page.js:128-131). It is
  reached when a successful ratings response has the JSON body `null`:
  reading `data.id` (app/page.js:120-121) throws, the function returns `{}`,
  and every product, even those whose requests succeeded, gets `[]` and 0.
  A settled body is modelled as a record, so a `null` body cannot occur.
- A ratings average of `NaN`.
- `alert`/`console` messages, the contents of the `updatedStatus` body
  (whether it parses is part of `responseOk`, app/dashboard/page.js:90), and the
  dashboard's unused `sessionId` read (app/dashboard/page.js:42, 90).
- Product fields that no logic reads (unit, image, stock, category,
  description).
- next.config.js, which is framework configuration.
