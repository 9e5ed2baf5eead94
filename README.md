# Grocery storefront: cart rows, checkout commit, cart badge, catalog pages

This project is a Dafny model of the cart and checkout logic of a React
grocery storefront. Four views are covered:

- **Checkout page** (`checkout.dfy`, module `Checkout`). It computes the
  lines to check out: the cart lines whose id is selected, in cart order. It
  computes the order total as the cart context's subtotal plus a flat 50.0
  shipping fee. Its order commit (`handleConfirmOrderPlacement`) is the class
  `CheckoutPage`:
  - `ConfirmOrder` refuses an empty selection.
  - `CheckStock` walks the catalog with a `stockSufficient` flag and raises
    one warning per short product.
  - `Commit` then writes everything at once: the new catalog (in local storage,
    and in the `products` state when `setProducts` is given), the receipt, and the removal of
    the selected lines.
- **Cart row** (`cart_item.dfy`, module `CartItem`). It covers the selected
  flag, the selling price `price * (1 - discount/100)`, the line total, and
  the remove / decrease / increase buttons. Each button is modelled by the
  calls it makes into the cart context.
- **Navigation bar** (`navbar.dfy`, module `Navbar`). It covers the item count
  (a `reduce` over the cart), the "99+" badge and when the badge is shown,
  admin routes, when the cart link is shown, and the login gate on the cart
  link.
- **Catalog page** (`product_list.dfy`, module `ProductList`). It covers the
  page window `products.slice((p-1)*n, p*n)`, including JavaScript's slice
  rules for negative indices. It also covers the total passed to the
  pagination control and the reset to page 1 when the category changes.

`shop.dfy` (module `Shop`) holds the shared values: `Product`, `CartLine`,
and the JavaScript idiom `x || 0`. A numeric field that may be missing (or
not a number) is an `Option`, and `OrZero` / `RealOrZero` read None as 0.
Prices are `real`. Stock and quantities are unbounded integers.

Browser dialogs and callbacks are inputs or recorded outputs:
- the answer of `window.confirm` is the parameter `confirmed`;
- `alert` and `showAlert` messages are a returned flag or the page's
  `alerts` log;
- `navigate('/login')` is a returned redirect target;
- `event.preventDefault()` is a returned flag.

The cart context (src/context/CartContext) is not modelled, so its
mutators appear only as calls (`CartCall`). The one exception is `removeSelectedItems`,
whose effect is taken as "the cart keeps the lines whose id is not selected,
and the selection becomes empty".

Notes on what the code does:
- The stock check walks the catalog, not the selected lines. A selected line
  whose id matches no product is neither checked nor applied
  (`UnmatchedLineIgnored`; `UnmatchedLinesPass` for a cart none of whose
  lines matches a product).
- A failed check raises one warning per short product, carrying the product's
  name and its available stock. There is no structured violation list.
- The subtotal on the receipt is the cart context's `selectedSubtotal`. It is
  not recomputed from the lines.
- The increase button checks against the stock cached on the cart line. It
  does not use live stock.
- The stock of an ordered product becomes `max(stock - qty, 0)`. A non-numeric
  stock or quantity reads as 0. After a passed check this is exactly
  `stock - qty` (`CommittedStock`).

## Model

| member | source | states |
|---|---|---|
| `CartItem.IsSelected` | src/components/CartItem.js:20 | a row is selected exactly when some entry of `selectedItems` equals its id |
| `CartItem.SellingPrice` | src/components/CartItem.js:50-53 | missing price gives 0; missing discount gives the full price; with a non-negative price and a discount in [0,100] the selling price lies between 0 and the price; a 100% discount gives 0 |
| `CartItem.SellingPriceAntitone` | src/components/CartItem.js:53 | for a non-negative price, a larger discount never gives a higher selling price |
| `CartItem.LineTotal` | src/components/CartItem.js:88 | a missing or zero quantity totals 0; with a non-negative quantity, a non-negative price and a discount in [0,100], the line total lies between 0 and quantity times the undiscounted price |
| `CartItem.HandleRemove` | src/components/CartItem.js:23-27 | `removeFromCart(id)` is called once when confirmed, and nothing is called when declined |
| `CartItem.HandleDecrease` | src/components/CartItem.js:29-35 | at quantity exactly 1 the confirmation is asked and `decreaseQuantity` is never called (removal only if confirmed); otherwise `decreaseQuantity(id)` is called once and nothing is asked |
| `CartItem.HandleIncrease` | src/components/CartItem.js:37-47 | an alert and no call exactly when quantity+1 exceeds the line's stock (missing values read as 0); otherwise exactly one `increaseQuantity(id)`, so the call is made only when quantity+1 is within the line's stock |
| `Checkout.LinesBySelection` | src/pages/Checkout.js:19 | the filtered cart is never longer than the cart |
| `Checkout.LinesBySelectionMember` | src/pages/Checkout.js:19 | a line is kept exactly when it is in the cart and its id is (for `removeSelectedItems`: is not) in the selection |
| `Checkout.ItemsToCheckout` | src/pages/Checkout.js:17-19 | a non-array cart or selection gives no lines; otherwise exactly the cart lines whose id is selected |
| `Checkout.CheckedOutRowsAreTicked` | src/pages/Checkout.js:19 | a line is checked out exactly when it is in the cart and its cart row shows it as selected |
| `Checkout.LinesBySelectionAppend` | src/pages/Checkout.js:19 | selection distributes over concatenation, so the checked-out lines keep cart order |
| `Checkout.SelectionSplitsCart` | src/pages/Checkout.js:70 | the checked-out lines and the lines left after `removeSelectedItems` together are the old cart, as a multiset |
| `Checkout.OrderTotal` | src/pages/Checkout.js:21-23 | total minus the 50.0 fee is the subtotal (missing reads as 0); a missing subtotal gives 50.0 |
| `Checkout.FindLine` | src/pages/Checkout.js:36 | a line that is found is one of the lines to check out and carries the product's id |
| `Checkout.IsShort` | src/pages/Checkout.js:36-41 | a short product has a line with its id ordering more than its stock; a product no line orders is never short |
| `Checkout.UpdateProduct` | src/pages/Checkout.js:36-48 | the mapped product keeps id and name; an unordered product is returned as is; an ordered one gets a non-negative stock that is stock minus quantity whenever it is positive, and never below it |
| `Checkout.Warning` | src/pages/Checkout.js:41-44 | one product raises at most one warning, exactly when it is short, naming it and its stock |
| `Checkout.FindLineIsFirst` | src/pages/Checkout.js:36 | nothing is found exactly when no line has the id; otherwise the line found is the first one with that id |
| `Checkout.AlertsUpTo` | src/pages/Checkout.js:35-44 | walking the first n products raises at most n warnings |
| `Checkout.ShortageAlerts` | src/pages/Checkout.js:35-44 | the walk raises no more warnings than there are products |
| `Checkout.ShortPositions` | src/pages/Checkout.js:35-44 | the collected positions of short products lie among the first n |
| `Checkout.ShortPositionsMember` | src/pages/Checkout.js:36-41 | a position among the first n is collected exactly when its product is short |
| `Checkout.ShortageCount` | src/pages/Checkout.js:35-44 | exactly one warning per short product: over the first n products there are as many warnings as collected short positions |
| `Checkout.UpdatedUpTo` | src/pages/Checkout.js:35-48 | the first n products map to exactly n products |
| `Checkout.UpdatedProducts` | src/pages/Checkout.js:35-48 | `products.map` keeps the catalog's length |
| `Checkout.UpdatedUpToAt` | src/pages/Checkout.js:35-48 | entry k of the mapped catalog is product k updated, so no product moves |
| `Checkout.UpdateWithinStock` | src/pages/Checkout.js:36-46 | a product that is not short keeps its id and name, is untouched when not ordered, and otherwise drops by exactly the ordered quantity to a non-negative stock |
| `Checkout.AlertsComeFromShortProducts` | src/pages/Checkout.js:41-43 | every warning raised over the first n products names one of them whose ordered quantity exceeds its stock, and gives that stock |
| `Checkout.NoAlertsIffSufficient` | src/pages/Checkout.js:41-54 | over the first n products (the whole catalog for n = its length), no warning is raised exactly when none of them is short, which is exactly when the commit goes ahead |
| `Checkout.EveryShortageReported` | src/pages/Checkout.js:35-44 | every short product among the first n gets its own warning, not only the first |
| `Checkout.CommittedStock` | src/pages/Checkout.js:35-59 | after a passed check the new catalog has the same length, ids, names and order; an ordered product's stock is exactly stock minus quantity and is non-negative; other products are unchanged |
| `Checkout.UnmatchedLinesPass` | src/pages/Checkout.js:35-48 | a cart none of whose lines matches a product raises no warning and changes no product |
| `Checkout.UnmatchedLineIgnored` | src/pages/Checkout.js:35-48 | inserting, anywhere among the selected lines, a line whose id matches no product changes neither the warnings nor the updated catalog |
| `Checkout.FindLineSkips` | src/pages/Checkout.js:36 | `find` for another id looks past a line as if it were absent |
| `Checkout.ShortOrderExample` | src/pages/Checkout.js:41-44 | ordering 5 of a product with 3 in stock, beside a satisfiable line, warns about that product only |
| `Checkout.PlacedOrderExample` | src/pages/Checkout.js:46 | 2 ordered of 10 in stock leaves 8, and a 200 subtotal gives a 250 total |
| `Checkout.CheckoutPage.Items` | src/pages/Checkout.js:17-19 | lines to check out exist only when cart and selection are both arrays, and are no more than the cart's lines |
| `Checkout.CheckoutPage.constructor` | src/pages/Checkout.js:8-15 | the page starts with card payment, no order placed, no receipt, the modal closed and no alerts |
| `Checkout.CheckoutPage.ShowAlert` | src/pages/Checkout.js:43 | an alert is recorded only when the `showAlert` prop was given |
| `Checkout.CheckoutPage.ChoosePaymentMethod` | src/pages/Checkout.js:203-206 | the chosen payment method is stored |
| `Checkout.CheckoutPage.ShowConfirmOrderModal` | src/pages/Checkout.js:25 | the confirmation modal opens |
| `Checkout.CheckoutPage.CloseConfirmOrderModal` | src/pages/Checkout.js:26 | the confirmation modal closes |
| `Checkout.CheckoutPage.CheckProduct` | src/pages/Checkout.js:35-48 | the `map` callback returns the updated product, reports shortness exactly when `IsShort` holds, and raises that product's warning and nothing else |
| `Checkout.CheckoutPage.CheckStock` | src/pages/Checkout.js:34-49 | the loop yields the updated catalog, sets `stockSufficient` exactly when no product is short, and raises the warnings of `ShortageAlerts` in catalog order |
| `Checkout.CheckoutPage.Commit` | src/pages/Checkout.js:56-73 | writes the new catalog (state only if `setProducts` was given, storage always), the receipt with items, subtotal, 50.0 fee, total and payment method, removes the selected lines, empties the selection, marks the order placed and closes the modal |
| `Checkout.CheckoutPage.ConfirmOrder` | src/pages/Checkout.js:28-74 | empty selection: one warning and nothing else changes; a short product: its warnings, the modal closes and catalog, storage, cart, selection and receipt are unchanged; otherwise the whole order is applied as `Commit` states; the receipt invariant total = subtotal + fee holds throughout |
| `Navbar.AddQuantity` | src/components/Navbar.js:20 | one step of the fold gives a number exactly when the running count and the line's quantity are numbers, and then their sum |
| `Navbar.Reduce` | src/components/Navbar.js:20 | an empty cart gives the start value, and once the running count is NaN it stays NaN |
| `Navbar.ItemCount` | src/components/Navbar.js:20 | `itemCount` is a number exactly when every line has a quantity, and 0 for an empty cart |
| `Navbar.ReduceSums` | src/components/Navbar.js:20 | the fold from any start adds the sum of all quantities, or is NaN if some quantity is missing |
| `Navbar.ItemCountIsTotal` | src/components/Navbar.js:20 | `itemCount` is the sum of the line quantities, 0 for an empty cart, NaN if a quantity is missing |
| `Navbar.CheckoutSplitsCount` | src/components/Navbar.js:20 | the cart's unit count is the checked-out lines' count plus the remaining lines' count, so when every line has a quantity a checkout lowers the badge by the units ordered |
| `Navbar.CartBadgeText` | src/components/Navbar.js:21 | "99+" exactly when the count exceeds 99; otherwise the count itself, at most 99 |
| `Navbar.BadgeShown` | src/components/Navbar.js:97 | a shown badge never reads NaN, and a NaN or zero count shows no badge |
| `Navbar.BadgeReflectsCart` | src/components/Navbar.js:97 | a shown badge reads "99+" or a count in 1..99, and is shown only when some line has a positive quantity |
| `Navbar.IsAdminRoute` | src/components/Navbar.js:12 | holds exactly when the path starts with "/admin" |
| `Navbar.CartLinkShown` | src/components/Navbar.js:89 | hidden on admin routes and from admin users; shown otherwise, signed in or not |
| `Navbar.HandleCartClick` | src/components/Navbar.js:23-29 | with no user the click is always prevented; with the `showAlert` prop a warning is raised and the target is "/login", without it the unguarded call throws and nothing navigates; with a user nothing is intercepted |
| `ProductList.SliceIndex` | src/pages/ProductList.js:35 | a slice index is clamped to [0, length]; an in-range index is kept and a negative one counts back from the end |
| `ProductList.Slice` | src/pages/ProductList.js:35 | `slice` with in-range indices cuts as written, with negative indices counts back from the end, is empty when the end, read from the back if negative, does not pass the start, and otherwise is the run starting at the clamped start |
| `ProductList.CurrentProducts` | src/pages/ProductList.js:33-35 | the page shows only products of the list, no more than the list holds, and nothing when there is no list |
| `ProductList.TotalItems` | src/pages/ProductList.js:57 | the pagination total is the list length, 0 when there is no list |
| `ProductList.NoListEmptyPage` | src/pages/ProductList.js:35 | with no product list every page is empty |
| `ProductList.PageWindow` | src/pages/ProductList.js:33-35 | for a page p >= 1 and a size n >= 1, page p of size n shows positions (p-1)*n to p*n clipped to the list, never more than n products |
| `ProductList.FirstPagesArePrefix` | src/pages/ProductList.js:33-35 | pages 1..k together are the first k*n products in order |
| `ProductList.PagesCoverList` | src/pages/ProductList.js:33-35 | pages 1..ceil(len/n) together are the whole list in order |
| `ProductList.PageOfProduct` | src/pages/ProductList.js:33-35 | position i lies in page p's window exactly when p = i/n + 1, where it is entry i mod n, so pages are disjoint |
| `ProductList.PageAfterCategoryEffect` | src/pages/ProductList.js:29-31 | on the first render or a category change the page becomes 1; otherwise it is kept |
| `ProductList.CategoryChangeShowsFirstPage` | src/pages/ProductList.js:29-35 | after a category change the catalog shows its first n products |

## Left out

- JSX rendering, react-bootstrap components and routing are not modelled. Navigation is only a recorded target (`HandleCartClick`).
- The logo click (`handleLogoClick`) and the logout modal in the navigation bar are not modelled. They only navigate or toggle a dialog.
- The call to `handleResetFilters` after a successful order is not modelled. It is an application callback whose code is not part of this model.
- `JSON.stringify` and `localStorage` are not modelled as strings. The storage write is the assignment of the new product sequence to `storedProducts`.
- The form check `handleSubmit` is not modelled, because it depends on the browser's `checkValidity` and `querySelectorAll`.
- `getEstimatedDelivery` is not modelled, because it depends on the clock and on date formatting.
- `toFixed(2)` display rounding and floating-point arithmetic are not modelled. Prices are exact `real`s.
- `parseInt` of strings is not modelled. Numeric fields are integers or missing, and missing reads as 0, as `parseInt(x) || 0` reads a non-number.
- `null` quantities and string concatenation in the item-count `reduce` are not modelled. A missing quantity is `undefined`, which makes the count NaN (`NotANumber`).
- The cart context (`increaseQuantity`, `decreaseQuantity`, `removeFromCart`, `toggleSelectItem`, `removeSelectedItems`, `selectedSubtotal`) and `calculateSellingPrice` are not modelled. Their code is not part of this model: the mutators appear as calls, `removeSelectedItems` as the effect described above, and `selectedSubtotal` as an input.
- Reading the category id from the URL on the catalog page's first render is not modelled. It is URL parsing in the router.
- src/pages/HomePage.js is not modelled. It is layout plus a first-eight slice of the catalog.
- Stock races between shopping sessions are not modelled. The code has no concurrency.
- PageAfterCategoryEffect: the effect at src/pages/ProductList.js:29-31 also re-runs when the `setCurrentPage` prop changes identity; the model takes that setter as stable, so only the first render and a category change reset the page.
- A `null` `products` prop on the checkout page is not modelled. The default `[]` applies only to `undefined`, so `null` makes `products.map` throw; the model's `products` is always a sequence.
