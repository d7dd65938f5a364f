# Storefront cart, checkout and catalog state — a Dafny model

This project models the state logic of a React storefront:

- **Client cart slice** (`CartSlice`). A list of cart lines and its five reducers: `addToCart`, `removeFromCart`, `increaseQty`, `decreaseQty` and `clearCart`.
  - Each reducer is a pure function on the list. That function is the specification.
  - Each reducer is also a method of the class `CartStore`, which updates its `items` field in place. Each method is proved equal to its specification.
  - Lemmas prove the slice's invariants: product ids stay unique, and every line holds at least one unit.
- **Checkout page** (`Checkout`).
  - The subtotal is a left fold of price times quantity.
  - The order payload carries the cart's lines in two shapes and two equal totals.
  - The summary box shows shipping as 0 and the total equal to the subtotal.
  - The place-order flow checks its two guards, clears the cart only on success, and sets `loading` and `error` along the way.
- **Server-backed cart page** (`ServerCart`).
  - Fetched lines are sorted by `cartId`; the sort keeps every line and the total.
  - A requested quantity is clamped to at least 1.
  - The page holds the +/- button targets, the reload after every change, and the visibility of the checkout button.
- **Product and order slices** (`ProductSlice`, `OrderSlice`).
  - Each has an initial state, the pending/fulfilled/rejected transitions, and the fallback for the reject message.
  - Each transition is a method that may change only the fields its case assigns.
- **Admin products page** (`AdminProducts`).
  - Classifying an image string as placeholder, picture or text.
  - Checking the create form and resetting it after a create.
  - The Prev/Next clamps.
  - Normalising the three shapes a product-list response may take.
  - The list-load error message, and the edit modal's open/close state.
- **JavaScript value conventions** (`JsValues`): optional values, and the `||` and `??` fallbacks the code reads them through. With `||`, `""` and `0` fall back; with `??`, only a missing value does.

Network requests are not modelled as calls. Each request is reduced to its outcome (success with the response, or failure with the server's message if any), passed in as a parameter:

- `placeOrder` and the admin page's `fetchProducts` are split at their `await`: one method runs up to the request and returns what would be sent, another takes the outcome and runs the part after it.
- `loadCart`, `updateQty`, `removeItem`, `handleCreate` and the two slice thunks are single methods that receive the outcome.

The signed-in user on the checkout page is a boolean parameter. Prices and quantities are integers.

Two facts about the code shape the model:

- The checkout computes no tax and no delivery surcharge. Shipping is shown as 0 and the total equals the subtotal.
- The client cart slice has no reducer that sets a quantity, and none of its reducers reports a "not found" error. `increaseQty` and `decreaseQty` on an absent id change nothing. Only the server-backed cart page sends an absolute quantity, clamped to at least 1.

## Model

| member | source | states |
|---|---|---|
| CartSlice.IndexOf | src/redux/slices/cartSlice.ts:25 | `find` by id: no result exactly when no line has the id; otherwise the position of a line with the id, before which no line has it |
| CartSlice.IndexOfUnique | src/redux/slices/cartSlice.ts:25 | with unique ids, `find` for a line's id stops at that line |
| CartSlice.Added | src/redux/slices/cartSlice.ts:24-32 | a new id appends the payload unchanged at the end; with unique ids, an existing id raises that line's quantity by one and changes nothing else; unique ids stay unique; quantities stay at least 1 when the payload has at least 1 |
| CartSlice.AddedExisting | src/redux/slices/cartSlice.ts:25-28 | adding an id already present keeps the length, raises that line by exactly one whatever the payload's quantity, and leaves every other line as it was |
| CartSlice.Removed | src/redux/slices/cartSlice.ts:34-36 | no kept line has the id, every kept line comes from the cart, the list never grows, and an absent id changes nothing |
| CartSlice.RemovedExisting | src/redux/slices/cartSlice.ts:34-36 | with unique ids, removing a line's id drops exactly that line and keeps the lines before and after it in order |
| CartSlice.RemovedKeepsOthers | src/redux/slices/cartSlice.ts:35 | every line with a different id survives the removal |
| CartSlice.RemovedConcat | src/redux/slices/cartSlice.ts:35 | the filter works part by part, so the surviving lines keep their original order |
| CartSlice.RemovedIdempotent | src/redux/slices/cartSlice.ts:34-36 | removing the same id twice is the same as removing it once |
| CartSlice.RemovedKeepsUnique | src/redux/slices/cartSlice.ts:34-36 | removal keeps ids unique |
| CartSlice.RemovedKeepsPositive | src/redux/slices/cartSlice.ts:34-36 | removal keeps every quantity at least 1 |
| CartSlice.Increased | src/redux/slices/cartSlice.ts:38-41 | the length and ids are kept and no quantity falls; an absent id changes nothing and is not an error; with unique ids the matching line gains exactly one unit and nothing else changes |
| CartSlice.Decreased | src/redux/slices/cartSlice.ts:43-46 | the length and ids are kept; each quantity stays or drops by exactly one to a value of at least 1, so no line is removed; with unique ids only the matching line above one unit loses one; at one unit or for an absent id nothing changes |
| CartSlice.ReduceKeepsInvariants | src/redux/slices/cartSlice.ts:24-50 | every reducer keeps ids unique, and keeps quantities at least 1 when an added payload carries at least one unit |
| CartSlice.ReduceAllKeepsInvariants | src/redux/slices/cartSlice.ts:24-50 | any sequence of reducers from a cart with unique ids keeps them unique, and keeps quantities at least 1 when every added payload has at least 1 |
| CartSlice.AddRepeatedExisting | src/redux/slices/cartSlice.ts:25-28 | adding a product already in the cart n times raises exactly its line by n |
| CartSlice.AddRepeatedAbsent | src/redux/slices/cartSlice.ts:25-31 | adding a new product n + 1 times makes one new last line holding the payload's quantity plus n |
| CartSlice.Reduce | src/redux/slices/cartSlice.ts:20-57 | the slice reducer, one action at a time: an add keeps the length or appends its payload; a remove never grows the list and leaves no line with the id; increase and decrease keep the length and every line's id; clear leaves the list empty |
| CartSlice.ReduceAll | src/redux/slices/cartSlice.ts:20-57 | the reducer over a sequence of actions: the list grows by at most one line per action |
| CartSlice.ClearLastEmpties | src/redux/slices/cartSlice.ts:48-50 | whatever came before, a sequence of actions ending in `clearCart` leaves an empty cart |
| CartSlice.CartStore.constructor | src/redux/slices/cartSlice.ts:16-18 | the initial cart is empty and satisfies the invariant |
| CartSlice.CartStore.AddToCart | src/redux/slices/cartSlice.ts:24-32 | the in-place bump or push leaves exactly the list `Added` specifies and keeps the invariant for a payload of at least one unit |
| CartSlice.CartStore.RemoveFromCart | src/redux/slices/cartSlice.ts:34-36 | the filtering loop leaves exactly the list `Removed` specifies and keeps the invariant |
| CartSlice.CartStore.IncreaseQty | src/redux/slices/cartSlice.ts:38-41 | the in-place bump leaves exactly the list `Increased` specifies and keeps the invariant |
| CartSlice.CartStore.DecreaseQty | src/redux/slices/cartSlice.ts:43-46 | the guarded in-place decrement leaves exactly the list `Decreased` specifies and keeps the invariant |
| CartSlice.CartStore.ClearCart | src/redux/slices/cartSlice.ts:48-50 | the list is empty afterwards, so clearing twice is clearing once |
| CartSlice.CartStore.Dispatch | src/redux/slices/cartSlice.ts:54-57 | a dispatched action leaves the list the reducer specifies and keeps the invariant |
| CartSlice.Find | src/redux/slices/cartSlice.ts:25 | the front-to-back scan returns the position `IndexOf` specifies |
| Checkout.LineTotal | src/pages/Checkout.tsx:17 | one line's price times quantity: non-negative for a non-negative price and quantity, 0 when either is 0 |
| Checkout.Subtotal | src/pages/Checkout.tsx:17 | the fold of price times quantity is 0 for an empty cart |
| Checkout.SubtotalNonNegative | src/pages/Checkout.tsx:17 | with non-negative prices and quantities the subtotal is non-negative |
| Checkout.SubtotalConcat | src/pages/Checkout.tsx:17 | the subtotal of two runs of lines is the sum of their subtotals |
| Checkout.AddedNewSubtotal | src/pages/Checkout.tsx:17 | after `addToCart` of a new product the subtotal grows by the payload's line total |
| Checkout.AddedExistingSubtotal | src/pages/Checkout.tsx:17 | after `addToCart` of a product in the cart the subtotal grows by one unit price |
| Checkout.RemovedSubtotal | src/pages/Checkout.tsx:17 | after `removeFromCart` the subtotal drops by exactly the removed line's total |
| Checkout.IncreasedSubtotal | src/pages/Checkout.tsx:17 | after `increaseQty` the subtotal grows by one unit price |
| Checkout.DecreasedSubtotal | src/pages/Checkout.tsx:17 | after `decreaseQty` the subtotal drops by one unit price, or not at all for a single-unit line |
| Checkout.BuildPayload | src/pages/Checkout.tsx:22-43 | both line lists have the cart's length and, entry by entry in cart order, the line's id, quantity and price; `total` and `totalAmount` both equal the subtotal |
| Checkout.PayloadTotalsAgree | src/pages/Checkout.tsx:35-42 | recomputing the total from either line list gives the total the payload carries |
| Checkout.DisplayedSummary | src/pages/Checkout.tsx:108-122 | shipping is 0, the displayed total is subtotal plus shipping, and the subtotal shown is the payload's total |
| Checkout.CheckoutPage.constructor | src/pages/Checkout.tsx:14-15 | the page starts not loading and without an error |
| Checkout.CheckoutPage.PlaceOrder | src/pages/Checkout.tsx:45-62 | without a user: the login error, nothing sent, even for an empty cart; with a user and an empty cart: the empty-cart error, nothing sent; otherwise the error cleared, `loading` set and the cart's payload sent; the cart is never changed |
| Checkout.CheckoutPage.SettleOrder | src/pages/Checkout.tsx:66-78 | `loading` is false after either outcome; success empties the cart; failure keeps the cart and shows the server's message, or the fallback when there is none |
| ServerCart.Insert | src/pages/Cart.tsx:32 | inserting into a sorted list keeps it sorted and adds exactly that line |
| ServerCart.SortByCartId | src/pages/Cart.tsx:26-32 | the result is in ascending `cartId` order and is a permutation of the input, of the same length |
| ServerCart.Total | src/pages/Cart.tsx:58 | the fold of price times quantity is 0 for an empty cart |
| ServerCart.TotalConcat | src/pages/Cart.tsx:58 | the total of two runs of lines is the sum of their totals |
| ServerCart.TotalInsert | src/pages/Cart.tsx:58 | inserting a line adds exactly its line total |
| ServerCart.SortKeepsTotal | src/pages/Cart.tsx:26-58 | sorting the fetched lines does not change the total shown |
| ServerCart.ClampQty | src/pages/Cart.tsx:44 | the quantity sent is at least 1: the requested one when it is at least 1, else 1 |
| ServerCart.MinusTarget | src/pages/Cart.tsx:194 | the "-" button asks for one fewer above one unit and for 1 otherwise, never less than 1 |
| ServerCart.PlusTarget | src/pages/Cart.tsx:203 | the "+" button asks for one more on a line of zero or more units, and never for less than 1 |
| ServerCart.ButtonTargets | src/pages/Cart.tsx:192-206 | on the same line, "+" never asks for a smaller quantity than "-" |
| ServerCart.CartPage.constructor | src/pages/Cart.tsx:16 | the page starts with an empty cart |
| ServerCart.CartPage.LoadCart | src/pages/Cart.tsx:19-37 | the cart shown is the response sorted by `cartId`, a permutation of it of the same length |
| ServerCart.CartPage.UpdateQty | src/pages/Cart.tsx:43-51 | the clamped quantity, at least 1, is sent; a successful reload replaces the cart, a failed request leaves it |
| ServerCart.CartPage.RemoveItem | src/pages/Cart.tsx:53-56 | the line's `cartId` is sent; a successful reload replaces the cart, a failed request leaves it |
| ServerCart.CartPage.CheckoutVisible | src/pages/Cart.tsx:219-226 | the checkout button shows exactly when the cart has a line; when it is hidden the total is 0 |
| ProductSlice.RejectValue | src/redux/slices/productSlice.ts:32-34 | the reject value is the server's non-empty message, else "Failed to load products"; it is never empty |
| ProductSlice.InitialState | src/redux/slices/productSlice.ts:18-22 | no products, not loading, no error |
| ProductSlice.Reduce | src/redux/slices/productSlice.ts:43-56 | `loading` is true exactly after pending; only fulfilled replaces the products, with its payload; only rejected sets the error, to its message; every other field is kept |
| ProductSlice.ReduceAll | src/redux/slices/productSlice.ts:43-56 | after any sequence of transitions the products are the starting ones or the payload of one of the fulfilled actions, and the error is the starting one or the message of one of the rejected actions |
| ProductSlice.Settled | src/redux/slices/productSlice.ts:28-35 | a response settles as fulfilled with its data; a failure settles as rejected with the reject value |
| ProductSlice.ErrorIsNeverCleared | src/redux/slices/productSlice.ts:44-55 | once an error is set, no later sequence of transitions clears it |
| ProductSlice.LoadingFollowsLastAction | src/redux/slices/productSlice.ts:44-55 | after any non-empty sequence of transitions, `loading` is true exactly when the last one was pending |
| ProductSlice.ProductStore.constructor | src/redux/slices/productSlice.ts:18-22 | no products, not loading, no error |
| ProductSlice.ProductStore.OnPending | src/redux/slices/productSlice.ts:45-47 | only `loading` changes, to true |
| ProductSlice.ProductStore.OnFulfilled | src/redux/slices/productSlice.ts:48-51 | the products become the payload and `loading` false; the error is untouched |
| ProductSlice.ProductStore.OnRejected | src/redux/slices/productSlice.ts:52-55 | the error becomes the payload and `loading` false; the products are untouched |
| ProductSlice.ProductStore.FetchProducts | src/redux/slices/productSlice.ts:25-37 | one fetch is pending followed by the settled transition for its outcome |
| OrderSlice.RejectValue | src/redux/slices/orderSlice.ts:24 | the reject value is the server's non-empty message, else "Error"; it is never empty |
| OrderSlice.InitialState | src/redux/slices/orderSlice.ts:10-14 | no orders, not loading, no error |
| OrderSlice.Reduce | src/redux/slices/orderSlice.ts:33-46 | `loading` is true exactly after pending; only fulfilled replaces the orders, with its payload; only rejected sets the error, to its message; every other field is kept |
| OrderSlice.ReduceAll | src/redux/slices/orderSlice.ts:33-46 | after any sequence of transitions the orders are the starting ones or the payload of one of the fulfilled actions, and the error is the starting one or the message of one of the rejected actions |
| OrderSlice.Settled | src/redux/slices/orderSlice.ts:19-26 | a response settles as fulfilled with its data; a failure settles as rejected with the reject value |
| OrderSlice.LastFulfilledWins | src/redux/slices/orderSlice.ts:34-45 | whatever came before, a final fulfilled transition leaves its payload as the orders and `loading` false |
| OrderSlice.OrdersKeptWithoutFulfilled | src/redux/slices/orderSlice.ts:34-45 | transitions without a fulfilled one never change the orders shown |
| OrderSlice.OrderStore.constructor | src/redux/slices/orderSlice.ts:10-14 | no orders, not loading, no error |
| OrderSlice.OrderStore.OnPending | src/redux/slices/orderSlice.ts:35-37 | only `loading` changes, to true |
| OrderSlice.OrderStore.OnFulfilled | src/redux/slices/orderSlice.ts:38-41 | the orders become the payload and `loading` false; the error is untouched |
| OrderSlice.OrderStore.OnRejected | src/redux/slices/orderSlice.ts:42-45 | the error becomes the payload and `loading` false; the orders are untouched |
| OrderSlice.OrderStore.FetchOrders | src/redux/slices/orderSlice.ts:17-27 | one fetch is pending followed by the settled transition for its outcome |
| AdminProducts.RenderImage | src/pages/AdminProducts.tsx:147-155 | placeholder exactly for a missing or empty string; a picture exactly when the string begins with "http" or "/" (prefix only), showing that string; otherwise the string as text |
| AdminProducts.CreateFormValid | src/pages/AdminProducts.tsx:70 | the form passes exactly when the name is non-empty and the price is neither blank nor not-a-number |
| AdminProducts.CreateRequest | src/pages/AdminProducts.tsx:70-81 | nothing is sent exactly when the name is empty or the price is blank or not a number, so a negative price passes; otherwise the form's fields with the numeric price |
| AdminProducts.PrevPage | src/pages/AdminProducts.tsx:256 | `max(1, page - 1)`: never below 1, one page back when there is one |
| AdminProducts.NextPage | src/pages/AdminProducts.tsx:262 | `min(totalPages, page + 1)`: never past the last page, one page on when there is one |
| AdminProducts.PagerStaysInRange | src/pages/AdminProducts.tsx:254-264 | from a page in `[1, totalPages]` both targets stay in range; each stays put only at its end; with more than one page they differ |
| AdminProducts.Normalise | src/pages/AdminProducts.tsx:39-53 | a plain array gives page 1 of 1; an object gives its products, or none; with both `products` and `pagination` the page is `pagination.currentPage`, or `p` when it is missing or 0, and the count is `pagination.totalPages`, or 1 when it is missing or 0, so a zero reads as missing and non-negative numbers give page and count at least 1; otherwise the requested page and the body's `totalPages ?? 1`, a zero kept |
| AdminProducts.LoadErrorMessage | src/pages/AdminProducts.tsx:56 | the response's message, else the error's message, else "Failed to load products"; never empty |
| AdminProducts.AdminProductsPage.constructor | src/pages/AdminProducts.tsx:15-29 | no products, page 1 of 1, loading, no error, an empty form, the modal closed |
| AdminProducts.AdminProductsPage.BeginFetch | src/pages/AdminProducts.tsx:33-37 | the requested page is fetched with `loading` set and the error cleared |
| AdminProducts.AdminProductsPage.SettleFetch | src/pages/AdminProducts.tsx:37-59 | `loading` is false either way; success shows the normalised listing; failure keeps the listing and shows the load-error message |
| AdminProducts.AdminProductsPage.ChangePage | src/pages/AdminProducts.tsx:338-341 | the page is set and a fetch of it begins |
| AdminProducts.AdminProductsPage.HandleCreate | src/pages/AdminProducts.tsx:68-95 | an invalid form sends nothing and changes nothing; a valid one sends its fields; success resets all four fields and refetches the current page; failure keeps the form |
| AdminProducts.AdminProductsPage.OpenEdit | src/pages/AdminProducts.tsx:113-116 | the modal is open on the product |
| AdminProducts.AdminProductsPage.CloseEdit | src/pages/AdminProducts.tsx:118-121 | the modal is closed and holds no product |
| AdminProducts.AdminProductsPage.PagerShown | src/pages/AdminProducts.tsx:254-266 | the controls show exactly when there is more than one page; then, from a page in range, Prev and Next lead to different pages in range |

## Left out

- Network requests and their timing. Each axios call is reduced to its outcome, and races between overlapping reloads are not modelled.
- Requests that are started but not awaited. `fetchProducts(page)` after a create only reaches its request-sending part (`BeginFetch`) in the model. The reload after a cart-page update is modelled by its outcome.
- `Number(...)` coercion of fetched and typed values, `NaN`, and `toFixed(2)` formatting. Prices, quantities and page numbers are integers, so JavaScript's double-precision rounding of very large values is not modelled.
- Interface-only behaviour: JSX rendering, styles, `alert`, `window.confirm`, `navigate`, and the checkout button's `disabled={loading}`.
- The auth slice that supplies the checkout's user. It is reduced to a boolean.
- `handleDelete`, `handleDeleteConfirm` and `submitEdit` on the admin page. Each is a confirmation dialog or a request followed by a reload of the current page, already covered by `BeginFetch`. The `editLoading` flag and the field-by-field edits of the modal form are left out for the same reason.
- The per-keystroke `onChange` handlers of the create form. The model starts from the form's contents at submit time.
- The first fetch on mounting the admin page. It is `BeginFetch(1)` on a freshly constructed page and is not a separate member.
- Server messages that are not strings. The reject values and error messages assume the server's `message` is a string or missing.
- ServerCart.SortByCartId: proves sorted order and permutation, not that lines with equal `cartId` keep their fetched order as the engine's stable sort does.
- OrderSlice: orders are kept as the server sends them, so their type is a parameter and nothing is proved about their contents.
