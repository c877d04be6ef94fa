# Storefront cart, shop search and checkout — a Dafny model

This project models the three pieces of logic in a Next.js storefront that
have behaviour worth stating:

- **The client cart store** (`store/cart.ts`). The store is a list of cart lines
  `{id, name, price, qty}`. It has four actions that replace the list:
  `addItem`, `updateQuantity`, `removeItem` and `clearCart`. It also derives
  a total, `getTotalPrice`. Here the store is the class `Cart.CartStore`
  with one field, `items`. Each action's new list is a pure function:
  `WithQuantity`, `Without`, or an append. `Total` is the left-to-right `reduce`.
- **The shop page's search and add-to-cart** (`app/shop/page.tsx`).
  `filteredProducts` is `Shop.FilteredProducts`: a case-insensitive
  substring filter over the product list. `handleAddToCart` is
  `Shop.HandleAddToCart`: it always appends one line with quantity 1.
- **The checkout handler** (`app/api/checkout/route.ts`). `POST` runs its
  guards in order: session, user lookup, body parse, items check. These are
  `Checkout.Validate`. On success it writes exactly one `pending` order to the
  order table. `Checkout.Post` models this against `Checkout.Database`, which
  holds users keyed by e-mail, products, orders and the next order id.

The generic layer `Sequences` models JavaScript's `Array.prototype.filter` and
`map`. It also defines order-preserving subsequences and proves the filter
facts the three modules share.

The checkout is modelled as the code is written. The handler reads no
product row, checks no stock and decrements no stock. The order total is the
sum of the client-sent `price * qty`, and each order item records the client's
price.

Conventions: prices and quantities are unbounded integers (whole Rupiah).
Lowercasing is ASCII-only.

## Model

| member | source | states |
|---|---|---|
| `Cart.CartStore.constructor` | store/cart.ts:20 | The store starts with no lines |
| `Cart.CartStore.AddItem` | store/cart.ts:21-24 | The new lines are the old lines followed by the item; the total rises by `price * qty` of the item |
| `Cart.AddItemNeverMerges` | store/cart.ts:21-24 | The lines carrying the item's id are the old ones followed by the new line, so a duplicate id is never merged |
| `Cart.WithQuantity` | store/cart.ts:25-32 | After `updateQuantity(id, q)` every line has positive quantity; every line with `id` has quantity `q` (so none survive when `q <= 0`); every other surviving line is an unchanged old line; every old line of another id with positive quantity survives; every old line with `id` survives with quantity `q` when `q > 0`; no line is added and the order of the mapped list is kept |
| `Cart.UpdateQuantityOtherLines` | store/cart.ts:27-31 | The lines of other ids after `updateQuantity` are exactly, in order, the old lines of other ids whose quantity was positive |
| `Cart.UpdateQuantityOwnLines` | store/cart.ts:27-31 | The lines with `id` after `updateQuantity(id, q)` are the old lines with `id`, in order, with quantity `q` when `q > 0`, and there are none otherwise |
| `Cart.CartStore.UpdateQuantity` | store/cart.ts:25-32 | The new lines are `WithQuantity` of the old; every line has positive quantity; the list never grows |
| `Cart.Without` | store/cart.ts:33-36 | A line is kept by `removeItem(id)` exactly when it was present and its id differs from `id`; every copy of a line of another id is kept and every copy of a line with `id` is dropped; the kept lines keep their order |
| `Cart.RemoveItemIdempotent` | store/cart.ts:35 | Removing the same id twice equals removing it once |
| `Cart.RemoveAbsentItem` | store/cart.ts:35 | Removing an id no line carries leaves the lines unchanged |
| `Cart.RemoveItemTotal` | store/cart.ts:33-41 | Removing `id` lowers the total by exactly the total of the lines with `id` |
| `Cart.CartStore.RemoveItem` | store/cart.ts:33-36 | The new lines are `Without` of the old; no line has `id`; the total falls by the removed lines' total |
| `Cart.CartStore.ClearCart` | store/cart.ts:37-41 | After `clearCart` there are no lines and the total is 0 |
| `Cart.TotalAppend` | store/cart.ts:38-41 | The total of the lines plus one appended line is the old total plus that line's `price * qty` |
| `Cart.TotalConcat` | store/cart.ts:38-41 | The total of two concatenated line lists is the sum of their totals |
| `Cart.TotalSplit` | store/cart.ts:38-41 | The lines a predicate keeps and the lines it drops have totals that add up to the whole total |
| `Shop.FilteredProducts` | app/shop/page.tsx:41-43 | A product is in the filtered list exactly when it is in the catalogue and its lowered name includes the lowered query; every copy of a matching product is kept; the result is an order-preserving subsequence of the catalogue |
| `Shop.IncludesIffOccurs` | app/shop/page.tsx:42 | `includes` is true exactly when the query occurs at some position of the name |
| `Shop.FilteredProductsMatch` | app/shop/page.tsx:41-43 | A product is kept exactly when it is in the catalogue and the lowered query occurs somewhere in its lowered name (sound and complete) |
| `Shop.FilteredProductsNoNewElements` | app/shop/page.tsx:41 | The filtered list adds no product and duplicates none (its multiset is contained in the catalogue's) |
| `Shop.EmptyQueryKeepsAll` | app/shop/page.tsx:41-43 | An empty search keeps the whole catalogue, in order |
| `Shop.FilterTwiceIsOnce` | app/shop/page.tsx:41-43 | Filtering the filtered list with the same query changes nothing |
| `Shop.LowerIdempotent` | app/shop/page.tsx:42 | Lowering a lowered string changes nothing |
| `Shop.QueryCaseIgnored` | app/shop/page.tsx:42 | A query and its lowered form select the same products |
| `Shop.AddToCartRaisesTotal` | app/shop/page.tsx:45-52 | Adding a product's cart line raises the cart total by exactly the product's price |
| `Shop.HandleAddToCart` | app/shop/page.tsx:45-52 | The cart gets exactly one new line at the end, with the product's id, name and price and quantity 1; the total rises by the price |
| `Checkout.Validate` | app/api/checkout/route.ts:9-24 | 401 exactly when the session has no non-empty e-mail; 404 exactly when signed in but no user has that e-mail; 500 exactly when the user exists and the body cannot be parsed; 400 exactly when the parsed `items` is missing, not an array or empty; otherwise success with the looked-up user and the client's non-empty lines |
| `Checkout.OrderItemsOf` | app/api/checkout/route.ts:34-40 | One order item per cart line, in order, with `productId = id`, `quantity = qty` and `price = price` |
| `Checkout.OrderTotalMatchesItems` | app/api/checkout/route.ts:26-40 | The order's total, the `reduce` over the client's lines, equals the sum of `price * quantity` over the order items stored with it |
| `Checkout.Post` | app/api/checkout/route.ts:7-52 | A failed guard returns its error response and creates no order; a success appends exactly one order with a fresh id, the user's id, status `pending`, total `Total(lines)` and one item per line, and answers 200 with that order's id; the order's user is the one whose e-mail is the session's; users and products are never changed |

## Left out

- Zustand's `create`/`set`/`get` machinery, React state, `useEffect` and `fetch`: only the resulting `items` transitions and the filter expression are modelled.
- Rendering (JSX, loading state, empty-result messages) is not part of this model.
- Prices and quantities are JavaScript numbers; the model uses unbounded integers, so floating-point rounding, `NaN` quantities and fractional prices are not modelled.
- Shop.Lower: lowers only the ASCII letters A–Z; Unicode case mapping of `toLowerCase` is not modelled.
- Checkout.Post: does not model exceptions thrown by `getServerSession`, `prisma.user.findUnique` or `prisma.order.create`, which the handler's `catch` turns into a 500 response; only a body that `request.json()` cannot parse is modelled as the 500 path.
- Checkout.Post: the order id comes from a counter in the model (`nextOrderId`); the database's actual id scheme is not part of this model, so only freshness of the id is stated.
- Each cart line in a request is taken to have the `CartItem` shape; the handler does not validate the lines' fields, and neither does the model.
- Session issuance and lookup (next-auth, `lib/auth.ts`, `middleware.ts`) become the optional e-mail argument of `Checkout.Post`.
- A stock check, stock decrement, server-side price lookup or transaction: the handler has none of these, so the model has none.
