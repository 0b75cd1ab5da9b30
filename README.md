# Clothing shop demo: cart store and storefront helpers

A model of the two self-contained parts of the clothing shop demo.

- **The Flask server's catalog and cart store** (`api/index.py`). It has a fixed list of four products and a process-global table `CARTS` that maps a user id to that user's ordered list of cart lines. The endpoints are:
  - `GET /api/products/<id>`: look up one product.
  - `GET /api/cart`: read a cart.
  - `POST /api/cart`: add a product, or raise the quantity of its existing line.
  - `POST /api/cart/remove`: drop a product's lines.
- **The pure helpers of the browser script** (`static/main.js`):
  - the version-4 UUID generator of RFC 4122 (section 4.4);
  - the rule that replaces a missing or old-format (`user_…`) stored id;
  - `truncateText`;
  - the cart badge count;
  - the category list and the category filter of the products page;
  - the featured prefix of the home page.

Modules, one per component:

- `Common` (`common.dfy`): optional request fields, the 400/404 statuses, the response type, and the first-match search `IndexOf` that both the product lookup and the cart-line lookup use.
- `Catalog` (`catalog.dfy`): `PRODUCTS` and the single-product lookup.
- `Carts` (`carts.dfy`): cart lines, the pure cart operations (`AddLine`, `Without`), and the class `CartStore`. The class holds `CARTS` as a `map<string, seq<CartItem>>` field, which its methods reassign in place. Its invariant `Valid()` says two things about every stored cart: it has at most one line per product, and each line is a snapshot of its catalog entry. The constructor establishes `Valid()` and both mutating methods preserve it. The method `RepeatAddThenRemove` is a client of the class. It shows what the code does, derived from the contracts alone: an unknown user reads `[]`, a repeated add gives one line of quantity 2, a remove empties the cart, product id 0 gives 400, and an unknown product gives 404 and creates no cart.
- `UserId` (`user_id.dfy`): the UUID generator and the legacy-id rule. `Math.random() * 16 | 0` becomes an input sequence of 31 nibbles, one for each `x`/`y` slot of the template.
- `Storefront` (`storefront.dfy`): the remaining browser helpers.

Request fields that may be missing (`user_id`, `product_id`, `quantity`) are `Option` values. The defaults are the code's own: `'default'` for the user and 1 for the quantity. Both an absent `product_id` and `0` are rejected with 400, because the check is `not product_id`. Prices are held as a whole number of cents and never computed on.

Other files of the repository expect a different server from `api/index.py`, and the model follows `api/index.py`:
- The browser script posts additions to `/api/cart/add` and reads `data.success` (static/main.js:295, 308). The server's tests also use `/api/cart/add` and expect a `{success, cart}` body (api/test_index.py:167-177). `api/index.py` adds through `POST /api/cart` and answers with the bare cart list.
- The server's tests expect 400 for `GET /api/cart` without a `user_id` (api/test_index.py:144-150). `api/index.py` reads the cart of the user `'default'` instead.

## Model

| member | source | states |
|---|---|---|
| `Common.IndexOf` | api/index.py:62 | `next(...)` over a generator: the position of the first element with the key, None only when no element has it. The product lookup (lines 62, 86) and the cart-line lookup (line 95) both use it |
| `Catalog.GetProduct` | api/index.py:59-65 | Ok exactly when some catalog product has the id, and then a catalog product with that id; otherwise 404 "Product not found" |
| `Catalog.CatalogIdsDistinct` | api/index.py:10-43 | no two catalog products share an id |
| `Catalog.GetProductKnownIds` | api/index.py:10-65 | the lookup succeeds exactly for the ids 1 to 4 |
| `Carts.UserKey` | api/index.py:72 | a given `user_id` is used as it is; a missing one is `'default'` (also lines 79 and 114) |
| `Carts.Falsy` | api/index.py:83 | `not product_id` holds for an absent id and for 0 (also line 117); a rejected id names no catalog product |
| `Carts.QuantityOr1` | api/index.py:81 | a given quantity is used unvalidated; a missing one is 1 |
| `Carts.CartOf` | api/index.py:73 | `CARTS.get(user_id, [])`: the stored cart, or `[]` for a user without one (also line 123) |
| `Carts.Snapshot` | api/index.py:100-106 | the new line has the requested id and quantity, and it is a snapshot of the catalog entry for that id |
| `Carts.AddLine` | api/index.py:94-106 | existing product: same length, that line's quantity grows by the amount, no other field or line changes. New product: exactly one line appended at the end with the product id, the catalog name/price/image and the quantity; earlier lines unchanged |
| `Carts.Without` | api/index.py:121 | a line is kept if and only if its product id differs from the removed one; never longer than the cart |
| `Carts.AddLinePreservesUnique` | api/index.py:94-106 | adding keeps at most one line per product id |
| `Carts.AddLinePreservesCatalog` | api/index.py:99-106 | adding a catalog product keeps every line a snapshot of its catalog entry |
| `Carts.WithoutPreservesUnique` | api/index.py:120-121 | removing keeps at most one line per product id |
| `Carts.WithoutConcat` | api/index.py:121 | removal distributes over concatenation, so the kept lines stay in their relative order |
| `Carts.WithoutAbsent` | api/index.py:121 | removing a product the cart does not hold leaves the cart unchanged |
| `Carts.WithoutIdempotent` | api/index.py:120-121 | removing twice equals removing once |
| `Carts.AddTwiceMerges` | api/index.py:95-106 | two adds of a new product with the default quantity give one line of quantity 2 at the end, not two lines |
| `Carts.CartStore.constructor` | api/index.py:46 | the cart table starts empty and satisfies the invariant |
| `Carts.CartStore.GetCart` | api/index.py:70-74 | the stored cart of the user (`'default'` when no user id is given), `[]` for a user without a cart; under the invariant the cart has one line per product, all catalog snapshots |
| `Carts.CartStore.AddToCart` | api/index.py:76-108 | falsy product id: 400 and the table is unchanged. Unknown product: 404 and the table is unchanged, so no cart is created. Otherwise only the user's entry changes, to `AddLine` of the old cart (or of `[]`), and the response is the stored cart. The invariant is preserved |
| `Carts.CartStore.RemoveFromCart` | api/index.py:110-123 | falsy product id: 400, unchanged. Existing cart: only that user's entry changes, to `Without` of it. Unknown user: table unchanged. The response is the stored cart or `[]`. The invariant is preserved |
| `UserId.VariantNibble` | static/main.js:6 | masking the draw with 0x3 and setting 0x8 gives a value in 8..11 with the two low bits of the draw |
| `UserId.HexDigit` | static/main.js:7 | `v.toString(16)` is a lower-case hex digit, and it is one of 8, 9, a, b exactly when the value is 8 to 11 |
| `UserId.SlotDigit` | static/main.js:5-7 | an `x` slot becomes a hex digit and a `y` slot a variant digit |
| `UserId.Fill` | static/main.js:4-8 | the per-slot replacement keeps the template's length |
| `UserId.FillConforms` | static/main.js:4-8 | for any draws: each `x` becomes a lower-case hex digit, each `y` one of 8, 9, a, b, and every other character is kept |
| `UserId.FillNibbles` | static/main.js:4-8 | every string of the template's layout is the output for the draws read back from it, so the generator reaches the whole layout |
| `UserId.TemplateSlots` | static/main.js:4-5 | the template has 31 slots, so one identifier draws 31 nibbles |
| `UserId.TemplateIsUuidV4Layout` | static/main.js:4 | a string fits the template iff it has the RFC 4122 version-4 layout: 36 characters, `-` at 8, 13, 18 and 23, `4` at 14, a variant digit at 19, and lower-case hex elsewhere |
| `UserId.GenerateUuid` | static/main.js:3-9 | the generated id has the version-4 layout and does not start with `user_` |
| `UserId.UuidIsNotLegacy` | static/main.js:15 | an id with the version-4 layout never starts with `user_` |
| `UserId.StartsWith` | static/main.js:15 | `startsWith` holds iff the prefix fits and agrees with the string character by character |
| `UserId.NeedsNewId` | static/main.js:15 | the id is replaced when it is null, empty or starts with `user_`; a non-empty stored id whose first character is not `u` is kept |
| `UserId.UuidIsNeverReplaced` | static/main.js:15 | a stored id of the version-4 layout is never replaced |
| `UserId.ResolveUserId` | static/main.js:12-18 | a present, non-empty, non-legacy stored id is kept; otherwise a fresh version-4 id is used; the result is never empty and never legacy |
| `UserId.ResolveIsStable` | static/main.js:12-18 | once resolved and stored, the id is kept on every later page load |
| `Storefront.TruncateText` | static/main.js:400-402 | text that fits comes back unchanged. Longer text gives its first `maxLength` characters (none if `maxLength` is negative) followed by "...", with length `max(maxLength, 0) + 3` |
| `Storefront.TruncateIdempotent` | static/main.js:400-402 | truncating a truncated text changes nothing |
| `Storefront.TotalItems` | static/main.js:372 | an empty cart shows 0, a cart with non-negative quantities shows a non-negative count, and a one-line cart shows that line's quantity |
| `Storefront.TotalConcat` | static/main.js:372 | the badge count of a concatenation is the sum of the counts |
| `Storefront.TotalAfterAdd` | static/main.js:372 | an add raises the badge by exactly the added quantity |
| `Storefront.TotalAfterRemove` | static/main.js:372 | in a cart with one line per product, a remove lowers the badge by that line's quantity, or by 0 if the product is absent |
| `Storefront.Distinct` | static/main.js:61 | the Set-spread holds exactly the values of the list, each once |
| `Storefront.DistinctFirstOccurrenceOrder` | static/main.js:61 | the distinct values are in the order of their first occurrence, the Set's insertion order |
| `Storefront.CategoryOf` | static/main.js:61 | `products.map(product => product.category)` has one category per product, position by position |
| `Storefront.Categories` | static/main.js:61 | the category list holds exactly the products' categories, each once |
| `Storefront.CatalogCategories` | static/main.js:61 | for the catalog the list is electronics, accessories |
| `Storefront.WithCategory` | static/main.js:245 | a product is kept iff it is in the list and has the category |
| `Storefront.FilterByCategory` | static/main.js:242-246 | `'all'` returns the list unchanged; any other category keeps exactly the products of that category |
| `Storefront.WithCategoryConcat` | static/main.js:245 | filtering distributes over concatenation, so the original order is kept |
| `Storefront.WithCategoryAll` | static/main.js:245 | a list whose products all have the category passes the filter whole |
| `Storefront.FilterIdempotent` | static/main.js:242-246 | filtering twice by one category equals filtering once |
| `Storefront.FilterOnListedCategory` | static/main.js:242-246 | every category in the category list shows at least one product |
| `Storefront.Featured` | static/main.js:49 | `slice(0, 4)` is the prefix of length min(4, number of products) |
| `Storefront.FeaturedCatalog` | static/main.js:49 | all four catalog products are featured |

## Left out

- Storefront.TruncateText: lengths are counted in characters, not in UTF-16 code units as JavaScript's `length` and `substring` count them. Text with characters outside the Basic Multilingual Plane is therefore cut at a different place, and the model never splits a surrogate pair.
- Flask routing, `render_template`, the `/` and `/index` pages, the catch-all redirect and the `__main__` block (api/index.py:48-52, 125-133). They are framework and file-system I/O.
- `get_products` (api/index.py:54-57) returns `PRODUCTS` unchanged. There is nothing to state beyond the constant `Catalog.PRODUCTS`.
- JSON decoding. The model does not cover a body that is not JSON or a `null` body. It models `product_id` and `quantity` only as integers and `user_id` only as a string. Other JSON values change what the server does:
  - A non-empty string `product_id` such as `"1"` passes `not product_id`, but no catalog id equals a string, so the server answers 404 (api/index.py:83-88).
  - An integer `user_id` in a POST body stores the cart under an integer key. `GET /api/cart?user_id=5` looks up the string `"5"` and never finds that cart (api/index.py:72-73, 79).
  - Python's `True == 1` and `1.0 == 1` find product 1. A `null` quantity raises at `+=`.
- Storefront.TotalItems: quantities are JavaScript numbers, so the browser's `reduce` sum is exact only up to 2^53. The model's sum is always exact. The server never bounds `quantity`, so a cart with lines of quantity 2^53 and 1 shows 9007199254740992 in the browser and 9007199254740993 in the model.
- `Carts.CartStore.AddToCart`: the quantity is the unvalidated request value, so the model claims no "quantity ≥ 1" invariant. The code does not enforce one.
- Concurrent requests on the global `CARTS`. The store is a single-threaded object.
- Aliasing of the cart-line dictionaries. Lines are values in a sequence. The server holds no other reference to a line, so this changes no observable result.
- Float prices and the totals computed from them (static/main.js:93, 112, 114, 124), and `getStarRating` (static/main.js:404-415), which works on a float rating.
- DOM building, event listeners, `fetch`, `localStorage`, `setTimeout` and `alert` in static/main.js. They are UI and network. The stored id is an input of `UserId.ResolveUserId`. Writing it back to storage is not modelled.
- `Math.random`. It is replaced by the input sequence of nibbles.
- The database-backed endpoints that the server's tests exercise are not part of this model. These are product search, `/api/cart/add`, `/api/checkout` with its user upsert and order insert, and the server-side regeneration of legacy ids at checkout.
