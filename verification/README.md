# Storefront cart model

A Dafny model of the shopping-cart core of a small storefront server
(Express + Drizzle/Postgres). It covers five pieces of behaviour:

- **The cart store.** This is the cart half of `DatabaseStorage`: `getCart`, `addToCart`, `removeFromCart` and `clearCart`. It runs over an abstract database with a set of cart ids, the `cart_items` rows in table order, a serial-id counter and a product catalog. Every operation is one atomic, sequential state transition.
- **The session-to-cart rules of the cart handlers.** These are GET `/api/cart`, POST `/api/cart/add`, DELETE `/api/cart/remove/:itemId` and the amount guard of `/api/create-payment-intent`. Each handler is a pure function. Its inputs are the session's `cartId`, the request parameters, the store and the store faults. Its outputs are the status code, the body, the new session value, the new store and the list of store calls made.
- **The `DATABASE_URL` rewrite of `drizzle.config.ts`.** This forces `sslmode=require` on Heroku/AWS hosts and redacts the password before the URL is logged.
- **The request-log line and the error-handler fallback of `server/index.ts`.**
- **The navigation-link predicate `isActive` and the cart-badge rule of the navigation bar.**

Modules, one per file:

| file | module | models |
|---|---|---|
| `wrappers.dfy` | `Wrappers` | `Option`, `Result` |
| `strings.dfy` | `Strings` | `startsWith`, `endsWith`, `includes`, `indexOf`, `replace` with a string pattern, `${n}` for integers, and the UTF-16 code units of a string |
| `js_values.dfy` | `JsValues` | JSON values, truthiness, and the numeric coercion behind `v <= 0` |
| `schema.dfy` | `Schema` | product and cart-line rows, and `cartItemSchema` |
| `storage.dfy` | `Storage` | the cart store |
| `cart_invariants.dfy` | `CartInvariants` | the store invariant, and how each operation changes quantities and views |
| `routes.dfy` | `Routes` | the cart handlers and the payment amount guard |
| `route_properties.dfy` | `RouteProperties` | properties that span several requests |
| `drizzle_config.dfy` | `DrizzleConfig` | the URL rewrite and the redaction |
| `request_log.dfy` | `RequestLog` | the log line and the error reply |
| `navbar.dfy` | `Navbar` | `isActive` and the cart badge |

Inputs that the code gets from outside are parameters of the model:

- `Math.random()` is a real number in [0, 1).
- `parseInt(itemId, 10)` is an `Option<int>`, where `None` stands for `NaN`.
- `JSON.stringify` of a captured body is a string carried with the body.
- Every store call that can throw is a boolean fault input. A failing call changes nothing.
- The numeric coercion of a string or object body field (`Number(v)`) is a value carried with the field.

Prices are whole cents.

Observable behaviour the model follows, and which a reader might not expect:

- GET `/api/cart` degrades to 200 with the empty cart when the store read fails. This is the inner `catch` of `server/routes.ts`. Its outer `catch`, reached only when no session is attached, answers 500. The bundled copy in `client/index.js` answers 200 there. Both are modelled: `Routes.GetCartHandler` and `Routes.BundledGetCartHandler`.
- POST `/api/cart/add` validates `quantity` but always asks the store to add 1.
- The add handler answers 400 when the store fails. Only the remove handler answers 500.
- Where the bundled copy of the routes differs from `server/routes.ts`, `server/routes.ts` is followed.

## Model

| member | source | states |
|---|---|---|
| `Strings.ReplaceFirst` | drizzle.config.ts:28 | A string pattern is replaced at its first occurrence only. The text before and after that occurrence is kept. A string without the pattern is returned unchanged. |
| `Strings.DecimalRoundTrip` | server/index.ts:69 | The decimal rendering of a number in the log line reads back as the same number. |
| `Schema.PositiveIntegerIssues` | client/index.js:62-63 | A field gets no issue exactly when it is a positive integral number. A non-number gets exactly one issue: the type issue. A number never gets the type issue. It gets the integer issue exactly when it has a fractional part, and the positivity issue exactly when it is at most 0. |
| `Schema.ParseCartItem` | client/index.js:61-64 | A body is accepted exactly when `productId` is a positive integer and `quantity` is either missing or a positive integer. A missing `quantity` defaults to 1. A rejected body carries at least one issue. |
| `Storage.CartViewOf` | client/index.js:129-161 | A missing cart row, or a cart with no lines, gives `{id, [], 0}`. Otherwise the view lists the cart's lines in table order, each described against the catalog. Its total is the sum of current unit price × quantity. |
| `Storage.Describe` | client/index.js:144-153 | A line keeps its id, product and quantity. A product missing from the catalog is reported as "Unknown Product" with price 0 and type "UNKNOWN". A product that exists is reported at its current price, with its own name and type. An empty name or type is reported as "Unknown Product" or "UNKNOWN". |
| `Storage.TotalIsSubtotal` | client/index.js:155 | The reduce over the described items equals the value of the cart's lines at current catalog prices. |
| `Storage.GetCart` | client/index.js:129-161 | The loop that selects, describes and totals the cart's lines computes exactly the cart view. |
| `Storage.FindLine` | client/index.js:175-178 | The lookup finds the first line for the (cart, product) pair, or none when no line matches. |
| `Storage.AddToCart` | client/index.js:162-190 | An unknown product fails with "Product not found". Otherwise the cart row with exactly this id is ensured, the catalog is kept, and the returned row is in the new table. The first line for the pair grows by `quantity` and no other row changes. When there is no such line, one new line with the next serial id is appended. |
| `Storage.RemoveFromCart` | client/index.js:191-196 | Exactly the rows matching both the cart id and the item id are deleted. Cart rows, catalog and id counter are kept. |
| `Storage.ClearCart` | client/index.js:197-199 | Exactly the cart's rows are deleted. Cart rows, catalog and id counter are kept. |
| `CartInvariants.EmptyStoreInv` | client/index.js:55-60 | The empty database, with the serial counter at 1, satisfies the store invariant. |
| `CartInvariants.AddChangesOnlyItsPair` | client/index.js:175-189 | An add raises the recorded quantity of its own (cart, product) pair by exactly `quantity`. It leaves every other pair's quantity alone. |
| `CartInvariants.AddPreservesInv` | client/index.js:162-190 | Sequential adds of positive quantities keep the invariant: every line belongs to an existing cart, quantities are positive, ids are unique, and there is at most one line per (cart, product). |
| `CartInvariants.RemovePreservesInv` | client/index.js:191-196 | Removing a line keeps the invariant. |
| `CartInvariants.ClearPreservesInv` | client/index.js:197-199 | Clearing a cart keeps the invariant. |
| `CartInvariants.AddTwiceMerges` | client/index.js:175-189 | Adding a product twice with quantity 1 leaves exactly one line for the pair, with quantity 2. |
| `CartInvariants.AddedProductIsInView` | client/index.js:129-189 | After a successful add, the cart's view lists a line for the product. |
| `CartInvariants.RemoveUnknownIsNoop` | client/index.js:191-196 | Removing an id that is no line of this cart changes nothing. This includes a line that belongs to another cart. |
| `CartInvariants.RemoveLeavesOtherCarts` | client/index.js:191-196 | Removing a line of one cart leaves every other cart's view unchanged. |
| `CartInvariants.ClearEmptiesCart` | client/index.js:197-199 | After a clear, the cart's view is empty and its cart row is kept. |
| `CartInvariants.ClearLeavesOtherCarts` | client/index.js:197-199 | Clearing a cart leaves every other cart's lines, in order, and its view unchanged. |
| `CartInvariants.AddAddRemoveScenario` | client/index.js:129-196 | Adding a 1999-cent product gives one line and total 1999. A second add gives the same line with quantity 2 and total 3998. Removing that line leaves the empty cart. |
| `Routes.Heal` | server/routes.ts:135-137 | A set, non-numeric session `cartId` is deleted, so it becomes unset. Any other value is kept. The result is never corrupt. |
| `Routes.CartIdOf` | server/routes.ts:139-141 | A session value names a cart exactly when it is a number that JavaScript finds truthy. The cart is that number. |
| `Routes.AllocateCartId` | server/routes.ts:207-209 | A new cart id lies in [0, 9999]. |
| `Routes.GetCartHandler` | server/routes.ts:125-166 | With a session attached, GET always answers 200. With no usable id it answers `{id:0, items:[], total:0}` and does not call the store. A store failure also answers `{id:0, items:[], total:0}` and drops the binding. Otherwise it answers the cart's view. Without a session it answers 500. The store never changes. |
| `Routes.BundledGetCartHandler` | client/index.js:272-296 | The bundled GET answers 200 with the empty cart where the current one answers 500. Otherwise it is the same. |
| `Routes.AddWith` | server/routes.ts:195-278 | A schema failure gives 400 with the issues and changes nothing. Without a session the answer is 400 "Invalid cart data". Otherwise the session keeps a usable cart id, or is bound to the fresh id, and the product lookup is the first store call. A failing lookup gives 400 "Invalid cart data". An unknown product gives 404. A failing add gives 400 "Could not add to cart. Database error.". The answer is 201 exactly when the body is valid, a session is attached, the product exists and no store call fails. A 201 returns the row of `addToCart(cartId, productId, 1)`. The store changes only on 201, and every add call uses quantity 1. |
| `Routes.AddHandler` | server/routes.ts:204-210 | A session with no usable cart id is bound to an id in [0, 9999]. |
| `Routes.AllocateNonZeroCartId` | server/routes.ts:207-209 | The alternative allocation never yields the falsy id 0. |
| `Routes.AddHandlerNonZero` | server/routes.ts:204-233 | With that allocation, every 201 leaves a session whose cart id names a cart. |
| `Routes.RemoveHandler` | server/routes.ts:280-309 | Without a session the answer is 500 "Server error". A corrupt session value is deleted and gets 400. No usable id gives 404. A `NaN` item id gives 400. A failing `removeFromCart` gives 500 "Could not remove from cart" and changes nothing. Otherwise the answer is 200 and exactly `removeFromCart(cartId, itemId)` is applied. |
| `Routes.PaymentAmountGuard` | server/routes.ts:171-175 | A rejected amount answers 400 "Invalid amount" before any processor call. Each kind of value is treated as follows. A missing amount, `null`, `false` or `""` is rejected. `true` passes. A number passes exactly when it is positive. A non-empty string or an object passes exactly when its numeric coercion is `NaN` or positive. |
| `RouteProperties.HandlersHealSession` | server/routes.ts:135-137 | GET and DELETE always leave a non-corrupt session value. The add handler does so only after the body has validated. |
| `RouteProperties.GetCartIsRepeatable` | server/routes.ts:133-160 | Without a fault, a second GET with the session the first one left answers the same. |
| `RouteProperties.BundledGetDiffersOnlyWithoutSession` | client/index.js:292-295 | The two GET versions agree exactly when a session is attached. |
| `RouteProperties.AddIgnoresQuantity` | server/routes.ts:197 | Two valid bodies that differ only in `quantity` give the same outcome. |
| `RouteProperties.NotFoundKeepsNewBinding` | server/routes.ts:207-230 | A 404 still leaves the newly drawn id in the session, and the store is unchanged. |
| `RouteProperties.HandlersPreserveInv` | server/routes.ts:125-309 | GET, add and DELETE all keep the store invariant. |
| `RouteProperties.RemoveUnknownAnswers200` | server/routes.ts:298-300 | Deleting an id that is no line of the cart answers 200 and changes nothing. |
| `RouteProperties.AddThenGetShowsProduct` | server/routes.ts:139-154 | After a 201 with a non-zero cart id, the next GET lists the product. |
| `RouteProperties.ZeroDrawHidesAddedLine` | server/routes.ts:208 | A draw of 0 binds cart id 0. The add answers 201 and the line is stored, but the next GET answers the empty cart. |
| `RouteProperties.NonZeroAddThenGetShowsProduct` | server/routes.ts:207-209 | With ids drawn from [1, 9999], every successful add shows in the next GET. |
| `DrizzleConfig.EffectiveUrl` | drizzle.config.ts:13-35 | A URL with none of the three host fragments passes through unchanged. A Heroku-like URL changes as follows. With no `?` it gets `?sslmode=require`. With a `?` and no `sslmode=` it gets `&sslmode=require`. With a `?` and `sslmode=disable`, only the first occurrence becomes `sslmode=require`, so the length is kept. Any other `sslmode=` setting is kept. |
| `DrizzleConfig.HerokuUrlGetsSslmode` | drizzle.config.ts:22-35 | Every rewritten Heroku-like URL contains `sslmode=`. |
| `DrizzleConfig.Redact` | drizzle.config.ts:38 | The regular expression's match is replaced by `:[REDACTED]@`: the leftmost `:` followed by a non-empty colon-free run and `@`, with the longest such run. Everything else is kept. A URL with no match is unchanged. |
| `DrizzleConfig.FirstMatchUnique` | drizzle.config.ts:38 | The regular expression has at most one match. |
| `DrizzleConfig.RedactAtFirstMatch` | drizzle.config.ts:38 | Redaction cuts out exactly that match. |
| `DrizzleConfig.RedactExample` | drizzle.config.ts:38 | `pg://u:pw@h:5/d` is logged as `pg://u:[REDACTED]@h:5/d`. |
| `DrizzleConfig.DrizzleSettings` | drizzle.config.ts:4-49 | An unset or empty `DATABASE_URL` throws. Otherwise the driver gets the unredacted rewritten URL, and only the logged copy is redacted. |
| `RequestLog.FullLine` | server/index.ts:69-72 | The line starts with `<method> <path> <status> in <duration>ms`. With a truthy captured body it ends with ` :: <json>`; otherwise it ends right after `ms`. |
| `RequestLog.FullLineReadsBack` | server/index.ts:69 | After `<method> <path> ` the line holds the decimal digits of the status, ` in `, the digits of the duration, and `ms`. The numbers read back from those digits are the status and the duration. |
| `Strings.Utf16RoundTrip` | server/index.ts:74-75 | The UTF-16 code units that JavaScript's `length` and `slice` work on decode back to the same text. |
| `RequestLog.Cut` | server/index.ts:74-76 | Lengths are counted in UTF-16 code units. A line of at most 80 code units is kept. A longer one keeps its first 79 code units, followed by the suffix. |
| `RequestLog.LogLine` | server/index.ts:66-79 | A line is logged exactly for paths starting with `/api`. |
| `RequestLog.BundledLogLine` | client/index.js:526-537 | With U+2026 as the suffix, every logged line is at most 80 code units. |
| `RequestLog.ShortLinesLoggedWhole` | server/index.ts:74-76 | A line of at most 80 code units is logged whole, and both copies agree on it. |
| `RequestLog.LongLinesOverflow` | server/index.ts:75 | As written, a long line is logged with 82 code units. |
| `RequestLog.EllipsisCutFits` | client/index.js:533-535 | With U+2026, a long line becomes exactly 80 code units, and cutting it again changes nothing. |
| `RequestLog.AstralCharacterCountsTwice` | server/index.ts:74 | A line of 79 characters from the Basic Multilingual Plane followed by one emoji has 80 characters but 81 code units, so it is cut. |
| `RequestLog.ErrorReplyOf` | server/index.ts:86-89 | The status is the first truthy value among `status` and `statusCode`, or 500. The message is `message` or "Internal Server Error". Both are always truthy. |
| `RequestLog.ZeroStatusFallsThrough` | server/index.ts:87 | A status of 0 is treated like a missing one. |
| `Navbar.IsActive` | client/src/components/Navbar.tsx:46-50 | The home link is active exactly on "/". Any other link is active exactly on the locations it string-prefixes. |
| `Navbar.ActiveOnOwnPage` | client/src/components/Navbar.tsx:46-50 | Every link is active on its own page. |
| `Navbar.HomeOnlyAtRoot` | client/src/components/Navbar.tsx:47 | "/" is never active on another page. |
| `Navbar.PrefixNotSegment` | client/src/components/Navbar.tsx:48 | "/shop" is active on "/shopping". |
| `Navbar.ActiveLinksNest` | client/src/components/Navbar.tsx:48 | Two active non-home links are prefixes one of the other. |
| `Navbar.BadgeShowsLineCount` | client/src/components/Navbar.tsx:95-97 | For the cart the server reports, the badge shows exactly when the cart row exists and holds lines. It then shows the number of lines in the cart. |
| `Navbar.BadgeCountsLines` | client/src/components/Navbar.tsx:95-97 | After adding one product twice, the badge shows 1 while the cart holds 2 units. |

## Findings

| source | as written | input that shows it | evidently intended | confidence | as-written member | corrected member |
|---|---|---|---|---|---|---|
| server/index.ts:75 | The truncation suffix is the three-character text `â€¦`, which is the UTF-8 bytes of `…` decoded as single-byte characters. A cut line is therefore 82 code units long. | any `/api` log line longer than 80 characters | a single U+2026 character, so that a cut line is exactly 80 code units, as in the bundled copy at client/index.js:534 | medium, not executed | `RequestLog.LongLinesOverflow` | `RequestLog.EllipsisCutFits` |
| server/routes.ts:208 | `Math.floor(Math.random() * 10000)` can be 0. The session then holds 0, which every handler reads as "no cart", so the line added to cart 0 never shows. | a first add-to-cart with `Math.random() < 0.0001` | a new cart id that is truthy, in [1, 9999] | medium, not executed | `RouteProperties.ZeroDrawHidesAddedLine` | `RouteProperties.NonZeroAddThenGetShowsProduct` |

## Left out

- Database plumbing is not modelled: the connection pool, the Postgres session store, CORS and the ORM. The database is an abstract in-memory state.
- Concurrency is not modelled. The read-then-write race in `addToCart` is out of scope, and each store operation is one atomic step. A store call that throws changes nothing. In particular, a cart row created just before a failing line insert is not modelled.
- Prices are whole cents. Floating-point prices, `Math.round` and `toFixed` are not modelled.
- The 32-bit `integer` columns are not modelled. A quantity increment that would overflow one is not modelled either.
- Row order is table order. Postgres gives no order without `ORDER BY`, so the model fixes one.
- The Stripe call and its response are not modelled. Only the amount guard of `/api/create-payment-intent` is. The second response sent after an error at server/routes.ts:191 is not modelled.
- The payment guard's numeric coercion of a string or object amount is carried with the value, not computed from the text.
- The product, contact, newsletter and user routes and storage calls are not modelled. They are single inserts or lookups with no cart logic.
- The product-visibility route (server/routes.ts:57-88) is not modelled. It uses names the file does not import, and a column the table does not have.
- The second GET `/api/cart` in the bundled copy (client/index.js:350-362) is not modelled. It is unreachable, because the first registration handles the path.
- The session's `save` callback, the cache headers of GET and all `console` logging are not modelled. None of them changes a status, a body or a state.
- Session cart ids are integers. The server only ever writes `Math.floor(...)` there, so a fractional number is not modelled.
- Routes.AddWith: a store error in the product lookup is modelled as an error without an `errors` field, so it answers "Invalid cart data". A store error that does carry `errors` would get the details reply instead; that case is not modelled.
- Non-object request bodies are not modelled.
- Express's handling of a non-numeric status in `res.status` is not modelled.
- A cut that falls inside a surrogate pair keeps the lone high surrogate as its 79th code unit, exactly as `slice` does. Printing such a line is not modelled.
- The time format of `log()`, the dev-server setup and the React rendering of the pages are not modelled.
- DrizzleConfig.EffectiveUrl: the model does not prove that a rewritten URL is still Heroku-like.
