# Bart Eshop, modelled in Dafny

Bart Eshop is a small web shop in two parts.

- **The API** is a Flask application over MongoDB (`ZadanieEshopApi/main.py`, with the collection validators and seed data in `ZadanieEshopApi/mongo_queries.py`):
  - `GET /products` lists the catalogue one page at a time, with a name search and a sort order;
  - `POST /orders` places an order in one transaction, moving units from `stock` to `units_sold`;
  - `GET /orders` lists orders by email and status, newest first;
  - `DELETE /orders/<id>` cancels an unpaid order and returns its units to stock.
- **The React client** (`ZadanieEshopFrontend/src`) has three screens that share a cart stored in the browser's `localStorage` under `"cart"`, plus a thin wrapper per endpoint (`utils/api.ts`):
  - the products screen: search, sort, page size, paging, "add to cart";
  - the cart screen: quantities, email, submit;
  - the profile screen: orders by email and status, cancel.

## How the model is built

The modules follow the program's structure.

| module | models |
|---|---|
| `Common` | `Option`/`Result`, parsed JSON values (`Json`, with integers and floats kept apart), Python truthiness, whitespace trimming with the whitespace sets of Python's `strip`, Python's `int()` and JavaScript's `trim` |
| `Schema` | products, order lines and orders; the MongoDB `$jsonSchema` validators as predicates on BSON documents; ObjectId strings; the email pattern; the seed |
| `QueryArgs` | query-string parsing (`request.args.get(..., type=int)`) and the argument checks of both list endpoints |
| `Pagination` | skip, page count, the page window, an insertion sort that fixes one sorted order of the matches, and the proof that a sorted permutation is unique when no two items tie |
| `Queries` | the filters, sort orders and page payloads of `get_orders` and `get_products` |
| `Listing` | the two list endpoints as functions from stored documents and arguments to an answer |
| `Ledger` | `create_order` and `cancel_order`, first as functions on both collections (`CreateOrderEffect`, `CancelOrderEffect`), then as the methods of a `Database` class that update its two map fields |
| `Api` | the four client wrappers, as functions of the response they were given |
| `Cart` | the cart dictionary, its JSON record in a `LocalStorage` class, `addToCart`, the quantity change and the total |
| `CartScreen`, `ProductsScreen`, `ProfileScreen` | one class per screen |

**Screens.** Each screen class holds the screen's React state as fields. Each handler is one method that runs to completion. The reply of every request is a parameter. Every request sent is appended to a `requests` field, so each method states exactly which query string or body went out.

**Prices and tokens.**
- Prices are integer cents.
- MongoDB's Slovak collation is an abstract `Engine`. It has four parts: an equality, an order, a check that a `$regex` pattern is valid, and a matcher.
- The ObjectId of a new order and the `created_at` timestamp are parameters.

**Where the model follows the code rather than the design intent:**
- `handleQuantityChange` (ShoppingCartScreen.tsx:54-63) removes a line only for exactly 0. Any other number is stored as it is, with no clamp to `[1, stock]`.
- `addToCart` (ProductsScreen.tsx:64-86) stores quantity 0 for a product out of stock. Only the disabled button (ProductsScreen.tsx:359) keeps such a product out of the cart. `AddOutOfStock` and `PressAddToCart` state both halves.
- The products screen's page clamp compares the new `total_pages` with the page the handler started from. It then moves the page to the page count from before the request (ProductsScreen.tsx:125-127 and the same lines in each handler). `StalePageScenario` shows page 1 of 1 moving to page 2 of 1, where the clamp does not fire because the new count is not below the old page. `StaleClampScenario` shows page 2 of 2 staying on page 2 after a search whose reply has one page, where the clamp fires and restores the old count of 2.
- A successful order does not empty the cart held in memory (ShoppingCartScreen.tsx:92-98). That happens only when the dialog is closed, with the email cleared and no record saved (lines 34-39). `SubmitThenClose` states the combined effect.
- `get_orders` lists orders under the collation but counts them with `count_documents` without it (main.py:214-229). The two can differ: `GetOrdersCountDisagrees` gives a page holding one order while `total_orders` is 0.
- `createOrder`'s network-error message has no final period (api.ts:58-61). The other three wrappers have one.
- Several items with the same id are allowed. Each `find_one` runs in the session, so it sees the `$inc` of the earlier items. `DuplicateIdsScenario`: with a stock of 3, two items of 2 each are refused. The first item leaves 1 in stock, so the second fails the ordinary stock check with `required number of products is currently not in stock`. Nothing is written.

## Model

| member | source | states |
|---|---|---|
| Common.TrimLeftShape | ZadanieEshopApi/main.py:201-202 | trimming from the left, with either runtime's whitespace: the result is a suffix of the input; every dropped character is whitespace; the result does not start with whitespace |
| Common.TrimRightShape | ZadanieEshopApi/main.py:201-202 | the mirror image: the result is a prefix; only whitespace is dropped; it does not end with whitespace |
| Common.TrimEmptyIff | ZadanieEshopFrontend/src/screens/ShoppingCartScreen.tsx:77-83 | a trimmed email is empty exactly when every character of it is the runtime's whitespace (for `trim`, this includes U+00A0 and U+FEFF), in both directions |
| Common.TrimIdempotent | ZadanieEshopApi/main.py:317-322 | trimming twice is trimming once |
| Schema.LowerHex | ZadanieEshopApi/main.py:107-109 | a hex digit stays a hex digit and is never upper case; anything that is not an upper-case hex letter is kept |
| Schema.ToObjectId | ZadanieEshopApi/main.py:124-147 | `ObjectId(s)` of a valid hex string is canonical (lower-case) and is `s` itself when `s` already is |
| Schema.SplitAtDot | ZadanieEshopApi/mongo_queries.py:59-63 | a string that has an `@` and a later `.` with text around both is rebuilt from its three parts |
| Schema.EmailPatternShape | ZadanieEshopApi/mongo_queries.py:59-63 | on a single line, `^.+@.+\..+$` matches exactly the strings `user@host.tld` with all three parts non-empty (both directions) |
| Schema.EmailPatternToShape | ZadanieEshopApi/mongo_queries.py:59-63 | a match splits into three non-empty parts |
| Schema.ShapeToEmailPattern | ZadanieEshopApi/mongo_queries.py:59-63 | three non-empty parts on one line always match |
| Schema.EmailPatternExamples | ZadanieEshopApi/mongo_queries.py:59-63 | `a@b.c` matches and `a@b` does not |
| Schema.ProductSchemaIff | ZadanieEshopApi/mongo_queries.py:13-41 | a product's document passes the products validator exactly when the product is valid (non-negative price, stock and units sold) |
| Schema.ProductDocumentRoundTrip | ZadanieEshopApi/mongo_queries.py:13-41 | every document the validator accepts is the document of the product read from it, and that product is valid |
| Schema.LineSchemaIff | ZadanieEshopApi/mongo_queries.py:68-92 | an order line's document passes exactly when the line is valid (price ≥ 0, quantity ≥ 1), and then reads back as the same line |
| Schema.OrderSchemaIff | ZadanieEshopApi/mongo_queries.py:46-106 | an order's document passes the orders validator exactly when the order is valid (email pattern, status enum, total ≥ 0, valid lines, no other fields), and then reads back as the same order |
| Schema.SeedValid | ZadanieEshopApi/mongo_queries.py:113-120 | the four seeded products pass the validator |
| QueryArgs.Digit | ZadanieEshopApi/main.py:184 | a digit character has the value it was made for |
| QueryArgs.DecimalString | ZadanieEshopApi/main.py:184 | the decimal text of `n` is non-empty, has no leading zero, and reads back as `n` |
| QueryArgs.PagingRead | ZadanieEshopApi/main.py:184-200 | a query carrying the decimal text of an accepted page and limit is read back as exactly that page and limit |
| QueryArgs.ParseIntString | ZadanieEshopApi/main.py:184-190 | `int()` of the text of any integer is that integer |
| QueryArgs.CheckPaging | ZadanieEshopApi/main.py:184-200 | succeeds exactly when page ≥ 1 and 1 ≤ limit ≤ 50, each read as `int()` reads it (with `int()`'s whitespace, which does not include U+001C–U+001F), with defaults 1 and 20 for an absent or unparsable value; otherwise the first failing check's message, in the source's order |
| QueryArgs.PagingDefaults | ZadanieEshopApi/main.py:184-190 | no arguments give page 1, limit 20; an unparsable page falls back to 1 and `" 7 "` parses as 7 |
| QueryArgs.SeparatorNotSkipped | ZadanieEshopApi/main.py:184 | `int()` does not skip U+001C: `page=5` followed by it is unparsable and page 1 is served; U+0085 is skipped and `5` followed by it reads as 5 |
| QueryArgs.CheckOrderArgs | ZadanieEshopApi/main.py:184-208 | paging errors first; otherwise accepted exactly when the trimmed status is empty, `unpaid` or `cancelled`, else `unknown filter for status`; the accepted query carries the trimmed email and status |
| QueryArgs.CheckProductArgs | ZadanieEshopApi/main.py:300-325 | paging errors first, then `unknown order_by` for a field other than `name`, `_id`, `stock`, `price` or `units_sold`, then `unknown order` for other than asc/desc; the accepted query has the trimmed search text and the direction |
| QueryArgs.ProductDefaults | ZadanieEshopApi/main.py:300-325 | no arguments give page 1 of 20 by name ascending with no search |
| Pagination.TotalPagesCeil | ZadanieEshopApi/main.py:352 | `ceil(total / limit)` pages hold every item and one page fewer would not; there are no pages exactly when there are no items |
| Pagination.Window | ZadanieEshopApi/main.py:214-222 | `skip`/`limit` yields at most `limit` items, the consecutive run of the input starting at `skip`, and exactly as many as remain |
| Pagination.PageEmptyIff | ZadanieEshopApi/main.py:209-222 | a page is empty exactly when its number is beyond the page count |
| Pagination.PageOfIndex | ZadanieEshopApi/main.py:209-222 | every item is on page `i / limit + 1`, at position `i % limit`, and that page is within the page count |
| Pagination.PagesUpToPrefix | ZadanieEshopApi/main.py:209-222 | the first `n` pages, concatenated, are the first `n * limit` items |
| Pagination.PagesCover | ZadanieEshopApi/main.py:209-222 | the pages numbered 1 to the page count, concatenated, are the whole result, each item once and in order |
| Pagination.Insert | ZadanieEshopApi/main.py:337 | inserting adds exactly one copy of the element to the multiset |
| Pagination.Sort | ZadanieEshopApi/main.py:337 | the cursor sort is a permutation of its input |
| Pagination.InsertSorted | ZadanieEshopApi/main.py:337 | inserting into a sorted sequence, under a total order, keeps it sorted |
| Pagination.SortSorted | ZadanieEshopApi/main.py:337 | sorting under a total order yields a sorted sequence (see also main.py:219) |
| Pagination.WindowSorted | ZadanieEshopApi/main.py:214-222 | a page of a sorted result is sorted |
| Pagination.FlipTotal | ZadanieEshopApi/main.py:219 | the DESCENDING order of a total order is total |
| Pagination.LexLeTotal | ZadanieEshopApi/main.py:219 | two `created_at` strings always compare one way or the other |
| Pagination.LexLeTransitive | ZadanieEshopApi/main.py:219 | string comparison is transitive |
| Pagination.SortedFirst | ZadanieEshopApi/main.py:337 | under a transitive order, the first item of a sorted sequence is below every later item |
| Pagination.SortedUnique | ZadanieEshopApi/main.py:337 | two sorted permutations of the same items are equal when the order is transitive and no two distinct items tie |
| Queries.FilterOrders | ZadanieEshopApi/main.py:201-213 | keeps exactly the stored orders whose email (when filtered) and status (when filtered) match |
| Queries.OrdersListed | ZadanieEshopApi/main.py:211-222 | the listed page is the window at `(page - 1) * limit` of the matching orders sorted newest first; it holds at most `limit` orders, each stored and matching the filters |
| Queries.OrdersPageFor | ZadanieEshopApi/main.py:211-240 | the payload echoes page and limit, lists the newest-first window at `(page - 1) * limit` of the collation's matches, counts the matches with exact equality and derives `total_pages` from that count |
| Queries.SameFilter | ZadanieEshopApi/main.py:214-229 | when the collation's equality is plain equality, `find` and `count_documents` select the same orders |
| Queries.FilterProducts | ZadanieEshopApi/main.py:328-331 | keeps exactly the products whose name the abstract `$regex` matcher accepts for the search text, or every product for an empty search |
| Queries.Views | ZadanieEshopApi/main.py:332-340 | the `{_id, name, price, stock}` projection, item by item |
| Queries.ProductsListed | ZadanieEshopApi/main.py:328-340 | the listed page is the projection of the window at `(page - 1) * limit` of the matches in the requested order; it holds at most `limit` products, each the projection of a stored, matching one |
| Queries.ProductsPageFor | ZadanieEshopApi/main.py:328-356 | the payload echoes page and limit and counts every matching product |
| Queries.ProductOrderTotal | ZadanieEshopApi/main.py:337 | each field order, ascending or descending, is total when the collation is |
| Queries.ProductOrderTransitive | ZadanieEshopApi/main.py:337 | each field order, ascending or descending, is transitive when the collation is |
| Listing.GetOrders | ZadanieEshopApi/main.py:182-240 | a rejected argument gives 400 with its message; an accepted one gives 200 with the page the query serves: the newest-first window at `(page - 1) * limit` of the matches, and the exact count |
| Listing.GetOrdersNewestFirst | ZadanieEshopApi/main.py:214-222 | the listed orders are sorted newest first |
| Listing.GetOrdersPagesCover | ZadanieEshopApi/main.py:209-240 | with plain equality for the collation, the reported page count covers every matching order exactly once |
| Listing.GetOrdersTieFree | ZadanieEshopApi/main.py:214-222 | when no two matching orders tie under newest first, every newest-first arrangement of the matches, whichever one the cursor returns, has the listed page at `(page - 1) * limit` |
| Listing.GetOrdersCountDisagrees | ZadanieEshopApi/main.py:214-229 | under a case-insensitive collation, an order listed under an `A@B.C` filter is missing from `total_orders` (0 orders, 0 pages) |
| Listing.GetProducts | ZadanieEshopApi/main.py:298-363 | a rejected argument gives 400; a search that is not a valid `$regex` gives 500; otherwise 200 with the page the query serves |
| Listing.GetProductsSorted | ZadanieEshopApi/main.py:332-340 | the listed products are the projection of a window of the sorted matches, and that window is sorted by the requested field and direction |
| Listing.GetProductsPages | ZadanieEshopApi/main.py:326-352 | every matching product is on exactly the page its index predicts, within `total_pages`, and the pages together list every match |
| Listing.GetProductsTieFree | ZadanieEshopApi/main.py:332-340 | when no two matching products tie under the requested order, every arrangement of the matches in that order has the listed page at `(page - 1) * limit` |
| Ledger.CheckBody | ZadanieEshopApi/main.py:55-81 | the body passes exactly when it is an object with `email` and a non-empty `products` array; each failed check gives its own 400 message in the source's order; a body that is not JSON gives 500 |
| Ledger.CheckItem | ZadanieEshopApi/main.py:94-120 | an item passes exactly when it is an object with a hex-string `id` and an integer (or boolean) `quantity` ≥ 1; a failure is a 400 |
| Ledger.Moved | ZadanieEshopApi/main.py:134-143 | the `$inc` of stock by `-q` and units_sold by `q` keeps their sum, the name and the price |
| Ledger.PlaceItem | ZadanieEshopApi/main.py:121-152 | a malformed item gives its item-check error; a missing product gives `product with given id does not exist`; a short stock gives `required number of products is currently not in stock`; a boolean quantity that passes the stock check gives `Wrong email format.` (the WriteError of `$inc`); all are 400. It passes exactly otherwise, and then the product's stock and units sold move by the quantity, the other products are kept, the stock stays non-negative, and the line copies the product's id, name and price |
| Ledger.Place | ZadanieEshopApi/main.py:94-152 | the loop over items rejects only with a 400 |
| Ledger.CreateOrderEffect | ZadanieEshopApi/main.py:53-177 | anything but 201 leaves both collections unchanged; the reply is always 201, 400 or 500; a 201 adds exactly one unpaid order under the new id |
| Ledger.Restock | ZadanieEshopApi/main.py:271-281 | a restock fails only with the unhandled-exception reply |
| Ledger.CancelOrderEffect | ZadanieEshopApi/main.py:252-293 | 204 exactly for a valid id of an unpaid order whose restock succeeds, which then becomes cancelled; an invalid id, 400; an unknown order, 404; an order already cancelled, 400; anything but 204 changes nothing |
| Ledger.MoveLinesAt | ZadanieEshopApi/main.py:134-143 | moving a list of lines changes each product by the total quantity of its lines and keeps the set of products (see also main.py:271-281) |
| Ledger.MoveLinesInverse | ZadanieEshopApi/main.py:271-281 | returning the lines of an order undoes taking them |
| Ledger.QtyOfAppend | ZadanieEshopApi/main.py:145-152 | the quantity of a product in two line lists is the sum of both |
| Ledger.MoveLinesAppend | ZadanieEshopApi/main.py:134-152 | moving two line lists one after the other is moving their concatenation |
| Ledger.PlaceStep | ZadanieEshopApi/main.py:94-152 | a successful loop is its first item followed by the loop over the rest |
| Ledger.PlaceMoves | ZadanieEshopApi/main.py:94-152 | a successful loop adds one line per item and its copy of the products is the original moved by those lines |
| Ledger.PlaceWithinStock | ZadanieEshopApi/main.py:121-143 | a successful order never takes more units of a product than it had in stock, duplicates included |
| Ledger.PlaceLines | ZadanieEshopApi/main.py:94-152 | each line is the item's product (canonical id, name, price at order time) with the item's quantity |
| Ledger.QtyOfNonNegative | ZadanieEshopApi/main.py:145-152 | lines with non-negative quantities sum to a non-negative quantity |
| Ledger.CreateCommitted | ZadanieEshopApi/main.py:94-165 | a created order has the submitted email, one line per item, status unpaid, the given `created_at` and the total of its lines; it is valid; stock is moved by exactly its lines |
| Ledger.CreateConserves | ZadanieEshopApi/main.py:134-165 | any create keeps the product set and every product's `stock + units_sold`, name and price |
| Ledger.CreateKeepsValid | ZadanieEshopApi/main.py:53-177 | a create keeps both collections valid (see also mongo_queries.py:13-106) |
| Ledger.RestockMoves | ZadanieEshopApi/main.py:271-281 | a successful restock is the reverse move of the lines and keeps the products valid |
| Ledger.RestockSucceeds | ZadanieEshopApi/main.py:271-281 | a restock succeeds whenever every product sold at least the units being returned |
| Ledger.CancelRestocks | ZadanieEshopApi/main.py:266-293 | a cancelled order's units return to stock |
| Ledger.CancelConserves | ZadanieEshopApi/main.py:266-293 | any cancel keeps the product set and every product's `stock + units_sold`, name and price |
| Ledger.CancelKeepsValid | ZadanieEshopApi/main.py:252-293 | a cancel keeps both collections valid (see also mongo_queries.py:13-106) |
| Ledger.CancelledTerminal | ZadanieEshopApi/main.py:259-260 | a cancelled order is left untouched by any create and any cancel |
| Ledger.CancelTwice | ZadanieEshopApi/main.py:259-260 | cancelling the same order again answers `Order is already cancelled.` and changes nothing |
| Ledger.CancelUndoesCreate | ZadanieEshopApi/main.py:252-293 | cancelling an order just created succeeds and restores every product exactly (see also main.py:53-165) |
| Ledger.DuplicateIdsScenario | ZadanieEshopApi/main.py:121-143 | two items of 2 for a product with stock 3: the first leaves 1 in stock, so the second fails the stock check with `required number of products is currently not in stock`, and nothing changes |
| Ledger.Database.constructor | ZadanieEshopApi/main.py:26-27 | the database starts with the given valid collections |
| Ledger.Database.CreateOrder | ZadanieEshopApi/main.py:53-177 | the new collections and the reply are those of `CreateOrderEffect`, and the collections stay valid |
| Ledger.Database.CancelOrder | ZadanieEshopApi/main.py:252-293 | the new collections and the reply are those of `CancelOrderEffect`, and the collections stay valid |
| Api.ErrorOr | ZadanieEshopFrontend/src/utils/api.ts:30-32 | the body's error when it is a non-empty string, the fixed message otherwise |
| Api.QueryOutcome | ZadanieEshopFrontend/src/utils/api.ts:13-37 | success exactly for an ok status whose body has `data`, and then that data; a thrown fetch or unreadable body gives the network error; any other failure gives the body's error or the fixed message (see also api.ts:64-88) |
| Api.ProductsOutcome | ZadanieEshopFrontend/src/utils/api.ts:13-37 | a failure always carries a non-empty message, `Failed to get products.` when the body names none |
| Api.OrdersOutcome | ZadanieEshopFrontend/src/utils/api.ts:64-88 | likewise, with `Failed to get orders.` |
| Api.MutationOutcome | ZadanieEshopFrontend/src/utils/api.ts:39-62 | success exactly on the one expected status, with the body not read; otherwise the network error or the body's error or the fixed message (see also api.ts:90-111) |
| Api.CreateOutcome | ZadanieEshopFrontend/src/utils/api.ts:39-62 | success exactly on 201; every failure has a non-empty message, `Failed to create order.` when the body names none |
| Api.DeleteOutcome | ZadanieEshopFrontend/src/utils/api.ts:90-111 | success exactly on 204; every failure has a non-empty message, `Failed to cancel order.` when the body names none |
| Api.DeletePath | ZadanieEshopFrontend/src/utils/api.ts:94 | the DELETE goes to `orders/` followed by the order's id unchanged |
| Api.ListAnswerSeen | ZadanieEshopFrontend/src/utils/api.ts:26-32 | the client succeeds exactly on the server's 200, with its page; on a failure it shows the server's own message (see also main.py:231-247) |
| Api.ReplySeen | ZadanieEshopFrontend/src/utils/api.ts:49-56 | the client's create and delete succeed exactly on the server's 201 and 204, and otherwise report the server's message (see also main.py:165-177) |
| Cart.LineJsonRoundTrip | ZadanieEshopFrontend/src/screens/ShoppingCartScreen.tsx:43-62 | a cart line written as JSON reads back as the same line |
| Cart.CartJsonRoundTrip | ZadanieEshopFrontend/src/screens/ShoppingCartScreen.tsx:43-62 | a whole cart written as JSON reads back as the same cart |
| Cart.StoredCart | ZadanieEshopFrontend/src/screens/ShoppingCartScreen.tsx:43-52 | no saved record gives the empty cart; a saved cart is read as it is |
| Cart.StoredCartRoundTrip | ZadanieEshopFrontend/src/screens/ProductsScreen.tsx:64-86 | saving a cart and reading it back restores it |
| Cart.LocalStorage.constructor | ZadanieEshopFrontend/src/screens/ShoppingCartScreen.tsx:45 | storage starts empty |
| Cart.LocalStorage.GetItem | ZadanieEshopFrontend/src/screens/ShoppingCartScreen.tsx:45 | a value exactly when the key is stored, and then the stored one |
| Cart.LocalStorage.SetItem | ZadanieEshopFrontend/src/screens/ShoppingCartScreen.tsx:62 | replaces the one key, keeps the others |
| Cart.LocalStorage.RemoveItem | ZadanieEshopFrontend/src/screens/ShoppingCartScreen.tsx:97 | removes the one key, keeps the others |
| Cart.Pick | ZadanieEshopFrontend/src/screens/ShoppingCartScreen.tsx:70-74 | the key picked next is a key of the cart |
| Cart.CartTotalRemove | ZadanieEshopFrontend/src/screens/ShoppingCartScreen.tsx:70-74 | the total is the same whichever line is taken first: any line's price × quantity plus the total of the rest |
| Cart.CartTotalUpdate | ZadanieEshopFrontend/src/screens/ShoppingCartScreen.tsx:70-74 | replacing or adding one line moves the total by that line alone |
| Cart.CartTotalEmpty | ZadanieEshopFrontend/src/screens/ShoppingCartScreen.tsx:70-74 | the empty cart totals 0 |
| Cart.CartTotalExample | ZadanieEshopFrontend/src/screens/ShoppingCartScreen.tsx:70-74 | two at 5.00 and one at 10.00 total 20.00 |
| Cart.AddLine | ZadanieEshopFrontend/src/screens/ProductsScreen.tsx:64-84 | the new line is a fresh snapshot of the product with quantity `min(old + 1, stock)`, and never above the stock |
| Cart.Add | ZadanieEshopFrontend/src/screens/ProductsScreen.tsx:64-86 | the product's line is that line; every other line is unchanged; no line is dropped |
| Cart.AddWithinStock | ZadanieEshopFrontend/src/screens/ProductsScreen.tsx:74-84 | a product in stock ends with between 1 and `stock` units |
| Cart.AddSaturates | ZadanieEshopFrontend/src/screens/ProductsScreen.tsx:74-84 | adding `n` times gives `min(old + n, stock)` and leaves the other lines alone |
| Cart.AddOutOfStock | ZadanieEshopFrontend/src/screens/ProductsScreen.tsx:74-84 | a product out of stock enters the cart with quantity 0 |
| Cart.SetQuantity | ZadanieEshopFrontend/src/screens/ShoppingCartScreen.tsx:54-63 | defined exactly for a product with a line; 0 removes the line; any other number becomes the quantity as it is; the other lines are unchanged |
| Cart.SetQuantityTotal | ZadanieEshopFrontend/src/screens/ShoppingCartScreen.tsx:54-74 | a quantity change moves the total by price × the change |
| CartScreen.ProjectsCount | ZadanieEshopFrontend/src/screens/ShoppingCartScreen.tsx:85-90 | the request holds exactly one line per cart entry |
| CartScreen.DistinctCount | ZadanieEshopFrontend/src/screens/ShoppingCartScreen.tsx:85-90 | lines with distinct ids have as many ids as lines |
| CartScreen.SubmittedEmptyRefused | ZadanieEshopApi/main.py:77-81 | the server refuses the request of an empty cart with `products array can not be empty` (see also ShoppingCartScreen.tsx:85-92) |
| CartScreen.SubmittedBodyOk | ZadanieEshopApi/main.py:55-81 | the request of any non-empty cart passes every body check (see also ShoppingCartScreen.tsx:85-92) |
| CartScreen.SubmittedItemsWellFormed | ZadanieEshopApi/main.py:94-120 | with hex ids and quantities ≥ 1 in the cart, every item of the request passes the item checks (see also ShoppingCartScreen.tsx:85-92) |
| CartScreen.CartScreenState.constructor | ZadanieEshopFrontend/src/screens/ShoppingCartScreen.tsx:30-52 | the screen starts from the saved cart (or none), with no email and the dialog closed |
| CartScreen.CartScreenState.HandleQuantityChange | ZadanieEshopFrontend/src/screens/ShoppingCartScreen.tsx:54-63 | for a product in the cart, the cart becomes `SetQuantity` of it and the same cart is saved; for one not in the cart nothing changes |
| CartScreen.CartScreenState.HandleEmailChange | ZadanieEshopFrontend/src/screens/ShoppingCartScreen.tsx:65-68 | only the email changes |
| CartScreen.CartScreenState.HandleSubmitOrder | ZadanieEshopFrontend/src/screens/ShoppingCartScreen.tsx:76-104 | a blank email opens the error dialog and sends nothing; otherwise exactly one request goes out, with the trimmed email and one `{id, quantity}` per cart line; on 201 the saved cart and the email are cleared and the success dialog opens; on any failure the error dialog shows the message and nothing else changes |
| CartScreen.CartScreenState.HandleClose | ZadanieEshopFrontend/src/screens/ShoppingCartScreen.tsx:34-39 | the dialog closes; the cart in memory is emptied only when the email is empty and no cart is saved |
| CartScreen.SubmitThenClose | ZadanieEshopFrontend/src/screens/ShoppingCartScreen.tsx:34-39 | after a successful order and closing the dialog, no cart is left in memory or in storage; after a rejected one both are unchanged (see also ShoppingCartScreen.tsx:92-103) |
| ProductsScreen.SortParams | ZadanieEshopFrontend/src/screens/ProductsScreen.tsx:100-117 | the four sort options map to name ascending, price ascending, price descending and units sold descending, each one the server accepts; nothing else maps |
| ProductsScreen.ProductArgs | ZadanieEshopFrontend/src/screens/ProductsScreen.tsx:88-124 | a handler's query has page, limit and name_query, plus order_by and order for a known sort option |
| ProductsScreen.InitialArgs | ZadanieEshopFrontend/src/screens/ProductsScreen.tsx:46-62 | the first query has only page and limit |
| ProductsScreen.ServerReadsHandlerQuery | ZadanieEshopFrontend/src/screens/ProductsScreen.tsx:88-124 | the server accepts every handler's query and reads back its page, limit, trimmed search text, field and direction (see also main.py:300-325) |
| ProductsScreen.TrimPlain | ZadanieEshopApi/main.py:318-322 | the field and direction words are unchanged by the server's trim |
| ProductsScreen.InitialLoadDefaults | ZadanieEshopFrontend/src/screens/ProductsScreen.tsx:46-62 | the first query is read as page 1 of 3 by name ascending, the same query a handler would send from that state (see also main.py:300-325) |
| ProductsScreen.ProductsScreenState.constructor | ZadanieEshopFrontend/src/screens/ProductsScreen.tsx:37-44 | the initial state: page 1 of 1, three per page, sorted by name, loading |
| ProductsScreen.ProductsScreenState.Mount | ZadanieEshopFrontend/src/screens/ProductsScreen.tsx:46-62 | one query with page and limit; a success replaces products and page count, a failure shows its message; loading ends |
| ProductsScreen.ProductsScreenState.Settle | ZadanieEshopFrontend/src/screens/ProductsScreen.tsx:118-129 | a handler's settlement: the success or failure effect, and the page clamped to the page count from before the request when the new count is below the starting page |
| ProductsScreen.ProductsScreenState.HandlePageChange | ZadanieEshopFrontend/src/screens/ProductsScreen.tsx:88-130 | sends the chosen page with the current size, search and sort, then settles as above |
| ProductsScreen.ProductsScreenState.HandleSearchChange | ZadanieEshopFrontend/src/screens/ProductsScreen.tsx:132-173 | stores the search text, sends it with the current page, size and sort, then settles |
| ProductsScreen.ProductsScreenState.HandleSortChange | ZadanieEshopFrontend/src/screens/ProductsScreen.tsx:175-215 | stores the sort option, sends it with the current page, size and search, then settles |
| ProductsScreen.ProductsScreenState.HandleItemsPerPageChange | ZadanieEshopFrontend/src/screens/ProductsScreen.tsx:217-257 | stores the page size, sends it with the current page, search and sort, then settles |
| ProductsScreen.ProductsScreenState.AddToCart | ZadanieEshopFrontend/src/screens/ProductsScreen.tsx:64-86 | the saved cart becomes `Add` of the product to the saved cart |
| ProductsScreen.ProductsScreenState.PressAddToCart | ZadanieEshopFrontend/src/screens/ProductsScreen.tsx:359 | the disabled button: a product out of stock changes nothing; otherwise it is added |
| ProductsScreen.StaleClampScenario | ZadanieEshopFrontend/src/screens/ProductsScreen.tsx:118-129 | on page 2 of 2, a search whose reply has one page fires the clamp, which restores the old count of 2 as the page, so the screen is left on page 2 of 1 |
| ProductsScreen.StalePageScenario | ZadanieEshopFrontend/src/screens/ProductsScreen.tsx:118-129 | on page 1 of 1, asking for page 2 with a reply of one page does not fire the clamp (1 is not below 1), so the screen is left on page 2 of 1 |
| ProfileScreen.OrderArgs | ZadanieEshopFrontend/src/screens/ProfileScreen.tsx:64-79 | every orders query carries page, limit, filter_email and filter_status, with the email and status as given |
| ProfileScreen.ServerReadsOrderQuery | ZadanieEshopFrontend/src/screens/ProfileScreen.tsx:99-114 | the server accepts each status choice and reads back page, limit, trimmed email and status (see also main.py:184-208) |
| ProfileScreen.ProfileScreenState.constructor | ZadanieEshopFrontend/src/screens/ProfileScreen.tsx:40-50 | the initial state: no orders, no filters, page 1 of 1, three per page |
| ProfileScreen.ProfileScreenState.Fetch | ZadanieEshopFrontend/src/screens/ProfileScreen.tsx:64-79 | sends the current query; a success replaces orders and page count; a failure changes nothing |
| ProfileScreen.ProfileScreenState.Mount | ZadanieEshopFrontend/src/screens/ProfileScreen.tsx:64-79 | the first fetch, as above |
| ProfileScreen.ProfileScreenState.HandleEmailChange | ZadanieEshopFrontend/src/screens/ProfileScreen.tsx:81-97 | stores the email and fetches with it |
| ProfileScreen.ProfileScreenState.HandleFilterStatusChange | ZadanieEshopFrontend/src/screens/ProfileScreen.tsx:99-114 | stores the status and fetches with it |
| ProfileScreen.ProfileScreenState.HandleItemsPerPageChange | ZadanieEshopFrontend/src/screens/ProfileScreen.tsx:116-131 | stores the page size and fetches with it |
| ProfileScreen.ProfileScreenState.HandlePageChange | ZadanieEshopFrontend/src/screens/ProfileScreen.tsx:133-150 | stores the page, unclamped, and fetches it |
| ProfileScreen.ProfileScreenState.HandleCancelOrder | ZadanieEshopFrontend/src/screens/ProfileScreen.tsx:152-170 | sends the DELETE; on 204 it re-queries with the current filters and page; on a failure it shows the message and keeps the listed orders |
| ProfileScreen.ProfileScreenState.PressCancel | ZadanieEshopFrontend/src/screens/ProfileScreen.tsx:357 | for a cancelled order the disabled button sends nothing and changes nothing; otherwise the first request is the DELETE of that order |

## Left out

- The Flask and MongoDB plumbing is not modelled: the `/` route, CORS and Swagger, the 404 and 405 handlers, the client session, logging, and the transaction's retry and abort machinery. A transaction is one atomic step, and a failed one leaves both collections as they were.
- Database failures are not modelled. A lost connection or failed write is the generic 500 of each endpoint, and the model does not produce it.
- MongoDB's Slovak collation and `$regex` are the abstract `Engine`. The model assumes only what each lemma requires of it, such as a total order or plain equality. The `i` option and the pattern language are part of the abstraction.
- Prices are integer cents. The float arithmetic of `sum(price * quantity)` (main.py:154-157) and the stored doubles are not modelled. `OrderTotal` is an exact sum of cents.
- The `int` 32-bit bounds of the validators are not modelled: stock, units sold and quantities are unbounded integers.
- `int()` parsing of query arguments is modelled for ASCII digits with an optional sign and surrounding whitespace. The whitespace is `int()`'s own set: `strip`'s set without U+001C–U+001F. Underscores and Unicode digits are not modelled.
- QueryArgs.ParseInt: has no contract of its own. `ParseIntString` states that it reads back the text of every integer, and `PagingDefaults` and `SeparatorNotSkipped` show its whitespace and its failures.
- Common.Trim: the whitespace sets are those of current Python and ECMAScript: U+0009–U+000D, the space, U+00A0, U+1680, U+2000–U+200A, U+2028, U+2029, U+202F, U+205F and U+3000, with U+001C–U+001F and U+0085 for `strip`, U+0085 for `int()` and U+FEFF for `trim`. Changes to these sets in other Unicode versions, such as U+180E, are not modelled.
- Listing.GetProductsPages: fixes the order of tied matches by the model's stable insertion sort, while MongoDB leaves it open. The seed already has a tie: Nohavice and Čiapka both have `units_sold` 1 (mongo_queries.py:114-117). Sorted by units sold with the client's page size of 3, the server does not determine which of them ends page 1 and which starts page 2. Without ties, `GetProductsTieFree` shows every sorted arrangement gives the same pages.
- Listing.GetOrdersPagesCover: fixes the order of orders with the same `created_at` by the model's stable sort, while MongoDB leaves it open. Without ties, `GetOrdersTieFree` shows the page does not depend on that choice.
- QueryArgs.ArgInt: has no contract of its own; `ParseIntString` and the requirements of `CheckPaging` state what it reads.
- The ObjectId of a new order and `datetime.now()` are parameters. The model assumes the new id is fresh (the `newId !in orders` requirement of `Database.CreateOrder`).
- The JSON text layer is not modelled. `localStorage` holds parsed values, so a saved empty string (falsy, read as no cart) cannot arise, and a record that is not shaped like a cart reads as the empty cart, where `JSON.parse` of malformed text would throw.
- The key order of JavaScript objects is not modelled. The cart is a map, so the line order of a submitted order is not fixed. `HandleSubmitOrder` states the lines as a projection without order.
- `Number()` of the page-size menu is an integer parameter.
- React rendering, `App.tsx`, `CartItem.tsx` and the MUI components are not modelled.
- Asynchronous interleaving is not modelled: each handler runs atomically. A late reply overwriting a later one cannot arise, and `loading` is `true` only during the await, so the model shows only its final value.
- The shallow copy in `handleQuantityChange` shares line objects with the previous state. The model works on values and does not capture that aliasing.
- The `{error}` body of a wrapper is a string or absent. A non-string error, which `||` would pass through, is treated as absent.
- Cart.CartTotal: is a ghost function. It takes the lines in an arbitrary key order, as `Object.values` does. `CartTotalRemove` shows the order does not matter.
