# Storefront dashboard: the decision rules, in Dafny

This project models the logic of a dashboard where suppliers list products
and sellers push approved products to a Shopify store. It covers five parts:

- **The orders view** (`orders.dfy`, module `Orders`). It filters orders by
  status tab and free-text search, and counts orders per status. It picks a
  badge style for each status. It fetches orders and tests the connection with
  a GraphQL-then-REST fallback. Its status update keeps a set of order ids
  that are being updated, and patches the order list once the update is
  confirmed.
- **The product dashboard** (`dashboard.dfy`, module `Dashboard`). It turns
  approved supplier products into cards and marks a card "pushed" when its
  title matches a Shopify product title. It keeps a selection that can be
  toggled, filled with every unpushed product, or cleared. A single push builds
  the Shopify payload, marks the product in the `pushing` list and patches its
  status. A bulk push marks the whole selection "pushed".
- **The credential store** (`credentials.dfy`, module `Credentials`). The
  `shopify_tokens` table is a map from shop to row, held by class
  `TokenManager`. Writes are upserts keyed by shop. Tokens are removed one
  shop at a time, or all at once except a row keyed by the empty shop. A
  missing row and an empty token both read back as absent.
- **The product repository** (`products.dfy`, module `Products`). The
  `products` table is a list of rows, held by class `ProductService`. It
  lists approved rows and one supplier's rows, newest first. A create stamps
  the supplier and `approved`. Updates and deletes are guarded by id and owner.
  Lookup is by id. Image paths are built from the supplier, a timestamp and the
  file extension.
- **The push endpoint** (`push_route.dfy`, module `PushToShopify`). Function
  `Post` is the ordered cascade of checks. It goes from the request body, the
  shop's token and the platform's reply to an HTTP status and JSON body:
  400, 400, 401, the platform's status, 200, or 500.

`seqs.dfy` (`Filter`, `Map`, sub-lists) and `text.dfy` (`toLowerCase`,
`includes`, decimal printing, `split('.').pop()`) hold the JavaScript list
and string operations that the rules are written with. `wrappers.dfy` holds
`Option`, which stands for `null`.

Several outside inputs become parameters:

- Backend errors are a `fault` flag on each repository and credential
  operation.
- The replies of HTTP calls are parameters: `Attempt` (a `Reply`, or a
  rejected request with its message), `UpstreamReply`, and
  `Option<Response>`, where `None` means the request itself failed.
- The supplier name in the browser's storage is `stored: Option<string>`.
- The signed-in user is `authUserId`.
- Clock values are `now` and `timestamp`.
- Ids assigned by the database are `newId`.
- The storage's public-URL function is `publicUrl`.

A React handler with an `await` in the middle is split into a `Begin…` and a
`Finish…` method. That way the in-flight state (the `updating` set, the
`pushing` list) can be observed between the two halves.

## Model

| member | source | states |
|---|---|---|
| `Orders.FilterOrders` | app/dashboard/orders/page.tsx:174-192 | the shown list is an order-preserving sub-list of the orders, and on a status tab every shown order has that tab's status |
| `Orders.MatchesSearch` | app/dashboard/orders/page.tsx:182-189 | the search test of one order: the lower-cased term in id, name, customer name or email, or the raw term in the decimal order number; the empty term matches every order |
| `Orders.FilterOrdersMembership` | app/dashboard/orders/page.tsx:174-190 | an order is shown iff it is in the list, passes the tab, and (for a non-empty term) matches the lower-cased term in id, name, customer name or email, or the raw term in its order number |
| `Orders.TabThenSearchIsOneFilter` | app/dashboard/orders/page.tsx:175-190 | a status tab with a search equals a single filter on both tests, in the original order |
| `Orders.ShowAllIsIdentity` | app/dashboard/orders/page.tsx:174-192 | with the "all" tab and an empty term the shown list is exactly the orders |
| `Orders.SearchIgnoresCase` | app/dashboard/orders/page.tsx:181-189 | searching for a term and for its lower-cased form give the same answer, including on the raw order-number test |
| `Orders.EmptyTermMatchesEverything` | app/dashboard/orders/page.tsx:181-190 | the empty term matches every order, so skipping the search for it changes nothing |
| `Orders.GetStatusCounts` | app/dashboard/orders/page.tsx:250-258 | "all" is the number of orders, each status field is the number of orders with that status, and the four add up to "all" |
| `Orders.CountsPartition` | app/dashboard/orders/page.tsx:250-257 | pending + fulfilled + cancelled + partial equals the number of orders, because the status is one of four values |
| `Orders.CountMatchesTab` | app/dashboard/orders/page.tsx:250-257 | each tab's count is the length of the list that tab shows with an empty search |
| `Orders.StatusBadgeVariant` | app/dashboard/orders/page.tsx:235-248 | total over all strings: fulfilled, partial and cancelled get their own styles, and every other string gets "secondary" |
| `Orders.BadgeIdentifiesStatus` | app/dashboard/orders/page.tsx:235-247 | among the four statuses only pending shares the fallback style, and distinct statuses get distinct badges |
| `Orders.PatchStatus` | app/dashboard/orders/page.tsx:213 | the length is kept, orders with the id get the new status, and every other order is unchanged |
| `Orders.PatchStatusIdempotent` | app/dashboard/orders/page.tsx:213 | applying the same confirmed update twice is the same as applying it once |
| `Orders.ErrorText` | app/dashboard/orders/page.tsx:91-93 | the reply's non-empty `error` is reported as it is; an absent or empty one gives the fallback message |
| `Orders.OrderCount` | app/dashboard/orders/page.tsx:131 | a non-empty `orders` list gives its length; otherwise the `ordersTest` count, or 0 when there is none |
| `Orders.ShopLabel` | app/dashboard/orders/page.tsx:134 | a non-empty shop name is shown as it is; an absent or empty one gives "Unknown" |
| `Orders.Tried` | app/dashboard/orders/page.tsx:84-89 | GraphQL is always tried first, and REST is tried iff GraphQL answered with a status that is not ok; a rejected GraphQL request is not followed by REST |
| `Orders.OrdersPage.constructor` | app/dashboard/orders/page.tsx:41-46 | the initial state: no orders, loading, an empty updating set, the "all" tab and no search |
| `Orders.OrdersPage.SetSearchTerm` | app/dashboard/orders/page.tsx:59-61 | a new term changes the shown list to the filter over the new term |
| `Orders.OrdersPage.SetStatusFilter` | app/dashboard/orders/page.tsx:59-61 | after choosing a tab, every shown order passes that tab |
| `Orders.OrdersPage.FetchOrders` | app/dashboard/orders/page.tsx:80-108 | the endpoints tried are `Tried`. An ok answer from the last one replaces the orders with its list (absent reads as empty). A rejection keeps the orders and reports its message. A non-ok answer keeps the orders and reports its `error` or the fallback. There is no error iff GraphQL succeeds, or GraphQL answers and REST succeeds. Loading ends false |
| `Orders.OrdersPage.TestConnection` | app/dashboard/orders/page.tsx:110-146 | the same fallback. The report names the endpoint that answered ok, with its shop label and order count. Otherwise it carries the rejection's message or the last reply's error. It is Connected iff GraphQL succeeds, or GraphQL answers and REST succeeds |
| `Orders.OrdersPage.BeginStatusUpdate` | app/dashboard/orders/page.tsx:195-197 | callable only while the order's control is enabled (its id is not being updated, as the `disabled` gate at line 438 ensures); the id joins the updating set, which disables the control, and nothing else changes |
| `Orders.OrdersPage.FinishStatusUpdate` | app/dashboard/orders/page.tsx:207-232 | on an ok reply the orders are patched, and otherwise they are untouched with the reply's error reported; either way only this id leaves the updating set |
| `Dashboard.ToCard` | app/dashboard/page.tsx:78-87 | title becomes name and price is kept. The image is the first image, or the placeholder when there is none. The description falls back to "No description available". The status starts as not pushed |
| `Dashboard.SyncSpec` | app/dashboard/page.tsx:94-99 | after a sync a card is "pushed" iff its name is one of the platform's titles, and no other field changes |
| `Dashboard.LoadedCards` | app/dashboard/page.tsx:78-107 | one card per approved product, in order, equal to its `ToCard` in every field but the status; a card is "pushed" iff the sync answered and listed its title, so a failed sync leaves all not pushed |
| `Dashboard.Toggle` | app/dashboard/page.tsx:234-238 | an id that is not selected is appended at the end |
| `Dashboard.ToggleMembership` | app/dashboard/page.tsx:234-238 | toggling flips the id's membership and leaves every other id's membership alone |
| `Dashboard.ToggleTwice` | app/dashboard/page.tsx:234-238 | toggling the same id twice restores every membership |
| `Dashboard.ToggleKeepsNoDup` | app/dashboard/page.tsx:234-238 | a selection without duplicates stays without duplicates |
| `Dashboard.UnpushedIds` | app/dashboard/page.tsx:241 | at most one id per product, as an order-preserving sub-list of the product ids; `UnpushedIdsSpec` gives its exact contents |
| `Dashboard.UnpushedIdsSpec` | app/dashboard/page.tsx:240-243 | select-all holds exactly the ids of unpushed products, as a sub-list of the product ids in product order |
| `Dashboard.MarkPushed` | app/dashboard/page.tsx:160-163 | exactly the products whose id is in the batch become "pushed"; all others and the length are unchanged |
| `Dashboard.SelectAllThenBulkPush` | app/dashboard/page.tsx:186-198 | selecting all and bulk-pushing leaves every product "pushed" |
| `Dashboard.BuildPayload` | app/dashboard/page.tsx:141-151 | the title is the product name, `body_html` wraps the description in `<strong>`, and there is exactly one variant, priced at the selling-price text |
| `Dashboard.PushRequest` | app/dashboard/page.tsx:135-158 | the request carries the built payload and the fixed shop; with a non-empty price, the endpoint's input checks accept it iff the product name is non-empty |
| `Dashboard.PushSucceedsWithToken` | app/dashboard/page.tsx:153-163 | with a named product, a price, a token and an ok platform reply, the endpoint calls the platform with that token and payload and answers 200 with the created product |
| `Dashboard.DashboardHome.constructor` | app/dashboard/page.tsx:27-38 | the initial state: no products, an empty selection, nothing pushing, loading, and the dialog closed |
| `Dashboard.DashboardHome.FetchProducts` | app/dashboard/page.tsx:72-119 | the products become the loaded cards, and loading ends false |
| `Dashboard.DashboardHome.ToggleProductSelection` | app/dashboard/page.tsx:234-238 | the selection becomes its toggle, and the id's membership flips |
| `Dashboard.DashboardHome.SelectAll` | app/dashboard/page.tsx:240-243 | the selection becomes the ids of unpushed products |
| `Dashboard.DashboardHome.ClearSelection` | app/dashboard/page.tsx:245-247 | the selection becomes empty |
| `Dashboard.DashboardHome.OpenPushModal` | app/dashboard/page.tsx:121-125 | the dialog opens on the product with the given default price |
| `Dashboard.DashboardHome.SetSellingPrice` | app/dashboard/page.tsx:462 | the price text becomes what was typed |
| `Dashboard.DashboardHome.CloseModal` | app/dashboard/page.tsx:127-132 | the dialog closes, with no product and an empty price |
| `Dashboard.DashboardHome.BeginPush` | app/dashboard/page.tsx:134-151 | without a product or a price nothing changes and no job starts. Otherwise the id is appended to `pushing`, the dialog closes, and the request carries the payload for the product and price |
| `Dashboard.DashboardHome.FinishPush` | app/dashboard/page.tsx:153-183 | an ok reply marks only that product "pushed", and any other outcome leaves the products alone; every occurrence of the id leaves `pushing` |
| `Dashboard.DashboardHome.BeginBulkPush` | app/dashboard/page.tsx:186-189 | an empty selection starts no batch and changes nothing; otherwise `pushing` becomes the selection, which is the batch |
| `Dashboard.DashboardHome.FinishBulkPush` | app/dashboard/page.tsx:191-212 | for a started (non-empty) batch: every product of the batch becomes "pushed", the selection is cleared, and `pushing` ends empty |
| `Credentials.Lookup` | lib/token-manager.ts:12-30 | a token is returned iff the shop has a row with a non-empty token, and it is that token |
| `Credentials.Upsert` | lib/token-manager.ts:33-43 | the shop's row is written with the token and the time, and every other shop's row stays |
| `Credentials.Remove` | lib/token-manager.ts:58-64 | exactly the shop's row goes |
| `Credentials.ClearAll` | lib/token-manager.ts:78-83 | exactly the rows with a non-empty shop go; an empty-shop row survives unchanged |
| `Credentials.StoreThenGet` | lib/token-manager.ts:12-43 | storing a non-empty token and then reading the shop returns that token |
| `Credentials.StoreEmptyReadsAbsent` | lib/token-manager.ts:25 | storing an empty token and then reading the shop returns absent |
| `Credentials.StoreLeavesOthers` | lib/token-manager.ts:37-43 | a store for one shop changes no other shop's reading |
| `Credentials.StoreOverwrites` | lib/token-manager.ts:37-43 | a second store for the same shop overwrites the first |
| `Credentials.RemoveThenGet` | lib/token-manager.ts:58-64 | a removed shop reads as absent, and other shops read as before |
| `Credentials.ClearAllThenGet` | lib/token-manager.ts:78-83 | after clear-all every non-empty shop reads as absent, and the empty shop reads as before |
| `Credentials.TokenManager.GetToken` | lib/token-manager.ts:12-30 | absent on a backend error, a missing row or an empty token, and otherwise the stored token |
| `Credentials.TokenManager.HasToken` | lib/token-manager.ts:98-101 | true iff `GetToken` gives a token |
| `Credentials.TokenManager.StoreToken` | lib/token-manager.ts:33-55 | success iff no backend error; on success the table is the upsert and a non-empty token reads back, and on failure the table is unchanged |
| `Credentials.TokenManager.RemoveToken` | lib/token-manager.ts:58-75 | success iff no backend error; on success the shop's row is gone and reads as absent |
| `Credentials.TokenManager.ClearAllTokens` | lib/token-manager.ts:78-95 | success iff no backend error; on success only an empty-shop row can remain |
| `Products.NameOr` | lib/product-service.ts:30 | a missing or empty stored name falls back to the default, and any other name is used as it is |
| `Products.SortNewestFirst` | lib/product-service.ts:12 | the result is newest first, and is a permutation of the input |
| `Products.NewestFirstPairwise` | lib/product-service.ts:12 | in a newest-first list every earlier row is at least as new as every later one |
| `Products.ApprovedListingSpec` | lib/product-service.ts:8-12 | the listing holds exactly the approved rows, newest first, and is a permutation of them (no row repeated or dropped) |
| `Products.SupplierListingSpec` | lib/product-service.ts:33-37 | the listing holds exactly the given supplier's rows, newest first, and is a permutation of them |
| `Products.StampNew` | lib/product-service.ts:58-66 | the new row carries the caller's fields, the supplier as both id and name, `approved`, and images defaulting to the empty list |
| `Products.CreatedRowIsListed` | lib/product-service.ts:58-66 | a created row is in the approved listing and in its supplier's listing, and no other supplier's listing changes |
| `Products.ApplyChanges` | lib/product-service.ts:90 | each field given in the update is written and each absent one is kept; the id, owner and creation instant never change |
| `Products.UpdateWhere` | lib/product-service.ts:88-92 | only rows matching both id and owner are changed, and the length is kept |
| `Products.UpdateSparesOtherSuppliers` | lib/product-service.ts:88-92 | an update under one owner leaves every other supplier's rows exactly as they were |
| `Products.DeleteWhere` | lib/product-service.ts:114-118 | the table after the delete keeps no row matching both id and owner, and only rows it had |
| `Products.DeleteWhereSpec` | lib/product-service.ts:114-118 | a delete keeps every row except the one matching both id and owner, in order |
| `Products.DeleteSparesOtherSuppliers` | lib/product-service.ts:114-118 | a delete by one supplier leaves every other supplier's rows exactly as they were |
| `Products.ImagePath` | lib/product-service.ts:156-158 | the path lies in the supplier's folder (the stored name, or "unknown"), and its last `.`-segment is the file name's last `.`-segment |
| `Products.ImagePathDistinctTimestamps` | lib/product-service.ts:156-158 | for one supplier and extension, distinct timestamps give distinct paths |
| `Products.UpdateByUserIdMissesCreatedRow` | lib/product-service.ts:85-92 | as written, an update under a user id other than the supplier name matches no created row and changes nothing |
| `Products.OwnUpdateReachesCreatedRow` | lib/product-service.ts:83-118 | with the supplier-name ownership test, the creator's update reaches and changes the created row |
| `Products.ProductService.GetApprovedProducts` | lib/product-service.ts:6-24 | empty on a backend error; otherwise a newest-first permutation of the approved rows |
| `Products.ProductService.GetSupplierProducts` | lib/product-service.ts:27-49 | empty on a backend error; otherwise a newest-first permutation of the rows of the stored supplier (or "Unknown Supplier") |
| `Products.ProductService.GetProductById` | lib/product-service.ts:133-151 | the result is a row of the table with that id; it is absent iff there was a backend error or no row has the id |
| `Products.ProductService.CreateProduct` | lib/product-service.ts:52-80 | fails iff there is a backend error or the id is taken, leaving the table as it was; otherwise appends the stamped row and returns it, keeping ids unique |
| `Products.ProductService.DeleteProduct` | lib/product-service.ts:109-130 | success iff no backend error; on success the table is the owner-guarded delete |
| `Products.ProductService.UpdateProduct` | lib/product-service.ts:83-106 | no change and no result without a signed-in user or on a backend error. Otherwise the table is the update guarded by id and user id, with a result iff a row matched; the result is that row with the changes applied |
| `Products.ProductService.UpdateOwnProduct` | lib/product-service.ts:83-118 | the same update, guarded by id and the stored supplier name as `deleteProduct` is |
| `Products.ProductService.UpdateOwned` | lib/product-service.ts:88-101 | the guarded update followed by a single-row select: a result iff a row matched, and it is that row with the changes applied |
| `Products.ProductService.UploadImage` | lib/product-service.ts:154-179 | absent on a storage error; otherwise the public URL of the built path |
| `PushToShopify.Post` | app/api/push-to-shopify/route.ts:4-37 | malformed JSON gives 500. A missing product or shop gives 400. Missing required fields give 400. A missing token gives 401 with no platform call. The platform is called iff the body is well formed and a token exists. A non-ok reply is relayed with its status and `errors` (or its whole body). An ok reply gives 200 with the product. A failed call gives 500 |
| `PushToShopify.RejectionIgnoresTokenAndUpstream` | app/api/push-to-shopify/route.ts:7-13 | a body rejected by the input checks gets the same 400 or 500 whatever the token and the platform's reply |
| `PushToShopify.NoTokenIgnoresUpstream` | app/api/push-to-shopify/route.ts:14-17 | without a token the response is 401 and does not depend on the platform |
| `PushToShopify.ProductsUrl` | app/api/push-to-shopify/route.ts:19 | the URL is `https://`, then the shop exactly, then the fixed products path of API version 2023-10 |
| `Text.ToLower` | app/dashboard/orders/page.tsx:184-187 | the same length, each character lowered (ASCII letters only) |
| `Text.Contains` | app/dashboard/orders/page.tsx:184-188 | a prefix is contained, and a contained term is never longer than the string |
| `Text.ContainsIffSuffix` | app/dashboard/orders/page.tsx:184-188 | `includes` holds iff the term is a prefix of some suffix of the string |
| `Text.LastSegment` | lib/product-service.ts:157 | the result has no '.' and is a suffix of the name; the name has a '.' just before it, unless the result is the whole name |
| `Text.NatToString` | app/dashboard/orders/page.tsx:188 | at least one character, all decimal digits, ending in the last digit of the number, and a single digit iff the number is below 10 |
| `Text.NatToStringInjective` | app/dashboard/orders/page.tsx:188 | distinct order numbers print differently |

## Left out

- Rendering, toasts other than the report a handler computes, and the
  `window.location` redirect of re-authentication. These are presentation.
  `reAuthenticate` only calls the clear endpoint and redirects. Its effect on
  the credential table is `TokenManager.ClearAllTokens`.
- `checkConnectionStatus` and `checkConnectionAndFetchOrders`
  (app/dashboard/page.tsx:56-70, app/dashboard/orders/page.tsx:63-78) are not
  modelled. They set the `isConnected` flag from a reply. On an ok reply they
  start the first fetch (`FetchProducts`, `FetchOrders`). On any other outcome
  they end `loading` without fetching. `handleConnectToShopify` is a
  fixed-delay stub.
- The default selling price (`Math.round(price * 1.5)`), the margin
  (`Math.round(selling - cost)`) and the dialog's `parseFloat` comparison are
  JavaScript floating point. The default price is a parameter of
  `OpenPushModal`.
- The `setTimeout` delays, and races between overlapping requests (the last
  reply to land wins). Each `Begin…`/`Finish…` pair models one request on its
  own.
- `Date.now()`, `new Date().toISOString()`, the database's id generator and
  its `created_at` default are parameters. `created_at` is a number used only
  for ordering. `Products.SortNewestFirst` keeps the table order of rows with
  equal timestamps. The database's order for such rows is not specified.
- The token table's `created_at` column is not modelled, because its default
  is set by the database.
- `Orders.Order` leaves out the amount, line items and addresses. The view
  only copies them.
- `Products.ProductRow.price` is an integer, because it is only copied.
- `lib/types/product` is not part of this model. The fields of a new product
  and of a partial update are therefore the ones the service and dashboard
  read.
- `Text.ToLower` lowers ASCII letters only. JavaScript's `toLowerCase`
  lowers all of Unicode.
- Order numbers are non-negative integers. JavaScript numbers could also be
  negative or fractional.
- `PushToShopify.Post`: a request body of `null` throws when destructured,
  so it is `MalformedJson` and gets 500. A platform body of `null` throws when
  its fields are read, so it is `data == None` and also gets 500. Request and
  platform bodies that are other primitives (numbers, strings, booleans) are
  not modelled. A falsy `errors` value is treated as absent. The platform's
  status is taken as given, although JavaScript would reject a status outside
  200..599 when building the response.
- A variant price in the push payload is a string, as the dashboard sends it.
  A numeric price of 0, which JavaScript also treats as falsy, is not
  modelled.
- An order or dashboard reply body that is not JSON, which would make
  `response.json()` throw, is not modelled. The push endpoint's own reply is
  always JSON.
- The `updating` marker is a set of ids, as in the source. The status
  control of an order is disabled while its id is in the set, so
  `BeginStatusUpdate` requires `CanUpdate`. Updates of different orders may
  overlap, and their interleaving is not modelled.

## Findings

| source | as written | input that shows it | evidently intended | confidence | as-written member | corrected member |
|---|---|---|---|---|---|---|
| lib/product-service.ts:85-92 | `updateProduct` matches `supplier_id` against the signed-in user's id. `createProduct` and `deleteProduct` use the supplier name kept in the browser's storage | supplier "Acme" creates product "p1", so `supplier_id` is "Acme". The signed-in user id is "u-1", or there is no signed-in user because the supplier login only stores a name. The update of "p1" matches no row and returns null | match `supplier_id` against the stored supplier name, as `deleteProduct` does | medium, not executed | `Products.UpdateByUserIdMissesCreatedRow` | `Products.OwnUpdateReachesCreatedRow` |
