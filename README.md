# Storefront core in Dafny

A model of the core of a small storefront for anime, comics, gaming and
collectibles merchandise. The backend is NestJS with Prisma and the frontend
is Next.js. The model covers:

- the backend catalog service and `/products` handlers: paged listing,
  search, lookup, creation;
- the cart table and its `/cart` handlers;
- the order table and its `/orders` handlers;
- the storefront's own `GET /api/search` and `POST /api/admin/products`
  routes;
- the client-side wishlist;
- the admin product table's filtering, sorting, delete and paging rules;
- the search page's price/category refinement;
- the request guard that redirects signed-out users and non-admins.

Modules follow the source files. `Catalog`, `Cart` and `Orders` hold the
tables and the service calls. `ProductsController`, `CartController` and
`OrdersController` are the handlers. `SearchRoute`, `AdminProductsRoute`,
`Wishlist`, `AdminProductsPage`, `SearchPage` and `RouteGuard` are the
frontend files. `Text`, `Numbers`, `Seqs`, `Http` and `Wrappers` hold the
shared pieces:

- ASCII case mapping, substring search and comparison;
- JavaScript `parseInt` and integer `toString`;
- filter, window and a stable sort;
- status codes and the two `catch` styles;
- `Option`.

Tables that the source writes in place are classes whose methods rewrite a
field: `Catalog.ProductRepository`, `Cart.CartStore`, `Orders.OrderStore`,
`Wishlist.WishlistState` and `AdminProductsPage.AdminProductsView`. Each
write method is specified by a pure function of the old state, and the
properties are proved about those functions. Handlers are pure functions.
Each handler receives the service call it makes as a function value, so
three things can be stated about it:

- whether it reaches the service;
- what arguments it passes;
- how each outcome becomes a status.

Lemmas then instantiate that call with the table functions to state
end-to-end behaviour.

Prices and totals are whole cents (`int`). A thrown error is either an
`HttpException` with a status or some other error, such as a Prisma failure.

## Model

| member | source | states |
|---|---|---|
| Http.Rethrowing | backend/src/cart/cart.controller.ts:31-39 | a returned value is sent with the success status; an HttpException keeps its own status; any other failure becomes 500 |
| Http.Flattening | backend/src/cart/cart.controller.ts:53-58 | a returned value is sent with the success status; every failure, an HttpException included, becomes 500 |
| Numbers.ParseIntOfDecimal | backend/src/products/products.controller.ts:42-43 | `parseInt(n.toString(), 10)` reads back every integer n, negatives included |
| Numbers.LeadingSpaceIgnored | backend/src/products/products.controller.ts:42-43 | any leading white-space character that `parseInt` skips (Latin-1 space, byte order mark, any Unicode space separator, line or paragraph separator) leaves the value read unchanged, so an em space before "5" still reads 5 |
| Catalog.ParseCategory | backend/src/products/products.service.ts:27-29 | yields member c exactly when the string is c's enum name |
| Catalog.CategoryFilter | backend/src/products/products.service.ts:27-29 | a category filter exists exactly when the value names an enum member, and it is that member |
| Catalog.Listing | backend/src/products/products.service.ts:35-40 | the rows a filter selects: each is a table row that passes the filter, every passing row is included, and ids descend when the table is in key order |
| Catalog.FindAllFailsIffBadPage | backend/src/products/products.service.ts:31-33 | the listing throws exactly when page or pageSize is not a positive number (≤ 0 by the check, NaN by the ORM) |
| Catalog.FindAllIsPageOfListing | backend/src/products/products.service.ts:35-40 | a page has exactly min(pageSize, rows left after the skipped ones) rows, so a partial last page holds every remaining row, row i is row (page-1)*pageSize+i of the id-descending listing of the category, and ids descend |
| Catalog.UnknownCategoryIgnored | backend/src/products/products.service.ts:27-29 | a category that names no enum member gives the same page as no category |
| Catalog.KnownCategoryRestricts | backend/src/products/products.service.ts:27-29 | with a member's name every listed row has that category |
| Catalog.SearchFindsExactlyMatches | backend/src/products/products.service.ts:62-77 | a product is found iff the lower-cased query occurs in its lower-cased title or description and it is of the valid category; results descend by id and are not paged |
| Catalog.FindOne | backend/src/products/products.service.ts:43-47 | returns a row with that id, and nothing exactly when no row has it |
| Catalog.WithDefaultMetadata | backend/src/products/products.service.ts:11-18 | the inserted row copies the dto's fields and has metadata `{}` when the dto has none |
| Catalog.ProductRepository.Create | backend/src/products/products.service.ts:11-17 | appends one row under an id larger than every existing one, keeping ids ascending |
| Catalog.CreateProduct | backend/src/products/products.service.ts:11-18 | the created product carries the dto's fields and `{}` for missing metadata, and is the only row added |
| ProductsController.NumberParam | backend/src/products/products.controller.ts:42-43 | a missing or empty parameter takes the default |
| ProductsController.UpperCased | backend/src/products/products.controller.ts:53 | an absent category stays absent, a present one is upper-cased |
| ProductsController.Create | backend/src/products/products.controller.ts:23-33 | 201 with the service's product; any failure is 500 |
| ProductsController.FindAll | backend/src/products/products.controller.ts:35-66 | 400 when a parsed page or pageSize is ≤ 0, without reaching the service; otherwise the service result with 200, or 500 on a non-HTTP failure |
| ProductsController.FindAllDefaults | backend/src/products/products.controller.ts:42-43 | missing or empty page and pageSize reach the service as 1 and 10 |
| ProductsController.NonPositivePageIsBadRequest | backend/src/products/products.controller.ts:45-50 | a page or pageSize written as an integer ≤ 0 yields 400 whatever the other parameter |
| ProductsController.PositivePageReachesService | backend/src/products/products.controller.ts:52-56 | positive page and pageSize reach the service as those numbers, with the category upper-cased |
| ProductsController.LowerCaseCategoryFilters | backend/src/products/products.controller.ts:53 | against the catalog, `?category=gaming` succeeds with at most 10 rows, all GAMING |
| ProductsController.UnparsablePageIsServerError | backend/src/products/products.controller.ts:42-65 | against the catalog, `?page=abc` passes the `<= 0` checks as NaN and ends as 500, not 400 |
| ProductsController.Search | backend/src/products/products.controller.ts:68-90 | 400 for a missing or empty q; otherwise the service result for q and the upper-cased category, or 500 |
| ProductsController.FindOne | backend/src/products/products.controller.ts:92-109 | 404 when the service finds nothing, the product with 200, 500 on other failures |
| ProductsController.AbsentIdIsNotFound | backend/src/products/products.controller.ts:95-98 | against the catalog, an id no row has is a 404 |
| SearchRoute.RouteCategory | frontend/src/app/api/search/route.ts:15-19 | a filter exists exactly when the upper-cased, non-empty parameter names a member, and it is that member |
| SearchRoute.TitleOrderIsStrictWeak | frontend/src/app/api/search/route.ts:34-36 | ordering by title under any admissible database collation is a strict weak order, so the sorted result is well defined |
| SearchRoute.GetReturnsTheSelection | frontend/src/app/api/search/route.ts:9-33 | under any collation, a product is returned iff its title contains q case-insensitively, its price lies in the inclusive range and it is of the valid category, each as often as stored |
| SearchRoute.GetSelectsExactly | frontend/src/app/api/search/route.ts:9-37 | a product is returned iff its title contains q case-insensitively (the description is not searched), its price lies in the inclusive range with defaults 0 and 10000, and it is of the valid category; each is returned as often as stored; titles ascend in the database's collation, which is left abstract |
| SearchRoute.MissingQueryMatchesEveryTitle | frontend/src/app/api/search/route.ts:9 | with no q and default bounds every product priced 0 to 10000 is returned |
| SearchRoute.CategoryParameterIsUpperCased | frontend/src/app/api/search/route.ts:15-19 | `category=gaming` returns GAMING products only |
| AdminProductsRoute.Decide | frontend/src/app/api/admin/products/route.ts:4-34 | an unreadable body gives 500; a falsy title, description, price, category or image gives 400; a category outside the enum gives 500; otherwise exactly the body's fields are inserted, with `{}` for missing metadata |
| AdminProductsRoute.ZeroPriceRejected | frontend/src/app/api/admin/products/route.ts:9 | a price of 0 is a 400 |
| AdminProductsRoute.Post | frontend/src/app/api/admin/products/route.ts:4-35 | 201 with the created product, which is the decided row (title, price, image, category, description, metadata) under the next id, appended to the table, or the error status with the table unchanged |
| Cart.QuantityOrDefault | backend/src/cart/cart.service.ts:17 | an omitted quantity is 1 |
| Cart.LinesOf | backend/src/cart/cart.service.ts:9-13 | the user's cart holds exactly the lines stored under that user |
| Cart.Upserted | backend/src/cart/cart.service.ts:19-24 | the pair's quantity becomes old + q, or q when new; every other line is untouched |
| Cart.WithoutUser | backend/src/cart/cart.service.ts:41-45 | every line of the user is gone and every other line is kept as it was |
| Cart.AddTwiceMerges | backend/src/cart/cart.service.ts:19-23 | adding q1 then q2 for a new pair leaves exactly one line, with q1+q2 |
| Cart.ClearTouchesOnlyThatUser | backend/src/cart/cart.service.ts:41-45 | after clearing, the user's cart is empty and every other user's cart is unchanged |
| Cart.AddUpdatesOneLine | backend/src/cart/cart.service.ts:16-24 | after an add, the user's cart is the old one with only that product's line replaced |
| Cart.CartStore.AddToCart | backend/src/cart/cart.service.ts:16-25 | the table becomes the upsert and the returned line is the stored one |
| Cart.CartStore.UpdateItemQuantity | backend/src/cart/cart.service.ts:27-33 | sets (does not add) any quantity, zero and negatives included, on an existing line only; throws and changes nothing otherwise |
| Cart.CartStore.RemoveFromCart | backend/src/cart/cart.service.ts:35-39 | deletes and returns an existing line; throws and changes nothing when absent |
| Cart.CartStore.ClearCart | backend/src/cart/cart.service.ts:41-45 | deletes every line of the user, possibly none, and returns how many there were |
| CartController.GetCart | backend/src/cart/cart.controller.ts:23-40 | 401 without a user; otherwise the service result unchanged, or 500 |
| CartController.AddToCart | backend/src/cart/cart.controller.ts:42-59 | 500 without a user; otherwise the service is called with the signed-in user id and its line returned with 201, or 500 |
| CartController.AddToCartIgnoresBodyUser | backend/src/cart/cart.controller.ts:52 | the userId in the body cannot change the answer |
| CartController.UpdateCartItemQuantity | backend/src/cart/cart.controller.ts:61-89 | 401 without a user; otherwise the service result unchanged, or 500 |
| CartController.RemoveFromCart | backend/src/cart/cart.controller.ts:91-114 | 401 without a user; otherwise the service result unchanged, or 500 |
| CartController.ClearCart | backend/src/cart/cart.controller.ts:116-133 | 401 without a user; otherwise the count from the service, or 500 |
| CartController.MissingUserStatuses | backend/src/cart/cart.controller.ts:48-58 | a missing user is 401 for get, update, remove and clear, but 500 for add |
| Orders.ItemsOf | backend/src/orders/orders.service.ts:17-19 | one item row per input item, in order, with the same title, price, quantity and image |
| Orders.NewOrder | backend/src/orders/orders.service.ts:9-24 | the order stores userId, total and status as given (the total is not recomputed) and its items are the request items in order, each with the same title, price, quantity and image and linked to the new id |
| Orders.ByUserIsExactlyTheUsersOrders | backend/src/orders/orders.service.ts:27-33 | exactly the user's orders, each as often as stored, newest first |
| Orders.AllNewestFirstIsEveryOrder | backend/src/orders/orders.service.ts:42-47 | every order, newest first |
| Orders.IndexOf | backend/src/orders/orders.service.ts:49-61 | the position of the order with that id, or none exactly when no order has it |
| Orders.FindOwned | backend/src/orders/orders.service.ts:35-40 | an order is returned only when both id and owner match, and nothing exactly when none does |
| Orders.FindOwnedOfStoredOrder | backend/src/orders/orders.service.ts:35-40 | under unique ids a stored order is found by its owner and by no other user |
| Orders.SumOfTotals | backend/src/orders/orders.service.ts:65-67 | the aggregate is null exactly over an empty table |
| Orders.Stats | backend/src/orders/orders.service.ts:63-73 | totalOrders is the number of orders and totalRevenue the sum of all totals, 0 for no orders |
| Orders.StatsAfterCreate | backend/src/orders/orders.service.ts:63-73 | a created order adds one to the count and its total to the revenue |
| Orders.StatsAfterRemove | backend/src/orders/orders.service.ts:57-73 | a removed order subtracts one from the count and its total from the revenue |
| Orders.WithoutKeepsUniqueIds | backend/src/orders/orders.service.ts:57-61 | deleting a row keeps ids unique |
| Orders.StatusUpdateChangesOnlyStatus | backend/src/orders/orders.service.ts:49-55 | a status update keeps ids unique and the statistics unchanged, and the owner then sees the same order with the new status |
| Orders.OrderStore.Create | backend/src/orders/orders.service.ts:9-24 | appends the new order under a fresh id; a taken id throws and writes nothing |
| Orders.OrderStore.UpdateStatus | backend/src/orders/orders.service.ts:49-55 | overwrites the status of the order with that id with any string, of any owner, and changes nothing else; an unknown id throws |
| Orders.OrderStore.Remove | backend/src/orders/orders.service.ts:57-61 | deletes the order only when the id and the owner both match; otherwise throws and deletes nothing |
| OrdersController.Create | backend/src/orders/orders.controller.ts:22-42 | 500 without a user; otherwise the service is called with the signed-in user id, 201 with the order, or 500 |
| OrdersController.CreatedOrderBelongsToCaller | backend/src/orders/orders.controller.ts:35 | against the order table, the created order belongs to the signed-in user whatever the body says, with the body's total, status and items |
| OrdersController.FindUserOrders | backend/src/orders/orders.controller.ts:44-61 | 500 without a user; otherwise the service result, or 500 |
| OrdersController.GetStats | backend/src/orders/orders.controller.ts:63-73 | needs no user; the statistics with 200, or 500 |
| OrdersController.FindOne | backend/src/orders/orders.controller.ts:75-99 | 401 without a user, 404 when the service finds nothing, the order with 200, 500 on other failures |
| OrdersController.FindOneAgainstTable | backend/src/orders/orders.controller.ts:85-89 | against the order table, the owner gets the order and every other signed-in user gets 404 |
| OrdersController.UpdateStatus | backend/src/orders/orders.controller.ts:101-117 | 400 for a missing or empty status; otherwise the updated order, or 500 |
| OrdersController.EmptyStatusNeverReachesService | backend/src/orders/orders.controller.ts:104-106 | with an empty or missing status the answer is 400 whatever the service would do |
| OrdersController.Remove | backend/src/orders/orders.controller.ts:119-137 | 500 without a user; otherwise the deleted order, or 500 |
| OrdersController.MissingUserStatuses | backend/src/orders/orders.controller.ts:27-41 | a missing user is 500 for create, list and remove, and 401 only for findOne |
| Wishlist.WithItem | frontend/src/context/WishlistContext.tsx:31-36 | the id is present afterwards; a present id leaves the list unchanged; a new one is appended at the end with the rest in order; ids stay unique |
| Wishlist.WithoutId | frontend/src/context/WishlistContext.tsx:38-40 | no item with the id remains, every other item is kept, and nothing new appears |
| Wishlist.WithoutIdKeepsOrder | frontend/src/context/WishlistContext.tsx:38-40 | the remaining items keep their order, and ids stay unique |
| Wishlist.WithoutAbsentId | frontend/src/context/WishlistContext.tsx:38-40 | removing an id that is not there changes nothing |
| Wishlist.AddThenRemove | frontend/src/context/WishlistContext.tsx:31-40 | adding a new item and removing its id restores the list |
| Wishlist.WishlistState.AddItem | frontend/src/context/WishlistContext.tsx:31-36 | the list becomes WithItem of the old one, and `isInWishlist` of the id is then true |
| Wishlist.WishlistState.RemoveItem | frontend/src/context/WishlistContext.tsx:38-44 | the list becomes WithoutId of the old one, and `isInWishlist` of the id is then false |
| AdminProductsPage.KeepsMeetsFilters | frontend/src/app/admin/products/page.tsx:113-126 | the filter callback holds iff the search term is in the title or category, the name in the title, the category filter in the category (case-insensitively; empty texts impose nothing) and the price within each entered bound |
| AdminProductsPage.StringField | frontend/src/app/admin/products/page.tsx:133-136 | a sort key reads a string exactly for title, image, description and category |
| Text.CompareIsCollation | frontend/src/app/admin/products/page.tsx:136-140 | comparison by character code is one admissible collation, so the abstract `localeCompare` and database order can be met |
| AdminProductsPage.FilteredAndSortedIsSortedSelection | frontend/src/app/admin/products/page.tsx:113-143 | the table shows exactly the products meeting every filter, each as often as fetched (a permutation of the filtered subset), sorted by the comparator |
| AdminProductsPage.PriceSortOrdersPrices | frontend/src/app/admin/products/page.tsx:128-131 | by price the rows are non-decreasing ascending and non-increasing descending |
| AdminProductsPage.StringSortOrdersValues | frontend/src/app/admin/products/page.tsx:133-140 | by a string column no later row's value collates strictly before an earlier one's, in the chosen direction |
| AdminProductsPage.NonStringKeyKeepsOrder | frontend/src/app/admin/products/page.tsx:141 | a key that is neither price nor a string compares equal, so the filtered order stays |
| AdminProductsPage.NextSortConfig | frontend/src/app/admin/products/page.tsx:95-101 | the clicked key becomes the key; descending exactly when it was already the key and ascending |
| AdminProductsPage.SortToggleAlternates | frontend/src/app/admin/products/page.tsx:95-101 | after a click on a column, each further click on it flips the direction |
| AdminProductsPage.DeleteRemovesExactlyThatId | frontend/src/app/admin/products/page.tsx:86 | deleting an id removes exactly the products with that id and keeps the rest in order |
| AdminProductsPage.ShortPageIsLast | frontend/src/app/admin/products/page.tsx:61 | a page shorter than pageSize reports no more pages, and the next page is indeed empty |
| AdminProductsPage.ExactMultipleReportsMore | frontend/src/app/admin/products/page.tsx:61 | when the listing ends exactly at a page's end, that page reports more pages although the next is empty |
| AdminProductsPage.PreviousPageNumber | frontend/src/app/admin/products/page.tsx:422 | never below 1; one less when above 1 |
| AdminProductsPage.AdminProductsView.PageLoaded | frontend/src/app/admin/products/page.tsx:59-61 | the fetched page replaces the list and "more" is reported exactly when its length equals pageSize |
| AdminProductsPage.AdminProductsView.HandleSort | frontend/src/app/admin/products/page.tsx:95-101 | the sort config becomes NextSortConfig of the old one; nothing else changes |
| AdminProductsPage.AdminProductsView.ResetFilters | frontend/src/app/admin/products/page.tsx:103-110 | name, category and both price bounds become empty and the panel is hidden; the search term and sort stay |
| AdminProductsPage.AdminProductsView.ProductDeleted | frontend/src/app/admin/products/page.tsx:86 | the list becomes the old one without that id |
| AdminProductsPage.AdminProductsView.PreviousPage | frontend/src/app/admin/products/page.tsx:421-422 | the page becomes max(1, page-1) and stays ≥ 1 |
| AdminProductsPage.AdminProductsView.NextPage | frontend/src/app/admin/products/page.tsx:436-437 | the page advances only when more pages were reported |
| SearchPage.FilterResults | frontend/src/app/search/page.tsx:31-35 | every kept product was fetched, has minPrice ≤ price ≤ maxPrice and, unless the category is 'all', a lower-cased category equal to the filter; every fetched product meeting the filter is kept |
| SearchPage.FilterResultsIsOrderedSelection | frontend/src/app/search/page.tsx:31-35 | the results are an order-preserving subsequence of the fetched products, with each kept product's multiplicity |
| SearchPage.InitialFilterKeepsPriceRange | frontend/src/app/search/page.tsx:18 | with the initial filter (0, 1000, 'all') every product priced 0 to 1000 is shown, whatever its category |
| SearchPage.LowerCategoryNameInjective | frontend/src/app/search/page.tsx:34 | lower-cased category names are pairwise distinct |
| SearchPage.LowerCaseNameSelectsCategory | frontend/src/app/search/page.tsx:34 | choosing a category's lower-case name shows products of that category only |
| SearchPage.UpperCaseValueKeepsNothing | frontend/src/app/search/page.tsx:34 | a filter value with an upper-case letter keeps nothing |
| RouteGuard.EffectiveRole | frontend/src/middleware.ts:18 | the claimed role when truthy, otherwise "user" |
| RouteGuard.Decide | frontend/src/middleware.ts:15-46 | a path outside `config.matcher` passes untouched; on a matched path, /sign-in iff a protected path is requested without a user id; /unauthorized iff not that and an admin path is requested by a non-admin; otherwise pass through |
| RouteGuard.RouteClassesDisjoint | frontend/src/middleware.ts:5-13 | no path is both protected and admin |
| RouteGuard.GuardedSubtreesAreMatched | frontend/src/middleware.ts:5-45 | every guarded prefix and every path below it lies under a `config.matcher` root, so the guard runs there |
| RouteGuard.PatternMatchOutsideMatcherPasses | frontend/src/middleware.ts:6-45 | `/administrator` and `/dashboardx` match the `(.*)` patterns but no matcher root, so a signed-out visitor passes |
| RouteGuard.AdminRouteNeedsAdminRole | frontend/src/middleware.ts:13-31 | an admin path that the matcher admits passes exactly for the admin role, and is redirected to /unauthorized for everyone else, signed-out visitors included |
| RouteGuard.MissingRoleIsUser | frontend/src/middleware.ts:18-31 | with no or an empty role claim a matched admin path is refused |
| RouteGuard.CheckoutIsProtected | frontend/src/middleware.ts:5-26 | a signed-out checkout request goes to /sign-in while `/cart` itself passes, and an admin reaches `/admin/products` |

## Left out

- Rendering, loading and error state, alerts, confirmation dialogs and navigation of every page are left out: they are UI.
- Clerk is left out. The signed-in user id and the role claim are plain inputs, and the identity provider behind them is not part of this model.
- Several pieces of NestJS are left out: `ValidationPipe`, `ParseIntPipe` and the rejections they produce before a handler runs. A validated body is the handler's input.
- Prisma is left out beyond one atomic step per call. The model has no transactions and no concurrent upserts. Every database failure is `OtherError`, so a connection failure is not modelled separately from a missing row.
- `include: { product: true }` on cart results and `include: { items: true }` on orders beyond the items themselves are left out. The joined product data is not modelled.
- The schema's foreign keys are left out. For example, adding a cart line for a product that does not exist is not rejected.
- Order and item ids and the creation date are left out as generated values. They are parameters of `Orders.OrderStore.Create`. A duplicate generated id is modelled as a failed insert.
- `parseFloat`, `toFixed` and floating point are left out. Prices are whole cents, and a price bound is the number `parseFloat` would read from the text.
- Numbers.ParseInt, Numbers.ParseIntOfDecimal and ProductsController.PositivePageReachesService treat JavaScript numbers as unbounded integers. In the source they are doubles. Integers are exact only below 2^53 in magnitude, so `parseInt("9007199254740993", 10)` reads 9007199254740992. A few hundred digits read as `Infinity`. `toString` switches to exponent form from 1e21, and `parseInt` reads that back as a single digit. The model reads every digit string exactly and prints every integer in plain decimal, so it also hands the ORM `skip` values that no JavaScript number carries. Page numbers and product ids stay far below these bounds in practice.
- SearchRoute.Query types `minPrice` and `maxPrice` as numbers, so `?minPrice=abc` is not expressible. In the source, that text reads as NaN, the ORM rejects the `gte: NaN` condition, and the catch answers 500. `SearchRoute.Get` returns the rows only, so that 500 path is not modelled.
- Unicode is left out. `toLowerCase`, `toUpperCase` and the database's case-insensitive `contains` are modelled on ASCII letters only.
- `localeCompare` and the database's text collation are left out as an abstract collation (`Text.IsCollation`). `AdminProductsPage.FilteredAndSorted` and `SearchRoute.Get` take it as a parameter, so `SearchRoute.GetSelectsExactly` promises title order only up to that collation. For example, under an en_US collation "apple" sorts before "Banana", and under character codes it sorts after.
- Route matching is left out in two respects:
  - `createRouteMatcher` patterns are modelled as case-sensitive prefixes.
  - `config.matcher` entries `"<root>/:path*"` are modelled as the root itself or a path below it. Next.js's other matcher rules are not modelled, such as its handling of trailing slashes and of `_next` data requests.
- CartController.UpdateCartItemQuantity, CartController.RemoveFromCart, Cart.CartStore.UpdateItemQuantity and Cart.CartStore.RemoveFromCart treat `productId` as the integer key of the line. In the source it is declared `string` (backend/src/cart/cart.controller.ts:64 and :94), so the global pipe keeps it a string, and it is passed as it is into the `userId_productId` key. `CreateCartItemDto.productId` is `@IsNumber`, so that column is very probably an integer. If it is, Prisma rejects the string and PATCH and DELETE `/cart/:productId` always answer 500, where these four members succeed on a present line. The schema is not part of this model, so this stays unconfirmed.
- AdminProductsRoute.Decide types the body's price as a number (`Option<int>`). The route tests the raw JSON value (frontend/src/app/api/admin/products/route.ts:9), so a string such as "0" would pass the guard and be stored as 0. The model follows the route's only caller (frontend/src/app/admin/products/new/page.tsx:61), which sends `parseFloat` of the form field: a number, or NaN, which serialises to null and gives 400.
- localStorage persistence of the wishlist is left out, because it is I/O. A fresh provider starts empty.
- The following are left out as pass-through CRUD: product update and delete, sections, the wishlist API route, the profile and stats routes, and the category pages' own pagination (the same `length === pageSize` rule as the admin table).
- The spelling of the order status is left out. Any string is accepted, as `updateStatus` does.
- Cart update and remove of a missing line: the service's Prisma call throws a non-HTTP error, which the handlers answer with 500, not 404. The model follows the code.
- `page=abc` reaches the service as NaN, which passes the `<= 0` checks, so the answer is 500, not 400. The model follows the code.
- AdminProductsPage.PageLoaded does not model the non-array `data.products` branch of the fetch, because `/api/products` returns an array.
