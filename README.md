# ecommerce-ts-backend: a verified model of the shop's rules

The shop backend is an Express/Mongoose service. This project models the
deterministic rules inside its handlers:

- the process-wide string cache and the `invalidateCache` helper, which
  deletes fixed groups of keys per change descriptor;
- `reduceStock`, which decrements product stock item by item with no floor
  and no rollback;
- `calculatePercentage` and the admin dashboard: bucketing records by
  creation month into 6- or 12-slot charts, category shares, the gender,
  stock, revenue and age summaries, and the read-through caching of the four
  reports (the line chart is never cached);
- the order handlers: validation and sequencing of `newOrder`, the cached
  order reads, the `processOrder` status step, `deleteOrder`;
- the product handlers: validation and category lower-casing in
  `createProduct`, the field merge of `updateProduct`, `deleteProduct`, the
  cached product reads, and the filter, sort and pagination of
  `getAllProducts`;
- the `age` virtual of a user;
- `errorMiddleware`, which maps an error to a status and a message.

Modules, one per file:

- `Wrappers` (wrappers.dfy) is `Option`.
- `Js` (js.dfy) holds the JavaScript semantics the rules depend on. This
  covers truthiness, `Number()` on decimal integer strings, `${x}` of
  `undefined`, ASCII `toLowerCase`, and calendar dates.
- `KeyValueCache` (cache.dfy) is the cache, a class over a
  `map<string, string>`.
- `Documents` (documents.dfy) holds products, orders and the store that
  holds them by id.
- `Errors` (errors.dfy) is the error responder.
- `Features` (features.dfy) holds invalidation, stock reduction and the
  percentage.
- `Users` (users.dfy) is age.
- `Dashboard` (dashboard.dfy) is the dashboard.
- `OrderController` (orders.dfy) holds the order handlers.
- `ProductController` (products.dfy) holds the product handlers.

Database queries are not modelled. A handler takes what its queries return
as inputs, with one exception: `findById` in `reduceStock`, `processOrder`,
`deleteOrder`, `updateProduct` and `deleteProduct` is an exact lookup of
the request's id string among the keys of the store's maps. Writes (`create`, `save`, `deleteOne`) are updates of the
store's maps. Serialisation is a function parameter `encode`, and cached
values are opaque strings. Money is an integer number of minor units. A
request field is an `Option`, where `None` stands for `undefined` (or
`NaN` for a number). A handler's result is an `Outcome`:
`Done(status, body)` when it answers itself, or `Fail(error)` when it
passes an error on to `errorMiddleware`.

## Model

| member | source | states |
|---|---|---|
| Errors.ErrorResponse | src/middlewares/error.ts:5-25 | A CastError always gives 400 "Invalid ID". Any other error keeps its status code when truthy, else 500. It keeps its message when non-empty, else "Internal Server Error". `success` is always false. |
| Errors.CastErrorIgnoresStatus | src/middlewares/error.ts:14-18 | Two CastErrors with different status codes get the same reply, and it is 400. |
| Errors.HandlerErrorPassesThrough | src/middlewares/error.ts:11-23 | An `ErrorHandler(message, code)` with a non-empty message and a non-zero code reaches the client as exactly that status and message. |
| Errors.PlainErrorIsServerError | src/middlewares/error.ts:11-23 | A plain `Error` without a status code becomes a 500 that carries its message. |
| Js.NumberOfIntString | src/controllers/product.ts:196 | `Number()` of the decimal text of any integer is that integer. |
| Js.ToNumber | src/controllers/product.ts:196-198 | `Number()` of a missing value is NaN and of "" is 0; decimal integer text gives its value (proved in NumberOfIntString). |
| Js.ToLowerCase | src/controllers/product.ts:34 | Lower-casing keeps the length and lowers each character on its own. |
| Js.LowerCaseNormal | src/controllers/product.ts:34 | A lower-cased string has no upper-case letter left, and lower-casing it again changes nothing. |
| KeyValueCache.Cache.Get | src/controllers/product.ts:52-53 | `get` yields a value exactly when the key is stored, and that value is the stored one. |
| KeyValueCache.Cache.Set | src/controllers/product.ts:57 | `set` stores or replaces one entry and leaves every other entry as it was. |
| KeyValueCache.Cache.Del | src/utils/features.ts:28 | `del` removes exactly the listed keys. Absent keys are ignored. |
| Features.ProductIdKeys | src/utils/features.ts:23-27 | The keys pushed for an id list are `product-<id>` for each id, one per id, in list order. |
| Features.InvalidateCache | src/utils/features.ts:17-38 | The cache afterwards is the old cache minus exactly the keys of the selected groups. |
| Features.DeletedKeys | src/utils/features.ts:17-38 | The union of the key groups whose flags are set; its membership is characterised by InvalidatedExactly. |
| Features.Invalidated | src/utils/features.ts:17-38 | The cache after an invalidation: the old entries minus the deleted keys, which InvalidateCache is proved to produce. |
| Features.InvalidatedExactly | src/utils/features.ts:17-38 | A key is deleted if and only if its group's flag is set and the key is in that group. The product group is the three product lists plus `product-<id>` for each given id. The order group is `all-orders`, `my-orders-<user>` and `order-<id>`. The admin group is the four report keys. Every other key keeps its value. |
| Features.ProductKeyInjective | src/utils/features.ts:21 | `product-<a>` and `product-<b>` are the same key only when a and b are the same id. |
| Features.ProductIdKeysMembership | src/utils/features.ts:23-27 | A key is among the pushed product keys if and only if it is `product-<id>` for a listed id. |
| Features.UnselectedGroupsChangeNothing | src/utils/features.ts:17-38 | With no flag set, the cache is unchanged. The `user` flag never changes the outcome. |
| Features.InvalidateIdempotent | src/utils/features.ts:28-36 | Invalidating twice with the same descriptor leaves the same cache as invalidating once. |
| Features.MissingIdsDeleteUndefinedKeys | src/utils/features.ts:31 | With the order flag set and no user id or order id, the literal keys `my-orders-undefined` and `order-undefined` are deleted. |
| Features.FirstMissing | src/utils/features.ts:42-48 | Gives the first index whose product is missing, or the item count when there is none. Every product before that index is present. |
| Features.FirstMissingAt | src/utils/features.ts:43-48 | Any index up to which every product is present, and at which the product is missing or the items end, is the first missing index. |
| Features.Decremented | src/utils/features.ts:42-51 | The product table after decrementing item by item; DecrementedStock proves each stock drops by the summed quantities of the items naming it. |
| Features.DecrementedStock | src/utils/features.ts:42-51 | After decrementing, the set of product ids is unchanged. Each product's stock is its old stock minus the summed quantities of the items that name it. Its other fields are unchanged. |
| Features.UnorderedProductUnchanged | src/utils/features.ts:42-51 | A product that no item names is left exactly as it was. |
| Features.QuantityForUnreferenced | src/utils/features.ts:42-51 | The summed quantity for a product that no item names is 0. |
| Features.ReduceStock | src/utils/features.ts:41-52 | The call succeeds if and only if every item's product exists. On failure the error is "Product not found". The products hold the decrements of the items before the first missing product, and nothing is rolled back. Orders are untouched. |
| Features.OversellGoesNegative | src/utils/features.ts:49 | Stock has no floor: 12 units ordered from a stock of 10 leave -2. |
| Features.RoundedPercent | src/utils/features.ts:60-61 | The result is the integer nearest to 100·part/whole, with halves rounded up: `(2r-1)·whole ≤ 200·part < (2r+1)·whole` for a positive whole, and the mirror bounds for a negative one. |
| Features.RoundedPercentUnique | src/utils/features.ts:60-61 | For a whole of either sign, no other integer satisfies the rounding bounds. |
| Features.CalculatePercentage | src/utils/features.ts:56-62 | When last month is 0, the result is this month times 100. Otherwise it is the rounded percentage. |
| Features.CalculatePercentageExamples | src/utils/features.ts:56-62 | calc(0,0)=0, calc(50,0)=5000, calc(150,100)=150, calc(1,8)=13 (the half rounds up), and calc(1,3)=33. |
| Features.PercentageOrdering | src/utils/features.ts:56-62 | With a positive last month: equal months give exactly 100, growth gives at least 100, and a drop gives a value between 0 and 100. |
| Users.Age | src/models/user.ts:59-69 | The age is the difference of the years or one less; AgeCountsBirthdays ties it to the number of birthdays passed. |
| Users.AgeCountsBirthdays | src/models/user.ts:59-69 | For anyone born on or before today, the age is the number of birthdays passed since the year of birth. |
| Users.EveryEarlierYearCounts | src/models/user.ts:59-69 | Every birthday in a year before the current one has passed. |
| Users.AgeOnBirthday | src/models/user.ts:64 | On the birthday itself, the age is the plain difference of the years, because the day comparison is strict. |
| Users.AgeNonNegative | src/models/user.ts:59-69 | Anyone born on or before today has an age of 0 or more. |
| Users.AgeMonotone | src/models/user.ts:59-69 | The age never decreases as today advances. |
| Users.AgeRisesAtBirthday | src/models/user.ts:62-66 | Within one year, passing the birthday raises the age by exactly one. |
| Dashboard.MonthDiff | src/controllers/dashboard.ts:123 | The month difference lies in 0..11. Adding it to the creation month gives today's month modulo 12. It is 0 exactly for the same month. |
| Dashboard.Slot | src/controllers/dashboard.ts:123-126 | A record is kept exactly when its month difference is below the width. It then lands in a slot inside the chart, and that slot lies as many places before the last one as the record's month lies before today's (modulo 12). The same rule is used at dashboard.ts:347-349 and 361-363. |
| Dashboard.SlotPlacement | src/controllers/dashboard.ts:125-126 | A same-month record lands in the last slot, and every slot is inside the chart. A record `width` or more months back is dropped. With 12 slots every record lands somewhere. |
| Dashboard.SixSlotEdges | src/controllers/dashboard.ts:125-126 | In a 6-slot chart, a record five months back lands in slot 0, and one six months back is dropped. |
| Dashboard.CountByMonth | src/controllers/dashboard.ts:345-351 | The forEach produces, slot by slot, the number of records whose month difference places them in that slot. |
| Dashboard.Counts | src/controllers/dashboard.ts:341-343 | A count chart has exactly `width` slots. |
| Dashboard.CountsAddUp | src/controllers/dashboard.ts:359-365 | The slot counts add up to the number of records kept, so no record is counted twice. |
| Dashboard.KeptCountBounds | src/controllers/dashboard.ts:359-365 | At most every record is kept, and with 12 slots every record is. |
| Dashboard.Totals | src/controllers/dashboard.ts:409-412 | A total chart has exactly `width` slots. |
| Dashboard.TotalByMonth | src/controllers/dashboard.ts:428-441 | The forEach produces, slot by slot, the summed amount of the records placed in that slot. |
| Dashboard.CountAndTotalByMonth | src/controllers/dashboard.ts:118-130 | One pass produces both the per-slot counts and the per-slot totals of the six-month chart. |
| Dashboard.CountsMatchSlotMembers | src/controllers/dashboard.ts:118-130 | `chart.order[s]` is the number of the orders in slot s, and `chart.revenue[s]` is the sum of the totals of those same orders. |
| Dashboard.TotalsAddUp | src/controllers/dashboard.ts:435-441 | The slot totals add up to the total of the records kept. |
| Dashboard.TwelveSlotsKeepAll | src/controllers/dashboard.ts:435-441 | With 12 slots no record is dropped. |
| Dashboard.ShareOf | src/controllers/dashboard.ts:140 | A category's share has no number (NaN in the code) exactly when there are no products; otherwise it is the rounded percentage of its count. |
| Dashboard.SharesOf | src/controllers/dashboard.ts:138-142 | The breakdown has one entry per category, in category order. Each entry pairs its category with the rounded share of its count, or no number when there are no products. |
| Dashboard.CategoryShares | src/controllers/dashboard.ts:136-142 | The forEach that pushes the entries builds exactly that breakdown. |
| Dashboard.ShareBounds | src/controllers/dashboard.ts:140 | A category that holds between 0 and all of the products gets a share between 0 and 100. A category that holds all of them gets exactly 100. |
| Dashboard.GenderRatioOf | src/controllers/dashboard.ts:144-147 | Male is the male count and female everyone else; GenderRatioPartitions proves the two partition the users. |
| Dashboard.GenderRatioPartitions | src/controllers/dashboard.ts:144-147 | When the counts come from the users, the female entry is exactly the number of female users, and male plus female is the number of users. |
| Dashboard.StockAvailabilityOf | src/controllers/dashboard.ts:233-236 | In stock is the count with positive stock and out of stock everything else; StockPartitions proves the two partition the products. |
| Dashboard.StockPartitions | src/controllers/dashboard.ts:233-236 | Out of stock is exactly the number of products with stock of 0 or less, and in stock plus out of stock is the number of products. |
| Dashboard.SumMoney | src/controllers/dashboard.ts:98-108 | The `reduce` sum that counts a missing or zero field as 0: it is 0 when every field is missing, and never negative when no field is. The same sum is used at dashboard.ts:238-252. |
| Dashboard.DistributionOf | src/controllers/dashboard.ts:238-263 | The four sums, each counting a missing field as 0, and the net margin; NetMarginIsPerOrderNet proves the margin is the sum of per-order nets. |
| Dashboard.NetMarginIsPerOrderNet | src/controllers/dashboard.ts:238-255 | The net margin equals the sum, over the orders, of each order's total minus its discount, tax and shipping, with a missing field counting 0. |
| Dashboard.AgeGroupsOf | src/controllers/dashboard.ts:265-269 | The three age filters counted over the users; AgeGroupsPartition proves they add up to all users. |
| Dashboard.AgeGroupsPartition | src/controllers/dashboard.ts:265-269 | The teen, adult and older groups add up to the number of users. |
| Dashboard.StatusCountsMissOnlyCancelled | src/controllers/dashboard.ts:209-211 | The processing, shipped and delivered counts add up to all orders except the cancelled ones. |
| Dashboard.TransactionsOf | src/controllers/dashboard.ts:149-155 | There is one transaction per order. Its quantity is the number of order lines, not of units. |
| Dashboard.ChangeOf | src/controllers/dashboard.ts:110-116 | A stats entry carries its total and both month counts, and its change is `calculatePercentage` of them, which is 100 times this month's count when last month's is 0. |
| Dashboard.StatsOf | src/controllers/dashboard.ts:98-189 | The stats report from its query results; ComputeStats is proved to build it and StatsChartAccounts states what its chart accounts for. |
| Dashboard.ComputeStats | src/controllers/dashboard.ts:98-189 | The stats report built step by step equals the report specified from the query results. |
| Dashboard.StatsChartAccounts | src/controllers/dashboard.ts:118-130 | The six-month chart has six slots. Its counts add up to at most the orders fetched, and its revenue adds up to the total of the orders it counts. |
| Dashboard.PieOf | src/controllers/dashboard.ts:221-287 | The pie-chart report from its query results, made of the summaries above; ComputePie is proved to build it. |
| Dashboard.ComputePie | src/controllers/dashboard.ts:221-287 | The pie-chart report built step by step equals the specified one. |
| Dashboard.BarOf | src/controllers/dashboard.ts:341-371 | The product, user and order count charts with 6, 6 and 12 slots; BarChartAccounts states what they account for. |
| Dashboard.ComputeBar | src/controllers/dashboard.ts:341-371 | The bar-chart report built step by step equals the specified one. |
| Dashboard.BarChartAccounts | src/controllers/dashboard.ts:341-365 | The 12-slot order chart counts every order fetched. The 6-slot product and user charts count at most the records fetched. |
| Dashboard.LineOf | src/controllers/dashboard.ts:409-448 | The four 12-slot charts; LineChartAccounts states what they account for. |
| Dashboard.ComputeLine | src/controllers/dashboard.ts:409-448 | The line-chart report built step by step equals the specified one. |
| Dashboard.LineChartAccounts | src/controllers/dashboard.ts:409-441 | The 12-slot line charts keep every product and user fetched, and their revenue adds up to the total of all orders. |
| Dashboard.GetDashboardStats | src/controllers/dashboard.ts:9-199 | On a hit, the stored stats are returned and the cache is unchanged. On a miss, the computed report is returned and stored under `admin-stats`, and nothing else changes. |
| Dashboard.GetPieCharts | src/controllers/dashboard.ts:200-296 | Same as the stats report, under `admin-pie-charts`. |
| Dashboard.GetBarCharts | src/controllers/dashboard.ts:297-381 | Same as the stats report, under `admin-bar-charts`. |
| Dashboard.GetLineCharts | src/controllers/dashboard.ts:382-455 | The cache is unchanged in every case. A hit returns the stored value, and a miss returns the computed report without storing it. |
| Dashboard.StatsTwice | src/controllers/dashboard.ts:9-199 | Two stats requests in a row give the same answer, even when the data changed in between, and the report is cached afterwards. |
| Dashboard.AdminInvalidationClearsReports | src/utils/features.ts:34-37 | After an invalidation that selects the admin group, none of the four report keys is present. |
| OrderController.Advance | src/controllers/order.ts:118-122 | The status step yields Cancelled exactly when the order already was; AdvanceProgress states the rest. |
| OrderController.AdvanceProgress | src/controllers/order.ts:118-122 | The step never produces Cancelled unless the order already is. It moves a live order one stage forward and stops at Delivered. Only Delivered and Cancelled stay put. |
| OrderController.AdvanceTwiceDelivers | src/controllers/order.ts:118-122 | Two steps take any order that is not cancelled to Delivered. Delivered is a fixed point. |
| OrderController.Complete | src/controllers/order.ts:13 | The guard: shipping info and items present, and user, subtotal, tax and total truthy. An empty item list passes, and shipping charge and discount are not looked at. |
| OrderController.OrderOf | src/controllers/order.ts:17 | A created order has status Processing and carries the body's user, items and total. Shipping charge and discount are carried as given. |
| OrderController.NewOrderChange | src/controllers/order.ts:21-27 | A placed order deletes exactly the three product lists, `product-<id>` for each item's product, `all-orders`, the user's `my-orders-<user>`, the literal `order-undefined` and the four report keys. |
| OrderController.ItemProductIds | src/controllers/order.ts:26 | The ids passed to invalidation are the items' product ids, in item order. |
| OrderController.NewOrder | src/controllers/order.ts:9-33 | An incomplete body is a 400 "Please fill all the fields" with nothing written. Otherwise the order is created under a fresh id and the stock reduced. A missing product makes the call fail with "Product not found", leaving the order created, the earlier decrements applied and the cache untouched. On success the product, order and admin groups are invalidated and the reply is 201 "Order placed successfully". |
| OrderController.NewOrderRefreshesReads | src/controllers/order.ts:21-27 | A placed order deletes `all-orders`, the customer's `my-orders-<user>`, the literal `order-undefined`, and `product-<id>` of every ordered product. |
| OrderController.NewOrderKeepsOtherOrders | src/controllers/order.ts:21-27 | A placed order leaves the cached copy of every other order, with its value. |
| OrderController.ReadThrough | src/controllers/order.ts:41-50 | On a hit, the stored value is returned and nothing changes. On a miss with no result, the reply is a 404 and nothing is stored. On a miss with a result, the result is stored under the key and returned. |
| OrderController.MyOrders | src/controllers/order.ts:35-58 | The read-through under `my-orders-<user>`, where a missing user renders as "undefined". An empty result is a 404 "You have no orders" and is not cached. |
| OrderController.AllOrders | src/controllers/order.ts:61-83 | The read-through under `all-orders`. An empty result is a 404 "No orders found" and is not cached. |
| OrderController.GetSingleOrder | src/controllers/order.ts:84-107 | The read-through under `order-<id>`. A missing order is a 404 "Order not found" and is not cached. |
| OrderController.OrderChange | src/controllers/order.ts:127 | A processed or deleted order deletes exactly `all-orders`, `my-orders-<user>`, `order-<id>` and the four report keys; no product key. The same descriptor is built at order.ts:153. |
| OrderController.ProcessOrder | src/controllers/order.ts:109-139 | A missing order is a 404 with nothing saved or invalidated. Otherwise only that order's status changes, by one step. The order and admin groups are invalidated for its user and id, and the reply is 200. Products are untouched. |
| OrderController.DeleteOrder | src/controllers/order.ts:142-161 | A missing order is a 404 with nothing deleted or invalidated. Otherwise exactly that order is removed and the order and admin groups are invalidated. Stock is not given back. |
| OrderController.OrderChangeMatchesReads | src/controllers/order.ts:127 | An order change deletes exactly `all-orders`, `my-orders-<user>`, `order-<id>` and the four report keys. Every other key keeps its value. |
| OrderController.ProcessThenRead | src/controllers/order.ts:84-139 | Reading an order right after processing it, under the id the store holds it by, returns the advanced order and not the copy cached before. |
| ProductController.ProductChange | src/controllers/product.ts:38 | A product change deletes exactly the three product lists, `product-<id>` for the given ids (none on create) and the four report keys; no order key. The same descriptor is built at product.ts:160 and 184. |
| ProductController.AllFieldsGiven | src/controllers/product.ts:20 | The guard: name, price, description, stock and category all truthy; ZeroPriceOrStockRefused shows 0 fails it. |
| ProductController.CreatedProduct | src/controllers/product.ts:29-36 | A created product carries the fields as given, the lower-cased category and the uploaded photo's path. |
| ProductController.CreateProduct | src/controllers/product.ts:12-45 | With no photo, the reply is a 400 before anything happens. With a falsy field, the uploaded photo is removed and the reply is a 400 with nothing created. Otherwise the product is created under a fresh id and the product and admin groups are invalidated without an id, with a 201 reply. Orders are untouched. |
| ProductController.CreatedCategoryIsLowerCase | src/controllers/product.ts:34 | A created product's category has no upper-case letter and is unchanged by lower-casing. |
| ProductController.ZeroPriceOrStockRefused | src/controllers/product.ts:20 | A price or stock of 0 counts as missing, so such a product is refused. |
| ProductController.UpdateProduct | src/controllers/product.ts:123-167 | A missing product is a 404 with nothing changed. Otherwise only that product changes, to the merge of old and new. The old photo is removed exactly when a new one is uploaded. The product group with this id and the admin group are invalidated, and the reply is 200. |
| ProductController.Merged | src/controllers/product.ts:135-156 | A new photo replaces the old one and each field takes its new value only when that value is truthy; the lemmas below state its properties. |
| ProductController.EmptyUpdateIsIdentity | src/controllers/product.ts:135-156 | An update with no fields and no photo leaves the product as it was. |
| ProductController.UpdateIdempotent | src/controllers/product.ts:135-156 | Applying the same update twice gives the same product as applying it once. |
| ProductController.UpdateCannotZeroStock | src/controllers/product.ts:148-150 | An update cannot set the stock to 0: the old stock stays. |
| ProductController.FullUpdateIsCreateWithoutLowerCase | src/controllers/product.ts:135-156 | An update that gives every field and a photo yields the product a create would, except that the category is not lower-cased. |
| ProductController.CategoryCaseDependsOnHandler | src/controllers/product.ts:34 | The category "Books" is stored as "books" by a create but as "Books" by an update. |
| ProductController.DeleteProduct | src/controllers/product.ts:170-190 | A missing product is a 404 with nothing changed. Otherwise exactly that product is removed, its photo path is removed, and the product group with this id and the admin group are invalidated. |
| ProductController.ProductChangeMatchesReads | src/controllers/product.ts:160 | A change to one product deletes exactly the three product lists, its own `product-<id>` and the four report keys. Every other product's cached copy stays. |
| ProductController.ReadThrough | src/controllers/product.ts:52-58 | On a hit, the stored value is returned and nothing changes. On a miss, the computed value is stored (even an empty list) and returned. |
| ProductController.GetLatestProducts | src/controllers/product.ts:48-65 | The read-through under `latestProducts`. |
| ProductController.GetAllCategories | src/controllers/product.ts:70-83 | The read-through under `categories`. |
| ProductController.GetAdminProducts | src/controllers/product.ts:87-100 | The read-through under `adminProducts`. |
| ProductController.GetSingleProduct | src/controllers/product.ts:103-120 | The read-through under `product-<id>`. A missing product is a 404 "Product not found" and is not cached. |
| ProductController.BaseQueryOf | src/controllers/product.ts:201-216 | The filter has a case-insensitive name pattern (the search text with option "i") if and only if the search is truthy. It has the given category if and only if the category is truthy, and a price cap `Number(price)` if and only if the price is truthy. |
| ProductController.BuildBaseQuery | src/controllers/product.ts:201-216 | The builder that assigns the constraints one by one produces exactly that filter. |
| ProductController.SortOrder | src/controllers/product.ts:218 | There is no sort exactly when the sort parameter is falsy. The order is ascending (1) exactly for "asc", and otherwise descending (-1). |
| ProductController.SortIsCaseSensitive | src/controllers/product.ts:218 | "ASC" and "desc" both sort descending. |
| ProductController.NumberOr | src/controllers/product.ts:196-198 | `Number(x) \|\| fallback` is never 0. It is the number when that is neither 0 nor NaN, and the fallback otherwise. |
| ProductController.PageNumber | src/controllers/product.ts:196 | The page number is never 0, and it is 1 when the query's page is missing, empty, zero or not a number. |
| ProductController.PageSize | src/controllers/product.ts:198 | The page size is never 0, and it is 8 when the configured size is missing, empty, zero or not a number. |
| ProductController.PageNumberCases | src/controllers/product.ts:196 | A page written as a non-zero integer is taken as is. A missing, empty or zero page is page 1. |
| ProductController.CeilDiv | src/controllers/product.ts:225 | The total page count is the ceiling of count/limit: `(r-1)·limit < count ≤ r·limit` for a positive limit, and the mirror bounds for a negative one. |
| ProductController.GetAllProducts | src/controllers/product.ts:194-234 | The page query uses limit = the configured size or 8, skip = (page-1)·limit, the sort order and exactly the filter of the query (pattern, category and price cap with their values). The listing reports the page, the total page count, the current page and the filtered count. |
| ProductController.PagesCoverResults | src/controllers/product.ts:199-225 | With a positive limit, the i-th matching product lies in page i/limit + 1, which lies between 1 and the total page count, and inside that page's skip window. |

## Left out

- Database queries (`find`, `findById`, `countDocuments`, `distinct`, `sort`, `limit`, `skip`, `select`, `populate`) are not modelled, because their semantics belong to the database library. Their results are handler inputs, except that `findById` in the five members named below is an exact lookup by id string in the store's maps. That includes `myOrders` with no `id`, where the query's treatment of an `undefined` filter decides what is found.
- Schema validation on create and save is not modelled. This covers required fields, the category `trim`, the status enum and the email validator. As a result `Order.create` always succeeds in `NewOrder`, although the order schema requires `phoneNo` where the request type names the field `phone`.
- Which ids are malformed (the store's CastError) is not modelled, because that is the database library's rule. The responder's CastError branch is modelled.
- Promise plumbing is not modelled: `Promise.all`, the `TryCatch` wrapper, and the try/catch around the un-awaited `invalidateCache` in `processOrder`. Handlers run to completion in program order, and an error that escapes a handler is a `Fail` outcome.
- JSON serialisation and parsing are not modelled. They are an `encode` parameter, cached values are opaque strings, and a parse of a stored string is taken to give back what was stored.
- `Date` construction, `setMonth` rollover and the query windows are not modelled. Records arrive with their creation month (0..11), and a user's age takes today's date as a parameter.
- Regular-expression matching for the name search is not modelled. The filter only records the pattern and the `"i"` option.
- Floating point is not modelled: money is an integer, percentages are computed on exact rationals, and a category share with no products is `None` where the code produces `NaN`.
- Js.ToNumber accepts only optionally signed decimal integer text, with surrounding whitespace not trimmed. Other forms `Number()` accepts (fractions, exponents, hex, "Infinity") become `None`.
- Js.ToLowerCase lowers ASCII letters only. Other letters are not case-folded.
- Request bodies are modelled with the declared field types (numbers for price and stock). A multipart upload delivers them as strings, and then "0" would be truthy.
- Features.ReduceStock, OrderController.ProcessOrder, OrderController.DeleteOrder, ProductController.UpdateProduct and ProductController.DeleteProduct look the request's id up by exact string match. The database reads a hex id in either case, so a request spelling the id in upper case finds the document in the code but is a 404 (or "Product not found") in the model. Request ids are assumed to be spelled the way `String(_id)` prints them.
- OrderController.ProcessThenRead holds for an id spelled the way the store prints it. Reads cache under the id as requested, while invalidation deletes under `String(_id)`, which is lower-case hex; an upper-case spelling of the same id would keep a stale copy, and that is not modelled.
- OrderController.OrderChangeMatchesReads takes the read key and the invalidated key to use the same spelling of the order id, which holds only for ids requested in lower-case hex.
- ProductController.ProductChangeMatchesReads takes the read key and the invalidated key to use the same spelling of the product id, which holds only for ids requested in lower-case hex.
- Removing files (`rm`) and uploads are not modelled. The handlers return the path they would remove (`removed`).
- Payment and coupons (`src/controllers/payment.ts`) are not part of this model. That module wraps the payment provider's client.
- Application wiring, routes, the database connection and the environment are not part of this model. The configured page size is a parameter.
- `src/utils/utility-class.ts` is not part of this model. `ErrorHandler` is taken to be an `Error` (name "Error") that carries a status code.
- Dashboard.GetDashboardStats, GetPieCharts, GetBarCharts and GetLineCharts compute the report from query results that are taken to be fetched on every call. On a hit the code does not query at all, which is not observable here.
