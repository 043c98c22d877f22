# Car Parts Marketplace: a verified model of the core

This Dafny project models the core of the Car Parts Marketplace, an ASP.NET application where
sellers list cars, motorcycles and parts and buyers check them out. The model covers:

- **Checkout** (`CreateOrderHandler`). Every requested listing is looked up in request order,
  and the first missing or inactive one aborts the request. Otherwise each item records the
  listing's price and price times quantity. The order total is the sum of the subtotals. The
  "Pending" order and its items are saved, and then a second save deactivates every referenced
  listing.
- **Store mutations**:
  - Listing deletion (`DeleteListingHandler`) is refused while an order item refers to the listing.
  - Order deletion (`DeleteOrderHandler`).
  - Order status update (`UpdateOrderStatusHandler`) accepts any status string.
- **Listing queries**:
  - The search (`GetAllListingsHandler`) applies its optional filters one after the other:
    seller, active only, category name, listing type.
  - The category query (`GetListingsByCategoryHandler`) returns a category's active listings.
- **Currency conversion** (`CurrencyService`). Conversion goes through the US dollar. It uses a
  live rate table cached for one hour and a static fallback table of approximate rates.
- **Denar pricing with VAT** (`CarPricing`). The price is converted to MKD at a cached
  USD-to-MKD rate, with 57 when the provider fails, and 18% tax is added.
- **IP geolocation** (`Geolocation`):
  - the URL asked for a client address;
  - the `??` chains that read the country code and the currency code from the response, with
    the defaults "US" and "MKD".
- **Seed data** (`DatabaseSeeder`). When the table holds fewer than 30 listings, the missing
  listings up to 30 are generated from fixed formulas.

Support modules:

- **`Wrappers`**: `Option` stands for C# null and `Result` for thrown business exceptions.
- **`Text`**: ASCII case folding and decimal rendering of numbers.
- **`Domain`**: the entities, with `DateTime` as an integer count of ticks.
- **`Persistence`**: a `Store` class with one map per table and the next identity values. It
  stands in for the unit of work and the Entity Framework context.
- **`Sequences`**: LINQ's `Where` with its soundness, completeness and order lemmas.

Inputs the code reads from the outside world are parameters:

- **The clock**: `now`.
- **The rate provider**: `fetched`, which is None when the call throws or the response has no
  table.
- **The geolocation provider**: `fetch`, a total function from URL to decoded response, with
  None for an exception or a null body.
- **The test user's id**: `testUserId`.

C# `decimal` amounts are exact `real`s.

The model makes these choices where a reader might expect otherwise:

- **Rounding.** No amount is rounded to two decimals. The checkout total is the exact sum of the
  exact subtotals.
- **Zero source rate.** A zero source rate makes `ConvertAsync` return 0, not the original
  amount.
- **Checkout is not one transaction.** The order and its items are written by one save and the
  listing deactivation by a second save, with no transaction around the two. A request that
  fails validation writes nothing, because validation comes before both saves.
- **No rate provenance.** No provenance tag (live, fallback, unknown) is produced. The cache
  keeps a single table, and a failed refresh serves the stale table if there is one, without
  re-caching it.
- **Error name.** The inactive-listing error is `ListingNotActive`, after the exception message
  the code throws.

## Model

| member | source | states |
|---|---|---|
| CreateOrderHandler.NewOrder | Application/Handlers/Orders/CreateOrderCommandHandler.cs:26-35 | The order header has the given id, date `now`, the given total and status "Pending", and copies the user and the four shipping fields from the request. |
| CreateOrderHandler.PriceItem | Application/Handlers/Orders/CreateOrderCommandHandler.cs:42-55 | An item is priced exactly when its listing is stored and active, and otherwise fails with that item's error. A priced line carries the requested listing and quantity, the listing's price as unit price and price times quantity as subtotal. |
| CreateOrderHandler.PriceItems | Application/Handlers/Orders/CreateOrderCommandHandler.cs:40-60 | On success there is one line per requested item. |
| CreateOrderHandler.PriceRequest | Application/Handlers/Orders/CreateOrderCommandHandler.cs:37-60 | The validation loop fails with exactly the error of the item-by-item specification. Otherwise it returns that specification's lines, the running total as the sum of the subtotals, and the listing ids to deactivate. It only reads the listing table. |
| CreateOrderHandler.CreateOrder | Application/Handlers/Orders/CreateOrderCommandHandler.cs:24-79 | On a validation failure it returns that error and leaves the store unchanged. On success it returns the "Pending" order (request fields copied, date `now`, total equal to the sum of the subtotals) under a fresh id. The new state: the order and its items, with fresh consecutive ids, are added; exactly the requested listings are deactivated; nothing else changes. |
| CreateOrderHandler.SaveOrder | Application/Handlers/Orders/CreateOrderCommandHandler.cs:62-65 | The first save inserts the order under a new id and its item rows under ids disjoint from every existing row. Listings are untouched and the identity counters advance by one and by the number of items. |
| CreateOrderHandler.DeactivateListings | Application/Handlers/Orders/CreateOrderCommandHandler.cs:67-72 | The second save sets `IsActive = false` on exactly the given listings and changes no other table or counter. |
| CreateOrderHandler.StoredItemsMatchRequest | Application/Handlers/Orders/CreateOrderCommandHandler.cs:49-58 | On success the stored rows match the request one to one, in order. Row k has id `firstId + k`, belongs to the order, names the k-th requested listing and quantity, records that listing's current price and has price times quantity as subtotal. |
| CreateOrderHandler.ItemsById | Application/Handlers/Orders/CreateOrderCommandHandler.cs:64-65 | The item rows, keyed by their own ids. |
| CreateOrderHandler.Deactivated | Application/Handlers/Orders/CreateOrderCommandHandler.cs:67-70 | Deactivation keeps the set of listing ids. |
| CreateOrderHandler.FailurePersists | Application/Handlers/Orders/CreateOrderCommandHandler.cs:42-47 | Once a prefix of the request fails, the whole request fails with the same error, whatever items follow. |
| CreateOrderHandler.SucceedsIffAllPurchasable | Application/Handlers/Orders/CreateOrderCommandHandler.cs:40-47 | Checkout validation succeeds if and only if every item names a stored listing that is active. |
| CreateOrderHandler.LinesMatchRequest | Application/Handlers/Orders/CreateOrderCommandHandler.cs:49-58 | On success there is one line per requested item, in request order. Each line carries the requested listing and quantity, the listing's current price as unit price, and price times quantity as subtotal. |
| CreateOrderHandler.FirstFailureDecides | Application/Handlers/Orders/CreateOrderCommandHandler.cs:40-47 | The first unpurchasable item determines the error: not-found if it is missing, not-active otherwise. |
| CreateOrderHandler.FailureHasFirstCause | Application/Handlers/Orders/CreateOrderCommandHandler.cs:43-47 | Every failure has a first unpurchasable item, and the returned error is that item's error. |
| CreateOrderHandler.TotalIsPriceTimesQuantity | Application/Handlers/Orders/CreateOrderCommandHandler.cs:54-62 | On success every item's listing is stored, and the order total equals the sum over the request of listing price times quantity, read from the listing table. |
| CreateOrderHandler.DeactivatesRequestedListings | Application/Handlers/Orders/CreateOrderCommandHandler.cs:59-70 | The listings to deactivate are exactly the requested listings, in request order. |
| CreateOrderHandler.DeactivationFrame | Application/Handlers/Orders/CreateOrderCommandHandler.cs:67-72 | Every deactivated listing is inactive and otherwise equal to its old row. Every other listing is unchanged. |
| CreateOrderHandler.HappyPath | Application/Handlers/Orders/CreateOrderCommandHandler.cs:24-72 | Active listings at 100 and 50, one of each: the total is 150 and both listings end up inactive. |
| CreateOrderHandler.SameListingTwice | Application/Handlers/Orders/CreateOrderCommandHandler.cs:40-60 | The same active listing requested twice gives two items and a total over both, because nothing is deactivated before the loop ends. |
| CreateOrderHandler.StaleListing | Application/Handlers/Orders/CreateOrderCommandHandler.cs:46-47 | An inactive listing makes checkout fail with the not-active error. |
| DeleteListingHandler.IsReferenced | Application/Handlers/Listings/DeleteListingCommandHandler.cs:27 | A listing counts as referenced only when some order-item row of the table names it. |
| DeleteListingHandler.ReferencedAfterWrite | Application/Handlers/Orders/CreateOrderCommandHandler.cs:62-65 | After an order-item row is written, a listing is referenced exactly when the new row names it or another row of the table does. |
| DeleteListingHandler.DeleteListing | Application/Handlers/Listings/DeleteListingCommandHandler.cs:20-36 | A missing listing gives false with no change. A listing referenced by any order item gives the in-use error with no change. Otherwise the listing row alone is removed and the answer is true. |
| DeleteListingHandler.DeletingAnOrderedListingFails | Application/Handlers/Listings/DeleteListingCommandHandler.cs:27-31 | A listing that a stored order item refers to is never deleted: the store stays unchanged. |
| UpdateOrderStatusHandler.UpdateOrderStatus | Application/Handlers/Orders/UpdateOrderStatusCommandHandler.cs:20-35 | An unknown order gives not-found with no change. Otherwise only that order's status is replaced by the given string, and the updated order is returned. |
| UpdateOrderStatusHandler.NoTransitionRule | Application/Handlers/Orders/UpdateOrderStatusCommandHandler.cs:26 | No transition rule applies: an order set to "Shipped" can be set back to "Pending". |
| DeleteOrderHandler.DeleteOrder | Application/Handlers/Orders/DeleteOrderCommandHandler.cs:16-25 | The answer is true exactly when the order existed. Then only that order row is removed; a missing order changes nothing. |
| DeleteOrderHandler.DeleteTwice | Application/Handlers/Orders/DeleteOrderCommandHandler.cs:18-24 | Deleting an existing order twice answers true and then false. |
| Sequences.Where | Application/Handlers/Listings/GetAllListingsQueryHandler.cs:29 | A listing is kept exactly when it is in the input and satisfies the predicate. |
| Sequences.WhereIsSubsequence | Application/Handlers/Listings/GetAllListingsQueryHandler.cs:25-47 | Filtering keeps the input order: the result is a subsequence of the input. |
| GetAllListingsHandler.GetAllListings | Application/Handlers/Listings/GetAllListingsQueryHandler.cs:21-48 | The search returns no more listings than the store holds, and each one is a stored listing that matches every enabled filter. |
| GetAllListingsHandler.AllFiltersAsOne | Application/Handlers/Listings/GetAllListingsQueryHandler.cs:23-47 | The four optional stages in a row equal one filter by the conjunction of the enabled conditions. |
| GetAllListingsHandler.GetAllListingsSpec | Application/Handlers/Listings/GetAllListingsQueryHandler.cs:23-47 | The result is exactly the stored listings that match every enabled filter, in store order. An empty or absent string filter is off, and a listing without a loaded category fails a category filter. |
| GetAllListingsHandler.NoFiltersReturnsAll | Application/Handlers/Listings/GetAllListingsQueryHandler.cs:25-47 | With every filter off, every listing is returned. |
| GetAllListingsHandler.DefaultQueryIsActiveOnly | Application/Queries/Listings/GetAllListingsQuery.cs:8 | A query with nothing set returns exactly the active listings, because `ActiveOnly` starts out true. |
| GetListingsByCategoryHandler.GetListingsByCategory | Application/Handlers/Listings/GetListingsByCategoryQueryHandler.cs:22-25 | The result holds exactly the stored listings of the category that are active. |
| GetListingsByCategoryHandler.GetListingsByCategoryKeepsOrder | Application/Handlers/Listings/GetListingsByCategoryQueryHandler.cs:22 | The category query keeps the store's order. |
| CurrencyService.RateVsUsd | Infrastructure/Services/FreeCurrencyService.cs:49-82 | A rate is unknown exactly when the code is not the dollar and its upper-cased form is in neither the live nor the fallback table. A known rate for any other currency is a value of one of those tables. |
| CurrencyService.ConvertWithRates | Infrastructure/Services/FreeCurrencyService.cs:40-86 | The amount changes only when the two codes differ in more than letter case and both rates are known. |
| CurrencyService.RateIgnoresCase | Infrastructure/Services/FreeCurrencyService.cs:46-52 | Two spellings of one code that differ only in letter case have the same rate. |
| CurrencyService.ConvertIgnoresCase | Infrastructure/Services/FreeCurrencyService.cs:42-52 | Conversion depends on both codes only up to letter case. |
| CurrencyService.UsdRateIsOne | Infrastructure/Services/FreeCurrencyService.cs:49-52 | The dollar, in any letter case, has rate 1 whatever the tables say. |
| CurrencyService.LiveRateTakesPrecedence | Infrastructure/Services/FreeCurrencyService.cs:52-82 | For any other currency, the live table's entry for the upper-cased code wins. The fallback table is used only when the live table lacks the code, and a code in neither table is unknown. |
| CurrencyService.SameCurrencyIsIdentity | Infrastructure/Services/FreeCurrencyService.cs:42-43 | Converting between two spellings of one code returns the amount, independent of the rates. |
| CurrencyService.UnknownCurrencyKeepsAmount | Infrastructure/Services/FreeCurrencyService.cs:61-65 | An unknown source or target currency returns the amount unconverted. |
| CurrencyService.ConvertFormula | Infrastructure/Services/FreeCurrencyService.cs:84-85 | With both rates known, a zero source rate gives 0 and otherwise the result is amount / fromRate * toRate. |
| CurrencyService.UsdToMkdWithFallback | Infrastructure/Services/FreeCurrencyService.cs:15-27 | Dollars to denars with an empty live table is amount × 57. |
| CurrencyService.RoundTrip | Infrastructure/Services/FreeCurrencyService.cs:84-85 | Converting there and back returns the original amount when both rates are known and non-zero. This is exact over reals; a C# `decimal` result can differ in its last digit. |
| CurrencyService.ThroughTheDollar | Infrastructure/Services/FreeCurrencyService.cs:49-85 | Converting from one non-dollar currency to another equals converting to dollars and then on to the target. |
| CurrencyService.FreeCurrencyService.constructor | Infrastructure/Services/FreeCurrencyService.cs:29-30 | The service starts with no cached table and the cache time at `DateTime.MinValue`. |
| CurrencyService.FreeCurrencyService.GetExchangeRates | Infrastructure/Services/FreeCurrencyService.cs:88-115 | A table cached less than an hour ago is returned with no change. Otherwise a fetched table is cached with time `now` and returned. If the fetch fails, the stale table (or an empty one) is returned and nothing changes. |
| CurrencyService.LookUpRate | Infrastructure/Services/FreeCurrencyService.cs:49-82 | The lookup done for each side of a conversion yields exactly the rate `RateVsUsd` describes, with None for the warning branch that returns the amount unconverted. |
| CurrencyService.FreeCurrencyService.Convert | Infrastructure/Services/FreeCurrencyService.cs:40-86 | The same currency returns the amount without touching the cache. Otherwise the result is the conversion with the table the lookup yields, and the cache changes exactly as in `GetExchangeRates`. |
| CurrencyService.CachedWithinTheHour | Infrastructure/Services/FreeCurrencyService.cs:90-93 | A second lookup within the hour after a fetch returns the same table, whatever the provider would say. |
| CurrencyService.FallbackWhenProviderDown | Infrastructure/Services/FreeCurrencyService.cs:109-114 | With the provider down and nothing cached, a conversion from USD to MKD gives amount × 57, and nothing is cached. |
| CarPricing.PriceWithTax | Infrastructure/Services/CarPricingService.cs:35-49 | The denar price is price times rate, the tax is 18% of it and the total is 118% of it, in MKD. |
| CarPricing.FallbackPriceWithTax | Infrastructure/Services/CarPricingService.cs:51-66 | The exception path keeps the price, reports rate 57 in MKD, and gives tax 10.26 and total 67.26 times the price. |
| CarPricing.FallbackPathIsRate57 | Infrastructure/Services/CarPricingService.cs:51-66 | The exception path gives exactly the normal result at rate 57. |
| CarPricing.TotalIsMonotone | Infrastructure/Services/CarPricingService.cs:35-39 | At any non-negative rate, a higher price never gives a lower total with tax. |
| CarPricing.CarPricingService.constructor | Infrastructure/Services/CarPricingService.cs:14-15 | Neither a rate nor an expiry is cached at start. |
| CarPricing.CarPricingService.GetExchangeRate | Infrastructure/Services/CarPricingService.cs:70-94 | A rate whose expiry lies ahead is served with no change. Otherwise a fetched MKD rate is cached until an hour from `now` and returned. A failed fetch or a missing MKD entry gives 57 and caches nothing. |
| CarPricing.CarPricingService.GetTransformedPriceWithTax | Infrastructure/Services/CarPricingService.cs:29-50 | The result is `PriceWithTax` at the rate the lookup yields, whatever `fromCurrency` is. The cache changes exactly as in `GetExchangeRate`. |
| CarPricing.CarPricingService.TransformPriceToMkd | Infrastructure/Services/CarPricingService.cs:23-27 | The result is the denar price of the full transformation: price times the looked-up rate. |
| CarPricing.FallbackIsNotCached | Infrastructure/Services/CarPricingService.cs:88-93 | After a failed fetch the next call asks the provider again, and a successful answer is then cached. |
| CarPricing.CachedRateWithinTheHour | Infrastructure/Services/CarPricingService.cs:72-75 | Within the hour after a successful fetch, the cached rate is served whatever the provider says. |
| Geolocation.GeolocationUrl | Infrastructure/Services/IpGeolocationService.cs:41-50 | Every URL asked for starts with the ip-api.com base URL. |
| Geolocation.BareUrlIffLocal | Infrastructure/Services/IpGeolocationService.cs:42-46 | The bare base URL is asked for if and only if the address is empty, "::1" or "127.0.0.1". |
| Geolocation.UrlRoundTrip | Infrastructure/Services/IpGeolocationService.cs:47-50 | A remote address is read back unchanged from the part of its URL after the base URL and "/". A local address leaves none. |
| Geolocation.RemoteUrlsAreDistinct | Infrastructure/Services/IpGeolocationService.cs:49 | Different remote addresses are looked up at different URLs. |
| Geolocation.FirstPresentSpec | Infrastructure/Services/IpGeolocationService.cs:27 | A `??` chain yields its first present candidate, or the default when none is present. |
| Geolocation.CountryCode | Infrastructure/Services/IpGeolocationService.cs:27 | The country code is "US" or a value the response actually carried. |
| Geolocation.CurrencyCode | Infrastructure/Services/IpGeolocationService.cs:33 | The currency code is "MKD" or a value the response actually carried. |
| Geolocation.CountryCodeIsFirstPresent | Infrastructure/Services/IpGeolocationService.cs:27 | The country chain is the first present of `country_code2` and `countryCode`, else "US". |
| Geolocation.CurrencyCodeIsFirstPresent | Infrastructure/Services/IpGeolocationService.cs:33 | The currency chain is the first present of the flat `currency` and the nested `currency.code`, else "MKD". |
| Geolocation.CountryCodePriority | Infrastructure/Services/IpGeolocationService.cs:27 | A present `country_code2` wins over `countryCode`, which comes next. "US" applies when neither is present. |
| Geolocation.CurrencyCodePriority | Infrastructure/Services/IpGeolocationService.cs:33 | A present flat `currency` wins over the nested code, which comes next. "MKD" applies when neither is present. |
| Geolocation.GetGeolocationData | Infrastructure/Services/IpGeolocationService.cs:36-68 | A local address fetches the bare base URL, and any other address fetches the base URL followed by "/" and the address. |
| Geolocation.GetCountryCode | Infrastructure/Services/IpGeolocationService.cs:23-28 | The answer is the first present of `country_code2` and `countryCode` in the response fetched for the address's URL, else "US". |
| Geolocation.GetCurrencyCode | Infrastructure/Services/IpGeolocationService.cs:30-34 | The answer is the first present of the flat `currency` and the nested `currency.code` in the response fetched for the address's URL, else "MKD". |
| Geolocation.FailedFetchGivesDefaults | Infrastructure/Services/IpGeolocationService.cs:63-67 | A failed or empty fetch gives "US" and "MKD". |
| Geolocation.LocalAddressesAgree | Infrastructure/Services/IpGeolocationService.cs:42-46 | All local addresses get the same country and currency. |
| Geolocation.MacedonianResponse | Infrastructure/Services/IpGeolocationService.cs:72-81 | A response in the ip-api.com layout with `countryCode` "MK" and `currency` "MKD" yields "MK" and "MKD". |
| DatabaseSeeder.SeedCategoryId | Infrastructure/Data/DatabaseSeeder.cs:106 | The category is (i + 2) mod 3 + 1, so listings cycle through cars, motorcycles and parts, and it lies in 1..3. |
| DatabaseSeeder.ImageIndex | Infrastructure/Data/DatabaseSeeder.cs:112 | The image number lies in 1..10 and agrees with i modulo 10. |
| DatabaseSeeder.SeedTitle | Infrastructure/Data/DatabaseSeeder.cs:107 | The title ends with the listing's number, after a non-empty prefix. |
| DatabaseSeeder.SeedPrice | Infrastructure/Data/DatabaseSeeder.cs:111 | Every price is at least 10, and a vehicle's at least 1000. |
| DatabaseSeeder.SeedListing | Infrastructure/Data/DatabaseSeeder.cs:106-131 | Seed listing i has the category of i. Its make is empty exactly for parts, and its year lies in 2000..2024. Its price is 10 + 2i for parts and 1000 + 150i otherwise, so at least 12. It is a USD sale, active, owned by the given user and created at `now`. |
| DatabaseSeeder.SeedListings | Infrastructure/Data/DatabaseSeeder.cs:103-132 | The range from `first` to `last` has `last - first` listings, or none when it is empty. |
| DatabaseSeeder.SeedListingsSpec | Infrastructure/Data/DatabaseSeeder.cs:103-132 | The generated range has one listing per number, in order, and the k-th is seed listing `first + k`. |
| DatabaseSeeder.SeededListingsAreActiveUsdSales | Infrastructure/Data/DatabaseSeeder.cs:115-131 | Every generated listing is an active USD sale owned by the test user. |
| DatabaseSeeder.SeedingIsPeriodic | Infrastructure/Data/DatabaseSeeder.cs:106-112 | Listings three apart share a category, and listings ten apart share an image. |
| DatabaseSeeder.GenerateSeedListings | Infrastructure/Data/DatabaseSeeder.cs:100-132 | With 30 or more listings nothing is generated. Otherwise the listings `existingCount + 1` up to 30 are generated, which tops the table up to exactly 30. The only failure is a missing test user, and only when something must be generated. |
| DatabaseSeeder.SeedEmptyTable | Infrastructure/Data/DatabaseSeeder.cs:100-111 | An empty table receives 30 listings. The first is a car at 1150 and the third a part at 16. |
| Text.Upper | Infrastructure/Services/FreeCurrencyService.cs:46-47 | Upper-casing keeps the length and maps each character through the ASCII upper-case function. |
| Text.EqualsIgnoreCase | Infrastructure/Services/FreeCurrencyService.cs:42 | Strings equal up to case have the same length, and every string equals itself. |
| Persistence.Store.constructor | Infrastructure/Repositories/UnitOfWork.cs:33-63 | A store starts with the given listing table, no orders, no order items and both identity counters at 1. |

## Left out

- I/O and infrastructure: HTTP calls, logging, the email service and the API key lookup. Each provider's answer is a parameter.
- Clocks: the clock is a parameter (`now`).
- Concurrency: two checkouts racing between the first and the second save, and concurrent callers refreshing a rate cache, are not modelled. Every operation runs alone.
- Database persistence: Entity Framework, the unit of work and its transactions are replaced by the `Store` maps. Database-generated identity values are modelled as counters for orders and order items.
- The seeder's `AddRangeAsync`/`SaveChangesAsync` insertion of the generated listings is not modelled. The role and user creation is not modelled either (Identity calls).
- AutoMapper DTO mapping is not modelled. The handlers return entities.
- CreateOrderHandler.CreateOrder: the final re-read of the order ("Failed to create order") is not modelled, because the order was inserted just before and cannot be missing in the model.
- UpdateOrderStatusHandler.UpdateOrderStatus: the re-read after the save ("Failed to update order") is not modelled, for the same reason.
- DeleteOrderHandler.DeleteOrder: the order's item rows are left in place. In the program the required foreign key from an order item to its order, with SQLite foreign keys switched on in `SaveChangesAsync` (Infrastructure/Repositories/UnitOfWork.cs:67-71), most likely makes the database delete them with the order. In the model they stay, and they go on blocking `DeleteListing` for their listings.
- CarPricing.CarPricingService.GetTransformedPriceWithTax: the `catch` path is reachable only through `decimal` overflow, which exact reals do not have. It is modelled as `FallbackPriceWithTax` and proved equal to the main formula at rate 57.
- CurrencyService.FreeCurrencyService.GetExchangeRates and CarPricing.CarPricingService.GetExchangeRate: the caches are instance fields of one service object, where the code uses static fields shared by the whole process.
- Decimal range and precision: amounts are exact reals, so `decimal` overflow and its 28-digit rounding are not modelled. Identities such as the currency round trip hold exactly here but may miss in the last digit in `decimal`.
- Text: case folding is ASCII only (`ToUpper` on other letters is not modelled). Null strings are not modelled: callers pass `ipAddress ?? ""`, and null currency codes would throw in `ToUpper`.
- Geolocation: the JSON decoding itself is not modelled. Its result is the `GeolocationResponse` datatype, with an absent member as None.
- Geolocation.GetGeolocationData: a likely decoding failure is hidden by the `fetch` parameter (not executed). `CurrencyCode` is named "currency" explicitly (Infrastructure/Services/IpGeolocationService.cs:80-81), and `Currency` (line 84) becomes "currency" under the camel-case naming of the web defaults that `GetFromJsonAsync` uses. System.Text.Json refuses two properties with one JSON name, so every call would throw, the `catch` at line 63 would return null, and "US" and "MKD" would always apply. The model assumes the response decodes.
