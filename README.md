# Rey&Hardy storefront core

A Dafny model of the sequential core of the Rey&Hardy clothing storefront, a
Django shop that sells products in size and colour variants. It covers the following parts:

- **Session cart.** Anonymous shoppers keep a list of lines keyed by product and variant, plus a coupon, a buy-now line and a selection. `SessionCart.Session` is a class whose methods update that list in place.
- **Database cart.** `CartModels` holds each cart's items, unit prices, line totals and subtotal.
- **Catalogue.** `CatalogModels` and `CatalogViews` cover prices, slugs, variant choices, the wish list, nearest palette colour, size and colour ordering, search, and top deals.
- **Coupons and pricing.** `Coupons` and `Pricing` cover the validity window, then percent discount, GST, and free-or-flat-or-carrier shipping, then the total.
- **Cart pages.** `CartViews` covers adding, updating and removing lines, save-for-later, the selection parser and applying a coupon.
- **Checkout.** `OrderViews` merges the session cart into the database cart, prices the order, records the order and its items, and branches on the payment method.
- **Orders and returns.** `OrderModels` and `OrderReturns` cover the order and return records, selecting quantities to return, and quick returns.
- **Payments.** `Payments` models the Razorpay callback and webhook.
- **Shiprocket carrier client.** `Shiprocket` covers the token cache, rate selection, and the shipment and return payloads. The post-save signal is in `OrderSignals` and the admin bulk action in `OrderAdmin`.
- **Accounts.** `Accounts` covers profile, addresses with one default per user, buy-again, sign-out everywhere, and account deletion.
- **Reviews and newsletter.** `Reviews` and `CoreViews`.
- **Template context.** `StoreContext`.
- **Staff dashboard.** `DashboardAnalytics` covers the analytics calendar. `DashboardOrders` covers order thumbnails, recomputed totals, status changes and user toggles.
- **Browser scripts.** `DashboardCharts` covers the chart colours and axis. `OrdersAjax` covers the cookie reader and query builder. `Theme` covers the theme toggle, CSRF token, quantity input and magnifier.

Conventions:

- Money is integer paise. `Decimal.quantize(Decimal("0.01"))` is half-even rounding (`Money.RoundHalfEven`).
- Decimal text is `Money.Dec(units, scale)`.
- Weights are grams, with a 500 g default.
- The settings' defaults are constants: GST "0.18", free shipping from 399 rupees, and a flat rate of 49 rupees.
- Database tables are sequences of records. A view's write is a function from the old tables to the new ones.
- A `.get()` that may match several rows answers `Lookup.Missing`, `One` or `Many`. `Many` is the uncaught exception, a server error.
- The request session, the carrier's module-level token cache, the browser's theme storage, the magnifier's zoom and the array of order items a staff edit recosts are classes or arrays updated in place.
- Loops in the source are methods with loop invariants, each proved equal to a specification function.
- The following are parameters, never computed by the model:
  - the clock;
  - generated order numbers;
  - the Razorpay SDK's verdict and gateway order ids;
  - each Shiprocket endpoint's answer;
  - whether a save raises.

## Model

| member | source | states |
|---|---|---|
| Accounts.Renamed | accounts/views.py:54-64 | the username changes exactly when a non-empty name different from the current one is asked for and the save succeeds, and then becomes that name; nothing else about the user changes |
| Accounts.UpdateProfile | accounts/views.py:53-71 | the `update_profile` action renames as `Renamed` says, reports kept / updated / refused accordingly, stores the stripped interests and replaces the avatar only when a file was sent, starting from a blank profile when the user had none |
| Accounts.CreateAddress | accounts/views.py:154-171 | `create` appends one row with the posted fields and their defaults (full name or username, country India); when `is_default` is ticked every other address of the user loses its default flag and the new row is the user's only default, other users untouched |
| Accounts.PostedAddress | accounts/views.py:174 | the posted `id` selects a row exactly when it parses as an integer and exactly one of the user's addresses has that id; the row found belongs to the user |
| Accounts.UpdateAddress | accounts/views.py:172-190 | `update` changes nothing when the id is bad or missing (the caught exception); otherwise it rewrites exactly that row with the posted fields, and with `is_default` makes it the user's only default; "at most one default per user" is preserved and the table keeps its length |
| Accounts.DeleteAddress | accounts/views.py:197-200 | `address_delete` keeps exactly the rows that are not the user's address `pk`, and keeps "at most one default per user" |
| Accounts.FilterOneDefault | accounts/views.py:198 | deleting any set of rows never gives a user a second default address |
| Accounts.MakeDefault | accounts/views.py:204-210 | 404 when the user has no address `pk` and a server error when the lookup finds several, changing nothing; otherwise that row becomes the user's only default, with "at most one default per user" preserved |
| Accounts.ProductIds | accounts/views.py:97 | the product ids read off the items, one per item in order |
| Accounts.FirstPerProductPrefix | accounts/views.py:93-106 | scanning more items never drops an item already picked: the picks of a prefix are a prefix of the picks |
| Accounts.ScanOrder | accounts/views.py:96-108 | the inner loop over one order's items keeps the `seen` set equal to the picked products and the tiles equal to the tiles of the first item per product scanned so far; it stops early only at eight tiles |
| Accounts.BuyAgain | accounts/views.py:92-110 | the "buy again" loop returns the tiles of `BuyAgainItems`: the first item per product over the ten latest orders, cut at eight |
| Accounts.BuyAgainMeaning | accounts/views.py:92-110 | the tiles are at most eight distinct products, each an item of the ten latest orders, and when fewer than eight every product of those orders has a tile |
| Accounts.FirstPerProductFacts | accounts/views.py:98-100 | skipping seen products gives distinct products, each picked item occurs in the input, and every product in the input is picked |
| Accounts.BuyAgainOrder | accounts/views.py:95-106 | each tile is the first item of its product in the ten latest orders, and tiles come in the order those first occurrences do |
| Accounts.EndSessions | accounts/views.py:219-225 | the session loop deletes exactly the live sessions whose decoded `_auth_user_id` is the user's id |
| Accounts.SessionNamesOneUser | accounts/views.py:217-224 | a session signed in as one user is never counted as another user's, so signing out never ends someone else's session |
| Accounts.SignOutAll | accounts/views.py:214-229 | only a POST signs out, and then exactly the user's live sessions are deleted; anything else leaves the sessions as they were |
| Accounts.DeleteAccount | accounts/views.py:233-281 | only a POST deletes: the user's live sessions and addresses go, the profile (if any) is blanked keeping its country, and the user is deactivated and anonymised to `deleted_<pk>` with empty email and names, and the reply is the redirect home; when that final save fails the user row is unchanged and the reply is a server error (`IntegrityError`) instead; a GET goes back to the profile page |
| Accounts.DeletionRemovesEverything | accounts/views.py:265 | after the deletion no address of the user is left and every other user's address is still there |
| CartViews.VariantMap | cart/utils.py:86 | the variant table by id: every variant is found under its own id |
| CartViews.VariantParam | cart/views.py:243-244 | a missing, empty or "None" variant id means no variant; any other text must parse as an integer, else the view fails with `ValueError` |
| CartViews.PreferredAddress | cart/views.py:86-87 | `filter(is_default=True).first() or first()` under the `(-is_default, -updated_at)` ordering: none only without addresses, otherwise an address nothing sorts before, and a default one whenever there is a default |
| CartViews.DropPin | cart/views.py:84-89 | a signed-in shopper's drop pin is the preferred address's non-empty postal code; visitors have none |
| CartViews.UniqueKeyNotMany | cart/models.py:24-25 | under the unique key, looking a cart row up by (cart, product, variant) never finds several rows |
| CartViews.AddToDbCartExisting | cart/views.py:200-205 | `get_or_create` finding the row adds the quantity to it and changes nothing else |
| CartViews.AddToDbCartNew | cart/views.py:200-205 | `get_or_create` creating the row appends it with the quantity |
| CartViews.AddToDbCartKeepsUnique | cart/views.py:200-205 | adding to the database cart keeps (cart, product, variant) unique |
| CartViews.AddToDbCartUnits | cart/views.py:200-205 | a successful add puts exactly the added quantity into the cart's unit count |
| CartViews.FindById | cart/views.py:349 | the row with a given id, or none when no row has it |
| CartViews.DeleteAt | cart/views.py:352 | `item.delete()` removes exactly that row, as a multiset, and the rows before and after it keep their order |
| CartViews.DeleteKeepsUnique | cart/views.py:352 | deleting a row keeps the key unique, adds nothing, and leaves no row under the deleted key |
| CartViews.ParcelLinesOf | cart/views.py:95 | one parcel line per cart row |
| CartViews.OrOne | cart/views.py:119 | `units_total or 1`: never zero, and unchanged when non-zero |
| CartViews.CartEstimate | cart/views.py:83-127 | the carrier is asked only below the free threshold, for a signed-in shopper with a drop pin; otherwise there is no estimate |
| CartViews.CartPageTotals | cart/views.py:27-133 | the cart page fails only when the coupon lookup finds several coupons; otherwise it shows the database or session subtotal, the coupon discount, the floored discounted subtotal and a total of discounted subtotal + GST + shipping |
| CartViews.AnonymousPaysFlat | cart/views.py:79-132 | a visitor never gets a carrier quote: free shipping at the threshold, the flat rate below it |
| CartViews.NoCodeNoDiscount | cart/views.py:59-74 | without a coupon code the page cannot fail and shows no discount |
| CartViews.ViewCart | cart/views.py:27-175 | `view_cart` returns `CartPageTotals` for the session's stored lines and coupon, uses the carrier token cache only when it asks the carrier, and leaves the session's cart and coupon as they were |
| CartViews.ActiveProduct | cart/views.py:179 | `get_object_or_404(Product, id=..., is_active=True)`: found exactly when the product exists and is active |
| CartViews.VariantsOf | cart/views.py:183 | the product's own variants |
| CartViews.PickVariant | cart/views.py:180-184 | a product without variants takes none; otherwise the posted size and colour must name one of its variants, else 404 |
| CartViews.AddPlan | cart/views.py:178-186 | what `add_to_cart` adds: an active product (else 404), the variant `PickVariant` picks and the posted integer quantity (default 1) |
| CartViews.CartOrNew | cart/views.py:22-24 | `_get_user_cart`: the user's cart, or a new empty one |
| CartViews.AddToCart | cart/views.py:178-218 | on a bad request nothing changes; "buy now" stores the pick in the session and goes to checkout without touching the cart; otherwise a member's database cart or a visitor's session cart gains the quantity and the variant is remembered for the product; a failing `get_or_create` (several rows under the key) or save (negative quantity) is a server error that remembers nothing |
| CartViews.WithCart | cart/views.py:264 | the shopper seen with their (possibly new or changed) cart |
| CartViews.OwnRow | cart/views.py:230 | `CartItem.objects.get(id=..., cart__user=user)`: a row of the shopper's own cart with that id, none otherwise |
| CartViews.UpdatePin | cart/views.py:280-284 | the AJAX replies only ask the carrier for a signed-in shopper who has a database cart |
| CartViews.ChangedTotals | cart/views.py:260-326 | the reply's totals carry no discount, GST on the subtotal, free shipping at the threshold and the plain totals whenever the carrier is not asked |
| CartViews.AnonymousChangePaysFlat | cart/views.py:275-325 | a visitor's reply charges free or flat shipping only |
| CartViews.SetQuantity | cart/views.py:229-232 | updating a database row changes its quantity only, keeping its id, key and every other row |
| CartViews.SetQuantityKeepsUnique | cart/views.py:229-232 | updating a quantity keeps (cart, product, variant) unique |
| CartViews.PostedLine | cart/views.py:242-244 | the session fallback needs a `product_id` (else `TypeError`) that parses, and a variant id `VariantParam` accepts |
| CartViews.ChangedReply | cart/views.py:260-334 | the totals and unit count of an AJAX reply are `ChangedTotals` and the shown units, and the token cache moves only when the carrier is asked |
| CartViews.UpdateSessionLine | cart/views.py:240-258 | the session fallback updates the posted line to the quantity, then fails with 404 for an unknown product or reports the line total at the product's price |
| CartViews.UpdateCartItem | cart/views.py:221-338 | a bad quantity fails before anything changes; the shopper's own row is set to `max(1, quantity)`; otherwise the posted session line is updated; the reply carries the new totals |
| CartViews.OrText | cart/views.py:344 | `a or b` on optional texts: `a` unless missing or empty |
| CartViews.RemoveTarget | cart/views.py:343-345 | the product id comes from the query string when non-zero, else from the form, and is 0 for other verbs; the variant id from either, by `VariantParam` |
| CartViews.RemovedTotals | cart/views.py:358-371 | removal replies never ask the carrier: no discount, GST on the subtotal, free or flat shipping |
| CartViews.RemovedIsChangedWithoutCarrier | cart/views.py:358-371 | when the carrier would not be asked, the removal reply equals the update reply |
| CartViews.RemoveCartItem | cart/views.py:341-386 | a bad id fails before anything changes; the shopper's own row is deleted, otherwise the session line is removed; the reply reports the removed key and the new totals |
| CartViews.QueryPid | cart/views.py:411-414 | the query's `product_id` when it parses, else 0 |
| CartViews.SaveForLater | cart/views.py:389-434 | visitors are sent back unchanged; an own row moves to the wishlist and its variant is remembered; otherwise a non-zero queried product is wishlisted when it exists and its session line removed |
| CartViews.RememberedVariant | cart/views.py:446-451 | the remembered variant is one of the product's variants recorded under the product id; a missing, None or 0 record gives none |
| CartViews.MoveSavedToCart | cart/views.py:437-467 | visitors change nothing; an inactive or unknown product is 404; the wishlist row goes; a product with variants needs a remembered variant (else back to its page); then one unit is added to the database cart, and when two rows share the key `get_or_create` raises `MultipleObjectsReturned`, a server error, with the wishlist row already gone |
| CartViews.AddOneSucceeds | cart/views.py:459-465 | adding one unit succeeds whenever the key is not duplicated |
| CartViews.VariantToken | cart/views.py:486 | "", "0" and "None" mean no variant; any other token must parse as an integer |
| CartViews.ParsePick | cart/views.py:478-495 | a `db:<id>` token picks a database row, an `sv:<pid>:<vid>` token a session line; anything else, or a part that does not parse, is skipped |
| CartViews.DbPickRoundTrip | cart/views.py:480-482 | the token `db:<id>` the cart page writes parses back to that row id |
| CartViews.SvPickRoundTripNone | cart/views.py:483-486 | the token `sv:<pid>:None` parses back to that product without a variant |
| CartViews.SvPickRoundTripSome | cart/views.py:483-486 | the token `sv:<pid>:<vid>` parses back to that product and variant |
| CartViews.SessionQty | cart/views.py:487-492 | the quantity of the matching session item, 1 when there is none, and never below 1 |
| CartViews.FindQty | cart/views.py:487-492 | the inner loop finds exactly `SessionQty` |
| CartViews.PickStep | cart/views.py:479-495 | each token adds a row id, a session line with its quantity, or nothing |
| CartViews.Picks | cart/views.py:478-495 | the selection never holds more entries than tokens posted |
| CartViews.TakePick | cart/views.py:479-495 | taking one token reads the session cart without changing the session |
| CartViews.PicksFromValues | cart/views.py:478-495 | every selected row id and session line comes from a posted token, and selected session lines have at least one unit |
| CartViews.CheckoutSelected | cart/views.py:470-503 | only a POST with tokens that parse stores `checkout_selected` (and drops `buy_now`) and goes to checkout; anything else goes back to the cart with the session unchanged |
| CartViews.ApplyCoupon | cart/views.py:506-520 | the stripped code (form, else query) is stored only when exactly one coupon matches it ignoring case and is valid, and then under the coupon's own spelling; several matches fail; otherwise the session is unchanged |
| CartViews.OrOrEmpty | cart/views.py:507 | `POST.get(k, "") or GET.get(k, "")` |
| CartViews.AppliedCouponResolves | cart/views.py:512-516 | a coupon that `apply_coupon` stored is the coupon the cart page then applies |
| CartViews.RemoveCoupon | cart/views.py:523-526 | the coupon is gone afterwards and nothing else in the session changes |
| CatalogViews.ClosestIndex | catalog/views.py:179-181 | `min(palette.items(), key=dist2)`: a swatch at least as close to the average colour as every other, and the first such one on ties |
| CatalogViews.NearestIsPaletteName | catalog/views.py:171-182 | the detected colour is always one of the five palette names |
| CatalogViews.PaletteDistinct | catalog/views.py:172-178 | no two palette swatches share an RGB value |
| CatalogViews.ExactColorMatches | catalog/views.py:135-138 | an image whose average is exactly a swatch's colour is detected as that swatch |
| CatalogViews.Rank | catalog/views.py:112-113 | the sort key's first part: the position in the fixed order for a listed value, 999 otherwise |
| CatalogViews.KeyLeIsOrder | catalog/views.py:112-113 | the key `(rank, value)` orders values totally and transitively, and equal keys mean equal values |
| CatalogViews.OrderedChoicesMeaning | catalog/views.py:110-113 | the selector lists each raw value exactly once, sorted by rank, and ties (unlisted values) in string order |
| CatalogViews.SizesFollowFixedOrder | catalog/views.py:108-112 | the sizes shown are exactly the product's variant sizes, once each, with the listed sizes in the order M, L, XL, XXL and before every unlisted one |
| CatalogViews.ActiveWithColor | catalog/views.py:125-139 | filtering active products by variant colour keeps exactly the active products with a variant of that colour |
| CatalogViews.TextSearchMeaning | catalog/views.py:124-150 | a text search with a blank stripped query shows nothing; otherwise exactly the active products whose name or description contains the query ignoring case |
| CatalogViews.ImageSearchMeaning | catalog/views.py:129-141 | an image search detects a palette colour and shows exactly the active products with a variant of that colour |
| CatalogViews.DealInIntegers | catalog/views.py:52-56 | a product is a top deal exactly when it is active, has a sale price below its base price and the discount is at most 30% of the base price |
| CatalogViews.TopDeals | catalog/views.py:52-58 | the home page shows exactly min(8, number of deals) products are shown, all of them deals of the catalogue (none more often than it is listed), in non-increasing order of discount |
| CatalogViews.TopDealsBest | catalog/views.py:52-58 | a deal left out discounts no more than any deal shown, so together with the count the page shows the eight largest discounts |
| CatalogViews.NearestColor | catalog/views.py:171-182 | `_nearest_color` answers the name of a palette swatch that no other swatch is closer to, by squared RGB distance to the average colour |
| CatalogViews.ColorsFollowFixedOrder | catalog/views.py:109-113 | the colours shown are exactly the product's variant colours, once each, with the listed colours in the order Red, Black, Navy Blue, White, Grey and before every unlisted one |
| CatalogViews.Search | catalog/views.py:124-147 | the search page echoes the stripped query and only ever shows active catalogue products; when an uploaded image cannot be analysed it shows every active product |
| CoreViews.NewsletterSubscribe | core/views.py:8-22 | only a POST is served; every POST goes back to the referer (or `/`); an empty stripped email adds nothing and says so; a storage failure adds nothing; otherwise a known email adds nothing ("already subscribed") and a new one is appended once ("thanks") |
| CoreViews.NormalizedEmail | core/views.py:10-11 | the address read is empty, and so refused, exactly when the posted email is missing or only Python whitespace |
| CoreViews.NormalizedEmailIsNormalized | core/views.py:10 | the stored email is stripped of Python whitespace (including U+00A0) and lower-cased, and normalising it again changes nothing |
| CoreViews.SubscribeKeepsTableValid | core/views.py:15 | the subscriber table stays free of duplicates, blanks and unnormalised emails whatever is posted |
| CoreViews.SubscribeTwice | core/views.py:15-19 | subscribing the same (normalised) email twice stores it once and answers "already subscribed" the second time |
| Coupons.IsValid | coupons/models.py:14-22 | a coupon is valid exactly when it is active, not before its start and not after its end, a missing bound being no bound |
| Coupons.WindowBounds | coupons/models.py:18-21 | outside the window a coupon is invalid; an active coupon with a non-empty window is valid at both ends, which are inclusive |
| Coupons.UnboundedAlwaysValid | coupons/models.py:14-22 | an active coupon without bounds is valid at every instant |
| Coupons.ValidInterval | coupons/models.py:14-22 | validity is an interval: valid at two instants means valid at every instant between them |
| Coupons.FindByCode | cart/views.py:64 | `Coupon.objects.get(code__iexact=...)`: missing exactly when no code matches ignoring case, and a single result matches ignoring case |
| Coupons.FindByCodeUnique | coupons/models.py:6 | when exactly one stored code matches ignoring case, the lookup returns it |
| Coupons.FindByCodeFolds | cart/views.py:64 | codes that differ only in case find the same coupon |
| Coupons.ResolveCoupon | cart/views.py:59-70 | no code means no coupon; a coupon applied is a stored, currently valid coupon whose code matches; the only error is a lookup that finds several rows, which the source does not catch |
| Coupons.DiscountPercent | cart/views.py:66 | the coupon's percentage, 0 without one |
| DashboardAnalytics.DaysParam | dashboard/views.py:60-64 | the window is the "days" parameter clamped to 1..365, and 30 when it is absent or not an integer |
| DashboardAnalytics.DaysParamKeepsInRange | dashboard/views.py:61-64 | a window already within 1..365 is read back unchanged |
| DashboardAnalytics.DaysIn | dashboard/views.py:122 | every month has 28 to 31 days |
| DashboardAnalytics.OrdMonotone | dashboard/views.py:102 | the calendar comparison of (year, month, day) is a total order that the day count respects |
| DashboardAnalytics.NextDay | dashboard/views.py:122 | the day after a valid date is a valid, later date |
| DashboardAnalytics.PrevDay | dashboard/views.py:67 | the day before a valid date is a valid, earlier date |
| DashboardAnalytics.NextOfPrev | dashboard/views.py:67-122 | stepping back a day and forward again returns the same date |
| DashboardAnalytics.NextDayIsImmediate | dashboard/views.py:122 | no date lies strictly between a date and the next day |
| DashboardAnalytics.NextMonthStart | dashboard/views.py:116-120 | the first day of the next month, rolling December over into January of the next year |
| DashboardAnalytics.DaysBefore | dashboard/views.py:67 | k days before today is a valid date, earlier when k is positive |
| DashboardAnalytics.BeforeTransitive | dashboard/views.py:102 | the calendar order is transitive |
| DashboardAnalytics.Step | dashboard/views.py:116-122 | each step of the timeline moves to a valid, later date |
| DashboardAnalytics.Walk | dashboard/views.py:100-122 | the loop visits exactly the timeline from the start date up to today |
| DashboardAnalytics.TimelineBounded | dashboard/views.py:102 | no point of the timeline is after today |
| DashboardAnalytics.TimelineSteps | dashboard/views.py:116-122 | consecutive points of the timeline are one step apart |
| DashboardAnalytics.TimelineEnds | dashboard/views.py:100-122 | the timeline is empty exactly when the start is after today; otherwise it starts at the start and its next step would pass today |
| DashboardAnalytics.DailyTimelineEndsToday | dashboard/views.py:102-122 | a daily timeline ends exactly on today |
| DashboardAnalytics.MonthlyTimelineEndsThisMonth | dashboard/views.py:116-120 | a monthly timeline ends in today's month, and every point after the first is a first of the month |
| DashboardAnalytics.DailyWindowLength | dashboard/views.py:64-67 | a daily window starting k days back has k + 1 points |
| DashboardAnalytics.TwoDigits | dashboard/views.py:96 | a zero-padded two-digit rendering that reads back as the number |
| DashboardAnalytics.FourDigits | dashboard/views.py:96 | a zero-padded four-digit rendering that reads back as the number |
| DashboardAnalytics.Label | dashboard/views.py:96 | labels have the shape YYYY-MM or YYYY-MM-DD |
| DashboardAnalytics.LabelsDistinguish | dashboard/views.py:96-104 | equal labels mean the same month, and the same day when grouping by day, so buckets never merge |
| DashboardAnalytics.AnalyticsAxis | dashboard/views.py:58-122 | the axis uses the clamped window, groups by month exactly when asked, and runs from days-1 days before the first clock read up to the date of the second; grouped by day it has one point per day of the window when both reads fall on one date, and one more when midnight passes between them |
| DashboardAnalytics.TimelineExtends | dashboard/views.py:100-122 | a daily walk that ends one day later visits exactly that one extra day |
| DashboardCharts.StripHash | static/js/dashboard_charts.js:15 | removes only the first "#", if any, and leaves the text before it free of "#" |
| DashboardCharts.Expand | static/js/dashboard_charts.js:16 | a three-character colour doubles each character; any other length is kept |
| DashboardCharts.Channels | static/js/dashboard_charts.js:14-18 | every channel read from a colour is a byte |
| DashboardCharts.Unpack | static/js/dashboard_charts.js:17-18 | the red, green and blue bytes of a parsed number, whatever it is |
| DashboardCharts.Rgba | static/js/dashboard_charts.js:19 | the rgba text is framed by "rgba(" and ")" and, for an alpha without a comma, splits on ", " back into the three channels and the alpha |
| DashboardCharts.Framed | static/js/dashboard_charts.js:19 | the inside of the rgba frame is exactly what was framed |
| DashboardCharts.Join4 | static/js/dashboard_charts.js:19 | joining four parts puts the separator between each pair |
| DashboardCharts.NoComma | static/js/dashboard_charts.js:19 | a decimal number never holds the ", " separator, even across its end |
| DashboardCharts.Pair | static/js/dashboard_charts.js:17-18 | two hex digits make a byte |
| DashboardCharts.SixDigitColour | static/js/dashboard_charts.js:14-18 | a six-digit colour, with or without "#", reads as its three hex pairs |
| DashboardCharts.ThreeDigitColour | static/js/dashboard_charts.js:16-18 | a three-digit colour reads each digit doubled, 17 times its value |
| DashboardCharts.EmptyIsBlack | static/js/dashboard_charts.js:17 | an empty colour falls back to "000000", black |
| DashboardCharts.DigitChannels | static/js/dashboard_charts.js:17-18 | six hex digits parse to the number whose three bytes, high to low, are the values the digit pairs spell |
| DashboardCharts.StripPlain | static/js/dashboard_charts.js:15 | stripping a colour of hex digits, with or without "#", leaves the digits |
| DashboardCharts.SixDigitValue | static/js/dashboard_charts.js:17 | a six-digit hex value is its three pairs weighted by 65536, 256 and 1 |
| DashboardCharts.Bytes | static/js/dashboard_charts.js:18 | shifting and masking recovers the three bytes a number was packed from |
| DashboardCharts.MaxFrom | static/js/dashboard_charts.js:99 | the maximum of a start value and the series bounds them all and is one of them |
| DashboardCharts.MinFrom | static/js/dashboard_charts.js:100 | the minimum of a start value and the series is below them all and is one of them |
| DashboardCharts.AxisRangeSound | static/js/dashboard_charts.js:98-100 | the axis reaches at least 1 above and 0 below, spans at least 1, and covers every revenue and profit value |
| DashboardCharts.PointsInsideBox | static/js/dashboard_charts.js:98-102 | every plotted revenue or profit value lands inside the plot area |
| DashboardCharts.PlotYBounds | static/js/dashboard_charts.js:102 | a value within the axis range is drawn between the top and bottom of the plot |
| DashboardCharts.Scaled | static/js/dashboard_charts.js:102 | a fraction of the height stays within the height |
| DashboardOrders.OrderIndex | dashboard/views.py:931 | the position of the order with this primary key, or none exactly when no order has it |
| DashboardOrders.UserIndex | dashboard/views.py:841 | the position of the user with this primary key, or none exactly when no user has it |
| DashboardOrders.FirstServing | dashboard/views.py:219-224 | the first image whose trimmed, lower-cased colour equals the item's colour and that has a URL, or none exactly when no image serves it |
| DashboardOrders.ThumbOfMatch | dashboard/views.py:219-224 | with a colour, the thumbnail is the first image that serves that colour |
| DashboardOrders.ThumbWithoutMatch | dashboard/views.py:225-228 | without a colour or a serving image, the thumbnail is the first image's URL |
| DashboardOrders.UntaggedImagesGiveFirst | dashboard/views.py:219-228 | when no image carries a colour the thumbnail is the first image's URL, or empty without images |
| DashboardOrders.NoneServesStep | dashboard/views.py:221-224 | the scan for a serving image goes on past an image that does not serve |
| DashboardOrders.ThumbFor | dashboard/views.py:217-228 | the loop picks exactly the specified thumbnail |
| DashboardOrders.ExtrasShape | dashboard/views.py:234-255 | at most three extra thumbnails, distinct, non-empty, different from the main one and taken from the items |
| DashboardOrders.ExtrasComplete | dashboard/views.py:252-255 | when fewer than three were collected, every usable thumbnail of the items is among them |
| DashboardOrders.ExtrasStep | dashboard/views.py:252-255 | one more item adds its thumbnail unless three are already collected |
| DashboardOrders.ExtrasSaturate | dashboard/views.py:254-255 | once three are collected the remaining items change nothing |
| DashboardOrders.ItemThumbs | dashboard/views.py:235-251 | each item's thumbnail from its product's images and its colour |
| DashboardOrders.ItemThumb | dashboard/views.py:236-251 | computes the thumbnail of the i-th item |
| DashboardOrders.ExtraThumbs | dashboard/views.py:234-256 | the loop collects exactly the specified extra thumbnails |
| DashboardOrders.CollectStep | dashboard/views.py:252-253 | the loop's running collection stays the collection of the items seen so far |
| DashboardOrders.CollectDone | dashboard/views.py:254-256 | when the loop stops, at the end or at three, its collection is the specified one |
| DashboardOrders.OrderCard | dashboard/views.py:210-259 | an order without items shows an empty card; otherwise the first item's thumbnail, size, colour and name, the extra thumbnails and the count of further items |
| DashboardOrders.CardCounts | dashboard/views.py:257 | the main thumbnail, the extras and the "more" count together account for every item |
| DashboardOrders.ExtrasLength | dashboard/views.py:252 | the extras never outnumber the items other than the first |
| DashboardOrders.ItemLineTotals | dashboard/views.py:683 | the line total of each item, in order |
| DashboardOrders.RecostItems | dashboard/views.py:674-683 | every item gets unit price times quantity as line total and its variant's cost price as unit cost; the subtotal is the sum of the new line totals |
| DashboardOrders.RecostStep | dashboard/views.py:674-682 | recosting one more item keeps the items before it recosted and the rest as they were |
| DashboardOrders.LineTotalsStep | dashboard/views.py:683 | the running subtotal grows by each item's line total |
| DashboardOrders.StaffOrderTotals | dashboard/views.py:670-694 | after a staff edit every item is recosted and the order holds the new subtotal, the GST and flat-or-free shipping on it, and their sum as total; any stored discount is ignored and every other field is kept |
| DashboardOrders.RecostedSubtotal | dashboard/views.py:673-683 | the recomputed subtotal is the sum of unit price times quantity, and is non-negative for non-negative prices |
| DashboardOrders.StaffShippingRule | dashboard/views.py:688 | a staff edit ships free exactly when the subtotal reaches the threshold, and charges the flat rate otherwise |
| DashboardOrders.UpdateOrderStatus | dashboard/views.py:930-944 | an unknown order is a 404 and an unknown status is rejected, both with nothing changed; a known status is set on that order alone, which the `post_save` handler then tracks as `OrderSignals.AfterSave` says (when the new status is `paid` and the order was untracked); statuses stay valid and order numbers unique |
| DashboardOrders.ToggleStaff | dashboard/views.py:839-852 | unknown users are a 404; a staff member cannot remove their own staff flag; otherwise exactly that user's staff flag flips |
| DashboardOrders.ToggleActive | dashboard/views.py:857-869 | unknown users are a 404; an active staff member cannot deactivate themselves; otherwise exactly that user's active flag flips |
| DashboardOrders.ToggleTwiceRestores | dashboard/views.py:848-865 | toggling a flag twice restores the user |
| DashboardOrders.CollectVariantColors | dashboard/views.py:461-467 | the loop collects exactly the specified colour suggestions |
| DashboardOrders.VariantColorsSound | dashboard/views.py:465-467 | the suggestions are distinct, and each is the value of a non-blank posted variant colour field |
| DashboardOrders.VariantColorsComplete | dashboard/views.py:465-467 | every non-blank posted variant colour is suggested |
| JsText.FindSub | static/js/orders_ajax.js:8 | the first position where the separator occurs, or none exactly when it never occurs |
| JsText.Split | static/js/orders_ajax.js:8 | splitting always gives at least one part |
| JsText.JoinSplit | static/js/orders_ajax.js:8 | joining the parts of a split with the separator gives the text back |
| JsText.Around | static/js/orders_ajax.js:8 | a text is the part before, the slice and the part after |
| JsText.JoinCons | static/js/dashboard_charts.js:16 | joining a head and more parts puts the separator after the head |
| JsText.SplitPiecesFree | static/js/orders_ajax.js:8 | no part of a split contains the separator |
| JsText.SplitJoin | static/js/orders_ajax.js:8 | splitting a join of separator-free parts gives the parts back |
| JsText.WithoutFirstChar | static/js/orders_ajax.js:9 | text without the separator's first character neither contains it nor ends in a prefix of it |
| JsText.NoOccurrence | static/js/orders_ajax.js:8 | text without the separator has no first occurrence |
| JsText.FirstAfterHead | static/js/orders_ajax.js:8 | the first separator after a separator-free head is found right after the head |
| JsText.RadixDigitValue | static/js/dashboard_charts.js:17 | a digit's value is below its radix |
| JsText.DigitRun | static/js/dashboard_charts.js:17 | parseInt reads the longest prefix of digits and stops at the first non-digit |
| JsText.ParseIntJs | static/js/dashboard_charts.js:17 | `parseInt`: a blank string is NaN, a negative result was written with a minus sign, and a run of digits alone parses to its value |
| JsText.AllDigitsRun | static/js/theme.js:216 | a text of digits is read entirely |
| CartModels.UnitPriceIgnoresVariant | cart/models.py:27-30 | whichever variant a row holds, it is priced at its product's selling price: `Variant` has neither `sale_price` nor `base_price`, so the variant branch never runs |
| CartModels.LineTotalLinear | cart/models.py:32-33 | a line total is linear in the quantity: zero units cost nothing, one unit costs the unit price, and adding units to a row adds their cost |
| CartModels.LineTotals | cart/models.py:12 | one line total per item, in order |
| CartModels.SubtotalSteps | cart/models.py:11-12 | the subtotal starts at zero and each item adds its line total |
| CartModels.SubtotalAppend | cart/models.py:11-12 | the subtotal of two runs of items is the sum of their subtotals |
| CartModels.SubtotalNonNegative | cart/models.py:11-12 | with non-negative prices the subtotal is never negative |
| CartModels.UnitsNonNegative | cart/models.py:22 | quantities are positive integer fields, so the unit count is never negative |
| CartModels.InsertItem | cart/models.py:24-25 | `unique_together (cart, product, variant)`: an insert fails exactly when the variant is set and the key is taken (NULL variants never collide in SQL), and otherwise appends the row |
| CartModels.FindItem | cart/models.py:24-25 | the row with a given (cart, product, variant) key, the first one, or none when no row has it |
| CatalogModels.Price | catalog/models.py:47-48 | a product's price is its sale price when set, else its base price |
| CatalogModels.PriceBelowBase | catalog/models.py:47-48 | a product sells below its base price exactly when a lower sale price is set, and at its base price when no sale price is set |
| CatalogViews.DealPriceBelowBase | catalog/views.py:52-58 | every top deal sells below its base price, at most 30% below it |
| CatalogModels.SlugOnSave | catalog/models.py:42-45 | saving keeps a non-empty slug and slugifies the name into an empty one |
| CatalogModels.SlugOnSaveIdempotent | catalog/models.py:17-20 | saving twice gives the same slug as saving once |
| CatalogModels.SluggedRecord.Save | catalog/models.py:17-20 | `Category.save` / `Product.save` set the slug as `SlugOnSave` says and keep the name |
| CatalogModels.InsertVariant | catalog/models.py:92-93 | a variant insert fails exactly when the product already has that size and colour, otherwise appends |
| CatalogModels.InsertVariantKeepsUnique | catalog/models.py:92-93 | inserting keeps (product, size, colour) unique |
| CatalogModels.WishlistAdd | catalog/views.py:196-200 | `get_or_create`: afterwards the pair is present, nothing was lost and nothing else was added |
| CatalogModels.WishlistRemove | catalog/views.py:204-207 | afterwards the pair is gone and every other row is still there |
| CatalogModels.WishlistRemoveKeepsUnique | catalog/models.py:104-105 | removing keeps (user, product) unique |
| CatalogModels.WishlistAddKeepsUnique | catalog/models.py:104-105 | adding keeps (user, product) unique, and adding twice is adding once |
| Money.RoundHalfEven | cart/views.py:72 | the integer nearest to `num/den`, ties going to the even neighbour: the rounding `Decimal.quantize` applies in the default context |
| Money.QuantizeToPaise | cart/views.py:129 | `quantize(Decimal("0.01"))` of a decimal: the paise amount within half a paisa of its value, ties to even |
| Money.ApplyRate | cart/views.py:76-77 | `(amount * rate).quantize(0.01)` for an amount in paise: within half a paisa of the exact product |
| Money.PercentOf | cart/views.py:66 | `(amount * pct / 100).quantize(0.01)`: within half a paisa of the exact percentage |
| Money.ParseDecimalOfDecToString | orders/shiprocket.py:255 | `Decimal(str(d))` gives back `d`: writing a decimal in plain notation and reading it back loses nothing, scale included |
| OrderModels.StatusKeysShape | orders/models.py:12-28 | the order status choices are fifteen distinct keys |
| OrderModels.KnownStatuses | orders/models.py:12-32 | "created" (the default), "paid" and "delivered" are statuses; the empty string is not |
| OrderModels.StatusGroupsDistinct | orders/models.py:12-28 | each of the three groups of statuses (flow, cancellation, returns) holds no duplicate |
| OrderModels.StatusGroupsDisjoint | orders/models.py:12-28 | no status key appears in two of the groups |
| OrderModels.ChoiceListsShape | orders/models.py:8-11 | two distinct payment methods, two distinct return types and six distinct return statuses |
| OrderModels.CreateOrder | orders/models.py:29-50 | a created order carries the given owner, number, method, amounts and address; its status is "created", no discount, no coupon, no tracking, carrier "Shiprocket", empty Razorpay fields |
| OrderModels.InsertOrder | orders/models.py:31 | inserting succeeds exactly when no stored order has the same order number, and then appends the order |
| OrderModels.InsertOrderKeepsUnique | orders/models.py:31 | a successful insert keeps order numbers unique |
| OrderModels.CreateReturnRequest | orders/models.py:82-104 | a new return request has status "requested", a known return status, no AWB, and the given order, user, type and reason |
| OrderReturns.FindOrder | orders/views.py:383 | finds an order of this user with this number, answers Http404 exactly when there is none, and never fails otherwise when numbers are unique |
| OrderReturns.ItemsOf | orders/views.py:388 | every item returned belongs to the order |
| OrderReturns.PostedQtyMeaning | orders/views.py:389 | a missing or empty quantity field reads 0; otherwise the field reads as its integer and fails exactly when it is not one |
| OrderReturns.PostedQtyOfRenderedQty | orders/views.py:389 | a quantity field holding the decimal rendering of n reads back n |
| OrderReturns.ExchangeVariant | orders/views.py:393-401 | only an exchange picks a replacement variant, and only one that exists |
| OrderReturns.LineFor | orders/views.py:390-402 | a selected line keeps its item and exchange, and returns the posted quantity clamped to the ordered quantity, at least one |
| OrderReturns.SelectReturns | orders/views.py:388-402 | never selects more lines than the order has items |
| OrderReturns.SelectFailsOnBadQty | orders/views.py:389 | selection fails exactly when some item's quantity field is not an integer |
| OrderReturns.SelectedLinesAreClamped | orders/views.py:390-402 | every selected line is an item of the order with a positive posted quantity, returns min(posted, ordered) and the item's exchange choice |
| OrderReturns.PositiveQtyIsSelected | orders/views.py:390 | every item with a positive posted quantity is selected |
| OrderReturns.SelectReturnsSnoc | orders/views.py:388-402 | selection over one more item extends the previous selection by that item's line, or keeps the first error |
| OrderReturns.SelectLines | orders/views.py:388-402 | the loop over the order's items yields exactly the selection specification |
| OrderReturns.ErrorSticks | orders/views.py:389 | once the selection has failed on a prefix, the whole selection fails the same way |
| OrderReturns.Outgoing | orders/views.py:411-415 | the items sent to the carrier are the selected items with their quantity replaced by the returned quantity |
| OrderReturns.ReturnItemsFor | orders/views.py:407-408 | one return item per selected line, with its request, item, quantity and exchange variant |
| OrderReturns.ReturnedStatus | orders/views.py:422 | a return marks the order "return_requested", an exchange "exchange_requested", both known statuses |
| OrderReturns.Recorded | orders/views.py:406-423 | recording appends the request and its items; with an AWB the request becomes "pickup_scheduled" and only the order's status changes, without one the orders are untouched |
| OrderReturns.RecordedKeepsOrders | orders/views.py:406-423 | recording keeps every order's id and number, unique numbers and valid statuses, and stores a known return status |
| OrderReturns.ReturnNeverExceedsOrdered | orders/views.py:392 | no return item and no carrier item exceeds the quantity ordered |
| OrderReturns.RecordReturn | orders/views.py:409-428 | the AWB and the token cache left are those of `Shiprocket.ReturnOutcome` for the order and the returned items; the request is recorded with that AWB; with the carrier disabled no AWB is obtained and the cache is untouched; an AWB is non-empty and schedules the pickup |
| OrderReturns.OrderReturnRequest | orders/views.py:381-430 | an unknown order is a 404 with nothing changed; a bad quantity is an uncaught error; an empty selection redirects back with nothing recorded; otherwise the selection is recorded, with the AWB and token cache of `Shiprocket.ReturnOutcome` for the selected items, and the page redirects to the order; no other path touches the carrier |
| OrderReturns.FullLines | orders/views.py:445-450 | a quick return takes every item at its full quantity with no exchange |
| OrderReturns.QuickReturnSendsItems | orders/views.py:447-450 | the quick return sends the carrier exactly the order's items |
| OrderReturns.OrderReturnQuick | orders/views.py:433-464 | an unknown order is a 404; an undelivered order changes nothing and calls no carrier; a delivered one records a full "Quick return", with the AWB and token cache of `Shiprocket.ReturnOutcome` for all its items, and redirects to the order |
| OrderSignals.OnOrderSaved | orders/signals.py:12-25 | a saved order triggers a shipment attempt exactly when the carrier is enabled, the order is paid and it has no tracking number; a raising attempt is swallowed |
| OrderSignals.TrackedSaveShipsNothing | orders/signals.py:20-21 | saving an order after its AWB was stored never ships it again |
| OrderSignals.AfterSave | orders/signals.py:12-25 | the handler changes at most the tracking number and provider, and only of a paid, untracked order with the carrier enabled, to the AWB the shipment call returned; such an order with an AWB ends as `Shiprocket.Tracked` makes it |
| OrderSignals.AfterSaveIdempotent | orders/signals.py:20-23 | running the handler again on its own result, with the carrier answering alike, changes nothing more |
| OrderAdmin.CreatedCount | orders/admin.py:32-43 | the admin action never counts more shipments than selected orders |
| OrderAdmin.AfterAction | orders/admin.py:36-43 | an untracked order that the carrier ships gets a non-empty tracking number; every other order is left as it was |
| OrderAdmin.Messages | orders/admin.py:44-47 | a success message with the created count when any were created, then an info message with the skipped count when any were skipped |
| OrderAdmin.CreateShipments | orders/admin.py:32-47 | created plus skipped is the number selected; the carrier is called for exactly the untracked orders, in order; each order ends as AfterAction says; the messages follow the counts |
| OrderAdmin.SavedAllAt | orders/admin.py:35-43 | the action's effect on the selection is AfterAction applied to each order, position by position |
| OrderAdmin.PrefixStep | orders/admin.py:35-43 | one more order adds one to the created count exactly when it is shipped, joins the carrier calls exactly when untracked, and appends its own outcome |
| OrderAdmin.MessagesIffSelection | orders/admin.py:44-47 | the action reports something exactly when the selection is non-empty |
| OrderAdmin.CreatedAtMostCalls | orders/admin.py:36-42 | no more shipments are created than carrier calls are made |
| OrderAdmin.RerunCreatesNothing | orders/admin.py:36-38 | running the action again over its own result, with the carrier answering each order as it did the first time, creates no shipment |
| OrderAdmin.RerunRetriesOnlyUnshipped | orders/admin.py:36-43 | after one run, whatever the carrier answers next, the untracked orders are exactly those that were untracked and got no AWB; a second run creates at most as many shipments as the first left undone; and every order the first run shipped is left alone |
| OrderViews.PurchaseOf | orders/views.py:271-276 | a cart row is bought as its product, variant and quantity |
| OrderViews.Purchases | orders/views.py:262 | one purchase per cart row, in order |
| OrderViews.PurchaseLinesOfCart | orders/views.py:108-137 | the parcel checkout measures is the parcel the cart page measures |
| OrderViews.BuyNowPurchase | orders/views.py:58-72 | the buy-now line needs its product to exist; its quantity becomes `max(1, quantity)`; a variant is kept only when its id names an existing variant |
| OrderViews.MergeKeepsUnique | orders/views.py:45-49 | merging session lines with at least one unit each into a cart with a unique key never fails and keeps the key unique |
| OrderViews.AddToDbCartSucceeds | orders/views.py:46-49 | adding to a cart whose key is unique always succeeds and keeps it unique |
| OrderViews.MergeOne | orders/views.py:46-49 | merging one session line adds its quantity to the matching row, or creates the row with that quantity |
| OrderViews.MergeSession | orders/views.py:45-49 | the merge loop computes exactly `MergeRows`: the rows after the merge and whether every `get_or_create` succeeded |
| OrderViews.MergeFailureSticks | orders/views.py:45-49 | once a `get_or_create` raises, the rest of the session is not merged |
| OrderViews.MergeAddsUnits | orders/views.py:45-49 | a merge that succeeds adds exactly the session's units to the cart |
| OrderViews.RetryMergesAgain | orders/views.py:39-50 | since a server error saves no session, the session cart survives a failed checkout that merged it; merging it again on the retry succeeds and leaves the cart with the session's units counted twice |
| OrderViews.Merged | orders/views.py:39-50 | an empty session cart merges nothing; otherwise the merge lands in the user's cart or a newly created one |
| OrderViews.CartStart | orders/views.py:52-55 | checkout starts from the cart only when it has rows, buying them at the cart's subtotal and unit count |
| OrderViews.BuyNowStart | orders/views.py:58-73 | buy-now checkout buys just the buy-now line at its product price times quantity, and stops when the product is gone |
| OrderViews.StartCheckout | orders/views.py:25-75 | `bn=0/false/cart` drops `buy_now`; buy-now mode leaves the cart and session cart alone; otherwise the session cart is merged into the database cart (and cleared when the merge succeeds) and checkout starts from that cart; a server error leaves the whole session as it was, while the rows the merge wrote stay |
| OrderViews.ChosenAddress | orders/views.py:97-103 | a chosen `address_id` must parse and name one of the user's addresses; nothing chosen otherwise |
| OrderViews.PageAddress | orders/views.py:96-105 | the page uses the chosen address, else the preferred one (default, else first) |
| OrderViews.PinFrom | orders/views.py:202 | the order's pin is the address's postal code, else the posted one, else empty |
| OrderViews.Quote | orders/views.py:144-165 | without a pin, a disabled carrier or a subtotal at the threshold there is no quote |
| OrderViews.FetchQuote | orders/views.py:144-165 | asking for a quote returns `Quote` and moves the token cache only when the carrier is asked |
| OrderViews.UnitCost | orders/views.py:245-250 | an item's unit cost is its variant's cost price when set, else 0 |
| OrderViews.ItemFor | orders/views.py:251-280 | an order item records the product, variant and quantity, the product price as unit price, price times quantity as line total, and the unit and line cost |
| OrderViews.ItemsFor | orders/views.py:262-280 | one order item per purchase, with consecutive ids |
| OrderViews.ItemsForCartTotal | orders/views.py:262-280 | the order items' line totals add up to the cart subtotal |
| OrderViews.CreateItems | orders/views.py:262-280 | the item-creation loop appends exactly `ItemsFor` to the item table |
| OrderViews.ShipToFor | orders/views.py:234-241 | a chosen address is copied onto the order; otherwise the posted fields are, the country is India and the name falls back to the full name, then the username |
| OrderViews.CheckoutOrder | orders/views.py:223-242 | the order row has status `created`, the payment method, the discounted subtotal as its subtotal, the discount, GST, shipping and total, the coupon's code (or empty) and the shipping address |
| OrderViews.Placement | orders/views.py:223-314 | a taken order number fails with nothing written; otherwise one order, `CheckoutOrder` of the totals, coupon and address, and its items are appended; online payment asks the gateway for an order of the total and keeps the cart, storing the gateway id, or, when the call raises, failing with its exception and keeping the order (without a gateway id) and its items; cash on delivery stores no gateway id and empties the cart outside buy-now mode |
| OrderViews.PlacedOrderIsCheckoutOrder | orders/views.py:223-314 | the order appended is `CheckoutOrder` of the totals, coupon and address, holding the gateway's id exactly when online payment created a gateway order |
| OrderViews.PlacementKeepsOrderNumbersUnique | orders/models.py:31 | placing an order keeps order numbers unique |
| OrderViews.PlacedItemsAccountForSubtotal | orders/views.py:244-280 | the items of a placed order add up to the subtotal checkout started from, for a cart or a buy-now line |
| OrderViews.PlaceOrder | orders/views.py:282-314 | placing the order does what `Placement` says; `buy_now` goes after a buy-now order; cash on delivery clears the session coupon, online payment keeps it; a failure, the gateway's included, leaves the session alone |
| OrderViews.PageTotals | orders/views.py:89-173 | the page's subtotal is the cart's; the discounted subtotal is the subtotal less the coupon's discount and never negative; GST is charged on it; shipping is free from the threshold on; the total is their sum |
| OrderViews.OrderTotals | orders/views.py:191-221 | the order's discounted subtotal and GST are computed as on the page; its shipping is quoted again and is free from the threshold on; the total is their sum |
| OrderViews.OrderPricedAsPage | orders/views.py:173-221 | the order's subtotal, discount and GST are the page's, and only shipping may differ, both being free at the threshold |
| OrderViews.OrderWithoutQuotePaysFlat | orders/views.py:214-219 | without a pin, an enabled carrier or a token, an order below the threshold pays the flat rate |
| OrderViews.OrderQuoteReusesToken | orders/views.py:155-213 | the order's quote reuses the token the page's quote cached |
| OrderViews.PlacementRecordsOrder | orders/views.py:221-242 | a placed order is appended with status `created`, the user and the order number, a total equal to subtotal + GST + shipping, and online payment asks for exactly that total |
| OrderViews.PostCheckout | orders/views.py:175-314 | a POST quotes the order's shipping for its pin and payment method, then places the order as `Placement` says |
| OrderViews.QuotePage | orders/views.py:76-173 | the page resolves the session coupon and, when that works, shows the `PageTotals` for the chosen address |
| OrderViews.FinishCheckout | orders/views.py:76-331 | a coupon error fails without writing; a GET shows the page; a POST without `razorpay` or `cod` goes back to checkout; otherwise the order is placed as `Placement` says, a raising gateway call included, and recorded when placed |
| OrderViews.CheckoutReady | orders/views.py:76-331 | once there is something to buy, the order is placed as `FinishCheckout` says; a server error restores the session the request began with and keeps the cart; a GET writes nothing |
| OrderViews.Checkout | orders/views.py:24-331 | a missing buy-now product sends the user home; a failing merge is a server error keeping the rows it wrote; an empty cart goes to the cart page; a placed order holds exactly the merged cart's rows; a GET writes no order; cash on delivery clears the coupon; a buy-now order drops `buy_now` and leaves the cart alone; every server error leaves the session as it was, so its cart is merged again on a retry |
| OrdersAjax.CookieSep | static/js/orders_ajax.js:8 | the cookie separator "; name=" starts with ";" |
| OrdersAjax.CookieFound | static/js/orders_ajax.js:6-10 | a cookie that occurs exactly once yields its value, up to the next ";" |
| OrdersAjax.UpToSemicolon | static/js/orders_ajax.js:9 | the value read is the text before the first ";" |
| OrdersAjax.GetCookie | static/js/orders_ajax.js:6-10 | a cookie that does not occur yields nothing, and a value read never holds ";" |
| OrdersAjax.CookieRepeated | static/js/orders_ajax.js:9 | a cookie name that occurs twice yields nothing, since the split then has more than two parts |
| OrdersAjax.SplitOfContaining | static/js/orders_ajax.js:8-9 | splitting text that contains the separator gives at least two parts |
| OrdersAjax.SetParam | static/js/orders_ajax.js:17-19 | setting a parameter appends it when absent; afterwards every entry with that name holds the new value and all other entries are unchanged |
| OrdersAjax.ParamsOf | static/js/orders_ajax.js:12-20 | status, sort and search are sent, in that order, only when they differ from "all", "newest" and empty |
| OrdersAjax.DefaultsSendNothing | static/js/orders_ajax.js:17-19 | the default controls send no parameter |
| OrdersAjax.Utf8 | static/js/orders_ajax.js:20 | a character encodes to one to four bytes, an ASCII one to itself |
| OrdersAjax.Utf8Bytes | static/js/orders_ajax.js:20 | the UTF-8 encoding of a text is a sequence of bytes |
| OrdersAjax.UpperHex | static/js/orders_ajax.js:20 | percent-escapes use an upper-case hex digit of the right value |
| OrdersAjax.EncodeByte | static/js/orders_ajax.js:20 | an encoded byte is non-empty and never contains "&" or "=" |
| OrdersAjax.EncodeBytes | static/js/orders_ajax.js:20 | encoded bytes never contain "&" or "=" |
| OrdersAjax.FormEncode | static/js/orders_ajax.js:20 | a form-encoded name or value never contains "&" or "=" |
| OrdersAjax.Pieces | static/js/orders_ajax.js:20 | each parameter is serialised as its encoded name, "=", and its encoded value |
| OrdersAjax.DecodeEncodeByte | static/js/orders_ajax.js:20 | decoding an encoded byte gives the byte back |
| OrdersAjax.DecodeEncodeBytes | static/js/orders_ajax.js:20 | decoding encoded bytes gives the bytes back |
| OrdersAjax.DecodeFormEncode | static/js/orders_ajax.js:20 | decoding a form-encoded text gives its UTF-8 bytes |
| OrdersAjax.PlainIsUnchanged | static/js/orders_ajax.js:20 | unreserved ASCII text is sent as it is |
| OrdersAjax.SerializeSplits | static/js/orders_ajax.js:20 | the query splits on "&" into the parameters and each on "=" into its name and value |
| OrdersAjax.PieceFree | static/js/orders_ajax.js:20 | a serialised parameter holds no "&" |
| OrdersAjax.PieceSplits | static/js/orders_ajax.js:20 | a serialised parameter splits on "=" into its name and value |
| OrdersAjax.RefreshUrl | static/js/orders_ajax.js:25 | the partial list URL, with "?" and the query only when the query is non-empty |
| OrdersAjax.RefreshUrlQuestionMark | static/js/orders_ajax.js:25 | the URL has a "?" exactly when there is a query |
| OrdersAjax.QueryString | static/js/orders_ajax.js:16-20 | the query is empty exactly when no parameter is set |
| OrdersAjax.Serialize | static/js/orders_ajax.js:20 | the query is empty exactly when there are no parameters, and otherwise splits on "&" into one encoded piece per parameter, in order |
| Payments.VerifySignature | payments/utils.py:5-23 | missing Razorpay keys raise instead of answering; with both keys the verdict is the gateway's |
| Payments.CreateGatewayOrder | payments/utils.py:5-13 | creating a gateway order raises `RuntimeError` when either Razorpay key is unset; with both keys it is the SDK's answer, an exception included |
| Payments.Paid | payments/views.py:28-31 | a paid order has status "paid" and the posted payment id and signature, and nothing else about it changes |
| Payments.OnlyMarkedPaidKeeps | payments/views.py:28-31 | marking orders paid, and tracking them, keeps every status valid and order numbers unique |
| Payments.EmptyCartOf | payments/views.py:33-35 | emptying the buyer's cart keeps the cart itself and leaves every other user's cart alone |
| Payments.RazorpayCallback | payments/views.py:10-39 | a non-POST is a 400; an unknown gateway order is a 404 and duplicates or missing keys a server error, all with nothing changed; a verified payment marks the order paid, which the `post_save` handler then tracks as `OrderSignals.AfterSave` says, empties the buyer's cart and goes to the order; a failed verification goes back to checkout with nothing changed |
| Payments.PaysFor | payments/views.py:25 | a missing Razorpay order id matches no order, and a posted one matches exactly the orders holding it |
| Payments.CallbackState | payments/views.py:25-36 | the callback at most marks paid (and, through the handler, tracks) the one order the posted id names, keeps every cart key, and changes nothing unless the signature was verified |
| Payments.CallbackIdempotent | payments/views.py:25-36 | replaying the same callback after it has run, with the carrier answering as before, changes nothing further |
| Payments.GetDefault | payments/views.py:51-53 | a dict lookup with a default: the field when present, the default when absent, and an error on a non-object |
| Payments.ReadEvent | payments/views.py:50-54 | a non-object payload is an error, an event other than payment.captured is ignored, and a captured event names the truthy order id found under payload.payment.entity |
| Payments.RazorpayWebhook | payments/views.py:42-62 | an unparsable body is "Invalid payload"; a captured payment marks its single order paid, which the handler then tracks as `OrderSignals.AfterSave` says, and answers 200; an unknown order or an ignored event answers 200 with nothing changed; a malformed payload or duplicate orders is an error with nothing changed |
| Payments.WebhookAfterCallback | payments/views.py:52-58 | a webhook arriving after a verified callback for the same order finds it, and changes nothing when the order was tracked, the carrier is off or it answers as before; otherwise its save retries the shipment |
| Payments.WebhookIdempotent | payments/views.py:52-58 | a repeated captured-payment webhook, the carrier answering alike, changes nothing further |
| Payments.CallbackTriggersShipment | orders/signals.py:16-23 | the order a verified payment callback marks paid is shipped on save exactly when the carrier is enabled and it had no tracking number, and then holds the AWB; otherwise it is just the paid order |
| Payments.WebhookTriggersShipment | orders/signals.py:16-23 | the same holds for an order the payment webhook marks paid |
| Reviews.AddReview | reviews/views.py:8-25 | only a POST with an integer rating between 1 and 5 submits, and then the table is the upsert of that rating, title and body; conversely such a POST for one product, with at most one review by the author, does submit; an out-of-range rating is rejected; every other outcome leaves reviews unchanged |
| Reviews.MissingRatingRejected | reviews/views.py:14-19 | a POST without a rating reads 0 and is rejected as invalid, with nothing stored |
| Reviews.Upsert | reviews/views.py:21-23 | several reviews by the author for the product raise; otherwise the author's review is updated in place or one new review is appended, and every other review keeps its place |
| Reviews.UpsertMeaning | reviews/views.py:21-23 | after the upsert exactly one review by this user for this product holds the new rating, title and body; other reviews are kept and none is added; one review per customer and product is preserved |
| Reviews.FindOneUnique | reviews/models.py:16-17 | with one matching row the lookup finds exactly that row |
| Reviews.ResubmitIdempotent | reviews/views.py:21-23 | submitting the same review twice leaves the table as one submission does |
| Pricing.Discount | cart/views.py:66 | the coupon discount is the subtotal times the percentage over 100, rounded to the paisa (half to even) |
| Pricing.Discounted | cart/views.py:72-74 | the discounted subtotal is subtotal minus discount, floored at zero |
| Pricing.Gst | cart/views.py:76-77 | GST is the discounted subtotal times the configured rate, rounded to the paisa |
| Pricing.Shipping | cart/views.py:79-132 | free at or above the threshold (399 rupees by default); below it the carrier estimate rounded to the paisa when there is one, else the flat rate |
| Pricing.CartTotals | cart/views.py:58-133 | the page totals are made of those parts and the total is discounted subtotal + GST + shipping |
| Pricing.PlainTotals | cart/views.py:260-326 | the totals the cart's AJAX replies use: no discount, GST and shipping on the raw subtotal |
| Pricing.NoCouponNoDiscount | cart/views.py:59-72 | with no coupon the discount is zero and the totals are the plain ones |
| Pricing.DiscountWithinSubtotal | cart/views.py:66-74 | a percentage of at most 100 never discounts below zero, so the floor never fires |
| Pricing.DiscountAtLeastWhole | cart/views.py:73-74 | a percentage of 100 or more makes the discounted subtotal zero |
| Pricing.GstMonotone | cart/views.py:77 | a larger amount never pays less GST, and GST is never negative |
| Pricing.DefaultGst | reyhardy/settings.py:11 | with the default rate "0.18", GST is 18% rounded to the paisa |
| Pricing.DefaultShipping | reyhardy/settings.py:13-14 | with the default settings, shipping is free from 399 rupees and otherwise 49 rupees when there is no estimate |
| Pricing.TotalComposition | cart/views.py:133 | the total is never below the discounted subtotal, and above the free threshold it is discounted subtotal + GST |
| SessionCart.FindLine | cart/utils.py:43-44 | the line the helpers' `for ... return` stops at: the first line with the product and variant, and none exactly when no line has them |
| SessionCart.CodeOf | cart/utils.py:100-104 | the session coupon reads as a code exactly when the stored value is a dictionary, and then as its `code` |
| SessionCart.AddLines | cart/utils.py:39-49 | after adding, the cart has a line for the product and variant; either no line is added or exactly the new line is appended; every line with another key is unchanged |
| SessionCart.AddExisting | cart/utils.py:43-47 | adding a product and variant already in the cart adds the quantity to that line and changes no other line |
| SessionCart.AddAbsent | cart/utils.py:48 | adding a new product and variant appends one line with the quantity |
| SessionCart.AddKeepsNoDupKeys | cart/utils.py:39-49 | adding keeps every (product, variant) key on at most one line |
| SessionCart.UpdateLines | cart/utils.py:52-58 | updating keeps the number of lines, and each line is unchanged or is a line with the key whose quantity became `max(1, q)` |
| SessionCart.UpdateEffect | cart/utils.py:52-58 | updating sets the matching line's quantity to `max(1, q)` and leaves the other lines alone; an unknown key changes nothing |
| SessionCart.UpdateKeepsNoDupKeys | cart/utils.py:52-58 | updating keeps every key on at most one line |
| SessionCart.RemoveLines | cart/utils.py:61-66 | removing never adds lines, and no remaining line holds the key (`RemoveEffect` adds that every other line stays) |
| SessionCart.RemoveEffect | cart/utils.py:61-66 | removing keeps exactly the lines without the key; an unknown key changes nothing |
| SessionCart.RemoveIsSubsequence | cart/utils.py:63-65 | the remaining lines are the cart filtered by "not this key", in their old order |
| SessionCart.RemoveKeepsNoDupKeys | cart/utils.py:61-66 | removing keeps every key on at most one line |
| SessionCart.ReadItemsEffect | cart/utils.py:74-91 | reading the cart back skips lines whose product is gone and only those, gives each item a quantity of at least 1, and its product and variant come from the catalogue |
| SessionCart.ReadLineEffect | cart/utils.py:78-90 | a line reads back exactly when its product exists; a missing, zero or unknown variant id reads as no variant; the quantity becomes `max(1, quantity)` |
| SessionCart.SessionPriceMatchesCart | cart/utils.py:19-28 | whichever variant a session line holds, it is priced at its product's selling price (the variant branch needs a `sale_price` or `base_price` that `Variant` does not have); the line costs what the same line costs in a database cart, and its total is linear in the quantity |
| SessionCart.SessionTotalsOfReadItems | cart/utils.py:74-91 | the subtotal of the items read back is never negative and they hold at least one unit per item |
| SessionCart.Session.constructor | cart/utils.py:31-36 | a fresh session has no cart, no coupon, no buy-now or selection and no remembered variants |
| SessionCart.Session.AddItem | cart/utils.py:39-49 | `add_session_item` turns the cart into `AddLines` of the old lines and leaves every other session entry alone |
| SessionCart.Session.UpdateItem | cart/utils.py:52-58 | `update_session_item` turns the cart into `UpdateLines` of the old lines, nothing else changes |
| SessionCart.Session.RemoveItem | cart/utils.py:61-66 | `remove_session_item` turns the cart into `RemoveLines` of the old lines, nothing else changes |
| SessionCart.Session.ClearCart | cart/utils.py:69-71 | `clear_session_cart` drops the cart and keeps the rest of the session |
| SessionCart.Session.GetItems | cart/utils.py:74-91 | `get_session_items` returns the lines read back (`ReadItems`), having replaced a missing cart by an empty one |
| SessionCart.Session.SetCoupon | cart/utils.py:95-97 | `set_session_coupon` stores `{"code": code}`, which reads back as that code |
| SessionCart.Session.ClearCoupon | cart/utils.py:107-109 | `clear_session_coupon` drops the coupon, which then reads as none |
| SessionCart.Session.SetBuyNow | cart/views.py:188-195 | storing or popping `buy_now` touches no other session entry |
| SessionCart.Session.SetSelected | cart/views.py:500-502 | storing `checkout_selected` touches no other session entry |
| SessionCart.Session.RememberVariant | cart/views.py:209-216 | `last_variant[pid]` is set and the rest of the map and session kept |
| SessionCart.ApplyAllKeepsNoDupKeys | cart/utils.py:39-71 | any run of adds, updates, removes and clears keeps every key on at most one line |
| Shiprocket.TokenCache.constructor | orders/shiprocket.py:16-17 | the process starts with no token and expiry 0 |
| Shiprocket.TokenStep | orders/shiprocket.py:32-47 | a live truthy token is returned unchanged; a returned token is truthy and is the one cached; the cache changes only by a refresh, which sets the expiry nine minutes ahead |
| Shiprocket.TokenCache.GetToken | orders/shiprocket.py:32-47 | the cache moves exactly as the token step says: a live token is reused, otherwise a login refreshes token and expiry |
| Shiprocket.CachedTokenNeedsNoLogin | orders/shiprocket.py:35-36 | while a truthy token has not expired the login answer is irrelevant and the cache is unchanged |
| Shiprocket.RefreshSetsExpiry | orders/shiprocket.py:39-46 | a refresh sets the expiry nine minutes ahead and yields a token exactly when the login body carries a truthy one; a failed login changes nothing |
| Shiprocket.TokenReusedWithinTtl | orders/shiprocket.py:35-44 | a token obtained now is reused, with no login, at any later time before its expiry |
| Shiprocket.SecondFetchHitsCache | orders/shiprocket.py:35-36 | a second fetch at the same time after a successful one returns the cached token |
| Shiprocket.ReturnTokenExpiringBetweenFetches | orders/shiprocket.py:32-47 | when the token of a return's first fetch has expired by its AWB call and that login fails, a return answer that named only a shipment gets no AWB |
| Shiprocket.QueryFor | orders/shiprocket.py:211-238 | the rate query uses the given weight, else the default unit weight times at least one unit; the given dimensions, else the defaults; the COD flag, both postcodes and the declared value |
| Shiprocket.RateField | orders/shiprocket.py:249-252 | a company's rate is its "rate" unless null, then a truthy "freight_charge", else "total_amount" |
| Shiprocket.Rates | orders/shiprocket.py:247-257 | reading the rates fails exactly when some company is not an object; otherwise each company contributes at most one rate |
| Shiprocket.AddRate | orders/shiprocket.py:248-255 | a company that is not an object fails the reading; otherwise at most its one rate is appended to those before |
| Shiprocket.CollectRates | orders/shiprocket.py:247-257 | the loop collects exactly the rates the specification reads from the companies |
| Shiprocket.NoneStaysNone | orders/shiprocket.py:247-257 | once reading rates has failed on a prefix of the companies it fails for all of them |
| Shiprocket.MinRate | orders/shiprocket.py:260 | the minimum is one of the rates and no rate is smaller |
| Shiprocket.EstimateFrom | orders/shiprocket.py:241-260 | an estimate exists exactly when the answer lists companies with readable, non-empty rates, and then it is the cheapest of them; no answer gives no estimate |
| Shiprocket.ZeroRateIsKept | orders/shiprocket.py:249-255 | a zero "rate" is kept as a rate, while a zero "freight_charge" falls through to "total_amount" |
| Shiprocket.EstimateOutcome | orders/shiprocket.py:208-263 | no estimate when disabled, without pickup or drop postcode, or without a token; otherwise the cheapest rate of the answer to the query |
| Shiprocket.EstimateShipping | orders/shiprocket.py:195-263 | returns EstimateOutcome and touches the token cache only when an estimate is attempted |
| Shiprocket.FallbackSkuNamesProduct | orders/shiprocket.py:56 | an item without a variant is sent with SKU "SKU-" followed by its product id |
| Shiprocket.ShipItems | orders/shiprocket.py:50-65 | one carrier item per order item, in order |
| Shiprocket.FormatItems | orders/shiprocket.py:50-65 | the loop builds exactly the carrier items of the specification |
| Shiprocket.ShipItemsSnoc | orders/shiprocket.py:51-64 | one more order item appends its own carrier item |
| Shiprocket.LineTotalsOf | orders/shiprocket.py:70-71 | the stored line total of each item, in order |
| Shiprocket.OrderSubtotal | orders/shiprocket.py:68-72 | the subtotal sent is the sum of the items' stored line totals |
| Shiprocket.ParcelLines | orders/shiprocket.py:97-117 | the parcel is measured from each item's product, variant and quantity |
| Shiprocket.CustomerName | orders/shiprocket.py:132 | the shipping name, else the user's full name, else the username |
| Shiprocket.CountryOrIndia | orders/shiprocket.py:138 | the billing country is never empty |
| Shiprocket.PaymentLabel | orders/shiprocket.py:124 | "Prepaid" exactly for Razorpay orders and "COD" for all others |
| Shiprocket.ShipmentPayload | orders/shiprocket.py:127-152 | the channel id is dropped exactly when unset; the payment label, country, order number, items, subtotal and parcel box are as computed |
| Shiprocket.ShipmentIdFrom | orders/shiprocket.py:158-161 | a shipment id is found only in an answer and is always truthy |
| Shiprocket.AwbFrom | orders/shiprocket.py:188-189 | an AWB read from an answer is never empty |
| Shiprocket.Assigned | orders/shiprocket.py:177-192 | without a token no AWB is assigned; with one, the AWB is what the answer carries |
| Shiprocket.AssignAwb | orders/shiprocket.py:177-192 | fetches a token, then returns the AWB the assignment answer carries |
| Shiprocket.Tracked | orders/shiprocket.py:165-168 | an AWB is stored as the tracking number with provider Shiprocket; without one the order is untouched |
| Shiprocket.CreateShipment | orders/shiprocket.py:75-174 | disabled: nothing; already tracked: the existing number with no call; otherwise no AWB without a token or shipment id, else the AWB assigned under the second token fetch, at its own instant and login answer, which is then saved on the order |
| Shiprocket.ReturnPayload | orders/shiprocket.py:293-360 | the return is "RET-" plus the order number, picked up from the customer and delivered to the pickup location (or "Warehouse") in India, with the order's items and parcel box |
| Shiprocket.ReturnGoesToPickupLocation | orders/shiprocket.py:346 | with the carrier enabled the return goes to the configured pickup location |
| Shiprocket.CreateReturn | orders/shiprocket.py:286-375 | disabled: nothing; otherwise the AWB the return answer carries, else one assigned for its shipment id under the second token fetch at its own instant and login answer; the result is `ReturnOutcome`'s; a returned AWB is never empty |
| Shiprocket.ReturnOutcome | orders/shiprocket.py:286-375 | disabled: no AWB and the cache untouched; an AWB is non-empty and needs the first fetch to have a token, and one not read from the return answer needs the second fetch to have one too |
| StoreContext.CartCount | core/context_processors.py:6-16 | the badge counts the units of a member's database cart when they have one, otherwise the units of the session cart as it reads back, and 0 when anything raises |
| StoreContext.CartCountBounds | core/context_processors.py:11-14 | the count is never negative, and for a visitor it is at least the number of session lines that read back, since each counts at least one unit |
| StoreContext.Build | core/context_processors.py:5-37 | every context entry is the setting when defined and the source's default otherwise (the currency default spelled exactly as the source spells it); the GST rate is parsed as a decimal and the processor fails when it is not one; categories fall back to none when their query fails |
| StoreContext.DefaultGstRate | core/context_processors.py:28 | without a configured rate the context's GST rate is exactly 0.18 |
| StoreContext.ParseDefaultRate | reyhardy/settings.py:11 | the text "0.18" reads as the decimal 18 hundredths |
| Parcel.UnitWeight | cart/views.py:96-102 | a unit weighs the variant's weight when it has a non-zero one, else the product's when non-zero, else the configured default (0.5 kg) |
| Parcel.ParcelOf | cart/views.py:91-115 | the parcel is never smaller than the default box, and weighs nothing negative when no line has a negative weight or quantity |
| Parcel.Measure | cart/views.py:91-115 | the loop over the cart lines computes exactly `ParcelOf`: summed weight and the running maxima of the dimensions, starting from the default box |
| Parcel.Weights | cart/views.py:103 | each line contributes its unit weight times its quantity |
| Parcel.WeightIsSum | cart/views.py:103 | the parcel's weight is the sum of the lines' weights |
| Parcel.DimensionsAreMaxima | cart/views.py:92-115 | each dimension is at least the default and at least every line's non-zero dimension (variant's, else product's), and is the default or one of those dimensions |
| Parcel.EmptyParcel | cart/views.py:91-94 | an empty cart is a weightless parcel of the default size |
| Parcel.ZeroWeightFallsBack | cart/views.py:97 | a variant weight of zero is falsy and counts as no weight: the product's weight or the default is used |
| Text.Trim | accounts/views.py:54 | Python's `str.strip()` or JavaScript's `trim()`, each with its own runtime's whitespace (Python's `str.isspace` characters, including U+001C-U+001F and U+0085; JavaScript's WhiteSpace and LineTerminator characters, including U+FEFF; both with U+00A0 and the Unicode space separators): the result is the input less its whole leading and trailing runs of such whitespace, so it neither starts nor ends with whitespace and is empty exactly when the input is blank |
| Text.Lower | core/views.py:10 | `str.lower()` on ASCII letters: same length, A-Z lower-cased and every other character kept |
| Text.ParseIntOfIntToString | cart/views.py:486 | `int(str(i)) == i` for every integer, so an id written into a form token reads back as itself |
| Json.Get | orders/shiprocket.py:158 | `dict.get(key)`: a non-null result is a field stored under that key, and a missing key gives `None` |
| Json.GetOrEmpty | orders/shiprocket.py:243 | `(x or {}).get(key)`: a falsy value reads as an empty object, an object is read by key, and anything else (a list or a string) fails like the source's attribute error |
| Json.TopOrNested | orders/shiprocket.py:158 | `data.get(k) or (data.get("data") or {}).get(k)`: a truthy top-level field wins over the nested one |
| Json.DecimalOf | orders/shiprocket.py:255 | `Decimal(str(rate))` of a JSON value: numbers convert exactly, strings are parsed, anything else fails |
| Json.RemoveNulls | orders/shiprocket.py:152 | the payload keeps exactly the pairs whose value is not `None`, in order |
| Json.RemoveNullsKeepsGet | orders/shiprocket.py:152 | dropping the nulls changes no lookup result |
| Forms.IntParam | cart/views.py:222 | `int(request.POST.get(key, default))`: the default when the key is absent, otherwise the parse of the posted text, which may fail |
| Theme.Toggled | static/js/theme.js:151 | toggling gives "light" exactly from "dark", and "dark" from anything else |
| Theme.ToggledTwice | static/js/theme.js:151 | toggling a light or dark theme twice restores it |
| Theme.IconFor | static/js/theme.js:143-146 | the sun icon shows on the dark theme and the moon on every other |
| Theme.ThemePage.constructor | static/js/theme.js:128-147 | a fresh page keeps the stored theme, sets no theme attribute and enables both stylesheets |
| Theme.ThemePage.CurrentTheme | static/js/theme.js:148-150 | the stored theme, or "light" when none is stored or storage fails |
| Theme.ThemePage.ApplyTheme | static/js/theme.js:128-147 | stores the theme when storage works, sets the attribute, disables the stylesheet that does not match, and shows the matching icon on every toggle |
| Theme.ThemePage.Init | static/js/theme.js:154-155 | on load the page shows the current theme without changing it |
| Theme.ThemePage.ToggleTheme | static/js/theme.js:151 | a click shows the toggled current theme and stores it; without storage every click shows "dark" |
| Theme.ThemePage.ShownTheme | static/js/theme.js:132 | the theme the attribute shows |
| Theme.ThemePage.ToggleShownTheme | static/js/theme.js:132-151 | toggling from the shown theme flips it, and keeps storage in step when it works |
| Theme.TwoTogglesWithoutStorage | static/js/theme.js:149-151 | when storage fails two clicks still show "dark", as the toggle reads the stored theme |
| Theme.TwoShownToggles | static/js/theme.js:132-151 | toggling from the shown theme would instead come back to "light", whether or not storage works |
| Theme.CsrfIndex | static/js/theme.js:244-248 | the first cookie part starting with "csrftoken=" after trimming, or the end when none does |
| Theme.CsrfIndexAt | static/js/theme.js:245-248 | the scan stops at the first matching part |
| Theme.GetCsrfToken | static/js/theme.js:242-252 | the value of the first "csrftoken=" cookie, else the hidden form field, else empty |
| Basics.FindFirst | static/js/theme.js:245-248 | the scan returns the index of the first element that matches, or none when no element does |
| Theme.CsrfLeading | static/js/theme.js:243-247 | a cookie string starting with the token yields that token |
| Theme.CsrfFirstPiece | static/js/theme.js:244 | the first part of such a cookie string is the token entry |
| Theme.CsrfHeadTrimmed | static/js/theme.js:246-247 | trimming keeps a token entry whole and the value follows the name |
| Theme.QuantityAfterInput | static/js/theme.js:216-217 | the field is reset to "1" or left as typed |
| Theme.QuantityAtLeastOne | static/js/theme.js:216-217 | after the handler the field reads as at least one |
| Theme.QuantityIdempotent | static/js/theme.js:216-217 | running the handler again changes nothing |
| Theme.EmptyQuantityKept | static/js/theme.js:216 | an empty field reads as 1 and is left empty |
| Theme.OneParses | static/js/theme.js:216 | "1" parses to one |
| Theme.LensSize | static/js/theme.js:321 | the lens side is a quarter of the image width, kept between 120 and 220 pixels |
| Theme.LensSizeMonotone | static/js/theme.js:321 | a wider image never gets a smaller lens |
| Theme.NextZoom | static/js/theme.js:361-362 | scrolling up zooms in by 0.2 and down zooms out by 0.2, clamped to 1.5..4 |
| Theme.NextZoomDirection | static/js/theme.js:361-362 | scrolling up never zooms out and scrolling down never zooms in |
| Theme.Magnifier.constructor | static/js/theme.js:325 | the magnifier starts at zoom 2 |
| Theme.Magnifier.Wheel | static/js/theme.js:359-364 | a wheel event moves the zoom as NextZoom says and keeps it within its bounds |
| Accounts.ClearThenSet | accounts/views.py:204-210 | clearing the user's defaults and then marking one of their rows leaves that row their only default, keeping one default per user |
| Accounts.ReplaceKeepsDefaults | accounts/views.py:172-190 | rewriting a row without changing its owner or default flag keeps one default per user |
| Accounts.FirstPerProductGrows | accounts/views.py:98-100 | one more item is picked exactly when its product has not been picked yet |
| Accounts.NoFirstOfUnpicked | accounts/views.py:98-100 | a product that was never picked does not occur among the items |
| Accounts.PickedAreFirsts | accounts/views.py:98-100 | every pick is the first item of its product |
| Accounts.PickedIsFirst | accounts/views.py:98-100 | the k-th pick is the first item of its product among the items |
| Accounts.PickedInOrder | accounts/views.py:96-100 | picks come in the order of their products' first occurrences |
| Accounts.EndSessionsMeaning | accounts/views.py:219-225 | the sessions kept are exactly those not signed in as the user |
| CartViews.VariantTokenOfId | cart/views.py:486 | a non-zero variant id written out reads back as that variant |
| CartViews.ParsePickOfSv | cart/views.py:483-486 | a session selection "sv:p:v" reads as product p and variant v when both parse, and is skipped otherwise |
| CartViews.SvRoundTrip | cart/views.py:483-484 | "sv:p:v" starts with "sv:", not "db:", and splits back into p and v |
| CartViews.PicksSnoc | cart/views.py:478-495 | one more selection token extends the picks by exactly that token's outcome |
| SessionCart.RemoveNothing | cart/utils.py:61-66 | removing a line that is not in the cart leaves the cart as it was |
| SessionCart.FirstMatch | cart/utils.py:61-66 | in a cart without duplicate keys, the matching line is found at its position |
| SessionCart.SessionLineTotals | cart/utils.py:74-91 | the line total of each session item, in order |
| SessionCart.Quantities | cart/utils.py:89-90 | the quantity of each session item, in order |
| CoreViews.AppendKeepsTableValid | core/views.py:8-22 | adding a new normalised address keeps the subscriber table free of duplicates |
| StoreContext.UnsignedDefaultRate | reyhardy/settings.py:11 | the default GST text "0.18" reads as 18 hundredths |
| OrderViews.PurchaseLines | cart/views.py:91-115 | the parcel lines of the purchases, one per purchase |
| OrderViews.CacheAfter | orders/shiprocket.py:32-47 | the token cache moves only when the carrier is asked for a quote |
| Json.Or | orders/shiprocket.py:158 | Python's "a or b": a when truthy, otherwise b |
| Json.StrOf | payments/views.py:53-56 | the text of a truthy value is never empty, and a string is its own text |
| DashboardCharts.HexToRgba | static/js/dashboard_charts.js:14-20 | `hexToRgba` gives text framed by "rgba(" and ")" whose ", "-separated parts read back as the colour's red, green and blue bytes and the alpha |
| Users.FullName | orders/shiprocket.py:132 | `get_full_name()` is "first last" less its leading and trailing whitespace, so it never starts or ends with whitespace; it is empty exactly when both names are blank, which is exactly when the callers fall back to the username |
| Money.RoundHalfEvenUnique | cart/views.py:72 | the half-even result is the only integer within half a unit of the quotient that breaks ties to even |
| Money.RoundHalfEvenExact | cart/views.py:72 | an exact multiple rounds to its quotient |
| Money.RoundHalfEvenNonNegative | cart/views.py:72 | a non-negative amount never rounds below zero |
| Money.RoundHalfEvenMonotone | cart/views.py:72 | half-even rounding never reverses the order of two amounts |
| Money.QuantizePaiseExact | cart/views.py:129 | quantizing an amount already in paise leaves it unchanged |
| Money.QuantizeIntExact | cart/views.py:129 | quantizing a whole number of rupees gives a hundred paise each |
| Money.DecToString | orders/shiprocket.py:255 | the text of a decimal is never empty |
| Money.ParseDecimal | orders/shiprocket.py:255 | a decimal is read only from text that is not blank |
| Money.DecDigitsValue | orders/shiprocket.py:255 | the digits written for a decimal are the digits of its magnitude |
| Money.PadLeftDigits | orders/shiprocket.py:255 | padding digits with leading zeros keeps their value |
| Money.ParseUnsignedJoined | orders/shiprocket.py:255 | digits, a point and digits read as one number with as many decimal places as follow the point |
| Sorting.Insert | catalog/views.py:112-113 | inserting into a sorted list adds exactly the one element |
| Sorting.Sort | catalog/views.py:112-113 | sorting is a permutation |
| Sorting.InsertSorted | catalog/views.py:112-113 | inserting into a sorted list under a total, transitive order keeps it sorted |
| Sorting.SortSorted | catalog/views.py:112-113 | the result is sorted under any total, transitive order |
| Sorting.InsertDistinct | catalog/views.py:112-113 | inserting a new element keeps a list free of duplicates |
| Sorting.SortDistinct | catalog/views.py:112-113 | sorting a duplicate-free list keeps it duplicate-free |
| Sorting.Dedupe | catalog/views.py:110-112 | the set of values: distinct, holding exactly the values of the input |
| Sorting.StrLessIrreflexive | catalog/views.py:112-113 | no text sorts before itself |
| Sorting.StrLessTrichotomy | catalog/views.py:112-113 | of two different texts exactly one sorts first |
| Sorting.StrLessTransitive | catalog/views.py:112-113 | text order is transitive |
| Text.TrimEmptyIsBlank | accounts/views.py:54 | a strip leaves nothing exactly when the text is all whitespace |
| Text.TrimLeft | accounts/views.py:54 | removes exactly the leading whitespace, as the runtime (Python or JavaScript) defines it |
| Text.TrimRight | accounts/views.py:54 | removes exactly the trailing whitespace, as the runtime (Python or JavaScript) defines it |
| Text.IndexOf | orders/shiprocket.py:255 | the first position of the character, or none exactly when it does not occur |
| Text.NatToString | cart/views.py:486 | the decimal rendering of a number is a non-empty string of digits |
| Text.DigitsValueOfNatToString | cart/views.py:486 | the decimal rendering of a number reads back as that number |
| Text.ParseInt | cart/views.py:486 | an integer is read only from text that is not blank |
| Basics.LookupBy | cart/views.py:64 | a lookup finds a row exactly when one row matches, and reports none exactly when no row matches |
| Basics.FindOne | payments/views.py:25 | the position of the single matching row, none exactly when no row matches, and an error when two do |
| Basics.FirstWhere | accounts/views.py:92-110 | the first matching position, or none exactly when no row matches |
| Basics.Filter | catalog/views.py:124-150 | a filter keeps only rows of the input that match |
| Basics.FilterComplete | catalog/views.py:124-150 | a filter keeps every matching row |

## Left out

- `order_track` (orders/views.py:371-376) is not modelled: for an order with a tracking number it calls `track_awb`, which orders/views.py never imports, so the view fails with a name error there and otherwise only renders. `track_awb` itself (orders/shiprocket.py:266-283) is only an HTTP read and is left out with it.
- `order_list`, `order_detail`, `order_support` and `order_invoice` (orders/views.py:335-369) only render templates and are not modelled.
- Floating-point values are not modelled:
  - the analytics revenue, net sales, COGS and profit series (dashboard/views.py:105-115) and the CSV export;
  - the float weights and prices in carrier payloads, which the model keeps as exact grams and paise;
  - the magnifier's lens position.
- The magnifier zoom is a Dafny `real`, so JavaScript's binary rounding of repeated 0.2 steps is not modelled.
- JsText.ParseIntJs: the result is the exact integer, where JavaScript's `parseInt` returns the nearest double. A digit run worth 2^53 or more (sixteen or more decimal digits, fourteen or more hex digits) is rounded by JavaScript and not by the model. `DashboardCharts.Channels` and `DashboardCharts.HexToRgba` inherit this: for a colour field holding fourteen or more hex digits, the channels the browser shows can differ from the model's. The theme script's quantity fields are read the same way, so a typed quantity of sixteen or more digits is rounded by the browser and not by the model.
- Network, SDK and clock calls are parameters and are not modelled: the Shiprocket HTTP endpoints, the Razorpay client, `time.time` and `timezone.now`. Only their answers enter the model. An HTTP error or exception inside the carrier client is modelled as an absent answer. An exception from the Razorpay SDK is an answer too: `Payments.Gateway` carries either the created order's id or the name of the exception, which `OrderViews.Placement` returns as the server error.
- The `post_save` handler's shipment call is a parameter `awb` of `Payments.RazorpayCallback`, `Payments.RazorpayWebhook` and `DashboardOrders.UpdateOrderStatus`: the AWB that `Shiprocket.CreateShipment` returns for the saved order. The token cache that call reads and refreshes is not threaded through these three views.
- Random and uuid order numbers (`_generate_order_number`, dashboard/views.py:529) are parameters.
- Seeding commands, SMTP and the e-mail backend, broadcast notifications, migrations, URL and admin registrations, `dashboard/forms.py`, and the DOM-only scripts are not part of this model. The DOM-only scripts are `list_ajax.js`, `password_toggle.js`, `product_formsets.js` and `dashboard.js`.
- `users_ajax.js` is not modelled separately: its `getCookie` (static/js/users_ajax.js:3-7) is the same code as `OrdersAjax.GetCookie`.
- Transactions, `get_or_create` races and concurrent requests are not modelled. Each view is one sequential step.
- When a view raises an uncaught exception (a server error), Django does not save the session, so the model returns the error with the session unchanged. Database rows written before the error stay, as there is no transaction: a checkout that merged the session cart and then failed merges it again on a retry (`OrderViews.RetryMergesAgain`). An `Http404` is a response below 500, so a modified session is still saved and the model keeps the change, as `CartViews.UpdateSessionLine` does.
- `checkout_selected` stores a selection in the session, but `checkout` never reads that key. The model records the selection, and checkout ignores it as the code does.
- `ProductImage` declares no colour field, so in the code the colour-matched thumbnail never fires and the first image is used. The model keeps the colour-matching algorithm with a colour field. `DashboardOrders.UntaggedImagesGiveFirst` states what happens when no image carries a colour.
- CatalogViews.NearestColor: the average colour of the 64 x 64 upload is compared with the palette in exact rational arithmetic (catalog/views.py:135-138 divides in floating point), so on a near tie between two swatches the model may pick a different swatch than the code. Decoding and resizing the image is not modelled: the summed pixel values are a parameter.
- Text.Lower: `str.lower()` is modelled on ASCII only; A-Z are lower-cased and every other character is kept. Python also lower-cases non-ASCII capitals (É, Σ) and may change the length (İ). Two consumers see the difference. One is the newsletter address (`CoreViews.NormalizedEmail`, core/views.py:10). The other is the dashboard's colour matching (`DashboardOrders.ColorKey`, dashboard/views.py:220-243). The database's case-insensitive lookups are modelled the same way: the search's `icontains` (`CatalogViews.IContains`) and the coupon's `code__iexact` (`Coupons.FindByCode`). That is exact on the default SQLite database, whose case folding is ASCII-only, but not on PostgreSQL, which folds every letter. The `bn` switch of checkout is unaffected, as no non-ASCII capital lower-cases to a letter of "0", "false" or "cart".
- CoreViews.NormalizedEmailIsNormalized: "lower-cased" means `Text.Lower`, so an address with non-ASCII capitals is stored as typed, where the code would store it lower-cased.
- `CatalogViews.IsDeal` uses the exact discount ratio. The database annotates it as a `DecimalField(5, 2)`, and that rounding is not modelled.
- `Money.ParseDecimal` reads plain decimal text after stripping surrounding Python whitespace, as `Decimal()` does. Exponents, NaN, infinities and underscores are read as unparsable, so such a rate is skipped. Its own contract only says that blank text never parses; what it reads is pinned down by `Money.ParseDecimalOfDecToString`.
- `Text.ParseInt`: its contract only says that blank text never parses. Python's `int()` also accepts underscores and non-ASCII digits, and the model does not. What it reads is pinned down by `Text.ParseIntOfIntToString`.
- `Money.DecToString`: its contract only says the text is non-empty. Its meaning is the round trip through `Money.ParseDecimal`.
- `DashboardOrders.StaffOrderTotals` covers both `create_order` (dashboard/views.py:522-564) and `edit_order`. Creating a staff order with its random number and form validation is not modelled.
- Razorpay keys and the other settings are constants or parameters. The settings module itself is not modelled.
