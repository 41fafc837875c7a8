# Storefront page rules, modelled in Dafny

This project models the business rules inside the pages of a small React
storefront and its admin portal.

- **Cart page.** The cart page loads the server cart and attaches each product's stock to its line.
  - Changing a quantity goes through three guards: an unknown product is ignored, a quantity below 1 removes the line, and a quantity above the stock is refused.
  - After every change the server accepts, the page writes the new list to the local "cart" entry that the header badge reads.
  - The page computes the subtotal, a shipping fee (free above 100, otherwise 20) and the total. It also splits the lines into in-stock and out-of-stock lists.
- **Checkout.** A two-step wizard: a shipping form, then payment.
  - Shipping and tax are 0, so the total is the subtotal.
  - Placing the order empties the local cart entry and goes to the profile's orders tab, but only when the server accepts the order.
- **Product page.**
  - A quantity stepper clamped to [1, stock].
  - "Add to Cart" needs a login token. It posts one cart line, refreshes the local cart entry from the server cart, and returns the added item, or nothing on any failure.
  - "Buy Now" goes to checkout only when an item came back.
- **Profile page.**
  - Order search and status filter.
  - The status label and colour tables.
  - The loads gated by the active tab. A 401 on the user load drops the token.
- **Order page.**
  - Items normalisation: an items field sent as a JSON string is parsed.
  - The admin and owner predicates, and cancel eligibility.
  - The status heading and description, and the total shown.
  - The admin's fee save and the owner's cancellation.
- **Admin orders.**
  - Row mapping: the date is cut to 10 characters, and missing fields get fallbacks.
  - The distinct user ids sent in one batch lookup. The user-name map is built from the answer, a later user overwriting an earlier one.
  - The customer name falls back to the user id.
  - The status label and colour table, and its inverse, the filter table.
  - The search-and-filter, and the total shown.
- **Admin products.**
  - The three-way stock badge.
  - Product search with a category filter, and the distinct category list.
  - The product form: edit fills it, add and update empty it.
- **Avatar.**
  - Initials from the first and the last word of a name.
  - A string hash, computed with JavaScript's 32-bit shift semantics, that picks one of ten palette colours.

Outside inputs of each handler are parameters:

- HTTP outcomes are `Response` values: ok with a body, not ok with a status, or thrown.
- JSON bodies are `Body` values: a value, `null`, or unreadable.
- `JSON.parse` of an items string is a `Parser` function.

What a handler does to the world is recorded in state fields: requests sent, navigations, and writes to the local cart entry. Pages whose handlers update state are classes. Each such method is proved to perform exactly the effect of a pure function, or to leave a stated new state. The properties are lemmas about those functions.

Module layout:

- `Outcomes`: `Option`, `Response` and `Body`.
- `Seqs`: `filter`, `Set` deduplication and `split`.
- `Text`: ASCII case mapping and `includes`.
- `Cart`: cart lines and their subtotal.
- `OrderData`: the `items` field of an order.
- One module per page: `ShoppingCart`, `Checkout`, `ProductDetails`, `UserProfile`, `OrderDetails`, `AdminOrders`, `AdminProducts` and `Avatar`.

## Model

| member | source | states |
|---|---|---|
| Cart.SubtotalIsSum | src/pages/ShoppingCart.tsx:167 | The left-to-right `reduce` of price × quantity equals the plain sum over the lines |
| Cart.SubtotalNonNegative | src/pages/ShoppingCart.tsx:167 | With non-negative prices and quantities the subtotal is non-negative |
| Cart.SubtotalOfPartition | src/pages/ShoppingCart.tsx:167-173 | Splitting the lines by any condition splits the subtotal into the two parts' subtotals |
| Cart.SubtotalAppend | src/pages/ShoppingCart.tsx:167 | The subtotal of a concatenation is the sum of the two subtotals |
| ShoppingCart.Stocked | src/pages/ShoppingCart.tsx:33-48 | Each cart line keeps its place and gets the looked-up stock, or 0 when the lookup was not ok or threw |
| ShoppingCart.FindItem | src/pages/ShoppingCart.tsx:67 | `find` gives None exactly when no line has the product, and otherwise the first line that has it |
| ShoppingCart.SetQuantity | src/pages/ShoppingCart.tsx:98-100 | Lines of the product get the new quantity and keep everything else; other lines are unchanged; the length is kept |
| ShoppingCart.UpdateUnknownProductIsNoop | src/pages/ShoppingCart.tsx:67-68 | Updating a product that is not in the cart changes nothing and sends nothing |
| ShoppingCart.UpdateBelowOneRemoves | src/pages/ShoppingCart.tsx:70-73 | For a product in the cart, a quantity below 1 has exactly the effect of removing it |
| ShoppingCart.UpdateAboveStockRefused | src/pages/ShoppingCart.tsx:75-82 | A quantity above the stock of the product's line is refused: no request, no change |
| ShoppingCart.UpdateAccepted | src/pages/ShoppingCart.tsx:84-104 | An in-range update sends one PUT. When it is ok, each line of the product becomes the same record with the new quantity; other lines, length and order are kept, and the mirror equals the new list. When it fails, list and mirror stay |
| ShoppingCart.RemoveKeepsOthers | src/pages/ShoppingCart.tsx:127-156 | A remove sends one DELETE. When it is ok, the other products' lines remain, every copy of each and in order, no line of the product remains, and the mirror equals them. When it fails, nothing else changes |
| ShoppingCart.AcceptedChangeSyncsMirror | src/pages/ShoppingCart.tsx:96-144 | After every accepted update or remove, the local cart entry equals the list shown |
| ShoppingCart.PlusEnabledIsNeverRefused | src/pages/ShoppingCart.tsx:305-307 | An enabled "+" on a line always sends the PUT with the next quantity |
| ShoppingCart.FailedLookupGetsNoStock | src/pages/ShoppingCart.tsx:39-46 | A line whose product lookup was not ok or threw gets stock 0 |
| ShoppingCart.ZeroStockIsOutOfStock | src/pages/ShoppingCart.tsx:172-173 | A line with stock 0 is in the out-of-stock list and not in the in-stock list |
| ShoppingCart.StockListsPartition | src/pages/ShoppingCart.tsx:172-173 | The two stock lists are disjoint ordered subsequences of the cart that cover every line with stock ≥ 0; their lengths add up when no stock is negative |
| ShoppingCart.ShippingRule | src/pages/ShoppingCart.tsx:167-170 | Shipping is 0 exactly when the subtotal exceeds 100 and 20 otherwise (100 itself pays 20); the total is subtotal plus shipping |
| ShoppingCart.SubtotalSplitsByStock | src/pages/ShoppingCart.tsx:167-173 | The summary charges out-of-stock lines too: the subtotal is the in-stock subtotal plus the out-of-stock subtotal |
| ShoppingCart.CartPage.FetchCart | src/pages/ShoppingCart.tsx:18-59 | Without a token the page goes to /login. Otherwise an ok answer gives the stocked lines of `items` (or none), not ok gives the empty list, and a throw keeps the list |
| ShoppingCart.CartPage.UpdateQuantity | src/pages/ShoppingCart.tsx:66-125 | The page's state after the handler is exactly `UpdateEffect` of the state before |
| ShoppingCart.CartPage.RemoveItem | src/pages/ShoppingCart.tsx:127-165 | The page's state after the handler is exactly `RemoveEffect` of the state before |
| ShoppingCart.AfterFetch | src/pages/ShoppingCart.tsx:30-53 | The list after the cart request, as the page computes it; stated by `FetchCart`, `Stocked` and `FailedLookupGetsNoStock` |
| ShoppingCart.UpdateEffect | src/pages/ShoppingCart.tsx:66-125 | The handler's three guards and the PUT, as the page runs them; stated by `UpdateUnknownProductIsNoop`, `UpdateBelowOneRemoves`, `UpdateAboveStockRefused`, `UpdateAccepted` and `PlusEnabledIsNeverRefused` |
| ShoppingCart.RemoveEffect | src/pages/ShoppingCart.tsx:127-165 | The DELETE and its outcome, as the page runs them; stated by `RemoveKeepsOthers` and `AcceptedChangeSyncsMirror` |
| ShoppingCart.ShippingFee | src/pages/ShoppingCart.tsx:168 | The page's shipping expression; stated by `ShippingRule` |
| ShoppingCart.Total | src/pages/ShoppingCart.tsx:167-170 | The page's total expression; stated by `ShippingRule`, `SubtotalIsSum` and `SubtotalSplitsByStock` |
| ShoppingCart.InStock | src/pages/ShoppingCart.tsx:172 | The page's in-stock filter; stated by `StockListsPartition` and `ZeroStockIsOutOfStock` |
| ShoppingCart.OutOfStock | src/pages/ShoppingCart.tsx:173 | The page's out-of-stock filter; stated by `StockListsPartition` and `ZeroStockIsOutOfStock` |
| ShoppingCart.PlusDisabled | src/pages/ShoppingCart.tsx:307 | The "+" button's disabled condition; stated by `PlusEnabledIsNeverRefused` |
| Checkout.WithField | src/pages/Checkout.tsx:141-212 | Editing one shipping input sets that field and leaves every other field, and the country, unchanged |
| Checkout.TotalIsSumOfLines | src/pages/Checkout.tsx:52-55 | The total equals the subtotal, which is the sum of price × quantity, because shipping and tax are 0 |
| Checkout.MissingItemsGiveEmptyCart | src/pages/Checkout.tsx:38-40 | An ok cart answer without `items` gives an empty cart |
| Checkout.CheckoutPage.constructor | src/pages/Checkout.tsx:15-27 | The wizard starts on step 1 with empty fields and the country "United States" |
| Checkout.CheckoutPage.LoadCart | src/pages/Checkout.tsx:29-50 | The cart is replaced only by an ok answer; a failure or a throw keeps it |
| Checkout.CheckoutPage.ContinueToPayment | src/pages/Checkout.tsx:57-59 | Continuing sets step 2 and keeps step ∈ {1, 2} and the country |
| Checkout.CheckoutPage.BackToShipping | src/pages/Checkout.tsx:285 | Going back sets step 1 and changes nothing else |
| Checkout.CheckoutPage.EditField | src/pages/Checkout.tsx:141-212 | An edit changes the shipping information only as `WithField` says |
| Checkout.CheckoutPage.PlaceOrder | src/pages/Checkout.tsx:61-85 | The order posts the shipping information. Only an ok answer empties the local cart entry and goes to /profile with the orders tab; otherwise neither happens |
| Checkout.AfterFetch | src/pages/Checkout.tsx:29-50 | The cart after the cart request, as the page computes it; stated by `LoadCart` and `MissingItemsGiveEmptyCart` |
| Checkout.OrderTotal | src/pages/Checkout.tsx:52-55 | The page's total expression; stated by `TotalIsSumOfLines` |
| ProductDetails.StepperStaysInRange | src/pages/ProductDetails.tsx:190-202 | "−" never goes below 1 and lowers by one when enabled; an enabled "+" raises by one and stays within the stock |
| ProductDetails.PlusDisabledAtStock | src/pages/ProductDetails.tsx:202 | For an in-stock product with quantity in [1, stock], "+" is disabled exactly at the stock |
| ProductDetails.NoTokenSendsNothing | src/pages/ProductDetails.tsx:48-52 | Without a token, add-to-cart goes to /login, posts nothing, writes nothing and returns nothing |
| ProductDetails.AddedOnlyOnSuccess | src/pages/ProductDetails.tsx:46-106 | An item comes back exactly when there is a token, the post is ok with a non-null body, and the cart refresh did not throw. A failed post changes nothing but the request log |
| ProductDetails.BuyNowNeedsAddedItem | src/pages/ProductDetails.tsx:112-117 | "Buy Now" navigates to /checkout exactly when an item came back; the add itself does not navigate |
| ProductDetails.ProductPage.constructor | src/pages/ProductDetails.tsx:16-19 | The quantity starts at 1 |
| ProductDetails.ProductPage.FetchProduct | src/pages/ProductDetails.tsx:21-44 | An ok answer shows the product; anything else leaves no product |
| ProductDetails.ProductPage.PressMinus | src/pages/ProductDetails.tsx:190-192 | A click on an enabled "−" gives max(1, q − 1); the quantity stays ≥ 1 |
| ProductDetails.ProductPage.PressPlus | src/pages/ProductDetails.tsx:200-202 | A click on an enabled "+" gives min(stock, q + 1), never passing the stock |
| ProductDetails.ProductPage.AddToCartAction | src/pages/ProductDetails.tsx:46-106 | The page performs exactly `AddToCart` with the line built from the product and quantity (placeholder image when the URL is empty) |
| ProductDetails.ProductPage.HandleAddToCart | src/pages/ProductDetails.tsx:108-110 | Offered only in stock; adds and navigates to /cart on success |
| ProductDetails.ProductPage.HandleBuyNow | src/pages/ProductDetails.tsx:112-117 | Offered only in stock; performs exactly `BuyNow` |
| ProductDetails.Decremented | src/pages/ProductDetails.tsx:190 | The "−" button's update; stated by `StepperStaysInRange` and `PressMinus` |
| ProductDetails.Incremented | src/pages/ProductDetails.tsx:200 | The "+" button's update; stated by `StepperStaysInRange` and `PressPlus` |
| ProductDetails.AddToCart | src/pages/ProductDetails.tsx:46-106 | `addToCart` as the page runs it; stated by `NoTokenSendsNothing` and `AddedOnlyOnSuccess` |
| ProductDetails.BuyNow | src/pages/ProductDetails.tsx:112-117 | `handleBuyNow` as the page runs it; stated by `BuyNowNeedsAddedItem` |
| UserProfile.StatusLabels | src/pages/UserProfile.tsx:27-34 | The six statuses have their fixed labels; any other status is shown verbatim |
| UserProfile.StatusColorsDistinct | src/pages/UserProfile.tsx:35-45 | The six statuses get six distinct colours; a status is gray exactly when it is not one of them |
| UserProfile.FilteredOrdersSpec | src/pages/UserProfile.tsx:47-52 | An order is kept iff its id or an item name contains the search (case-insensitively) and the filter is "all" or its status. Every copy of a kept order stays and no copy of another; the result is an ordered subsequence |
| UserProfile.EmptySearchShowsAll | src/pages/UserProfile.tsx:47-52 | An empty search with "all" shows every order |
| UserProfile.StatusFilterSelects | src/pages/UserProfile.tsx:50 | A status filter shows only orders with that status |
| UserProfile.TabGatedLoads | src/pages/UserProfile.tsx:83-142 | Orders are requested exactly on the orders tab and addresses exactly on the addresses tab; off their tab the loads change nothing |
| UserProfile.UnauthorisedDropsToken | src/pages/UserProfile.tsx:54-81 | A 401 removes the token and redirects to the Discord login; no other outcome touches the token; ok sets the user |
| UserProfile.OrdersStayLoadingOffTab | src/pages/UserProfile.tsx:83-115 | Away from the orders tab, `loadingOrders` stays set |
| UserProfile.StatusLabel | src/pages/UserProfile.tsx:27-34 | The label lookup with its fallback; stated by `StatusLabels` |
| UserProfile.StatusColor | src/pages/UserProfile.tsx:35-45 | The colour switch; stated by `StatusColorsDistinct` |
| UserProfile.FilteredOrders | src/pages/UserProfile.tsx:47-52 | The page's order filter; stated by `FilteredOrdersSpec`, `EmptySearchShowsAll` and `StatusFilterSelects` |
| UserProfile.FetchUserEffect | src/pages/UserProfile.tsx:54-81 | `fetchUser`'s outcome; stated by `UnauthorisedDropsToken` |
| UserProfile.FetchOrdersEffect | src/pages/UserProfile.tsx:83-115 | `fetchOrders`' outcome; stated by `TabGatedLoads` and `OrdersStayLoadingOffTab` |
| UserProfile.FetchAddressesEffect | src/pages/UserProfile.tsx:117-142 | `fetchAddresses`' outcome; stated by `TabGatedLoads` |
| OrderData.NormaliseItems | src/pages/OrderDetails.tsx:35-41 | A non-string items field is untouched. A string that parses becomes its parse, and one that does not parse becomes []. A string result only comes from the parse |
| OrderData.ItemsCount | src/pages/admin/AdminOrders.tsx:49 | The count is the list's length for a list and 0 for anything else |
| OrderData.ParsedItemsCount | src/pages/admin/AdminOrders.tsx:38-49 | An items string that parses to a list becomes that list and counts its lines |
| OrderData.UnparsableItemsCountZero | src/pages/admin/AdminOrders.tsx:38-49 | An items string that does not parse counts 0 items |
| OrderDetails.Fetched | src/pages/OrderDetails.tsx:24-53 | An order is shown iff the answer is ok with a non-null body, and then it is the body with its items normalised |
| OrderDetails.FailedLoadShowsNoOrder | src/pages/OrderDetails.tsx:45-50 | A load that is not ok or throws leaves `order` null |
| OrderDetails.Replaced | src/pages/OrderDetails.tsx:245-250 | After a save or cancel, an ok answer with an order shows that order; an ok answer with a null body clears it; an unreadable body, an answer that is not ok, or a throw keeps the order |
| OrderDetails.CancelRules | src/pages/OrderDetails.tsx:104-105 | Cancel is offered only to the order's owner and only in PROCESSING or WAITING_FOR_PAYMENT; never for later statuses nor to an admin who is not the owner |
| OrderDetails.StatusTitle | src/pages/OrderDetails.tsx:147 | The heading has the status's length, its first character upper-cased and the rest lower-cased |
| OrderDetails.StatusTitleIsIdempotent | src/pages/OrderDetails.tsx:147 | The heading of a heading is itself |
| OrderDetails.StatusTitleOnlyChangesCase | src/pages/OrderDetails.tsx:147 | For every status, the heading differs from the status only in case, and has no ASCII capital after its first character |
| OrderDetails.DescriptionFallsBack | src/pages/OrderDetails.tsx:150-154 | The description is "Status updated" exactly for statuses other than PROCESSING, SHIPPED, DELIVERED and PAID |
| OrderDetails.DisplayedTotalFee | src/pages/OrderDetails.tsx:225 | The total shown adds the edited fee for an admin and the order's fee for anyone else |
| OrderDetails.OrderPage.FetchOrder | src/pages/OrderDetails.tsx:24-53 | `order` becomes `Fetched`; on success the editable total and fee start from the order's |
| OrderDetails.OrderPage.FetchUser | src/pages/OrderDetails.tsx:54-67 | An ok answer sets the user; anything else keeps it |
| OrderDetails.OrderPage.EditShippingFee | src/pages/OrderDetails.tsx:210-217 | Only an admin, and not while saving, edits the fee |
| OrderDetails.OrderPage.SaveShippingFee | src/pages/OrderDetails.tsx:227-252 | The save sends only the shipping fee, replaces `order` as `Replaced` says, and always ends with `saving` off |
| OrderDetails.OrderPage.CancelOrder | src/pages/OrderDetails.tsx:258-295 | Offered only when `CanCancel`; requests status CANCELED, replaces `order` as `Replaced` says, and ends with `saving` off |
| OrderDetails.IsAdmin | src/pages/OrderDetails.tsx:104 | The admin test; stated by `CancelRules` and `DisplayedTotalFee` |
| OrderDetails.IsUserOrder | src/pages/OrderDetails.tsx:105 | The owner test; stated by `CancelRules` |
| OrderDetails.CanCancel | src/pages/OrderDetails.tsx:258 | The cancel button's render condition; stated by `CancelRules` |
| OrderDetails.StatusDescription | src/pages/OrderDetails.tsx:150-154 | The description chain; stated by `DescriptionFallsBack` |
| OrderDetails.DisplayedTotal | src/pages/OrderDetails.tsx:225 | The bold total; stated by `DisplayedTotalFee` |
| AdminOrders.DateOf | src/pages/admin/AdminOrders.tsx:45 | The date is the first 10 characters of `createdAt` (all of it when shorter), or "-" when it is absent or empty |
| AdminOrders.AddressOf | src/pages/admin/AdminOrders.tsx:50 | The address falls back to "-" when absent or empty and is otherwise kept |
| AdminOrders.MapOrder | src/pages/admin/AdminOrders.tsx:37-53 | A row keeps id, user, status, total and fee; its items are normalised, counted, dated and addressed as above |
| AdminOrders.MapOrders | src/pages/admin/AdminOrders.tsx:37 | Rows correspond one to one, in order, to the backend orders |
| AdminOrders.UserIdsSpec | src/pages/admin/AdminOrders.tsx:55 | The user ids have no repeats, include every order's user and nothing else, and are empty only for no orders |
| AdminOrders.UserMapLastWins | src/pages/admin/AdminOrders.tsx:68-71 | An id maps to the user name of the last user with that id |
| AdminOrders.UserMapDomain | src/pages/admin/AdminOrders.tsx:68-71 | The map's keys are exactly the batch users' ids |
| AdminOrders.BuildUserMap | src/pages/admin/AdminOrders.tsx:68-71 | The loop that assigns `acc[u.id]` builds exactly `UserMap` |
| AdminOrders.Customer | src/pages/admin/AdminOrders.tsx:77 | The customer is the mapped, non-empty user name when there is one, and otherwise the user id |
| AdminOrders.WithCustomers | src/pages/admin/AdminOrders.tsx:75-78 | Each row keeps its order and gets its customer |
| AdminOrders.LoadFailureShowsNothing | src/pages/admin/AdminOrders.tsx:79-84 | A failed or thrown order request, or a thrown batch request, leaves the table empty |
| AdminOrders.BatchOnlyWhenNeeded | src/pages/admin/AdminOrders.tsx:55-57 | The batch request is sent exactly when some order was loaded, and it names the distinct user ids |
| AdminOrders.LoadedRows | src/pages/admin/AdminOrders.tsx:37-78 | A successful load shows one row per order in order. Customers come from the batch answer; a batch answer that is not ok names every customer by user id |
| AdminOrders.LabelSelectsItsStatus | src/pages/admin/AdminOrders.tsx:93-114 | For every status in the status table, the filter table maps its label back to it |
| AdminOrders.FilterLabelIsStatusLabel | src/pages/admin/AdminOrders.tsx:93-114 | Every filter label but "all" is the label of the status it selects |
| AdminOrders.StatusFallbacks | src/pages/admin/AdminOrders.tsx:101-102 | An unknown status is labelled by itself in gray; a known one has a non-empty label and is never gray |
| AdminOrders.FilteredOrdersSpec | src/pages/admin/AdminOrders.tsx:115-120 | A row is kept iff its id or non-empty customer contains the search (case-insensitively) and the filter is "all" or selects its status. Every copy of a kept row stays and no copy of another; the result is an ordered subsequence |
| AdminOrders.LabelFilterSelectsStatus | src/pages/admin/AdminOrders.tsx:106-120 | Choosing a status's label shows only rows with that status |
| AdminOrders.DisplayedTotalWithoutFee | src/pages/admin/AdminOrders.tsx:212 | A row without a fee shows its bare total |
| AdminOrders.AdminOrdersPage.Load | src/pages/admin/AdminOrders.tsx:24-89 | The rows and the batch-request log become exactly what `Loaded` gives, and loading ends |
| AdminOrders.UserIds | src/pages/admin/AdminOrders.tsx:55 | The batch's user ids; stated by `UserIdsSpec` |
| AdminOrders.UserMap | src/pages/admin/AdminOrders.tsx:68-71 | The user-name map; stated by `UserMapLastWins`, `UserMapDomain` and `BuildUserMap` |
| AdminOrders.Loaded | src/pages/admin/AdminOrders.tsx:24-89 | The load's rows and batch request; stated by `LoadFailureShowsNothing`, `BatchOnlyWhenNeeded` and `LoadedRows` |
| AdminOrders.StatusInfo | src/pages/admin/AdminOrders.tsx:93-100 | The status table; stated by `StatusFallbacks` and `LabelSelectsItsStatus` |
| AdminOrders.FilterStatus | src/pages/admin/AdminOrders.tsx:106-114 | The filter table; stated by `LabelSelectsItsStatus` and `FilterLabelIsStatusLabel` |
| AdminOrders.FilteredOrders | src/pages/admin/AdminOrders.tsx:115-120 | The table filter; stated by `FilteredOrdersSpec` and `LabelFilterSelectsStatus` |
| AdminOrders.DisplayedTotal | src/pages/admin/AdminOrders.tsx:212 | The total shown in a row; stated by `DisplayedTotalWithoutFee` |
| AdminProducts.StockStatusThreeWay | src/pages/admin/AdminProducts.tsx:119-123 | "Out of Stock" exactly at 0, "Low Stock" exactly for other stocks up to 5 (negatives included), "Active" exactly above 5 |
| AdminProducts.StockBadgeNeverGray | src/pages/admin/AdminProducts.tsx:109-123 | The colour of a stock badge is green, yellow or red, never gray |
| AdminProducts.FilteredProductsSpec | src/pages/admin/AdminProducts.tsx:125-130 | A product is kept iff its name or category contains the search (case-insensitively) and the filter is "all" or its category. Every copy of a kept product stays and no copy of another, in order; an empty search with "all" keeps all |
| AdminProducts.CategoriesSpec | src/pages/admin/AdminProducts.tsx:177 | The categories have no repeats, cover every product's category and nothing else, in first-occurrence order |
| AdminProducts.NatToString | src/pages/admin/AdminProducts.tsx:151-152 | `toString` gives at least one digit and no leading zero |
| AdminProducts.IntToStringRoundTrip | src/pages/admin/AdminProducts.tsx:151-152 | Reading back the text of a number gives the number |
| AdminProducts.EditFormRoundTrip | src/pages/admin/AdminProducts.tsx:146-156 | The edit form copies every field and its price and stock read back as the product's |
| AdminProducts.ProductsPage.EditProduct | src/pages/admin/AdminProducts.tsx:146-156 | Edit selects the product and fills the form from it |
| AdminProducts.ProductsPage.AddProduct | src/pages/admin/AdminProducts.tsx:132-144 | Add closes the dialog and empties the form |
| AdminProducts.ProductsPage.UpdateProduct | src/pages/admin/AdminProducts.tsx:158-170 | With a selection, update clears it and empties the form; without one it throws before changing anything |
| AdminProducts.ProductsPage.DeleteProduct | src/pages/admin/AdminProducts.tsx:172-175 | Delete changes no state |
| AdminProducts.StockStatus | src/pages/admin/AdminProducts.tsx:119-123 | The stock badge text; stated by `StockStatusThreeWay` |
| AdminProducts.StatusColor | src/pages/admin/AdminProducts.tsx:109-117 | The badge colour; stated by `StockBadgeNeverGray` |
| AdminProducts.FilteredProducts | src/pages/admin/AdminProducts.tsx:125-130 | The product filter; stated by `FilteredProductsSpec` |
| AdminProducts.Categories | src/pages/admin/AdminProducts.tsx:177 | The category list; stated by `CategoriesSpec` |
| AdminProducts.EditForm | src/pages/admin/AdminProducts.tsx:146-156 | The form "Edit" fills; stated by `EditFormRoundTrip` |
| Avatar.Initials | src/components/ui/avatar.tsx:10-17 | Initials have at most two code units |
| Avatar.NoWordsNoInitials | src/components/ui/avatar.tsx:11-16 | An empty name, and any name that starts and ends with a space (one made of spaces only, say), gives '' |
| Avatar.InitialsOfOneWord | src/components/ui/avatar.tsx:13-15 | A name without spaces gives its first code unit upper-cased |
| Avatar.InitialsOfSeveralWords | src/components/ui/avatar.tsx:12-16 | With spaces, the initials are the first code unit before the first space and the one after the last space, upper-cased |
| Avatar.InitialsIgnoreMiddleWords | src/components/ui/avatar.tsx:16 | Middle words do not change the initials |
| Avatar.ToInt32 | src/components/ui/avatar.tsx:34 | ToInt32 gives the int32 congruent to its argument modulo 2^32 |
| Avatar.JsRem | src/components/ui/avatar.tsx:36 | `%` keeps the dividend's sign and its magnitude is below the divisor |
| Avatar.ColorIndex | src/components/ui/avatar.tsx:36 | The index is \|hash\| mod 10, always a palette position |
| Avatar.HashAppend | src/components/ui/avatar.tsx:33-35 | One more code unit is one more round `hash = code + ((hash << 5) - hash)` |
| Avatar.HashBound | src/components/ui/avatar.tsx:32-35 | \|hash\| ≤ length × (2^31 + 0xFFFF) for every name |
| Avatar.HashIsExactInDoubles | src/components/ui/avatar.tsx:32-35 | For every name of at most 4,194,176 code units the hash stays strictly between -2^53 and 2^53, so the page's double arithmetic on it is exact |
| Avatar.BackgroundColor | src/components/ui/avatar.tsx:19-38 | The loop computes the hash of the whole name, and the colour is the palette entry at its index |
| Avatar.Hash | src/components/ui/avatar.tsx:32-35 | The loop's hash of a name; stated by `HashAppend`, `HashBound`, `HashIsExactInDoubles` and `BackgroundColor` |
| Avatar.ColorOf | src/components/ui/avatar.tsx:36-37 | The palette entry a name selects; stated by `ColorIndex` and `BackgroundColor` |
| Seqs.Dedup | src/pages/admin/AdminOrders.tsx:55 | `Array.from(new Set(…))` keeps exactly the same elements, without repeats |
| Seqs.DedupFirstOccurrenceOrder | src/pages/admin/AdminProducts.tsx:177 | The distinct elements come in first-occurrence order |
| Seqs.JoinSplit | src/components/ui/avatar.tsx:12 | Joining the parts of `split` gives the name back |
| Seqs.SplitSingle | src/components/ui/avatar.tsx:12-13 | `split` gives one part exactly when there is no separator, and then the part is the whole string |
| Text.IncludesAt | src/pages/UserProfile.tsx:48 | `includes` holds exactly when the search occurs at some position |
| Text.MatchIgnoresCase | src/pages/UserProfile.tsx:48 | Matching lower-cased text does not depend on the search's ASCII case |

## Left out

- HTTP, bearer tokens, toasts, `console` logging and `window.dispatchEvent` are left out. Responses are inputs; navigations, requests and local-storage writes are recorded state.
- The parallel `Promise.all` stock lookups of the cart page are left out, and so is any interleaving of concurrent handlers. Each lookup's outcome is an input, and handlers run one at a time.
- `JSON.parse` is a parameter returning an optional value; JSON itself is not modelled.
- Floating point is not modelled: money is `real`, quantities and stock are integers. Left out with it are `toFixed(2)`, `Number(...)` coercion of the edited fee, and the text form of a non-integer price.
- `toLocaleDateString` is left out. Case mapping covers ASCII letters only, so `toLowerCase`/`toUpperCase` of other characters (including ones whose upper case is longer, such as "ß") are not modelled.
- Outside the avatar, strings are Dafny strings: sequences of Unicode scalar values, not the UTF-16 code units that `length`, `slice` and `charAt` count. Positions and lengths therefore differ from the page's only for characters outside the Basic Multilingual Plane, which the backend's ids, statuses and ISO dates do not contain. For example, `AdminOrders.DateOf` keeps 10 scalar values where the page keeps 10 code units. Lone surrogates cannot be represented.
- Avatar.HashBound: the hash is an unbounded integer. The page's double-precision arithmetic agrees with it only while it stays below 2^53 in magnitude, which `HashIsExactInDoubles` guarantees for names of at most 4,194,176 code units; longer names are not modelled.
- AdminOrders.Customer: a user id equal to a built-in object property name (such as "constructor") would find a value in the page's plain-object map; the model's map has no such entries.
- UserProfile.StatusLabels: the same object-property lookup applies to `statusMap`; the model's table holds only the six statuses.
- AdminProducts.EditFormRoundTrip: prices are integers, as in the page's product list, so `toString` of a fractional price is not modelled.
- The mock product and order lists, the admin statistics, and presentational components are not part of this model. So are routing, the admin tab switcher, the login-error and order-confirmation pages, the admin-status hook and the Discord callback page.
- The admin orders page's `handleStatusChange` and `handleUpdateShippingFee` have no behaviour and are not modelled.
- The profile page's address records and user record are kept abstract (address text, user id and name). Their rendering is not modelled.
- Rendering crashes on malformed server data are not modelled. For example, `order.items.length` is read when a profile order has no items.
