# Cuzdoor cart, pricing, coupon and checkout — a Dafny model

Cuzdoor is a campus food-ordering web front end that exists in two variants.
This project models the part of each that decides money and orders.

- **Restaurant-browsing variant** (`cuzdoor.jsx`). The plate is an ordered list of lines.
  - `RestaurantDetail.addToCart` adds a dish.
  - The `CartSidebar` quantity stepper (`updateQuantity`) bumps a line and drops lines that reach zero.
  - The sidebar derives the subtotal, the 20% discount of coupon `CUZDOOR20` (in any letter case) and the total. The app derives the badge count.
  - `handleCheckout` refuses an empty plate or a bad form with one message, chosen in a fixed order. Otherwise it builds the order summary and clears the plate, the coupon and the form.
  - `formatIndianPhoneNumber` groups up to ten digits five and five.
- **Hostel-delivery variant** (`my-cuzdoor-app/src/App.jsx`). The cart is a dictionary from item id to count.
  - `addToCart` and `removeFromCart` step one count. A count that reaches zero deletes its key.
  - `cartItems` joins the cart with the food-item and combo catalog. `cartTotal` sums it. `finalTotal` subtracts a flat coupon amount and never goes below zero.
  - `handleInputChange` ignores a phone value containing a non-digit.
  - `handleCheckout` collects one error message per bad field, or places the order.
  - `filteredFood` selects food items by category and by a case-insensitive search.

Modules:

- `JsText` (`js_text.dfy`): the JavaScript string built-ins the code relies on.
  - `\D` stripping and the `/^\d*$/` test.
  - `trim`.
  - ASCII `toUpperCase`/`toLowerCase`.
  - `includes`, proved equal to "occurs at some offset".
- `Options` (`options.dfy`): `Option` and `Result`.
- `Cuzdoor` (`cuzdoor.dfy`): the plate transforms, sums, coupon rule, phone formatter and checkout decision of the first variant, as functions and lemmas.
- `CuzdoorSession` (`cuzdoor_session.dfy`): class `CartSidebar`. It holds the plate and the sidebar's state fields. Each handler is a method that updates them.
- `AppCatalog` (`app_catalog.dfy`): the static catalog of the second variant, and id lookup.
- `AppCart` (`app_cart.dfy`): the cart dictionary operations, the derived item list and totals, the checkout errors and the food filter of the second variant.
- `AppSession` (`app_session.dfy`): class `CuzdoorApp`. It holds the `App` component's state. Each handler is a method.

Units:

- Prices in the first variant are integer cents, and the discount is an integer percent (20 stands for the source's `0.20`). Totals are exact rationals (`real`).
- Prices in the second variant are whole rupees, as in its catalog, and every amount is an integer.

## Model

| member | source | states |
|---|---|---|
| JsText.DigitsOnly | cuzdoor.jsx:190 | stripping non-digits leaves only digits, never lengthens the text, and leaves a digit string unchanged |
| JsText.DigitsOnlyAppend | cuzdoor.jsx:190 | stripping non-digits distributes over concatenation |
| JsText.DigitsOnlyIdempotent | cuzdoor.jsx:237 | stripping non-digits twice is the same as once |
| JsText.TrimStart | cuzdoor.jsx:260 | the result is a suffix that starts with a non-whitespace character (or is empty), and everything cut off is whitespace |
| JsText.TrimEnd | cuzdoor.jsx:260 | the result is a prefix that ends with a non-whitespace character (or is empty), and everything cut off is whitespace |
| JsText.Trim | cuzdoor.jsx:260 | `trim()` cuts leading and trailing whitespace; its meaning is stated by `TrimStart`, `TrimEnd` and `TrimEmptyIffBlank` |
| JsText.TrimEmptyIffBlank | cuzdoor.jsx:260 | `trim()` is empty exactly when every character is ECMAScript whitespace |
| JsText.BlankAppend | my-cuzdoor-app/src/App.jsx:240-242 | two all-whitespace strings concatenate to an all-whitespace string |
| JsText.ToUpper | cuzdoor.jsx:207 | `toUpperCase` keeps the length; `SameUpperIffSameLower` and `UpperIdempotent` state its meaning |
| JsText.ToLower | my-cuzdoor-app/src/App.jsx:268-269 | `toLowerCase` keeps the length; `SameUpperIffSameLower` and `LowerOfUpper` state its meaning |
| JsText.SameUpperCharIffSameLowerChar | cuzdoor.jsx:207 | two characters agree after upper-casing exactly when they agree after lower-casing |
| JsText.SameUpperIffSameLower | cuzdoor.jsx:207 | two strings agree after `toUpperCase` exactly when they agree after `toLowerCase` |
| JsText.LowerOfUpper | my-cuzdoor-app/src/App.jsx:268-269 | lower-casing an upper-cased string equals lower-casing the original |
| JsText.UpperIdempotent | cuzdoor.jsx:207 | upper-casing twice is the same as once |
| JsText.Includes | my-cuzdoor-app/src/App.jsx:268-269 | `includes`; `IncludesIff` proves it holds exactly when the pattern occurs at some offset |
| JsText.IncludesIff | my-cuzdoor-app/src/App.jsx:268-269 | `includes` holds exactly when the pattern occurs at some offset |
| JsText.IncludesEmpty | my-cuzdoor-app/src/App.jsx:268-269 | every string includes the empty string |
| Cuzdoor.UniqueOnlyAt | cuzdoor.jsx:576-590 | on a plate without duplicate dish ids, each line is the only one for its dish |
| Cuzdoor.Bumped | cuzdoor.jsx:222-223 | mapping the matching line's quantity keeps the plate's length |
| Cuzdoor.KeepPositive | cuzdoor.jsx:224 | the filtered plate has only positive quantities, is no longer, and holds only lines of the input |
| Cuzdoor.KeepPositiveOfPositive | cuzdoor.jsx:224 | the filter leaves a plate of positive lines unchanged |
| Cuzdoor.KeepPositiveAppend | cuzdoor.jsx:224 | the filter distributes over concatenation |
| Cuzdoor.KeepPositiveUnique | cuzdoor.jsx:224 | the filter keeps distinct dish ids distinct |
| Cuzdoor.KeepPositiveSplit | cuzdoor.jsx:224 | filtering positive surroundings around one line keeps them and keeps that line only if positive |
| Cuzdoor.UpdateQuantity | cuzdoor.jsx:220-224 | the stepper: bump the matching line, then drop non-positive lines; `UpdateQuantityAt`, `UpdateQuantityAbsent` and `UpdateQuantityWellFormed` state its meaning |
| Cuzdoor.UpdateQuantityAbsent | cuzdoor.jsx:220-224 | changing the quantity of a dish not on the plate leaves the plate unchanged |
| Cuzdoor.UpdateQuantityOnlyAt | cuzdoor.jsx:220-224 | changing the only line for a dish replaces it with the new quantity in place, or removes it when that is not positive |
| Cuzdoor.UpdateQuantityAt | cuzdoor.jsx:220-224 | on a well-formed plate, the stepper changes exactly the dish's line in place, dropping it at zero or below |
| Cuzdoor.UpdateQuantityWellFormed | cuzdoor.jsx:220-224 | the stepper keeps quantities positive and dish ids unique |
| Cuzdoor.AddToCart | cuzdoor.jsx:575-590 | bump an existing line by one or append a new line of quantity one; `AddToCartWellFormed`, `AddToCartPresent`, `AddToCartTotals` and `AddThenDecrement` state its meaning |
| Cuzdoor.AddToCartWellFormed | cuzdoor.jsx:575-591 | adding keeps the plate well formed, puts the dish on it, and adds a line exactly when the dish was absent |
| Cuzdoor.AddToCartPresent | cuzdoor.jsx:579-582 | adding a dish already on the plate raises that line's quantity by one and changes nothing else |
| Cuzdoor.AddThenDecrementAt | cuzdoor.jsx:575-591 | for a dish already on the plate, adding it and then stepping it down by one restores the plate |
| Cuzdoor.AddThenDecrement | cuzdoor.jsx:220-224 | adding a dish and then stepping it down by one restores any well-formed plate |
| Cuzdoor.LineTotalBump | cuzdoor.jsx:216 | raising a line's quantity by n raises its price×quantity by n×price |
| Cuzdoor.Subtotal | cuzdoor.jsx:216 | the sum of price×quantity; `SubtotalAppend`, `SubtotalNonNegative`, `SumsReplace` and `AddToCartTotals` state its meaning |
| Cuzdoor.ItemCount | cuzdoor.jsx:921 | the sum of quantities (the badge); `ItemCountAppend`, `ItemCountAtLeastLines` and `AddToCartTotals` state its meaning |
| Cuzdoor.SubtotalAppend | cuzdoor.jsx:216 | the subtotal of a concatenation is the sum of the subtotals |
| Cuzdoor.ItemCountAppend | cuzdoor.jsx:921 | the badge count of a concatenation is the sum of the counts |
| Cuzdoor.SubtotalNonNegative | cuzdoor.jsx:216 | with positive quantities the subtotal is not negative |
| Cuzdoor.ItemCountAtLeastLines | cuzdoor.jsx:921 | with positive quantities the badge count is at least the number of lines, and zero exactly for an empty plate |
| Cuzdoor.SubtotalSplit | cuzdoor.jsx:216 | the subtotal splits around one line |
| Cuzdoor.ItemCountSplit | cuzdoor.jsx:921 | the badge count splits around one line |
| Cuzdoor.SumsReplace | cuzdoor.jsx:216 | replacing one line changes the subtotal and the count by that line's difference |
| Cuzdoor.SumsBumpAt | cuzdoor.jsx:580-582 | bumping one line by one adds its price to the subtotal and one to the count |
| Cuzdoor.AddToCartTotalsPresent | cuzdoor.jsx:579-582 | adding a dish already on the plate at its price adds that price and one item |
| Cuzdoor.AddToCartTotals | cuzdoor.jsx:575-591 | adding a dish adds its price to the subtotal and one to the badge count |
| Cuzdoor.DiscountAmount | cuzdoor.jsx:217 | subtotal times the rate; `TotalBounds` states its meaning |
| Cuzdoor.Total | cuzdoor.jsx:218 | subtotal less the discount; `TotalBounds` proves it lies between zero and the subtotal for a rate between 0% and 100% |
| Cuzdoor.TotalBounds | cuzdoor.jsx:216-218 | for a rate between 0% and 100% the total is between zero and the subtotal and equals the subtotal scaled by the remaining percentage |
| Cuzdoor.CouponDiscount | cuzdoor.jsx:206-214 | the coupon rule; `CouponDiscountCaseInsensitive` states its meaning |
| Cuzdoor.CouponDiscountCaseInsensitive | cuzdoor.jsx:206-214 | the rate is 20% exactly when the code lower-cases to "cuzdoor20", else 0, and re-casing the code does not change it |
| Cuzdoor.FirstTenDigits | cuzdoor.jsx:190 | the kept phone digits are digits and at most ten |
| Cuzdoor.FormatIndianPhoneNumber | cuzdoor.jsx:189-199 | the "xxxxx xxxxx" display; `FormatIndianPhoneNumberShape` and `FormatIndianPhoneNumberIdempotent` state its meaning |
| Cuzdoor.FormatIndianPhoneNumberShape | cuzdoor.jsx:189-199 | the formatted number is the first ten digits with one space after the fifth when more than five; it is empty exactly when there is no digit; stripping it gives the digits back |
| Cuzdoor.FormatIndianPhoneNumberIdempotent | cuzdoor.jsx:189-199 | formatting a formatted number changes nothing |
| Cuzdoor.SummaryItems | cuzdoor.jsx:280 | the summary has one item per plate line |
| Cuzdoor.Checkout | cuzdoor.jsx:254-257 | an empty plate is always refused with the empty-plate message |
| Cuzdoor.CheckoutSucceedsIff | cuzdoor.jsx:254-271 | checkout succeeds exactly when the plate is non-empty, ten digits remain of the phone, name and address are not blank, and a payment type is set |
| Cuzdoor.CheckoutErrorOrder | cuzdoor.jsx:259-271 | the reported refusal follows the order phone, then name, then address, then the generic message |
| Cuzdoor.ErrorMessage | cuzdoor.jsx:254-267 | the text shown for each refusal; `CheckoutRefusalMessage` ties it to the checkout outcome |
| Cuzdoor.CheckoutRefusalMessage | cuzdoor.jsx:254-268 | a refused checkout shows the empty-plate text for an empty plate, else the phone, name and address texts in the order of the checks, else the generic text |
| Cuzdoor.CheckoutSummary | cuzdoor.jsx:273-282 | a placed order carries each plate line's name, positive quantity and price in order, the displayed discounted total (between zero and the subtotal), the form's name, address and payment, the phone as "+91 " and exactly the ten digits typed, and the given time stamp |
| CuzdoorSession.CartSidebar.constructor | cuzdoor.jsx:178-186 | the sidebar starts with an empty plate, no coupon, no discount, an empty form and payment "COD" |
| CuzdoorSession.CartSidebar.CartItemCount | cuzdoor.jsx:921 | the badge is at least the number of lines and zero exactly for an empty plate |
| CuzdoorSession.CartSidebar.Total | cuzdoor.jsx:216-218 | the displayed total lies between zero and the subtotal |
| CuzdoorSession.CartSidebar.SetCoupon | cuzdoor.jsx:428 | typing in the coupon box changes only the coupon text |
| CuzdoorSession.CartSidebar.SetDeliveryName | cuzdoor.jsx:183 | typing a name changes only the name |
| CuzdoorSession.CartSidebar.SetDeliveryAddress | cuzdoor.jsx:184 | typing an address changes only the address |
| CuzdoorSession.CartSidebar.HandlePhoneChange | cuzdoor.jsx:201-204 | the input's text is stored as given and nothing else changes |
| CuzdoorSession.CartSidebar.SetPaymentType | cuzdoor.jsx:399-411 | choosing a payment type changes only the payment type |
| CuzdoorSession.CartSidebar.ApplyCoupon | cuzdoor.jsx:206-214 | the discount becomes the coupon rule's rate with the matching message; plate, code and form are unchanged |
| CuzdoorSession.CartSidebar.UpdateQuantity | cuzdoor.jsx:220-234 | the plate becomes the stepped plate, stays well formed, and nothing else changes |
| CuzdoorSession.CartSidebar.AddToCart | cuzdoor.jsx:575-598 | the plate becomes the plate with the dish added, stays well formed, and nothing else changes |
| CuzdoorSession.CartSidebar.HandleCheckout | cuzdoor.jsx:236-305 | the outcome is the checkout decision on the current state; a refusal changes nothing; a success clears plate, coupon, discount, message and form and resets payment to "COD" |
| CuzdoorSession.CartSidebar.Reset | cuzdoor.jsx:289-297 | every sidebar field is back to its initial value |
| CuzdoorSession.CartSidebar.LeaveCart | cuzdoor.jsx:178-186 | leaving the cart tab unmounts the sidebar: coupon, discount, message and form return to their initial values and the plate is kept |
| AppCatalog.FindFood | my-cuzdoor-app/src/App.jsx:199 | a found food item is in the list with the requested id; none is found only when no item has that id |
| AppCatalog.FindCombo | my-cuzdoor-app/src/App.jsx:199 | a found combo is in the list with the requested id; none is found only when no combo has that id |
| AppCatalog.FindFoodFinds | my-cuzdoor-app/src/App.jsx:199 | in a list with ascending ids, every item is found under its own id |
| AppCatalog.FindComboFinds | my-cuzdoor-app/src/App.jsx:199 | in a list with ascending ids, every combo is found under its own id |
| AppCatalog.Lookup | my-cuzdoor-app/src/App.jsx:199 | the food item with the id, else the combo with it; `LookupIff` and `LookupNone` state its meaning |
| AppCatalog.CatalogAscending | my-cuzdoor-app/src/App.jsx:39-127 | food items then combos are in strictly ascending id order and all have names |
| AppCatalog.LookupSound | my-cuzdoor-app/src/App.jsx:199 | what the lookup finds is a catalog entry with the requested id |
| AppCatalog.LookupComplete | my-cuzdoor-app/src/App.jsx:199 | every catalog entry is found under its own id |
| AppCatalog.LookupIff | my-cuzdoor-app/src/App.jsx:199 | the lookup yields a product exactly when it is the catalog entry with that id |
| AppCatalog.LookupNone | my-cuzdoor-app/src/App.jsx:199 | the lookup finds nothing exactly for ids outside the catalog |
| AppCatalog.CategoriesCoverFood | my-cuzdoor-app/src/App.jsx:30-36 | the first category button is "All", and every food item's category has a button of its own |
| AppCart.Added | my-cuzdoor-app/src/App.jsx:210-212 | `addToCart`'s new dictionary; `AddedSpec`, `AddThenRemove` and `AddedCartTotal` state its meaning |
| AppCart.Removed | my-cuzdoor-app/src/App.jsx:214-223 | `removeFromCart`'s new dictionary; `RemovedSpec` and `RemoveThenAdd` state its meaning |
| AppCart.AddedSpec | my-cuzdoor-app/src/App.jsx:210-212 | adding raises the id's count by one, treating a missing key as 0, leaves other keys alone, and keeps counts positive |
| AppCart.RemovedSpec | my-cuzdoor-app/src/App.jsx:214-223 | removing lowers the count by one, deletes the key instead of storing 0, ignores a missing id, leaves other keys alone, and keeps counts positive |
| AppCart.AddThenRemove | my-cuzdoor-app/src/App.jsx:210-223 | adding and then removing an item restores the cart |
| AppCart.RemoveThenAdd | my-cuzdoor-app/src/App.jsx:210-223 | removing an item in the cart and adding it back restores the cart |
| AppCart.CartItemsFrom | my-cuzdoor-app/src/App.jsx:202 | every listed entry has a positive count |
| AppCart.CartItemsFromIff | my-cuzdoor-app/src/App.jsx:197-203 | an entry is listed exactly when its product is one of those walked, has a name, and the cart holds a positive count for it |
| AppCart.CartItems | my-cuzdoor-app/src/App.jsx:197-203 | `cartItems`: the cart joined with the catalog; `CartItemsSpec` states its meaning |
| AppCart.CartItemsFromAscending | my-cuzdoor-app/src/App.jsx:198 | walking products in ascending id order lists entries in ascending id order |
| AppCart.AscendingTail | my-cuzdoor-app/src/App.jsx:198 | the rest of an ascending product list is ascending and has larger ids than its head |
| AppCart.CartItemsSpec | my-cuzdoor-app/src/App.jsx:197-203 | `cartItems` lists exactly the cart ids with a positive count that resolve to a catalog item, with its name, price and count, in ascending id order |
| AppCart.CartTotal | my-cuzdoor-app/src/App.jsx:205 | `cartTotal`, the left fold of price×count; `CartTotalAppend`, `CartTotalNonNegative` and `AddedCartTotal` state its meaning |
| AppCart.CartTotalAppend | my-cuzdoor-app/src/App.jsx:205 | the item total of a concatenation is the sum of the totals |
| AppCart.CartTotalNonNegative | my-cuzdoor-app/src/App.jsx:205 | with positive counts the item total is not negative |
| AppCart.TotalFromCons | my-cuzdoor-app/src/App.jsx:205 | the total over walked products is the first product's share plus the rest |
| AppCart.HeadAmountAdded | my-cuzdoor-app/src/App.jsx:210-212 | adding an id raises that product's share by its price and leaves other shares alone |
| AppCart.TotalFromAdded | my-cuzdoor-app/src/App.jsx:205-212 | adding an id raises the total by the price of the product with that id, or leaves it unchanged if none |
| AppCart.AddedCartTotal | my-cuzdoor-app/src/App.jsx:205-212 | adding a catalog item raises `cartTotal` by its price; adding an unknown id leaves it unchanged |
| AppCart.Discount | my-cuzdoor-app/src/App.jsx:206 | the applied coupon's flat amount, or 0; `FinalTotalBounds` states its meaning |
| AppCart.FinalTotal | my-cuzdoor-app/src/App.jsx:207 | `Math.max(0, cartTotal - discount)`; `FinalTotalBounds` states its meaning |
| AppCart.FinalTotalBounds | my-cuzdoor-app/src/App.jsx:206-207 | the amount due is between zero and the item total; it is the total less the coupon amount when that is not negative, zero otherwise, and the total itself without a coupon |
| AppCart.ErrorsFor | my-cuzdoor-app/src/App.jsx:239-246 | the error object from the four checks; `ErrorsForSpec` states its meaning |
| AppCart.CheckoutErrors | my-cuzdoor-app/src/App.jsx:238-246 | the checks applied to the form; `CheckoutErrorsSpec` and `CheckoutAcceptedIff` state its meaning |
| AppCart.ErrorsForSpec | my-cuzdoor-app/src/App.jsx:239-246 | the error object has a key exactly for each failed check, with that check's message, and is empty exactly when all checks pass |
| AppCart.CheckoutErrorsSpec | my-cuzdoor-app/src/App.jsx:238-246 | a field has an error exactly when it is blank (phone: blank or not 10 long), with the source's message for each case |
| AppCart.CheckoutAcceptedIff | my-cuzdoor-app/src/App.jsx:238-251 | with a digits-only phone, no errors exactly when name and hostel are not blank and the phone has 10 digits |
| AppCart.DigitsNotBlank | my-cuzdoor-app/src/App.jsx:233 | a non-empty digit string is not blank |
| AppCart.MatchesCategory | my-cuzdoor-app/src/App.jsx:265-267 | the category test; `FilteredFoodIff` states it as "All" or the item's own category |
| AppCart.MatchesSearch | my-cuzdoor-app/src/App.jsx:268-269 | the search test; `FilteredFoodIff` and `FilteredFoodCaseInsensitive` state its meaning |
| AppCart.FilterFood | my-cuzdoor-app/src/App.jsx:264-272 | an item is kept exactly when it is in the list and matches category and search; the result is no longer |
| AppCart.FilteredFood | my-cuzdoor-app/src/App.jsx:264-272 | `filteredFood`; `FilteredFoodIff`, `FilteredFoodShowsAll` and `FilteredFoodCaseInsensitive` state its meaning |
| AppCart.FilteredFoodIff | my-cuzdoor-app/src/App.jsx:264-272 | a food item is listed exactly when the category is "All" or its own and the lower-cased query occurs in its lower-cased name or restaurant |
| AppCart.FilterFoodAll | my-cuzdoor-app/src/App.jsx:264-272 | when every item matches, the filter returns the list unchanged |
| AppCart.FilteredFoodShowsAll | my-cuzdoor-app/src/App.jsx:264-272 | with category "All" and an empty search every food item is listed in catalog order |
| AppCart.FilterFoodLowerQuery | my-cuzdoor-app/src/App.jsx:268-269 | upper-casing the query does not change what a list filters to |
| AppCart.FilteredFoodCaseInsensitive | my-cuzdoor-app/src/App.jsx:268-269 | the search ignores the query's letter case |
| AppSession.CuzdoorApp.constructor | my-cuzdoor-app/src/App.jsx:165-185 | the app starts on "home" with an empty cart, category "All", location "Select Location", no coupon, payment "upi", no order, an empty form and no errors |
| AppSession.CuzdoorApp.Items | my-cuzdoor-app/src/App.jsx:197-203 | every listed item has a positive count equal to the cart's count for its id |
| AppSession.CuzdoorApp.Subtotal | my-cuzdoor-app/src/App.jsx:205 | `cartTotal` is not negative and is zero for an empty cart |
| AppSession.CuzdoorApp.AmountDue | my-cuzdoor-app/src/App.jsx:207 | `finalTotal` is between zero and `cartTotal`, and equals it without a coupon |
| AppSession.CuzdoorApp.ShownFood | my-cuzdoor-app/src/App.jsx:264-272 | the listed food items are exactly those matching the current category and search |
| AppSession.CuzdoorApp.AddToCart | my-cuzdoor-app/src/App.jsx:210-212 | the cart becomes the cart with the id added, counts stay positive, nothing else changes |
| AppSession.CuzdoorApp.RemoveFromCart | my-cuzdoor-app/src/App.jsx:214-223 | the cart becomes the cart with the id removed, counts stay positive, nothing else changes |
| AppSession.CuzdoorApp.ApplyCoupon | my-cuzdoor-app/src/App.jsx:412 | the chosen coupon replaces any applied one and nothing else changes |
| AppSession.CuzdoorApp.HandleInputChange | my-cuzdoor-app/src/App.jsx:231-236 | a phone value with a non-digit is ignored; otherwise the field is stored and a non-empty error on it is cleared; the phone stays digits-only |
| AppSession.CuzdoorApp.HandleCheckout | my-cuzdoor-app/src/App.jsx:238-255 | the order is placed exactly when there are no errors; otherwise the errors replace `formErrors`; a placed order sets the location to "hostel, name"; cart, coupon and form are unchanged |
| AppSession.CuzdoorApp.PlaceOrder | my-cuzdoor-app/src/App.jsx:254-255 | the order is marked placed and the location becomes "hostel, name" |
| AppSession.CuzdoorApp.ShowErrors | my-cuzdoor-app/src/App.jsx:248-251 | `formErrors` becomes the collected errors and nothing else changes |
| AppSession.CuzdoorApp.OrderTimerFires | my-cuzdoor-app/src/App.jsx:256-261 | the confirmation closes, the cart empties, the tab returns to "home" and the coupon is dropped |
| AppSession.CuzdoorApp.SetActiveTab | my-cuzdoor-app/src/App.jsx:167 | only the active tab changes |
| AppSession.CuzdoorApp.SetSelectedCategory | my-cuzdoor-app/src/App.jsx:340 | only the category changes |
| AppSession.CuzdoorApp.SetSearchQuery | my-cuzdoor-app/src/App.jsx:329 | only the search text changes |
| AppSession.CuzdoorApp.SetPaymentMethod | my-cuzdoor-app/src/App.jsx:542-547 | only the payment method changes |

## Left out

- Firebase (`cuzdoor.jsx`): authentication, the Firestore cart snapshot listener and the writes of the cart after every change. These are I/O. The model keeps the in-memory plate only.
- Mock data (`cuzdoor.jsx`): the restaurant and menu mock data is generated with `Math.random`. Dishes and restaurants are therefore parameters of the model.
- Floating point (`cuzdoor.jsx`): `0.20` and the subtotal are floating-point numbers. The model uses integer cents and an exact rational total. Rounding and `toFixed(2)` in the summary and the success message are not modelled.
- Cuzdoor.Checkout: the summary's `timestamp` (`new Date().toISOString()`) is a parameter.
- Success message (`cuzdoor.jsx`): the DOM message box and its timers are not modelled. Nor is the text of the success message, which is display only.
- Active tab (`cuzdoor.jsx`): the switch back to the home tab after checkout is not modelled. That tab belongs to `App` rendering.
- Plate ownership (`cuzdoor.jsx`): `App` owns the plate and passes it to `RestaurantDetail` and `CartSidebar`. The model keeps it as a field of `CartSidebar`.
- CuzdoorSession.CartSidebar.AddToCart: the restaurant page adds dishes while the sidebar is unmounted, so the sidebar's own fields are at their initial values when it is shown again. The model keeps them in one object; `LeaveCart` resets them, and nothing forces callers to call it between the two tabs.
- CuzdoorSession.CartSidebar.HandlePhoneChange: the phone input displays `formatIndianPhoneNumber(deliveryPhone)` (at most 12 characters), so what the handler stores is the formatted display after the user's edit. The model lets the stored text be any string; checkout strips non-digits either way.
- Letter case: `toUpperCase`/`toLowerCase` are modelled on ASCII letters only. Unicode case mappings that change a string's length (such as "ß" to "SS") are not modelled.
- Display only (`App.jsx`): theme, logo fallback, animation keys and `openWhatsApp` are not modelled.
- Location input (`App.jsx`): the location editor is not modelled. Only the location set by a placed order is.
- Coupon condition (`App.jsx`): the STUDENT50 description promises "orders above ₹200". The code applies the flat amount whatever the total, and the model follows the code.
- AppSession.CuzdoorApp.HandleInputChange: the `maxLength="10"` attribute of the phone input is enforced by the browser, not by the handler. The model accepts longer digit strings, and checkout then reports them.
- AppSession.CuzdoorApp.OrderTimerFires: the 3-second delay of the reset timer is not modelled. The reset is a separate method the environment calls later.
- AppSession.CuzdoorApp.HandleCheckout: there is no empty-cart check, because the source has none. The "Place Order" button is rendered only when `cartItems` is non-empty.
- AppSession.CuzdoorApp.ApplyCoupon: it requires one of the offered coupons, because the UI passes only elements of the coupon list.
