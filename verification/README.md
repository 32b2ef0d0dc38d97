# lavelineconcept storefront: cart, session and catalogue state, in Dafny

This project models the state logic of the lavelineconcept storefront, a
React and Redux shop front end. It covers:

- the guest cart, which lives in the browser's local storage under the
  keys `cart` and `isGiftWrap`, and every reducer that changes it;
- the merge that posts the guest cart to the server, one line at a time,
  when a guest logs in (`mergeLocalCart`);
- the cart, checkout, product, catalogue, profile and admin pages'
  handlers, validation schemas and price arithmetic;
- the auth, products, categories, orders and wishlist slices;
- the two route guards.

The Redux slices change their state in place, so each one is a `class`.
Its fields are the slice's state, its constructor is `initialState` and
its methods are the reducer cases. Every method's `ensures` states the
whole new state. The local storage the cart slice writes through to is a
field of `CartSlice.CartStore`. The ghost predicate `Persisted` says that
reloading from storage would give back the current cart, and the local
reducers preserve it. Server answers, the `Date.now()` line id, object URLs
and the response script of the server are parameters.

Pure computations are functions with lemmas about them. These include
product matching, the add, remove and update list operations, the unit
count, shipping and totals, `trim`/`split`, the validation schemas and the
guards. Loops in the source are methods with invariants, each proved equal
to a specification function:

- the merge's request loop (`CartMerge.MergeLocalCart` against
  `CartMerge.MergeSpec`);
- the attribute-defaults loop (`ProductDetails.InitialSelections`);
- the `FormData` loops of the admin form
  (`AdminPage.ImageEditor.SubmitParts`).

Modules follow the source: `Js` holds the JavaScript value semantics the
reducers rely on (`||`, `??`, `?.`, object spread), `Lists` holds
`findIndex`, `filter` and element swap, `JsStrings` holds `trim` and
`split`, and `Entities` holds the `_id` records of the server slices.

Notes on the code as written:

- Shipping is free only strictly above 1500 TL. A subtotal of exactly
  1500 pays 135 TL, although the cart page's notice promises free
  shipping "from 1500 TL upwards" (see Findings). The page models use the
  rule as computed (`Pricing.ShippingCost`); the announced rule is
  `Pricing.ShippingCostIntended`.
- The comment above `AdminRoute` says a logged-out visitor is sent to
  the login page. The code sends them to `redirectTo`, "/products" by
  default (see Findings). `Routes.AdminRoute` follows the code;
  `Routes.AdminRouteIntended` is the described guard. While the session
  refreshes, `AdminRoute` renders its children.
- `selectCartTotalPrice` and `selectIsGiftWrap`, which the cart and
  checkout pages both import, are not among the cart selectors. The
  subtotal is modelled as the sum of the line totals the cart page prints
  (`CartSelectors.Subtotal`), and the gift-wrap flag as the cart slice's
  `isGiftWrap` field.
- When the merge's final fetch fails, local storage has already been
  cleared, yet the thunk rejects (`CartMerge.MergeFetchOnlyFails`).
- The guest add never looks at the stock (`CartPage.GuestAddIgnoresStock`).
- The product test of `addToCartLocal` misfires for a bare-id payload (see Findings). The reducer's
  comment demands the full product object, and the product page sends it. The model's reducer
  requires that and runs the written test, proved to find the same line as the corrected one
  (`CartSlice.MatchIndexAgreesOnSnapshots`).

## Model

| member | source | states |
|---|---|---|
| Js.Spread | src/redux/auth/slice.js:186-189 | the payload's keys override, every other key of the old user is kept, a nullish payload adds nothing |
| Lists.SwapCopy | src/pages/adminPage/AdminPage.jsx:59-65 | the copied list with the two positions exchanged, the same length and multiset |
| Lists.RemoveAt | src/pages/adminPage/AdminPage.jsx:81-84 | `filter((_, i) => i !== index)` drops exactly position `index` when it is a position, keeping order; otherwise the list is unchanged |
| Lists.FindIndexAgrees | src/redux/cart/slice.js:50-53 | two tests that agree on every element make `findIndex` return the same position |
| Lists.RemoveAtReinsert | src/pages/profilePage/ProfilePage.jsx:86 | removing a position and putting the element back gives back the list |
| CartModel.BareIdsAlwaysMatchAsWritten | src/redux/cart/slice.js:50-53 | as written, any two bare-id products count as the same product, even with different ids, and a bare id never matches a snapshot of the same product |
| CartModel.AsWrittenAgreesOnSnapshots | src/redux/cart/slice.js:50-53 | for a full product payload the written test and the intended test agree |
| CartModel.Put | src/pages/productDetailsPage/ProductDetailsPage.jsx:48-50 | setting a key keeps an existing key in its place with the new value and appends a new key last |
| CartModel.PutGet | src/pages/productDetailsPage/ProductDetailsPage.jsx:48-50 | after setting a key, it reads back the new value, every other key reads as before, and keys stay distinct |
| CartModel.PutKeyIn | src/pages/productDetailsPage/ProductDetailsPage.jsx:37-43 | setting a key introduces no key other than that key |
| CartSelectors.TotalCountConcat | src/redux/cart/selectors.js:2 | the unit count of two lists joined is the sum of their counts |
| CartSelectors.TotalCountAppend | src/redux/cart/selectors.js:2 | an empty cart counts 0; a new line adds its quantity |
| CartSelectors.TotalCountUpdate | src/redux/cart/selectors.js:2 | overwriting a line's quantity changes the count by the difference |
| CartSelectors.TotalCountPermutation | src/redux/cart/selectors.js:2 | the count does not depend on the order of the lines |
| CartSelectors.SubtotalBounds | src/pages/cartPage/CartPage.jsx:126 | with non-negative prices and quantities each line total lies between 0 and the subtotal |
| CartSlice.LoadFallsBack | src/redux/cart/slice.js:5-21 | a missing, empty or unparsable key loads as an empty cart and no gift wrap |
| CartSlice.AddLineCoalesces | src/redux/cart/slice.js:50-56 | an add matching a line (same product, same serialised attributes) adds its quantity to the first such line only |
| CartSlice.AddLineAppends | src/redux/cart/slice.js:57-66 | an add matching no line appends one line with the fresh id, the product, the quantity and the attributes |
| CartSlice.MatchIndexAgreesOnSnapshots | src/redux/cart/slice.js:47-53 | for the full product object the reducer must receive, the written `findIndex` finds the same line as the corrected one |
| CartSlice.AddLineKeepsDistinctProducts | src/redux/cart/slice.js:50-53 | with the corrected product test an add coalesces only into a line for the same product id, and with no such line it appends |
| CartSlice.AddLineCount | src/redux/cart/slice.js:42-68 | either way the unit count grows by exactly the added quantity |
| CartSlice.AddAllCoalesces | src/redux/cart/slice.js:42-68 | repeated adds of one new product and selection end in one last line holding the sum of the quantities |
| CartSlice.AddAllAccumulates | src/redux/cart/slice.js:50-56 | repeated adds to a cart holding a matching line add their total to the first such line and change nothing else |
| CartSlice.AddAllOntoLast | src/redux/cart/slice.js:50-56 | when that first matching line is the last line, the cart ends with it grown by the total |
| CartSlice.GrowKeepsMatchIndex | src/redux/cart/slice.js:50-56 | an add that grows the matching line keeps it the first match, so the next add of the same product and selection lands on it again |
| CartSlice.LastLineMatches | src/redux/cart/slice.js:50-66 | a line appended after non-matching lines is the first match of the next add |
| CartSlice.RemoveLinesSpec | src/redux/cart/slice.js:69-73 | removal drops every line with the id, keeps the others in order, and is a no-op for an unknown id |
| CartSlice.SetQuantitySpec | src/redux/cart/slice.js:74-81 | the update overwrites the quantity of the first line with the id and nothing else; an unknown id changes nothing |
| CartSlice.SetQuantityLastWins | src/redux/cart/slice.js:74-81 | of two updates of one line the last wins |
| CartSlice.CartStore.constructor | src/redux/cart/slice.js:23-28 | items and flag are read from storage, not loading, no error |
| CartSlice.CartStore.AddToCartLocal | src/redux/cart/slice.js:42-68 | for a full product payload (what slice.js:47-48 demands and the product page sends) the written search runs and the items become the add's result; they are written to the `cart` key and reloading gives them back |
| CartSlice.CartStore.RemoveFromCartLocal | src/redux/cart/slice.js:69-73 | the items lose every line with the id and are written back |
| CartSlice.CartStore.UpdateCartItemLocal | src/redux/cart/slice.js:74-81 | the first line with the id takes the quantity; storage is written only when a line was found |
| CartSlice.CartStore.UpdateGiftWrapLocal | src/redux/cart/slice.js:82-85 | the flag is set and written to the `isGiftWrap` key |
| CartSlice.CartStore.ClearCartLocal | src/redux/cart/slice.js:86-91 | empty cart, no gift wrap, both keys removed |
| CartSlice.CartStore.SetCartLocal | src/redux/cart/slice.js:92-95 | the items become the payload and are written back |
| CartSlice.CartStore.SyncPending | src/redux/cart/slice.js:99-102 | loading, error cleared, cart untouched |
| CartSlice.CartStore.SyncFulfilled | src/redux/cart/slice.js:103-107 | the server's items and flag replace the cart; storage is not written |
| CartSlice.CartStore.SyncRejected | src/redux/cart/slice.js:108-111 | not loading, the error stored, cart untouched |
| CartSlice.CartStore.GiftWrapFulfilled | src/redux/cart/slice.js:113-116 | the server's items and flag replace the cart; the loading flag is untouched |
| CartSlice.CartStore.ItemsFulfilled | src/redux/cart/slice.js:117-125 | only the items are taken from the server |
| CartSlice.CartStore.ClearCartFulfilled | src/redux/cart/slice.js:126-128 | the items are emptied, the gift-wrap flag stays |
| CartMerge.Posts | src/redux/cart/operations.js:98-108 | one add request per stored line, in order |
| CartMerge.FirstFailure | src/redux/cart/operations.js:123-126 | the first failing answer among the first n, with every earlier one a success |
| CartMerge.PlanWhenNothingStored | src/redux/cart/operations.js:90-94 | with nothing stored and no gift wrap the only request is a fetch |
| CartMerge.PlanShape | src/redux/cart/operations.js:98-121 | one add per line with the resolved product id, then the gift-wrap request (always `true`) only when the flag is set, then the fetch last |
| CartMerge.RequestProductIsId | src/redux/cart/operations.js:101 | a product object is sent as its id, a bare id unchanged |
| CartMerge.MergeLocalCart | src/redux/cart/operations.js:80-128 | the requests issued, the storage afterwards and the result equal the closed-form specification: the plan up to the first failure |
| CartMerge.MergeNothingStored | src/redux/cart/operations.js:90-94 | nothing stored: one fetch, storage untouched, the fetch's outcome |
| CartMerge.MergeCorruptStorage | src/redux/cart/operations.js:84-88 | a stored value that does not parse rejects before any request and keeps storage |
| CartMerge.MergeLogFollowsPlan | src/redux/cart/operations.js:96-126 | the log is a prefix of the plan, everything before its last request succeeded, and it rejects exactly when the last request failed |
| CartMerge.MergeClearsOnlyAfterSuccess | src/redux/cart/operations.js:115-117 | storage is cleared only after every add and the gift-wrap request succeeded |
| CartMerge.MergeSuccess | src/redux/cart/operations.js:119-121 | on success the whole plan ran, the cart is the final fetch's, and storage is cleared |
| CartMerge.MergeFetchOnlyFails | src/redux/cart/operations.js:115-126 | when only the final fetch fails, storage is already cleared and the thunk rejects |
| CartMerge.MergeTwoLinesExample | src/redux/cart/operations.js:98-121 | two lines with gift wrap: two adds in order, the gift-wrap request, the fetch, storage cleared |
| CartMerge.MergeSecondAddFailsExample | src/redux/cart/operations.js:103-126 | the second add failing stops the merge, rejects with the server's message and keeps storage |
| Pricing.ShippingCost | src/pages/checkoutPage/CheckoutPage.jsx:23 | shipping is 0 exactly when the subtotal is above 1500, else 135 |
| Pricing.GiftWrapCost | src/pages/checkoutPage/CheckoutPage.jsx:24 | gift wrap costs 50 exactly when chosen, else 0 |
| Pricing.FinalTotal | src/pages/checkoutPage/CheckoutPage.jsx:25 | the total lies between the subtotal and the subtotal plus 185 |
| Pricing.ShippingAtThreshold | src/pages/cartPage/CartPage.jsx:165 | 1500 itself pays 135; every subtotal above it ships free |
| Pricing.GiftWrapAddsFee | src/pages/cartPage/CartPage.jsx:175 | gift wrap adds exactly 50 to the total |
| Pricing.TotalMonotoneOnEachSide | src/pages/cartPage/CartPage.jsx:175 | on one side of the threshold the total grows with the subtotal |
| Pricing.ShippingCostIntended | src/pages/cartPage/CartPage.jsx:184 | the announced rule: free exactly when the subtotal is 1500 or more, else 135 |
| Pricing.ShippingRulesDifferOnlyAtThreshold | src/pages/cartPage/CartPage.jsx:165-184 | the announced and computed rules disagree exactly at a subtotal of 1500, where only the announced one ships free |
| Pricing.TotalDropsAcrossThreshold | src/pages/cartPage/CartPage.jsx:175 | a cart just above 1500 costs less in total than one at 1500 |
| CartPage.HandleQuantityChange | src/pages/cartPage/CartPage.jsx:32-44 | below 1 nothing; above a known stock only a notice; otherwise one update, to the server when logged in, else local |
| CartPage.GuestQuantityChangeWithinStock | src/pages/cartPage/CartPage.jsx:120-122 | an accepted guest change from a line's buttons keeps every line within its stock |
| CartPage.GuestAddIgnoresStock | src/redux/cart/slice.js:55-56 | two guest adds of the whole stock leave a line holding twice the stock |
| CartPage.HandleRemoveItem | src/pages/cartPage/CartPage.jsx:46-53 | one removal, server or local by login state, then the notice |
| CartPage.HandleGiftWrapToggle | src/pages/cartPage/CartPage.jsx:55-61 | one update carrying the negated flag, server or local by login state |
| CartPage.HandleCheckout | src/pages/cartPage/CartPage.jsx:63-69 | an empty cart gets a notice, any other goes to "/checkout" |
| CartPage.CartView | src/pages/cartPage/CartPage.jsx:71-83 | the summary shows exactly when there are items; the placeholder only while loading an empty cart |
| JsStrings.LeadingSpace | src/pages/productDetailsPage/ProductDetailsPage.jsx:39 | the run of whitespace at the start of the string |
| JsStrings.TrailingSpace | src/pages/productDetailsPage/ProductDetailsPage.jsx:39 | the run of whitespace at the end of the string |
| JsStrings.Trim | src/pages/productDetailsPage/ProductDetailsPage.jsx:39 | a contiguous piece of the string, cut only at whitespace, neither starting nor ending with it |
| JsStrings.TrimIdempotent | src/pages/productDetailsPage/ProductDetailsPage.jsx:133 | trimming twice is trimming once |
| JsStrings.Split | src/pages/productDetailsPage/ProductDetailsPage.jsx:132-133 | at least one piece, none holding the separator |
| JsStrings.SplitJoin | src/pages/productDetailsPage/ProductDetailsPage.jsx:132-133 | joining the pieces with the separator gives back the string |
| JsStrings.SplitWithoutSeparator | src/pages/productDetailsPage/ProductDetailsPage.jsx:132-134 | a string without the separator is its own only piece |
| JsStrings.SplitWithSeparator | src/pages/productDetailsPage/ProductDetailsPage.jsx:132-133 | a string with the separator splits into at least two pieces |
| ProductDetails.Decrement | src/pages/productDetailsPage/ProductDetailsPage.jsx:161 | one less above 1 and exactly 1 at or below 1 (clamped at 1) |
| ProductDetails.Increment | src/pages/productDetailsPage/ProductDetailsPage.jsx:167 | never above the stock or one more: one more below the stock, exactly the stock at or above it |
| ProductDetails.PressStaysInRange | src/pages/productDetailsPage/ProductDetailsPage.jsx:161-169 | from a quantity between 1 and the stock no run of presses leaves that range |
| ProductDetails.ZeroStockStepper | src/pages/productDetailsPage/ProductDetailsPage.jsx:167-175 | at stock 0 "+" takes 1 down to 0, "−" back to 1, and the add button is disabled |
| ProductDetails.Options | src/pages/productDetailsPage/ProductDetailsPage.jsx:132-134 | the trimmed comma-separated pieces, or the value itself |
| ProductDetails.DefaultIsFirstOption | src/pages/productDetailsPage/ProductDetailsPage.jsx:38-41 | the default selection is the first option shown; a value with a comma offers two or more options without commas |
| ProductDetails.Defaults | src/pages/productDetailsPage/ProductDetailsPage.jsx:34-45 | every attribute key in order, each with its default selection |
| ProductDetails.InitialSelections | src/pages/productDetailsPage/ProductDetailsPage.jsx:35-43 | the loop builds exactly the defaults, with distinct keys |
| ProductDetails.DefaultsAreOptions | src/pages/productDetailsPage/ProductDetailsPage.jsx:34-45 | every attribute starts selected on one of its own options |
| ProductDetails.AttributeChangeOverwritesOnlyKey | src/pages/productDetailsPage/ProductDetailsPage.jsx:48-50 | a change sets that key and leaves every other key's value alone |
| ProductDetails.HandleAddToCart | src/pages/productDetailsPage/ProductDetailsPage.jsx:52-63 | logged in: the route's id to the server; a guest: the full product to the local cart; both with the quantity and selection |
| CheckoutPage.MonthPatternIsMonth | src/pages/checkoutPage/CheckoutPage.jsx:57 | the month pattern accepts exactly the two-digit strings whose value is 1 to 12 |
| CheckoutPage.Errors | src/pages/checkoutPage/CheckoutPage.jsx:41-67 | a field is reported exactly when it fails its rule |
| CheckoutPage.EveryField | src/pages/checkoutPage/CheckoutPage.jsx:41-67 | the schema lists every field of the form |
| CheckoutPage.CardFieldsOnlyForCreditCard | src/pages/checkoutPage/CheckoutPage.jsx:47-66 | for another payment method the card fields are never reported and do not affect the verdict |
| CheckoutPage.CreditCardRules | src/pages/checkoutPage/CheckoutPage.jsx:51-66 | for a credit card: 16 digits, a month 01 to 12, two year digits, three CVC digits |
| CheckoutPage.InitialFormErrors | src/pages/checkoutPage/CheckoutPage.jsx:28-40 | the untouched form reports every field but the payment method |
| CheckoutPage.Submit | src/pages/checkoutPage/CheckoutPage.jsx:68-109 | a guest is notified and sent to log in; a signed-in user's effects are exactly one order (the form's address, contact, gift wrap, and card details exactly for a credit card), then the success notice and the cart clearing, or the server's message or the default, or the generic error; success exactly on fulfilment |
| AuthSlice.NormaliseUser | src/redux/auth/slice.js:59-67 | exactly the seven keys; the id is `_id`, else `id`, else null, and is truthy exactly when one of them is |
| AuthSlice.NormaliseUserDefaults | src/redux/auth/slice.js:59-67 | each profile field is the server's value or null, the role is the server's or "user", the addresses the server's or an empty list |
| AuthSlice.ResetFailureMessage | src/redux/auth/slice.js:156-157 | the payload, else the error's message, else the flow's default; never nullish |
| AuthSlice.IdFallback | src/redux/auth/slice.js:60 | a user with only `id` gets it as `_id`; a user with neither is not signed in |
| AuthSlice.EmptyPayloadSignsNobodyIn | src/redux/auth/slice.js:56-70 | an empty payload signs nobody in, stores a null token, and gives the role "user" |
| AuthSlice.AuthState.constructor | src/redux/auth/slice.js:25-38 | the initial state: a user of four nulls, no token, logged out, reset state cleared |
| AuthSlice.AuthState.HandlePending | src/redux/auth/slice.js:12-15 | loading, error cleared, the session untouched |
| AuthSlice.AuthState.HandleRejected | src/redux/auth/slice.js:17-21 | both flags drop, the error stored, the session untouched |
| AuthSlice.AuthState.AuthFulfilled | src/redux/auth/slice.js:55-73 | the normalised user, the token or null, signed in exactly when the user has an id; the session stays consistent |
| AuthSlice.AuthState.LogoutFulfilled | src/redux/auth/slice.js:101-106 | the session is reset; the error is kept |
| AuthSlice.AuthState.LocalLogout | src/redux/auth/slice.js:40-46 | the session is reset and nothing else changes |
| AuthSlice.AuthState.ResetError | src/redux/auth/slice.js:47-49 | only the error is cleared |
| AuthSlice.AuthState.RefreshPending | src/redux/auth/slice.js:110-113 | the refresh flag rises, `isLoading` is untouched |
| AuthSlice.AuthState.RefreshFulfilled | src/redux/auth/slice.js:114-132 | as login, but it ends the refresh and leaves `isLoading` alone |
| AuthSlice.AuthState.RefreshRejected | src/redux/auth/slice.js:133-139 | the session is reset as on logout and the error stored |
| AuthSlice.AuthState.UpdateUserPending | src/redux/auth/slice.js:179-182 | loading, error cleared |
| AuthSlice.AuthState.UpdateUserFulfilled | src/redux/auth/slice.js:183-193 | the payload's fields override, every other field kept; the session stays consistent unless the payload changes `_id` |
| AuthSlice.AuthState.UpdateUserRejected | src/redux/auth/slice.js:194-197 | the error stored, `isRefreshing` left |
| AuthSlice.AuthState.ResetPending | src/redux/auth/slice.js:142-146 | sending, no success, no message |
| AuthSlice.AuthState.ResetFulfilled | src/redux/auth/slice.js:147-152 | success, with the payload's message or the flow's default |
| AuthSlice.AuthState.ResetRejected | src/redux/auth/slice.js:172-177 | no success, with the payload, the error's message or the default |
| Entities.ReplaceFirstByIdSpec | src/redux/categories/slice.js:43-49 | the record takes the place of the first one with its `_id`, nothing else changes, and no match changes nothing |
| Entities.ReplaceFirstByIdIdempotent | src/redux/products/slice.js:70-75 | replacing twice with the same record is replacing once |
| Entities.RemoveByIdSpec | src/redux/categories/slice.js:58-61 | removal drops every record with the id and keeps the others in order |
| Entities.RemoveUndoesAppend | src/redux/products/slice.js:57-60 | deleting a record just added with a fresh id gives back the list |
| ProductsSlice.ProductsState.constructor | src/redux/products/slice.js:4-15 | the initial page state: empty, page 1 of 0, ten per page |
| ProductsSlice.ProductsState.Pending | src/redux/products/slice.js:22-25 | loading, error cleared, the page untouched |
| ProductsSlice.ProductsState.Rejected | src/redux/products/slice.js:36-39 | not loading, the error stored, the page untouched |
| ProductsSlice.ProductsState.FetchFulfilled | src/redux/products/slice.js:26-35 | the items and every paging field come from the payload |
| ProductsSlice.ProductsState.GetByIdFulfilled | src/redux/products/slice.js:44-47 | the current product becomes the payload |
| ProductsSlice.ProductsState.AddFulfilled | src/redux/products/slice.js:57-60 | the payload is appended; the paging fields stay |
| ProductsSlice.ProductsState.UpdateFulfilled | src/redux/products/slice.js:70-75 | the first record with the id is replaced, and the current product too when it has that id |
| ProductsSlice.ProductsState.DeleteFulfilled | src/redux/products/slice.js:85-88 | every record with the id is dropped |
| CategoriesSlice.CategoriesState.constructor | src/redux/categories/slice.js:4-8 | empty, not loading, no error |
| CategoriesSlice.CategoriesState.Pending | src/redux/categories/slice.js:15-18 | loading, error cleared, the list untouched |
| CategoriesSlice.CategoriesState.Rejected | src/redux/categories/slice.js:23-26 | not loading, the error stored, the list untouched |
| CategoriesSlice.CategoriesState.FetchFulfilled | src/redux/categories/slice.js:19-22 | the payload's list, or an empty list |
| CategoriesSlice.CategoriesState.AddFulfilled | src/redux/categories/slice.js:31-34 | the payload is appended |
| CategoriesSlice.CategoriesState.UpdateFulfilled | src/redux/categories/slice.js:43-49 | the first record with the id is replaced |
| CategoriesSlice.CategoriesState.DeleteFulfilled | src/redux/categories/slice.js:58-61 | every record with the id is dropped |
| OrdersSlice.OrdersState.constructor | src/redux/orders/slice.js:4-9 | no orders, no current order, not loading, no error |
| OrdersSlice.OrdersState.Pending | src/redux/orders/slice.js:17-20 | loading, error cleared |
| OrdersSlice.OrdersState.Rejected | src/redux/orders/slice.js:25-28 | not loading, the error stored |
| OrdersSlice.OrdersState.FetchFulfilled | src/redux/orders/slice.js:21-24 | the orders become the payload |
| OrdersSlice.OrdersState.GetByIdFulfilled | src/redux/orders/slice.js:34-37 | the current order becomes the payload |
| OrdersSlice.OrdersState.CreateFulfilled | src/redux/orders/slice.js:47-51 | the new order is appended and is the current order |
| WishlistSlice.WishlistState.constructor | src/redux/wishlist/slice.js:4-8 | empty, not loading, no error |
| WishlistSlice.WishlistState.FetchPending | src/redux/wishlist/slice.js:15-18 | loading, error cleared |
| WishlistSlice.WishlistState.FetchFulfilled | src/redux/wishlist/slice.js:19-22 | the payload's products, or none |
| WishlistSlice.WishlistState.FetchRejected | src/redux/wishlist/slice.js:23-26 | not loading, the error stored, the list kept |
| WishlistSlice.WishlistState.ListFulfilled | src/redux/wishlist/slice.js:27-32 | the server's list replaces the local one, the flags untouched |
| WishlistSelectors.IsInWishlist | src/redux/wishlist/selectors.js:4 | true exactly when some item has the product's id |
| WishlistSelectors.IsInWishlistOrderFree | src/redux/wishlist/selectors.js:4 | an empty list holds nothing; the answer ignores the order of the items |
| AdminPage.FormParts | src/pages/adminPage/AdminPage.jsx:97-108 | every form value in order, then the existing images, then the new files |
| AdminPage.ImageEditor.constructor | src/pages/adminPage/AdminPage.jsx:36-38 | all three image lists empty |
| AdminPage.ImageEditor.HandleFileChange | src/pages/adminPage/AdminPage.jsx:47-55 | the files and their previews go after the ones already there, keeping them aligned |
| AdminPage.ImageEditor.MoveImage | src/pages/adminPage/AdminPage.jsx:57-77 | a swap with the neighbour when it exists, in both new-image lists together; otherwise nothing changes |
| AdminPage.ImageEditor.RemoveImage | src/pages/adminPage/AdminPage.jsx:79-86 | the entry at the index goes from the list named, and from both new-image lists together |
| AdminPage.ImageEditor.HandleEdit | src/pages/adminPage/AdminPage.jsx:133-141 | the product's images, or none, become the existing list; the new-image lists are emptied |
| AdminPage.ImageEditor.ResetImageState | src/pages/adminPage/AdminPage.jsx:126-131 | all three image lists emptied |
| AdminPage.ImageEditor.SubmitParts | src/pages/adminPage/AdminPage.jsx:97-108 | the three loops build exactly the form parts in that order |
| AdminPage.MovePreservesImages | src/pages/adminPage/AdminPage.jsx:63-65 | a move keeps the length and the images, and moving back restores the list |
| AdminPage.RemoveKeepsPairs | src/pages/adminPage/AdminPage.jsx:81-82 | after removal each file still sits next to its own preview |
| AdminPage.ProductSchemaBounds | src/pages/adminPage/AdminPage.jsx:12-19 | a product passes exactly when the strings are filled, the price is above 0 and the stock at least 0 |
| ProfilePage.SpreadElems | src/pages/profilePage/ProfilePage.jsx:73 | `[...v]` yields a list's elements, or a string's characters as one-character strings |
| ProfilePage.AddressesAfterAdd | src/pages/profilePage/ProfilePage.jsx:73-74 | the new address after the existing ones, or alone when there are none; a string is spread into its characters; only a truthy value that is neither a list nor a string throws |
| ProfilePage.AddressesAfterDelete | src/pages/profilePage/ProfilePage.jsx:85-86 | the list without the entry at the index |
| ProfilePage.DeleteUndoesAdd | src/pages/profilePage/ProfilePage.jsx:73-86 | deleting the address just added gives back the list |
| ProfilePage.PasswordPayload | src/pages/profilePage/ProfilePage.jsx:58-64 | the current password and the new one, under `password`; the confirmation is not sent |
| ProfilePage.InfoSchemaAccepts | src/pages/profilePage/ProfilePage.jsx:28-31 | accepted exactly when name and surname are filled; the surname's verdict does not depend on the name |
| ProfilePage.AddressSchemaAccepts | src/pages/profilePage/ProfilePage.jsx:43-49 | accepted exactly when all five fields are filled; the empty form fails on every field |
| ProfilePage.OrderFetches | src/pages/profilePage/ProfilePage.jsx:22-26 | the effect fetches at most once per tab click |
| ProfilePage.OrderFetchesConcat | src/pages/profilePage/ProfilePage.jsx:19-26 | the page opens on a tab that fetches nothing; the fetches of two runs of tab clicks add up |
| ProfilePage.OrderFetchesOnlyOnOrders | src/pages/profilePage/ProfilePage.jsx:22-26 | every fetch is a click on "orders"; clicks that never pick it fetch nothing |
| ProfilePage.RepeatedOrdersClicksFetchOnce | src/pages/profilePage/ProfilePage.jsx:22-26 | clicking "orders" repeatedly fetches once from another tab and never when already on it |
| ProfilePage.PasswordSchemaAccepts | src/pages/profilePage/ProfilePage.jsx:33-41 | accepted exactly when the current password is given, the new one has six or more characters, and the confirmation repeats it |
| ProductsPage.RequestParams | src/pages/productsPage/ProductsPage.jsx:24-30 | the page, 12 per page, and the category and search only when non-empty |
| ProductsPage.EmptyFiltersOmitted | src/pages/productsPage/ProductsPage.jsx:27-28 | an empty category or search is left out of the request |
| ProductsPage.CatalogueState.constructor | src/pages/productsPage/ProductsPage.jsx:16-18 | no category, empty search, page 1 |
| ProductsPage.CatalogueState.HandleCategoryChange | src/pages/productsPage/ProductsPage.jsx:34-37 | the category is set and the page goes back to 1 |
| ProductsPage.CatalogueState.HandleSearchChange | src/pages/productsPage/ProductsPage.jsx:39-42 | the search is set and the page goes back to 1 |
| ProductsPage.CatalogueState.ClickPrevious | src/pages/productsPage/ProductsPage.jsx:68-93 | one page down, only when loading is over, there is more than one page and the button is enabled; otherwise nothing changes |
| ProductsPage.CatalogueState.ClickNext | src/pages/productsPage/ProductsPage.jsx:68-103 | one page up, only when loading is over, there is more than one page and the button is enabled; otherwise nothing changes |
| Routes.AdminRoute | src/routes/AdminRoute.jsx:10-17 | a redirect to `redirectTo` ("/products" by default) exactly when not refreshing and not a logged-in admin; otherwise the children |
| Routes.AdminRouteIntended | src/routes/AdminRoute.jsx:5-8 | the described guard: a redirect exactly when settled and not a logged-in admin, to "/login" when logged out and to `redirectTo` otherwise |
| Routes.AdminGuardsDifferOnlyWhenLoggedOut | src/routes/AdminRoute.jsx:5-17 | the described and written guards differ exactly for a logged-out visitor once settled, unless `redirectTo` is already "/login" |
| Routes.AdminRouteLoggedOutGoesToProducts | src/routes/AdminRoute.jsx:5-17 | a logged-out visitor goes where a non-admin goes, not to the login page |
| Routes.PrivateRoute | src/routes/PrivateRoute.jsx:8-19 | the placeholder exactly while refreshing, then the children when logged in, else a replacing redirect to "/login" remembering the location |
| Routes.GuardsDifferWhileRefreshing | src/routes/PrivateRoute.jsx:13-14 | while refreshing the private route waits and the admin route renders its children |

## Left out

- Attribute values that are not strings. The options list of the product page holds such a value alone; the model's attributes are strings.
- The order of integer-like object keys. `JSON.stringify` writes those first; attributes are kept in insertion order only.
- Spreading a string or an array into the user object.
- `selectCartItems` and `selectWishlistItems`. They return the slice's list as it is, and the model reads the slice's `items` field directly.
- Valid JSON of the wrong shape in local storage. A stored value either is what the app wrote, is empty, or does not parse.
- Two adds in the same millisecond, which get the same `Date.now()` id. The fresh id is a parameter.
- Toast texts and timing. Notices are modelled by meaning.
- Concurrency. The login page does not await the merge, and actions dispatched meanwhile are not interleaved.
- `localLogout` removing `token` and `user` from local storage. That storage is not part of the auth model.
- Yup and Formik internals. `required` is modelled as "non-empty" and a number input as present or absent.
- Floating point and `toFixed`. Money is an exact real.
- The thunks other than `mergeLocalCart`. They are single requests whose answers enter the slices as payloads.
- `URL.createObjectURL`, `window.confirm` and `window.scrollTo`. The URLs are parameters; the other two have no effect on state.
- CartSelectors.Subtotal: assumed to be the sum of the line totals, because `selectCartTotalPrice` is not among the cart selectors (src/redux/cart/selectors.js:1-4), although src/pages/cartPage/CartPage.jsx:5,27 and src/pages/checkoutPage/CheckoutPage.jsx:6,18 import it.
- `selectIsGiftWrap`: not among the cart selectors either, although src/pages/cartPage/CartPage.jsx:7,29 and src/pages/checkoutPage/CheckoutPage.jsx:6,19 import it. The model assumes it returns the cart slice's `isGiftWrap` field.
- CartSelectors.UnitPrice and CartSelectors.LineTotal: a bare-id line is priced at 0. The cart page computes `undefined * quantity` for it (src/pages/cartPage/CartPage.jsx:95,126), which is `NaN` and prints as "NaN TL"; numbers here are exact reals, so `NaN` is not modelled, and `Subtotal` counts such a line as 0.
- A product object whose `_id` is the empty string. It is sent whole by the merge (`item.productId._id || item.productId`); the model keeps that case as written but proves nothing more about it.
- Server records without an `_id`. Every entity carries one.
- A `NaN` stock. Numbers are exact.
- UTF-16 lengths. A string is a sequence of characters, and the password's six-character minimum counts those.
- The product page's wishlist toggle and image gallery. They do not touch the cart or the modelled slices.
- CartSlice.CartStore.AddToCartLocal: requires the payload to be a full product object, as the comment at src/redux/cart/slice.js:47-48 demands and the product page's guest add supplies; a bare-id payload, where the written test misfires (see Findings), is not admitted.
- AdminPage.ImageEditor.MoveImage: requires the index to be a position of its list, which the page's buttons always pass.
- CartPage.HandleQuantityChange: the stock is an optional integer; a bare-id line passes none, and then every quantity of 1 or more is accepted.

## Findings

| source | as written | input that shows it | evidently intended | confidence | as-written member | corrected member |
|---|---|---|---|---|---|---|
| src/redux/cart/slice.js:50-53 | `item.productId._id === productId._id` is true when both products are bare id strings, because both sides are `undefined` | a guest cart line for product "a" and an add of product "b", both as bare ids (and, the other way, a snapshot line of "a" and a bare-id add of "a", which does not coalesce) | coalesce only lines for the same product id | not executed | CartModel.BareIdsAlwaysMatchAsWritten | CartSlice.AddLineKeepsDistinctProducts |
| src/pages/cartPage/CartPage.jsx:165 | shipping is free when `totalPrice > 1500`, here and in the total (line 175) and at src/pages/checkoutPage/CheckoutPage.jsx:23, while the notice at line 184 promises free shipping for 1500 TL and above | a subtotal of exactly 1500 TL: the notice says free, the summary charges 135 TL | free shipping from 1500 TL upwards (`>= 1500`) | not executed | Pricing.ShippingAtThreshold | Pricing.ShippingCostIntended |
| src/routes/AdminRoute.jsx:10 | `redirectTo = "/products"` is the only target, for logged-out visitors and non-admins alike, while the comment at lines 5-8 sends a logged-out visitor to the login page | a logged-out visitor opening an admin page once the session is settled: sent to "/products" | a logged-out visitor goes to "/login", a non-admin to `redirectTo` | not executed | Routes.AdminRouteLoggedOutGoesToProducts | Routes.AdminRouteIntended |
