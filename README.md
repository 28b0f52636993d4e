# ShopCart order and checkout layer, in Dafny

This project models the client-side order and checkout state of the ShopCart React
storefront, and proves properties of that model. It covers these parts:

- **The order ledger** (`src/context/OrdersContext.jsx`). It is the class `Orders.OrderLedger`, holding a sequence of orders, newest first. It also has a `loading` flag and the stored copy, which is the value under the storage key `orders`.
  - Loading is all-or-nothing.
  - `addOrder` rejects a malformed order and ignores a duplicate id.
  - Status updates change nothing but `status`.
- **The single-page checkout** (`src/pages/CheckoutPage.jsx`). It is the class `CheckoutPage.Page`.
  - Its form validation is proved equal to an independent description, including the e-mail pattern `^[^\s@]+@[^\s@]+\.[^\s@]+$`.
  - The order record is built from the cart, the form and the signed-in user.
  - The submit sequence records the `isSubmitting` flag, `addOrder`, `clearCart` and the navigation as an event trace.
- **The multi-step checkout**:
  - the draft (`src/context/CheckoutContext.jsx`, class `CheckoutDraft.Draft`);
  - the payment step's gate and submit (`src/pages/checkout/PaymentPage.jsx`);
  - the confirmation step's order record and one-shot `addOrder` (`src/pages/checkout/ConfirmationPage.jsx`);
  - the two steps taken together (`CheckoutFlow`).
- **The catalogue rules** (`src/pages/ProductListing.jsx`): filters, the stable sorts, the price ceiling set after loading, category headings and the filter reset.
- **Order details** (`src/pages/account/OrderDetailsPage.jsx`): the progress steps derived from a status, the not-found view, and the shipping fields the page reads.
- **Product detail** (`src/pages/ProductDetail.jsx`): the quantity stepper and what goes to the cart.
- **The session store** (`src/context/AuthContext.jsx`): login with the demo credentials, register and logout.

The cart store (`src/context/CartContext.jsx`) is not part of this model. The cart is a class `CartStore.Cart` with lines, a total and a count that are taken as given. Clearing it is its only operation.

Conventions used throughout:
- Money is whole cents and ratings are hundredths of a star.
- Strings are `seq<char>`. A JavaScript `undefined` string field reads as `""` (`Base.Field`).
- `Date.now()`, `new Date().toISOString()` and the integer parts of `Math.random()` draws are parameters.

How the code behaves at three points that are easy to misread:
- The single-page checkout clears the cart and confirms the order whatever `addOrder` returned. A submission whose order the ledger does not take still empties the cart (Finding 1).
- Mounting the order provider runs two effects. The load effect adopts a stored array only when every entry is a valid order; otherwise it keeps no orders and removes the key when the value parsed. Then the save effect writes the adopted ledger, so afterwards storage holds that ledger in every case, and the empty array when nothing was adopted (`Orders.MountedStorage`, `Orders.OrderLedger.Mount`).
- An exception from `clearCart` comes after `addOrder` has recorded the order, so the ledger keeps the order while the cart keeps its lines and the failure message is shown.

## Model

| member | source | states |
|---|---|---|
| `Orders.LoadOrders` | src/context/OrdersContext.jsx:21-45 | The orders adopted are all valid. A stored array is adopted whole when every entry is valid. A non-array or an array with one invalid entry gives no orders and removes the key. A missing or unparseable value gives no orders, and the load effect leaves it in place. The save effect then overwrites it; see `Orders.MountedStorage`. |
| `Orders.IsValidOrder` | src/context/OrdersContext.jsx:6-13 | An order is valid exactly when its id and date are non-empty, its items are an array and its total is a number. |
| `Orders.MountedStorage` | src/context/OrdersContext.jsx:21-58 | After both effects have run, storage holds the adopted ledger. That is the stored array itself when every entry was valid, and the empty array in every other case, unparseable text included. |
| `Orders.PersistLoadRoundTrip` | src/context/OrdersContext.jsx:48-58 | What the save effect writes, the load effect reads back as the same ledger. |
| `Orders.Snapshot` | src/context/OrdersContext.jsx:53 | The stored array has one record per order, in ledger order. |
| `Orders.FindOrder` | src/context/OrdersContext.jsx:88-92 | The result is none exactly when no order has the id. Otherwise it is the first order with that id. |
| `Orders.FindUnique` | src/context/OrdersContext.jsx:88-92 | With unique ids, looking up any order's id finds that order. |
| `Orders.AddedKeepsUniqueIds` | src/context/OrdersContext.jsx:69-77 | The `addOrder` update keeps ids pairwise distinct. |
| `Orders.DuplicateAddKeepsFirst` | src/context/OrdersContext.jsx:70-73 | A second order under a taken id is dropped, so the lookup still returns the first. |
| `Orders.WithStatusOnlyStatus` | src/context/OrdersContext.jsx:94-99 | A status update keeps length and order. It changes only `status`, and only on orders with the id. |
| `Orders.WithStatusKeepsInvariants` | src/context/OrdersContext.jsx:94-106 | Status updates keep ids unique and orders valid. The lookup then returns the old order with the new status. |
| `Orders.OrderLedger.constructor` | src/context/OrdersContext.jsx:16-17 | The ledger starts empty and loading, with storage as found. |
| `Orders.OrderLedger.LoadOnStart` | src/context/OrdersContext.jsx:21-45 | The ledger and storage become what `LoadOrders` says, and loading ends. |
| `Orders.OrderLedger.Mount` | src/context/OrdersContext.jsx:21-58 | Mounting runs the load effect and then the save effect. The ledger is what `LoadOrders` adopts, loading has ended, and storage holds the ledger's snapshot. |
| `Orders.OrderLedger.Persist` | src/context/OrdersContext.jsx:48-58 | Nothing is written while loading. Otherwise the stored copy becomes the ledger's snapshot. |
| `Orders.OrderLedger.AddOrder` | src/context/OrdersContext.jsx:60-86 | Returns true exactly for a valid order. An invalid order leaves the ledger unchanged. A valid order with a taken id also leaves it unchanged, yet returns true. A fresh one is prepended, with the old ledger as the tail. Unique ids are kept. |
| `Orders.OrderLedger.GetOrderById` | src/context/OrdersContext.jsx:88-92 | Returns none exactly when the id is absent. Otherwise it returns an order of the ledger with that id, which is valid. It reads without changing state. |
| `Orders.OrderLedger.UpdateOrderStatus` | src/context/OrdersContext.jsx:94-99 | The ledger becomes the status update of the old one. Validity and unique ids are kept. |
| `Orders.OrderLedger.CancelOrder` | src/context/OrdersContext.jsx:101-106 | Same as `UpdateOrderStatus` with "cancelled". |
| `Orders.OrderLedger.ClearOrders` | src/context/OrdersContext.jsx:108-112 | The ledger is empty and the stored key is removed. |
| `CheckoutPage.EmailCheckMatchesPattern` | src/pages/CheckoutPage.jsx:54 | The e-mail check accepts exactly the strings of the form A@B.C, where A, B and C are non-empty and hold no white space and no '@'. |
| `CheckoutPage.EmailCheckSound` | src/pages/CheckoutPage.jsx:54 | Every string the check accepts has the A@B.C form. |
| `CheckoutPage.EmailCheckComplete` | src/pages/CheckoutPage.jsx:54 | Every string of the A@B.C form passes the check. |
| `CheckoutPage.FlaggedMeaning` | src/pages/CheckoutPage.jsx:48-52 | Flagging a list of fields adds the message exactly for the empty ones and keeps the other entries. |
| `CheckoutPage.CollectErrors` | src/pages/CheckoutPage.jsx:41-64 | Collecting errors field by field yields the error map of the form. |
| `CheckoutPage.CardChecksAreFlagged` | src/pages/CheckoutPage.jsx:58-63 | The four card checks, made one after the other, flag exactly the empty card fields with the card message, as the generic field-by-field check does. |
| `CheckoutPage.FormErrorsMeaning` | src/pages/CheckoutPage.jsx:41-64 | A field has an error exactly when one of three holds: it is an empty required field; it is a non-empty malformed e-mail; or it is an empty card field under credit-card payment. The message is chosen accordingly. |
| `CheckoutPage.RequiredFieldErrors` | src/pages/CheckoutPage.jsx:43-52 | A required field gets "This field is required" exactly when it is empty. No other field gets that message. |
| `CheckoutPage.EmailFieldError` | src/pages/CheckoutPage.jsx:54-56 | The e-mail gets the e-mail message exactly when it is non-empty and not of the form A@B.C. |
| `CheckoutPage.CardFieldErrors` | src/pages/CheckoutPage.jsx:58-63 | A card field has an error exactly when the payment method is "creditCard" and the field is empty. The message is "Required". |
| `CheckoutPage.FormValidIff` | src/pages/CheckoutPage.jsx:41-66 | The error map is empty exactly when all of these hold: every required field is filled; the e-mail has the form A@B.C; and, for card payment, every card field is filled. |
| `CheckoutPage.FirstWord` | src/pages/CheckoutPage.jsx:15 | The result is the longest space-free prefix of the name. |
| `CheckoutPage.SecondWord` | src/pages/CheckoutPage.jsx:16 | With no space in the name, the result is "". Otherwise it is the text after the first space, up to the next space or the end. |
| `CheckoutPage.InitialForm` | src/pages/CheckoutPage.jsx:14-28 | The form's starting record, built field by field from the signed-in user. |
| `CheckoutPage.InitialFormBlank` | src/pages/CheckoutPage.jsx:14-28 | The form has exactly the thirteen fields of the page. Address, city, country, postal code, phone and the four card fields start as "". |
| `CheckoutPage.InitialFormFields` | src/pages/CheckoutPage.jsx:15-23 | The first and last name are the first and second word of the user's name. The e-mail is the user's e-mail, or "". The payment method is "creditCard". |
| `CheckoutPage.InitialFormHasErrors` | src/pages/CheckoutPage.jsx:14-66 | A freshly opened form never validates, whoever is signed in, because the address and the card number start empty. |
| `CheckoutPage.CheckoutShipping` | src/pages/CheckoutPage.jsx:89-97 | The order's shipping block: `name` is first name, a space and last name; address, city, country, postal code, phone and e-mail are copied from the form. |
| `CheckoutPage.CheckoutItems` | src/pages/CheckoutPage.jsx:80-86 | There is one item per cart line, in cart order. Each copies id, title, price, quantity and `image`, and has no `productId`. |
| `CheckoutPage.CheckoutOrder` | src/pages/CheckoutPage.jsx:77-102 | The order is valid exactly when the date is non-empty and the cart total is a number. Items come from the cart and the total is `cartTotal`. The status is "processing" and the payment status "pending". `customerId` is the user's id or null. The name is first name + " " + last name. |
| `CheckoutPage.OrderIdsDistinct` | src/pages/CheckoutPage.jsx:78 | Order ids are equal exactly when the timestamps are equal. |
| `CheckoutPage.TrackingNumberShape` | src/pages/CheckoutPage.jsx:100 | The tracking number is "TRK" followed by nine digits that read as a number in [100000000, 999999999]. |
| `CheckoutPage.Page.constructor` | src/pages/CheckoutPage.jsx:14-31 | The form starts from the user, with no errors and not submitting. |
| `CheckoutPage.Page.HandleChange` | src/pages/CheckoutPage.jsx:33-39 | Only the named field changes. |
| `CheckoutPage.Page.SubmitEnabled` | src/pages/CheckoutPage.jsx:380 | The button is enabled only when not submitting and the cart has lines. |
| `CheckoutPage.Page.ValidateForm` | src/pages/CheckoutPage.jsx:41-67 | Stores the form's error map and returns true exactly when it is empty. |
| `CheckoutPage.PlaceOrder` | src/pages/CheckoutPage.jsx:104-124 | The ledger receives the order through `addOrder` whatever that returns. If `clearCart` throws, the outcome is the failure message and the cart is untouched. Otherwise the cart is emptied and the order confirmed. The trace lists add, [clear], navigate in that order. |
| `CheckoutPage.Page.HandleSubmit` | src/pages/CheckoutPage.jsx:69-128 | An invalid form changes no ledger, cart, flag or trace. A valid form leads to `addOrder` with the built order and ends with the flag off. If `clearCart` throws, the result is the failure outcome and the cart is untouched. Otherwise the cart is cleared and the order confirmed, whatever `addOrder` returned. In both cases the event order is flag on, add, [clear], navigate, flag off. |
| `CheckoutPage.Page.HandleSubmitChecked` | src/pages/CheckoutPage.jsx:104-124 | The corrected submit. The cart is cleared and the order confirmed exactly when the ledger holds the order afterwards. Otherwise the failure message is shown and the cart is kept. |
| `CheckoutPage.DuplicateOrderStillClearsCart` | src/pages/CheckoutPage.jsx:105-108 | Take a valid form, a numeric total, and a ledger that already holds a different order under `ORD-<now>`. The ledger is unchanged, and the order shown as confirmed is not the one it holds under that id. Yet the cart is emptied. |
| `CheckoutPage.DuplicateOrderKeepsCart` | src/pages/CheckoutPage.jsx:104-124 | The same submission through the corrected handler ends in the failure message, with the cart's lines kept. |
| `CheckoutDraft.InitialShipping` | src/context/CheckoutContext.jsx:6-15 | There are exactly the eight shipping keys, all empty. |
| `CheckoutDraft.Merged` | src/context/CheckoutContext.jsx:20-22 | Overwrites exactly the keys of `data` and keeps every other key. |
| `CheckoutDraft.MergedIdempotent` | src/context/CheckoutContext.jsx:20-22 | Merging the same data twice equals merging it once. |
| `CheckoutDraft.Draft.constructor` | src/context/CheckoutContext.jsx:6-18 | The draft starts with the eight empty fields, "creditCard" and empty notes. |
| `CheckoutDraft.Draft.UpdateShippingInfo` | src/context/CheckoutContext.jsx:20-22 | The shipping info becomes the merge. No shipping key is ever lost. Only this field changes. |
| `CheckoutDraft.Draft.SetPaymentMethod` | src/context/CheckoutContext.jsx:17 | Only the payment method changes. |
| `CheckoutDraft.Draft.SetOrderNotes` | src/context/CheckoutContext.jsx:18 | Only the notes change. |
| `PaymentPage.IsFormValid` | src/pages/checkout/PaymentPage.jsx:26 | The gate: every shipping value has a non-empty `trim()`. |
| `PaymentPage.FormValidIffNoBlankValue` | src/pages/checkout/PaymentPage.jsx:26 | The gate passes exactly when no shipping value is empty or only white space. |
| `PaymentPage.InitialDraftBlocksSubmit` | src/pages/checkout/PaymentPage.jsx:26 | The initial draft does not pass the gate. |
| `PaymentPage.Render` | src/pages/checkout/PaymentPage.jsx:12-30 | An empty cart gives the redirect to the cart and nothing else. Otherwise the submit button is enabled exactly when no shipping value is blank. |
| `PaymentPage.HandleSubmit` | src/pages/checkout/PaymentPage.jsx:18-23 | The cart is cleared, and then the confirmation route opens. |
| `Base.TrimEmptyIffBlank` | src/pages/checkout/PaymentPage.jsx:26 | `trim()` gives "" exactly for strings made only of white space. |
| `ConfirmationPage.OrderNumberShape` | src/pages/checkout/ConfirmationPage.jsx:15 | The order number is "ORDER-" followed by six digits that read as a number in [100000, 999999]. |
| `ConfirmationPage.OrderNumbersDistinct` | src/pages/checkout/ConfirmationPage.jsx:15 | Order numbers are equal exactly when the draws are equal. |
| `ConfirmationPage.ConfirmationItems` | src/pages/checkout/ConfirmationPage.jsx:23-30 | There is one item per cart line, in order. Each carries its thumbnail and has `productId == id`. |
| `ConfirmationPage.ConfirmationShipping` | src/pages/checkout/ConfirmationPage.jsx:32-35 | The result is the draft with `email` replaced by the user's e-mail when there is one. Otherwise the draft's e-mail is kept. |
| `ConfirmationPage.ConfirmationOrder` | src/pages/checkout/ConfirmationPage.jsx:20-39 | The order is valid exactly when the date is non-empty and the total is a number. Items and total come from the cart. The status is "processing", with no payment status or tracking number. `userId` is the user's id or null. |
| `ConfirmationPage.Mount` | src/pages/checkout/ConfirmationPage.jsx:19-45 | Exactly one `addOrder` is made, with the built order. The cart is not in the frame, so it is not cleared. |
| `CheckoutFlow.PayThenConfirm` | src/pages/checkout/PaymentPage.jsx:18-23 | The payment step and then the confirmation step record an order with no items and total 0, whatever the cart held. |
| `CheckoutFlow.ConfirmThenClear` | src/pages/checkout/ConfirmationPage.jsx:19-45 | Recording first and clearing after keeps the cart's lines and total in the order. |
| `ProductListing.Keep` | src/pages/ProductListing.jsx:57-75 | The test applied to each product: it matches the search, its price lies in [low, high], its rating is at least the minimum, and it is in stock or the stock filter is off. |
| `ProductListing.Filtered` | src/pages/ProductListing.jsx:57-76 | The result is never longer than the list. |
| `ProductListing.FilteredMembers` | src/pages/ProductListing.jsx:57-76 | A product is kept exactly when all of these hold: it matches the search; its price lies in [low, high]; its rating is at least the minimum; and it is in stock or the stock filter is off. |
| `ProductListing.KeptPositionsExact` | src/pages/ProductListing.jsx:58-75 | The listed positions are exactly those whose product passes the filters. |
| `ProductListing.KeptPositionsEmbed` | src/pages/ProductListing.jsx:58 | The products at the listed positions, in increasing order, are the filtered list. |
| `ProductListing.FilteredIsSubsequence` | src/pages/ProductListing.jsx:58-75 | The filtered list is the subsequence of the input at exactly the positions whose product passes, in the same relative order. A repeated product that passes is therefore kept every time. |
| `ProductListing.FilteredKeepsAll` | src/pages/ProductListing.jsx:58-75 | When every product passes, the list comes back unchanged. |
| `ProductListing.SearchIgnoresQueryCase` | src/pages/ProductListing.jsx:60-62 | The query's case does not matter. |
| `ProductListing.SearchMatchesTitle` | src/pages/ProductListing.jsx:60-62 | The empty query matches everything. A query found in the title matches. |
| `ProductListing.InsertPermutes` | src/pages/ProductListing.jsx:80-88 | Inserting adds exactly the new product. |
| `ProductListing.InsertSorted` | src/pages/ProductListing.jsx:80-88 | Inserting keeps a sorted list sorted. |
| `ProductListing.SortByKeySorted` | src/pages/ProductListing.jsx:80-88 | The sort orders the list by the comparator's key and is a permutation of the list. |
| `ProductListing.InsertLargest` | src/pages/ProductListing.jsx:80-88 | A product whose key is at least every other key goes last. |
| `ProductListing.SortByKeyFixesSorted` | src/pages/ProductListing.jsx:80-88 | Sorting an already ordered list changes nothing, because the sort is stable. |
| `ProductListing.InsertAfterEqualKeys` | src/pages/ProductListing.jsx:80-88 | Inserting into a sorted list puts the new product after every product with the same key. |
| `ProductListing.SortByKeyStable` | src/pages/ProductListing.jsx:80-88 | The sort is stable: for every key, the products with that key come out in the order they went in. |
| `ProductListing.SortedProductsStable` | src/pages/ProductListing.jsx:79-95 | Under every option, products that tie under its comparator keep their listed order. |
| `ProductListing.SortedProducts` | src/pages/ProductListing.jsx:79-95 | The result is always a permutation of the list. "price-low" sorts ascending by price, "price-high" descending by price and "rating" descending by rating. Every other option returns the list unchanged. |
| `ProductListing.MaxPrice` | src/pages/ProductListing.jsx:40 | The result is the largest price of a non-empty list. |
| `ProductListing.CeilDiv` | src/pages/ProductListing.jsx:43 | Rounds a quotient up. |
| `ProductListing.PriceCeiling` | src/pages/ProductListing.jsx:39-44 | The ceiling is a multiple of 100 dollars. It is at least every price and less than the highest price plus 100 dollars. |
| `ProductListing.CategoryName` | src/pages/ProductListing.jsx:97-107 | `getCategoryName`: the heading of each of the six slugs, and "All Products" otherwise. |
| `ProductListing.CategoryNames` | src/pages/ProductListing.jsx:97-107 | The six slugs get six different headings. Every other slug, and a missing one, gets "All Products". |
| `ProductListing.Listing.constructor` | src/pages/ProductListing.jsx:10-28 | The listing starts with no products, an empty query, the range [0, 2000] dollars, rating 0, the stock filter off and "featured". |
| `ProductListing.Listing.Loaded` | src/pages/ProductListing.jsx:31-54 | The products are replaced. A non-empty list sets the range to [0, ceiling] and keeps the other filters. |
| `ProductListing.Listing.HandlePriceChange` | src/pages/ProductListing.jsx:109-114 | Only the price range changes. |
| `ProductListing.Listing.SetSearchQuery` | src/pages/ProductListing.jsx:151 | Only the query changes. |
| `ProductListing.Listing.SetSortOption` | src/pages/ProductListing.jsx:180 | Only the sort option changes. |
| `ProductListing.Listing.SetMinRating` | src/pages/ProductListing.jsx:224 | Only the minimum rating changes. |
| `ProductListing.Listing.SetInStock` | src/pages/ProductListing.jsx:244 | Only the stock filter changes. |
| `ProductListing.Listing.Shown` | src/pages/ProductListing.jsx:57-95 | The grid shows the filtered products, sorted by the current option. |
| `ProductListing.Listing.ClearAllFilters` | src/pages/ProductListing.jsx:116-124 | Resets the query to "", the range to [0, highest price], rating to 0, the stock filter to off and the sort to "featured". With no products the range ends at `-Infinity`. With non-negative prices and ratings, every product is shown again, in its order. |
| `ProductListing.LoadedShowsAll` | src/pages/ProductListing.jsx:39-75 | After loading with the initial filters, every product with a non-negative price and rating is shown. |
| `OrderDetailsPage.StatusSteps` | src/pages/account/OrderDetailsPage.jsx:37-51 | There are three steps, processing, shipped and delivered, in that order. Processing is always complete. Shipped is complete exactly for shipped or delivered. Delivered is complete exactly for delivered. A cancelled order marks the last two cancelled. Complete steps form a prefix. A step that is neither complete nor cancelled is pending. |
| `OrderDetailsPage.GetStatusSteps` | src/pages/account/OrderDetailsPage.jsx:37-51 | Building the steps and overwriting them in place for a cancelled order yields the steps of the status. |
| `OrderDetailsPage.StatusIcon` | src/pages/account/OrderDetailsPage.jsx:28-35 | `getStatusIcon`: a truck for shipped, a check for delivered, a cross for cancelled, and a clock otherwise. |
| `OrderDetailsPage.IconAgreesWithSteps` | src/pages/account/OrderDetailsPage.jsx:28-35 | The icon is a check exactly when all steps are complete, and a cross exactly when a step is cancelled. It is a truck exactly when shipped is complete and delivered is not. |
| `OrderDetailsPage.Render` | src/pages/account/OrderDetailsPage.jsx:7-26 | The view is not-found exactly when no order has the id. Otherwise it shows an order of the ledger with that id, and its steps. |
| `OrderDetailsPage.CheckoutOrderShowsNoNameOrPictures` | src/pages/account/OrderDetailsPage.jsx:128-163 | For an order from the single-page checkout, the page shows a blank name and no state or zip code, and no item has a picture. |
| `OrderDetailsPage.ConfirmationOrderShowsDraft` | src/pages/account/OrderDetailsPage.jsx:128-163 | For an order from the confirmation step, the page shows the draft's name, city, state, zip code and the item thumbnails. |
| `ProductDetail.ClicksKeepQuantityInRange` | src/pages/ProductDetail.jsx:113-127 | Through any clicks on the buttons, the quantity stays at least 1. It stays within stock, or at 1 for a product out of stock. |
| `ProductDetail.PlusClicksAdd` | src/pages/ProductDetail.jsx:121-124 | Clicks on an enabled "+" add one each. |
| `ProductDetail.Stepper.constructor` | src/pages/ProductDetail.jsx:14 | The quantity starts at 1. |
| `ProductDetail.Stepper.Decrement` | src/pages/ProductDetail.jsx:114 | The new quantity is `max(1, q - 1)`, so it is never below 1. |
| `ProductDetail.Stepper.Increment` | src/pages/ProductDetail.jsx:122 | The handler adds 1 with no bound of its own. |
| `ProductDetail.Stepper.MinusEnabled` | src/pages/ProductDetail.jsx:116 | "-" is enabled exactly when the quantity is above 1. |
| `ProductDetail.Stepper.PlusEnabled` | src/pages/ProductDetail.jsx:124 | "+" is enabled exactly when the quantity is below the stock. |
| `ProductDetail.Stepper.Click` | src/pages/ProductDetail.jsx:113-127 | A click changes the quantity as `AfterClicks` does for one click. A disabled button does nothing. |
| `ProductDetail.Stepper.HandleAddToCart` | src/pages/ProductDetail.jsx:33-34 | The current product and the current quantity are passed on. |
| `Auth.Registered` | src/context/AuthContext.jsx:43-47 | The token is always "dummy-jwt-token". A `userData.id` overrides the generated id. Every other key of `userData` is kept. |
| `Auth.UserField` | src/pages/CheckoutPage.jsx:101 | `user?.id \|\| null`, and likewise `user?.email`: the value is present exactly when there is a user whose field is non-empty, and then it is that field. |
| `Auth.Session.constructor` | src/context/AuthContext.jsx:10-16 | The user is the stored one if present, else null. |
| `Auth.Session.Login` | src/context/AuthContext.jsx:18-37 | Login succeeds exactly for the demo credentials, with the fixed user of id "1", which is also stored. Otherwise it is rejected with "Invalid email or password" and nothing changes. |
| `Auth.Session.Register` | src/context/AuthContext.jsx:39-53 | The user becomes the registered record, and it is stored. |
| `Auth.Session.Logout` | src/context/AuthContext.jsx:55-59 | The user is null and the stored key is removed. |
| `Auth.LoginIdentity` | src/context/AuthContext.jsx:23-28 | The demo user's id is "1" and its e-mail is the demo address. |
| `CartStore.Cart.ClearCart` | src/pages/CheckoutPage.jsx:108 | No lines are left, and count and total are 0. |

## Left out

- The cart store (`src/context/CartContext.jsx`) is not part of this model. Its lines, count and total are inputs, and `clearCart` is an effect that empties it. How the count and total are computed is not modelled.
- Network I/O is not modelled: the product fetches, and the loading and error views of the listing and detail pages. The products a page receives are a parameter.
- Browser storage and JSON are abstracted.
  - The stored ledger is a value (`Orders.Stored`): absent, unparseable, not an array, or an array of entries.
  - The stored user is an `Option`.
  - A stored user that fails to parse is not modelled.
- Clocks and randomness are parameters: `now`, `date`, `trackingDraw`, `draw`, and the register id `generatedId`.
- Floating point is not modelled. Prices are whole cents, ratings are hundredths, and display formatting (`toFixed`, `toLocaleDateString`) is left out.
- The "newest" sort is modelled as the identity, because product records carry no `createdAt`, so every comparison returns 0. Real dates are not modelled.
- The e-mail regex engine is not used. The check is an explicit predicate, proved equal to the A@B.C pattern.
- Base.Lower: lower-cases ASCII letters only. `toLowerCase` also maps other scripts, so for non-ASCII text the search is stated for ASCII case folding only.
- Asynchrony and React scheduling are not modelled: the `setTimeout` delays in login and register, `await`, re-renders and effect timing.
  - Each effect is a method called at the point it runs.
  - The confirmation page recomputes its order number and date on every render. What it displays after a re-render is not modelled; only the number its mount effect records is.
- Console logging and the error-message state of the orders provider are not modelled.
- Orders are records with the fields the pages use. Non-object entries in storage are `NonRecord`. Ids, dates and statuses are strings.
- Presentation and routing are not modelled: markup, toasts, links, and the `navigate` state. Only the outcome of a checkout submission and the route of the payment step are kept.
- CheckoutPage.Page.HandleSubmit: an exception is taken to come only from `clearCart`, and before it changes the cart, because `addOrder` catches its own errors. Other exception sources in the unseen cart store are not modelled.
- ProductDetail.Stepper.constructor: the page keeps its quantity when the route id changes. The model makes one stepper per shown product, so that carry-over is not captured.

## Findings

| source | as written | input that shows it | evidently intended | confidence | as-written member | corrected member |
|---|---|---|---|---|---|---|
| src/pages/CheckoutPage.jsx:105-108 | The value `addOrder` returns is ignored, so the cart is cleared and the order confirmed even when the ledger did not take the order. `addOrder` silently keeps the older order when the id is already present (src/context/OrdersContext.jsx:70-73). | The id is `ORD-` followed by `Date.now()`. Suppose the ledger already holds an order under that id, because the clock was set back or two submissions fell in one millisecond. Then the new order is confirmed and the cart emptied, while the ledger keeps the older order. A non-number `cartTotal` would also be rejected, but it cannot reach the submit, because the summary's `cartTotal.toFixed(2)` (line 374) throws first. | Clear the cart and confirm only when the ledger holds the order. Otherwise show the failure message and keep the cart. | not executed; the ignored result is certain, but reaching it needs a repeated `Date.now()`, which is rare | `CheckoutPage.DuplicateOrderStillClearsCart` (using `CheckoutPage.Page.HandleSubmit`) | `CheckoutPage.Page.HandleSubmitChecked` (with `CheckoutPage.DuplicateOrderKeepsCart`) |
| src/pages/checkout/PaymentPage.jsx:21 | The payment step clears the cart before the confirmation step builds its order from `cart` and `cartTotal` (src/pages/checkout/ConfirmationPage.jsx:23-31). | Any non-empty cart and a complete draft: the recorded order has no items and total 0. | Record the order from the cart as the customer left it, then clear the cart. | not executed; high, assuming the cleared cart is what the confirmation page reads when it mounts (these routes are not wired in src/App.jsx) | `CheckoutFlow.PayThenConfirm` | `CheckoutFlow.ConfirmThenClear` |
