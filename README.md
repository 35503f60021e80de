# Ananta storefront: persistence, session, cart and checkout in Dafny

This project models the core of the Ananta perfume storefront, a React single-page
application. The model covers its IndexedDB persistence layer (`IndexedDBManager`
with the `users`, `cart` and `orders` object stores). It covers the session
provider, which holds the signed-in user, a startup `loading` flag and the
remembered email in `localStorage`. It covers the cart provider, which keeps an
in-memory mirror of the user's cart rows. It also covers the pages that validate
and sequence a purchase:

- the login form;
- the product modal's quantity stepper;
- checkout's totals and shipping form;
- payment's card formatters, validator and order placement;
- the order history;
- the route guards.

State that the source changes in place is modelled as classes with `modifies`
clauses:

- `Db.IndexedDBManager`;
- `AuthContext.Session`;
- `CartContext.CartManager`;
- `OrdersPage.OrdersPageState`;
- `ProductModal.Modal`;
- `Payment.PaymentPage`.

Pure logic is modelled as functions with lemmas: formatters, validators, totals,
the order id, sorting, the toggle, the guards and the catalog.

Store and clock behaviour the code cannot see is passed in as parameters:

- every store operation takes `ioFault`, the verdict of the underlying request. A fault changes no record and no key generator.
- `Date.now()` and `new Date().toISOString()` readings are caller-supplied.

The invariant that ties the cart mirror to the store is `CartContext.CartManager.Synced`.
It says the mirror equals the user's rows of the `cart` store, read through the
`userEmail` index in ascending key order. Every cart operation preserves it.

Module layout (one file per module):

- `wrappers.dfy` (`Option`, `Outcome`)
- `text.dfy` (white space, digits, `trim`)
- `catalog.dfy` (`products.js`)
- `records.dfy` (stored records)
- `index_scan.dfy` (`index.getAll`)
- `object_store.dfy` (`db.js`)
- `auth_context.dfy`
- `cart_context.dfy`
- `order_id.dfy` (`generateOrderId`)
- `checkout.dfy`
- `payment.dfy`
- `orders_page.dfy`
- `login_page.dfy`
- `product_modal.dfy`
- `app_routes.dfy`

Two facts of the code that the model keeps:

- Product 3's 100ml price is 1800 (`src/data/products.js:23`); the two-product sample cart totals 2798.
- At startup, a remembered email whose user record is missing yields no user and keeps the pointer (`src/context/AuthContext.js:22-28`). Only a failed lookup clears it.

## Model

| member | source | states |
|---|---|---|
| Catalog.CatalogIds | src/data/products.js:1-74 | nine products, ids 1..9 in order, pairwise distinct |
| Catalog.CatalogPrices | src/data/products.js:1-74 | every price positive; each 100ml price is above the 50ml price and below twice it |
| Catalog.PriceFor | src/context/CartContext.js:53 | exactly "50ml" is priced at `price50ml`; every other size string at `price100ml` |
| Text.TrimEmptyIffBlank | src/pages/Checkout.js:40 | `s.trim()` is empty iff every character of `s` is ECMAScript white space, so `!s.trim()` means "blank" |
| Text.RemoveSpacesOfTrim | src/pages/Payment.js:54 | trimming after deleting white space changes nothing: `trim` only removes white space |
| Text.RemoveSpacesAppend | src/pages/Payment.js:33 | `replace(/\s/g, '')` distributes over concatenation |
| Text.KeepDigitsAppend | src/pages/Payment.js:36 | `replace(/\D/g, '')` distributes over concatenation |
| Text.RemoveSpaces | src/pages/Payment.js:33 | `replace(/\s/g, '')`: no white space is left and nothing is added; `RemoveSpacesAppend` gives its meaning over concatenation |
| Text.KeepDigits | src/pages/Payment.js:36 | `replace(/\D/g, '')`: only digits are left and nothing is added; `KeepDigitsAppend` gives its meaning over concatenation |
| Text.Trim | src/pages/Checkout.js:40 | `trim()`: the result is no longer than the input and neither starts nor ends with white space; `TrimEmptyIffBlank` states when it is empty |
| IndexScan.ScanMembers | src/utils/db.js:84-85 | `index.getAll(e)` yields exactly the stored records whose index value is `e` |
| IndexScan.Scan | src/utils/db.js:84-85 | every record `index.getAll(e)` yields has index value `e`; `ScanMembers`, `ScanSorted` and `ScanCount` state the rest |
| IndexScan.ScanSorted | src/utils/db.js:84-85 | the records come in strictly ascending primary-key order |
| IndexScan.ScanCount | src/utils/db.js:131-132 | the scan's length is the number of matching keys |
| IndexScan.ScanAddLast | src/utils/db.js:72-74 | a record added under a key above all others appears last in its owner's scan |
| Db.UpgradedSchema | src/utils/db.js:21-39 | the upgrade adds each of `users`, `cart`, `orders` only when missing, with its key path, auto-increment and indexes; existing stores are kept |
| Db.UpgradeIdempotent | src/utils/db.js:24-38 | running the upgrade again changes nothing |
| Db.IndexedDBManager.constructor | src/utils/db.js:1-20 | a fresh database: no stores, no records, both key generators at 1 |
| Db.IndexedDBManager.InitDB | src/utils/db.js:21-39 | the store schema becomes the upgraded schema and the records are kept |
| Db.IndexedDBManager.AddUser | src/utils/db.js:43-53 | an email already stored is a constraint error and the stored user is unchanged; otherwise the user is stored under their email |
| Db.IndexedDBManager.GetUser | src/utils/db.js:55-65 | returns the stored user for the email, or none when absent |
| Db.IndexedDBManager.AddToCart | src/utils/db.js:67-77 | the row is stored under a fresh key above every existing key; that key is returned and the generator moves past it |
| Db.IndexedDBManager.GetCartItems | src/utils/db.js:79-90 | exactly the user's cart rows, in ascending id order |
| Db.IndexedDBManager.UpdateCartItem | src/utils/db.js:92-112 | an absent id is rejected with "Item not found" and nothing changes; otherwise only that row's `quantity` changes |
| Db.IndexedDBManager.RemoveCartItem | src/utils/db.js:114-124 | only that key is deleted; an absent key still succeeds |
| Db.IndexedDBManager.ClearCart | src/utils/db.js:126-150 | the cart becomes the rows of other users; the result is the number of rows removed |
| Db.IndexedDBManager.DeleteRowsOf | src/utils/db.js:131-145 | deleting each scanned row removes exactly `e`'s rows and counts them |
| Db.IndexedDBManager.DeleteEach | src/utils/db.js:136-142 | one `delete` per fetched row removes exactly those rows' keys |
| Db.IndexedDBManager.AddOrder | src/utils/db.js:152-162 | the order is stored under a fresh key above every existing order key, which is returned |
| Db.IndexedDBManager.GetOrders | src/utils/db.js:164-175 | exactly the user's orders, in ascending id order |
| Db.ClearPartition | src/utils/db.js:131-145 | deleting the scanned keys leaves exactly the other owners' rows; before = after + scanned |
| Db.ClearAgainRemovesNothing | src/utils/db.js:131-145 | after a clear the owner has no rows, so a second clear removes nothing and resolves with 0 |
| AuthContext.RememberedEmail | src/context/AuthContext.js:20-21 | the pointer counts only when present and non-empty |
| AuthContext.Lookup | src/context/AuthContext.js:23 | a user is found iff one is stored under the email, and then it is the stored one |
| AuthContext.Session.constructor | src/context/AuthContext.js:15-16 | no user, loading |
| AuthContext.Session.CheckAuth | src/context/AuthContext.js:18-34 | no pointer gives no lookup; a failed lookup clears the pointer; otherwise the user is whatever is stored, none when missing, and the pointer stays; loading ends in every case |
| AuthContext.Session.Login | src/context/AuthContext.js:36-49 | succeeds iff a stored user has that email and exactly that password; success sets the user and remembers the email; failure changes neither and reports the lookup error or invalid credentials |
| AuthContext.Session.Signup | src/context/AuthContext.js:51-72 | an existing email fails with "Email already exists" and writes nothing; success stores `{name, email, password, createdAt}`, signs in and remembers |
| AuthContext.Session.Logout | src/context/AuthContext.js:74-77 | no user and no remembered email; idempotent |
| AuthContext.SignupThenLogin | src/context/AuthContext.js:39 | after a signup, a login with the same credentials succeeds |
| AuthContext.LogoutThenRestart | src/context/AuthContext.js:18-34 | after a logout the next start is anonymous, although the user record is still stored |
| CartContext.SumsAppend | src/context/CartContext.js:110-116 | total and count are 0 on the empty cart and additive over concatenation |
| CartContext.CartTotal | src/context/CartContext.js:110-112 | 0 on the empty cart and price × quantity on a one-line cart; with `SumsAppend` this fixes the total of every cart |
| CartContext.CartCount | src/context/CartContext.js:114-116 | 0 on the empty cart and the quantity on a one-line cart; with `SumsAppend` this fixes the count of every cart |
| CartContext.SumsNonNegative | src/context/CartContext.js:110-116 | non-negative prices and quantities give non-negative sums |
| CartContext.SampleCartSums | src/context/CartContext.js:110-116 | product 1 at 50ml ×2 plus product 3 at 100ml ×1 totals 2798 with count 3 |
| CartContext.NewLine | src/context/CartContext.js:46-55 | the new row carries the user's email, the product's id, name and image, the size, the quantity, the size's price and the time stamp |
| CartContext.WithQuantity | src/context/CartContext.js:75-77 | same length; every row keeps all fields but `quantity`, which becomes the new one exactly for rows with that id |
| CartContext.WithoutId | src/context/CartContext.js:89 | keeps exactly the entries with a different id |
| CartContext.WithoutIdAppend | src/context/CartContext.js:89 | the filter distributes over concatenation, so order is kept |
| CartContext.WithoutIdIdempotent | src/context/CartContext.js:89 | removing an id twice is removing it once |
| CartContext.ScanAfterUpdate | src/context/CartContext.js:73-78 | updating the store row and mapping the mirror give the same list |
| CartContext.ScanAfterRemove | src/context/CartContext.js:88-89 | deleting the store row and filtering the mirror give the same list |
| CartContext.ScanAfterAdd | src/context/CartContext.js:57-59 | the user's rows after the add are the rows before, then the new one |
| CartContext.ScanAfterClear | src/context/CartContext.js:101-102 | after the clear the user has no rows, matching the emptied mirror |
| CartContext.CartManager.constructor | src/context/CartContext.js:16-17 | empty mirror, loading |
| CartContext.CartManager.LoadCartItems | src/context/CartContext.js:29-40 | with a user, the mirror becomes that user's stored rows and loading ends; a failed read keeps the mirror; with no user nothing changes |
| CartContext.CartManager.UserChanged | src/context/CartContext.js:20-27 | with no user the mirror is emptied; otherwise it is loaded; loading ends; the mirror is in sync unless the read failed |
| CartContext.CartManager.AddToCart | src/context/CartContext.js:42-65 | with no user, fails with "Please login…" and touches nothing; otherwise stores one row under a fresh key and appends it, with that key as id, to the mirror, with no merging; a failed write changes nothing; sync is preserved |
| CartContext.CartManager.RemoveFromCart | src/context/CartContext.js:86-95 | deletes the row and drops every mirror entry with that id, keeping the rest in order; a failed delete changes nothing; sync is preserved |
| CartContext.CartManager.UpdateQuantity | src/context/CartContext.js:67-84 | a quantity ≤ 0 behaves as `RemoveFromCart`; a positive one changes only that id's quantity in store and mirror; a rejected update keeps the mirror; sync is preserved |
| CartContext.CartManager.ClearCart | src/context/CartContext.js:97-108 | with no user returns nothing and changes nothing; otherwise deletes the user's rows and empties the mirror; a failure is returned as a value; sync is preserved |
| OrderIds.DecimalRoundTrip | src/pages/Payment.js:82 | `toString()` of a timestamp is all digits and reads back as the same number |
| OrderIds.OrderId | src/pages/Payment.js:81-83 | the id is "ANT" followed by 1 to 8 digits; `OrderIdShape` states which digits |
| OrderIds.OrderIdShape | src/pages/Payment.js:81-83 | the id is "ANT" then the last ≤ 8 digits of the timestamp, reading as the timestamp mod 10^8; from 10^7 ms on it is 11 characters |
| OrderIds.DigitsInjective | src/pages/Payment.js:82 | two digit strings of equal length with the same value are equal |
| OrderIds.OrderIdCollision | src/pages/Payment.js:81-83 | for timestamps past 10^7, two ids coincide iff the timestamps agree mod 10^8 |
| Checkout.InitialAddress | src/pages/Checkout.js:13-19 | the form starts with the user's name and all else empty |
| Checkout.Handover | src/pages/Checkout.js:23-26 | the payment page receives the form's address and the cart total as the amount due; `HandoverTotals` states tax and the original total |
| Checkout.HandoverTotals | src/pages/Checkout.js:23-26 | the handed-over total equals the subtotal (the cart total), tax is a tenth of it and `originalTotal = total × 1.1` |
| Checkout.ShippingErrors | src/pages/Checkout.js:37-66 | error keys are only the five form fields (meaning in `ShippingErrorsSpec`) |
| Checkout.ShippingErrorsSpec | src/pages/Checkout.js:37-66 | name, address and city fail iff blank; phone fails iff not 10 ASCII digits after removing white space; pincode fails iff not exactly 6 ASCII digits as typed; each with the source's message, "required" when blank |
| Checkout.ValidPhone | src/pages/Checkout.js:46 | a passing phone number has at least 10 characters as typed; `ShippingErrorsSpec` states the full test |
| Checkout.ValidPincode | src/pages/Checkout.js:60 | a passing pincode contains no white space; `SamplePincodeWithSpace` shows one rejected |
| Checkout.ShippingValidIff | src/pages/Checkout.js:65 | the form is valid iff every field passes |
| Checkout.DigitPhoneValid | src/pages/Checkout.js:46 | ten typed digits are a valid phone number |
| Checkout.SamplePincodeWithSpace | src/pages/Checkout.js:60 | " 411001" is rejected as an invalid pincode: no white-space stripping |
| Checkout.Submit | src/pages/Checkout.js:68-79 | an empty cart redirects to the cart; payment is reached iff the cart is non-empty and the form valid, with the address and totals; otherwise the errors show |
| Payment.CardFormatUnspaced | src/pages/Payment.js:33 | deleting the formatted number's spaces gives the input with all white space removed |
| Payment.CardFormatIdempotent | src/pages/Payment.js:33 | formatting a formatted number changes nothing |
| Payment.GroupDigitsUnspaced | src/pages/Payment.js:33 | grouping only inserts spaces |
| Payment.CardFormat | src/pages/Payment.js:33 | the formatted number neither starts nor ends with white space; `CardFormatUnspaced` and `CardFormatIdempotent` state the rest |
| Payment.ExpiryFormat | src/pages/Payment.js:36 | either four or more digits with a `/` after the first two, or at most three bare digits; at most one character longer than the input |
| Payment.CardFormatOfSixteen | src/pages/Payment.js:33 | 16 digits show as four groups of four, 19 characters |
| Payment.CvvFormat | src/pages/Payment.js:39 | at most 3 characters, all digits |
| Payment.ExpiryFormatSpec | src/pages/Payment.js:36 | the output's digits are the input's digits; it matches `^\d{2}/\d{2}$` iff exactly four digits were typed |
| Payment.CvvFormatSpec | src/pages/Payment.js:39 | the output is a prefix of the typed digits; it matches `^\d{3}$` iff at least three digits were typed |
| Payment.CardErrorsSpec | src/pages/Payment.js:50-79 | number fails iff its white-space-free length is not 16; expiry iff not `^\d{2}/\d{2}$`; CVV iff not `^\d{3}$`; name iff blank; each with the source's message |
| Payment.CardErrors | src/pages/Payment.js:50-79 | the number fails iff its white-space-free length is not 16 and the name fails iff blank; `CardErrorsSpec` states all four fields |
| Payment.CardValidIff | src/pages/Payment.js:50-79 | the card form passes iff all four checks pass |
| Payment.FormattedCardPasses | src/pages/Payment.js:29-79 | what the formatters make of 16, 4 and 3 typed digits and a non-blank name passes validation |
| Payment.CardNumberVerdictStable | src/pages/Payment.js:33-58 | formatting the card number never changes its verdict |
| Payment.ScreenAsWritten | src/pages/Payment.js:128-133 | a missing address or an empty cart redirects to the cart whatever `orderPlaced` says; the confirmation shows only for a placed order with address and items |
| Payment.Screen | src/pages/Payment.js:128-133 | the confirmation shows iff the order is placed |
| Payment.ScreensDisagree | src/pages/Payment.js:128-133 | the two differ exactly on a placed order with an empty cart or no address; `ScreenAsWritten(true, 0, true)` redirects |
| Payment.PaymentPage.constructor | src/pages/Payment.js:15-27 | card method, empty card form and errors, not processing, not placed, empty id |
| Payment.PaymentPage.SelectMethod | src/pages/Payment.js:17 | the method becomes the chosen one |
| Payment.PaymentPage.HandleCardChange | src/pages/Payment.js:29-48 | the field stores its formatter's output (the name as typed); that field's non-empty error is blanked, all others kept |
| Payment.PaymentPage.SetField | src/pages/Payment.js:32-43 | each field's formatter, the others unchanged |
| Payment.PaymentPage.ClearError | src/pages/Payment.js:45-47 | a non-empty message for the field becomes ""; nothing else changes |
| Payment.PaymentPage.NewOrder | src/pages/Payment.js:99-110 | the order has the new id, the user, the cart lines, the handed-over address and totals, the method, the date and status "confirmed" |
| Payment.PaymentPage.ValidateCardDetails | src/pages/Payment.js:50-79 | the errors become the card errors; passes iff there are none |
| Payment.PaymentPage.PlaceOrder | src/pages/Payment.js:92-121 | the new id is shown; with a user the order is written first, and only when stored is the cart cleared and the order marked placed, even if the clear fails; a failed write clears nothing; processing ends; after a successful write and clear, the page as written redirects while the intended screen confirms |
| Payment.PaymentPage.SaveAndClear | src/pages/Payment.js:112-115 | the order is stored under a fresh key; once stored, the cart is cleared (unless that fails) and the order marked placed |
| Payment.PaymentPage.HandlePayment | src/pages/Payment.js:85-122 | with the card method, invalid details set the errors and change nothing else; UPI and net banking skip validation; a submitted payment places the order as `PlaceOrder` states |
| OrdersPage.SortFacts | src/pages/Orders.js:19 | the sort is newest first, a permutation of the stored list, and keeps the relative order of orders with equal dates |
| OrdersPage.SortSorted | src/pages/Orders.js:19 | a newest-first list is left as it is |
| OrdersPage.InsertPermutes | src/pages/Orders.js:19 | insertion adds exactly one element |
| OrdersPage.InsertSorted | src/pages/Orders.js:19 | insertion keeps a newest-first list newest first |
| OrdersPage.SortNewestFirst | src/pages/Orders.js:19 | the sort keeps the length; `SortFacts` states newest first, permutation and stability |
| OrdersPage.InsertKeepsDateOrder | src/pages/Orders.js:19 | inserting an order puts it ahead of the orders of its own date and keeps theirs in order |
| OrdersPage.Toggle | src/pages/Orders.js:30-32 | at most one order, the toggled one, ends up expanded |
| OrdersPage.ToggleFacts | src/pages/Orders.js:30-32 | toggling the expanded id collapses it; any other id expands just that one; toggling twice from collapsed collapses again |
| OrdersPage.StatusColor | src/pages/Orders.js:45-58 | every unknown status gets the gray class |
| OrdersPage.StatusColorsDistinct | src/pages/Orders.js:45-58 | the four known statuses get four distinct classes, none of them gray |
| OrdersPage.StatusLabel | src/pages/Orders.js:107 | same length; the first character upper-cased, the rest unchanged |
| OrdersPage.ConfirmedLabel | src/pages/Orders.js:107 | "confirmed" is shown as "Confirmed" |
| OrdersPage.OrdersPageState.constructor | src/pages/Orders.js:9-11 | no orders, loading, nothing expanded |
| OrdersPage.OrdersPageState.LoadOrders | src/pages/Orders.js:13-28 | with no user nothing changes; otherwise loading ends and, unless the read fails, the list is the user's stored orders, newest first and a permutation of them |
| OrdersPage.OrdersPageState.ToggleOrderExpansion | src/pages/Orders.js:30-32 | the expanded id becomes the toggled value |
| OrdersPage.SharedIdExpandsBoth | src/pages/Orders.js:30-32 | expansion is keyed on the display id, so orders with colliding ids expand together |
| LoginPage.EmailMatchesIff | src/pages/Login.js:32 | the scanner accepts iff some `@` has a non-space before it, then non-spaces, a `.` and a non-space |
| LoginPage.Unanchored | src/pages/Login.js:32 | text around a matching email keeps it matching |
| LoginPage.SampleEmails | src/pages/Login.js:32 | "asha@ananta.in" matches and "asha@ananta" does not |
| LoginPage.LoginErrors | src/pages/Login.js:27-44 | empty email is required; an unmatched email is invalid; empty password is required; under 6 characters is too short; no general error |
| LoginPage.LoginValidIff | src/pages/Login.js:27-44 | the form passes iff the email matches the pattern and the password has at least 6 characters |
| LoginPage.HandleSubmit | src/pages/Login.js:46-64 | an invalid form shows its errors and never touches the session; a valid one calls `login`, goes to products iff it succeeds, and otherwise shows its message as the general error |
| ProductModal.Increased | src/components/ProductModal.js:21-25 | one more below 10; unchanged at or above 10 |
| ProductModal.Decreased | src/components/ProductModal.js:27-31 | one less above 1; unchanged at or below 1 |
| ProductModal.RunInRange | src/components/ProductModal.js:5-31 | from a quantity in 1..10, any run of clicks stays in 1..10 |
| ProductModal.AtBoundsNoOp | src/components/ProductModal.js:22-28 | increasing at 10 and decreasing at 1 are no-ops |
| ProductModal.IncreaseThenDecrease | src/components/ProductModal.js:21-31 | below 10, increase then decrease restores the quantity |
| ProductModal.SizesDoNotMatter | src/components/ProductModal.js:21-31 | size clicks never move the quantity |
| ProductModal.InitialLine | src/components/ProductModal.js:5-6 | the initial choice adds one bottle at the 50ml price |
| ProductModal.Modal.constructor | src/components/ProductModal.js:5-7 | size "50ml", quantity 1, not loading, open |
| ProductModal.Modal.IncreaseQuantity | src/components/ProductModal.js:21-25 | the quantity becomes `Increased` of the old one; the 1..10 bound is kept |
| ProductModal.Modal.DecreaseQuantity | src/components/ProductModal.js:27-31 | the quantity becomes `Decreased` of the old one; the 1..10 bound is kept |
| ProductModal.Modal.SelectSize | src/components/ProductModal.js:5 | the size becomes the chosen one |
| ProductModal.Modal.Click | src/components/ProductModal.js:21-31 | a run of clicks leaves the quantity at `Run` of the old one, within the bound |
| ProductModal.Modal.Price | src/components/ProductModal.js:33 | `price50ml` for "50ml", `price100ml` otherwise |
| ProductModal.Modal.TotalPrice | src/components/ProductModal.js:34 | the unit price for the size times the quantity |
| ProductModal.Modal.HandleAddToCart | src/components/ProductModal.js:9-19 | the modal closes iff the cart reports success, which happens iff a user is signed in and the write succeeds; the added line is the modal's product, size and quantity; loading ends |
| AppRoutes.ProtectedRoute | src/App.js:14-26 | spinner iff loading; afterwards the page iff a user is present, else a redirect to `/login` |
| AppRoutes.PublicRoute | src/App.js:28-40 | spinner iff loading; afterwards the page iff no user, else a redirect to `/products` |
| AppRoutes.Route | src/App.js:44-81 | a location finds a route iff, lower-cased and without trailing slashes, it is one of the eight route paths |
| AppRoutes.Table | src/App.js:44-81 | exactly the eight route paths have an entry |
| AppRoutes.NormalizeIsPatternMatch | src/App.js:44-81 | for a route path, matching by the router's case-insensitive `^path` plus trailing slashes is the same as normalising to that path |
| AppRoutes.RouteMatchesLikeRouter | src/App.js:44-81 | a location finds a route iff it matches one of the eight route paths the way the router's expressions do |
| AppRoutes.RouteIgnoresCase | src/App.js:45 | "/Login" routes as "/login" |
| AppRoutes.RouteIgnoresTrailingSlashes | src/App.js:60 | "/cart//" routes as "/cart" |
| AppRoutes.RouteRejectsLongerPaths | src/App.js:60 | "/cart/x" finds no route |
| AppRoutes.Visit | src/App.js:17-81 | something shows iff the location finds a route; a page renders only after loading; every redirect goes to `/products` or `/login` |
| AppRoutes.LoadingShowsSpinner | src/App.js:17-37 | while loading, every guarded path shows only the spinner |
| AppRoutes.ExactlyOneGuardRenders | src/App.js:25-39 | once loaded, exactly one of the two guards renders its page, for any user state |
| AppRoutes.RouteTable | src/App.js:45-80 | `/login` and `/signup` are public; products, cart, checkout, payment and orders are protected; `/` redirects to `/products` |
| AppRoutes.RedirectsSettle | src/App.js:25-80 | once loaded, every routed location reaches a rendering page after at most two redirects: the guards do not loop |

## Left out

- The IndexedDB plumbing is left out: `indexedDB.open`, event callbacks, Promise wrappers, transactions and re-opening the database per call (`src/utils/db.js:1-20`). The stores are in-memory maps with key counters. A failing request is the `ioFault` parameter. A fault changes no record.
- `localStorage` is a foreign API. It is one `Option<string>` slot, `Session.remembered`.
- Floating point is left out. Tax is an exact `real` (a tenth of the subtotal), not an IEEE double. `toFixed(2)` display formatting is not modelled.
- Clocks are parameters:
  - `Date.now()` for the order id is `idClock`;
  - `new Date().toISOString()` for `createdAt`/`addedAt` is a caller-supplied string.
- `orderDate` is an integer timestamp in milliseconds. The source stores an ISO string and sorts by parsing it back into a `Date`, which orders like the timestamp. Locale date formatting (`src/pages/Orders.js:34-43`) is left out.
- The two-second `setTimeout` before an order is placed is left out (`src/pages/Payment.js:94`). `PlaceOrder` runs the callback at once. Concurrency is left out too: double clicks, stale closures, re-render timing and `useEffect` scheduling.
- The `loading` flags of the pages and the modal are kept. Only their final values are stated, because no step can observe the intermediate value.
- Db.IndexedDBManager.UpdateCartItem: only the `{ quantity }` patch that the cart provider sends is modelled. The general `Object.assign` of arbitrary fields is left out.
- AppRoutes.Route: letter case is folded for ASCII letters only, and the location is compared as written, without the percent-decoding the router may apply first. Every route path is lower-case ASCII.
- Strings are sequences of Unicode code points, not UTF-16 code units. `toUpperCase` is modelled for ASCII letters only (`OrdersPage.UpperAscii`). Every status the application writes is ASCII.
- CartContext.CartManager.AddToCart: the price is taken from the product passed in. The model does not check that this product is in the catalog, and neither does the source.
- Payment.CardErrorsSpec: the card number check is a length check only, exactly as written. Letters among 16 characters pass. There is no Luhn or expiry-month check.
- `handleChange` of the checkout and login forms only copies the typed value and blanks that field's error. It is not modelled. The payment form's `handleCardChange`, which formats, is modelled.
- LoginPage.HandleSubmit: the `catch` branch ("Login failed. Please try again.", `src/pages/Login.js:59-60`) is unreachable, because `login` catches its own errors and returns them as values. The modelled general error for a store failure is the one `login` returns, which is the same text.
- `src/pages/Signup.js` is not part of this model (it is imported at `src/App.js:6` and not available). `AuthContext.Session.Signup` models the provider's `signup` only.
- Navigation, JSX, styling, icons, `Navbar.js`, `Products.js` and `Cart.js` are left out. `Products.js` only forwards to `addToCart`; `ProductModal.Modal.HandleAddToCart` calls the cart provider directly.
- `maxLength` attributes of inputs are left out. They limit typing in the browser and are not part of the validation logic.

## Findings

| source | as written | input that shows it | evidently intended | confidence | as-written member | corrected member |
|---|---|---|---|---|---|---|
| src/pages/Payment.js:128-133 | the redirect guard (`!shippingAddress \|\| cartItems.length === 0`) runs before the `orderPlaced` check, so once a successful payment has cleared the cart the page navigates to `/cart` instead of showing the confirmation | any payment whose order write and cart clear both succeed: `orderPlaced` true with an empty cart, `ScreenAsWritten(true, 0, true) == RedirectToCart` | a placed order shows the confirmation screen | high; not executed | Payment.ScreenAsWritten, Payment.ScreensDisagree | Payment.Screen |
