# Restaurant customer client — a Dafny model

This project models the state-holding core of a restaurant's customer web client:

- the four shared containers:
  - the cart, with its running total and its `restaurant-cart` local-storage slot;
  - the order list, with `restaurant-orders`;
  - the reservation and its history, with `currentReservation` and `reservationHistory`;
  - the authentication token and customer, with `token` and `user`.
- the page handlers that drive them:
  - the table-booking wizard, in its two copies;
  - the sign-in page with its three-step password reset;
  - the cart page's checkout and its hand-off of the order to the admin service;
  - the staff order page;
  - the menu page and its search;
  - the header's title logic.

## How the model is built

Each container is a `class`:

- Its fields are the container's `useState` cells plus the local-storage slots it writes.
- Its methods are the exported operations.
- In the cart, order and authentication containers, `Valid()` states the write-through invariant: the slot always holds the snapshot of the state.
- The reservation container has no such invariant. Its methods write the `currentReservation` and `reservationHistory` slots explicitly, as the code does. After a re-save, the history slot is not the in-memory history (see the first row under "## Findings").
- Each method's contract gives the new state as a pure transition function of the old one (`Cart.AfterAdd`, `Reservations.Hydrate`, …). The lemmas prove what the client relies on about those functions:
  - the running total equals the sum of the lines (`Cart.RunKeepsTotal`);
  - ids stay unique in the cart and the order list;
  - save-then-load gives back the state of the cart (`Cart.SaveLoadRoundTrip`), and of the reservation container only with the corrected history slot (`Reservations.SaveThenHydrate`);
  - status updates are idempotent.

The page components are classes as well:

- Each handler is one atomic step.
- A remote call's outcome is passed in as a `Reply` or outcome parameter. Clock readings and `Math.random()` are parameters too.
- Because a step runs to completion, the "loading" flags are false between steps, and each `Valid()` says so.

The pure logic is plain functions with lemmas:

- the header title;
- the admin-order transformation in `orderApi.js`;
- the countdown;
- the search filters.

Supporting modules state JavaScript's behaviour once, for every module that uses it:

- `Seqs`: `filter` and `find`;
- `Text`: `toLowerCase`, `includes`, `replace`, `split`, `trim` and `parseInt`;
- `Common`: `Option`, `Slot` (an absent, unparsable or parsed local-storage value) and `Reply`.

Modules: `Common`, `Seqs`, `Text`, `Catalog`, `Cart`, `Orders`, `Reservations`, `Auth` (the container), `AuthPage` (`Auth.jsx`), `Booking`, `OrderApi`, `Checkout`, `AddOrder`, `Menu`, `Header`.

Where the code does something its names or comments do not suggest, the model follows the code:

- At the booking wizard's step 3, a missing token also gives the generic "Missing date, time, table, or token" message. `Booking.MissingMeansTokenOrTable` states when it appears.
- A failed admin hand-off in the checkout records the order twice (`Checkout.RetryRecordsTwice`).
- The menu page's search box shows only on the category list. While that list shows, nothing has been fetched. So typing there lists nothing, and the query filters the items of the next category opened (`Menu.QueryCarriesOver`).
- The staff order page's cart is its own list, not the cart container. It shares the container's line updates (`Cart.WithLineAdded`, `Cart.WithoutLine`) but has no running total.

## Model

| member | source | states |
|---|---|---|
| Common.OrElseChoice | frontend/src/components/Auth.jsx:62 | JavaScript's `||` on strings yields one of its operands, is empty only when both are (so a non-empty default never gives an empty alert), has "" as identity on both sides and is associative, so a chain such as `error || message || "Reservation failed"` gives the first non-empty operand |
| Cart.ItemQuantity | frontend/src/context/CartContext.js:90-93 | 0 when no line has the id; otherwise the quantity of the first line with that id |
| Cart.TotalItems | frontend/src/context/CartContext.js:89 | getTotalItems is at least the number of lines when every quantity is positive |
| Cart.Restore | frontend/src/context/CartContext.js:12-27 | mount-time load: a missing or unparsable slot gives the empty cart with "Cash"; a parsed slot gives its lines (or none) and table number, a payment method defaulted to "Cash", and a total equal to the recomputed sum of price × quantity |
| Cart.AfterAdd | frontend/src/context/CartContext.js:39-51 | after addToCart the item is in the cart, with one extra line only when its id was new; the table and payment are kept |
| Cart.AfterRemove | frontend/src/context/CartContext.js:53-60 | after removeFromCart no line has the id; an absent id changes nothing; the table and payment are kept |
| Cart.AfterUpdate | frontend/src/context/CartContext.js:62-80 | quantity 0 leaves no line with the id; any other quantity keeps the number of lines and makes getItemQuantity of a present item that quantity |
| Cart.AfterClear | frontend/src/context/CartContext.js:82-85 | clearCart leaves no lines and a consistent (zero) total |
| Cart.SaveLoadRoundTrip | frontend/src/context/CartContext.js:12-37 | reloading the saved snapshot gives back the lines and the table, the total when the stored total equals the line sum, and the whole state when a payment method was set |
| Cart.SnapshotOmitsTotal | frontend/src/context/CartContext.js:30-37 | the saved object depends only on the lines, the table number and the payment method |
| Cart.AddToExistingLine | frontend/src/context/CartContext.js:41-46 | adding an id already in the cart increments exactly the lines with that id and adds no line |
| Cart.AddToNewLine | frontend/src/context/CartContext.js:48 | adding a new id appends a line with the item's id, name and price and quantity 1, and keeps ids unique |
| Cart.AddSubtotal | frontend/src/context/CartContext.js:39-51 | with unique ids and an agreeing price, the line sum rises by exactly the price that the running total adds |
| Cart.AddKeepsUnique | frontend/src/context/CartContext.js:39-49 | addToCart keeps one line per id |
| Cart.AddTotalItems | frontend/src/context/CartContext.js:39-49 | getTotalItems rises by one per add (see also frontend/src/context/CartContext.js:89) |
| Cart.AddItemQuantity | frontend/src/context/CartContext.js:39-49 | getItemQuantity of the added item rises by one (see also frontend/src/context/CartContext.js:90-93) |
| Cart.RemoveAbsent | frontend/src/context/CartContext.js:55-56 | removing an absent id changes nothing |
| Cart.WithoutKeepsUnique | frontend/src/context/CartContext.js:58 | after removeFromCart no line has the id, and ids stay unique |
| Cart.RemoveSubtotal | frontend/src/context/CartContext.js:55-58 | removing the line at k lowers the line sum by that line's price × quantity, which is what the total subtracts |
| Cart.SetQuantityShape | frontend/src/context/CartContext.js:68-79 | updateQuantity's map keeps length and order and sets the quantity of exactly the matching lines |
| Cart.SetQuantitySubtotal | frontend/src/context/CartContext.js:69-77 | the new line sum is the old one plus the per-line price differences that the total receives |
| Cart.SetQuantityAbsent | frontend/src/context/CartContext.js:68-79 | updating an absent id changes neither the lines nor the total |
| Cart.QuantityDeltaSingle | frontend/src/context/CartContext.js:71-73 | with unique ids the total changes by (new − old) × price of the one line |
| Cart.AddPreservesConsistency | frontend/src/context/CartContext.js:39-51 | total = line sum and unique ids survive an add of a consistently priced item |
| Cart.RemovePreservesConsistency | frontend/src/context/CartContext.js:53-60 | the invariant survives a remove, and an absent id leaves the state unchanged |
| Cart.UpdatePreservesConsistency | frontend/src/context/CartContext.js:62-80 | the invariant survives a quantity update, including the 0 → remove path |
| Cart.ClearKeepsTableAndPayment | frontend/src/context/CartContext.js:82-85 | clearCart empties the lines and total but keeps the table and payment method |
| Cart.ApplyKeepsPriced | frontend/src/context/CartContext.js:39-85 | each operation keeps every line priced by the menu's price list |
| Cart.RunKeepsTotal | frontend/src/context/CartContext.js:39-85 | any sequence of add/remove/update/clear keeps the running total equal to the line sum, with unique ids |
| Cart.CartStore.Load | frontend/src/context/CartContext.js:12-37 | mount: the state is the restored one, and the slot holds its snapshot |
| Cart.CartStore.AddToCart | frontend/src/context/CartContext.js:39-51 | new state = AfterAdd of the old one; the slot is rewritten |
| Cart.CartStore.RemoveFromCart | frontend/src/context/CartContext.js:53-60 | new state = AfterRemove of the old one |
| Cart.CartStore.UpdateQuantity | frontend/src/context/CartContext.js:62-80 | new state = AfterUpdate; a quantity of 0 is removeFromCart |
| Cart.CartStore.ClearCart | frontend/src/context/CartContext.js:82-85 | new state = AfterClear |
| Cart.CartStore.SetTableNumber | frontend/src/context/CartContext.js:8 | only the table number changes; the slot follows (see also frontend/src/context/CartContext.js:30-37) |
| Cart.CartStore.SetPaymentMethod | frontend/src/context/CartContext.js:9 | only the payment method changes; the slot follows (see also frontend/src/context/CartContext.js:30-37) |
| Orders.Stamp | frontend/src/context/OrderContext.js:29-35 | the placed order is the data with id = decimal clock reading (which parses back to the reading), status "Pending", the placement time and 20 minutes |
| Orders.StampIdsDiffer | frontend/src/context/OrderContext.js:31 | different clock readings give different ids |
| Orders.Restore | frontend/src/context/OrderContext.js:11-21 | a parsed slot gives its list; anything else gives [] |
| Orders.FindOrder | frontend/src/context/OrderContext.js:54-56 | getOrderById: nothing iff no order has the id, else the first order with it |
| Orders.OrdersWithStatus | frontend/src/context/OrderContext.js:58-60 | getOrdersByStatus: exactly the orders with that status, in their original order |
| Orders.SetStatusShape | frontend/src/context/OrderContext.js:43-47 | updateOrderStatus keeps length and order and changes only the status of matching orders |
| Orders.SetStatusIdempotent | frontend/src/context/OrderContext.js:42-52 | setting the same status twice equals setting it once |
| Orders.FindAfterSetStatus | frontend/src/context/OrderContext.js:42-56 | getOrderById after an update finds the same order with the new status, or still nothing |
| Orders.FindAfterAdd | frontend/src/context/OrderContext.js:37 | the prepended order is what getOrderById returns for its id (see also frontend/src/context/OrderContext.js:54-56) |
| Orders.PendingAfterAdd | frontend/src/context/OrderContext.js:37 | a new order heads the "Pending" list, ahead of the earlier ones in their order (see also frontend/src/context/OrderContext.js:58-60) |
| Orders.AddKeepsIdsUnique | frontend/src/context/OrderContext.js:28-40 | with a forward-moving clock, addOrder keeps order ids unique |
| Orders.OrderStore.Load | frontend/src/context/OrderContext.js:11-26 | mount: the restored list, with no current order; the slot holds the list |
| Orders.OrderStore.AddOrder | frontend/src/context/OrderContext.js:28-40 | the stamped order is prepended, becomes current and is returned |
| Orders.OrderStore.UpdateOrderStatus | frontend/src/context/OrderContext.js:42-52 | list = SetStatus; the current order is updated only when its id matches |
| Orders.OrderStore.SetCurrentOrder | frontend/src/context/OrderContext.js:75 | only the current order changes |
| Orders.OrderStore.ClearOrders | frontend/src/context/OrderContext.js:62-65 | list empty, no current order, slot emptied |
| Reservations.HistoryAfterSave | frontend/src/context/ReservationContext.jsx:27-31 | an id already in the history leaves it unchanged; otherwise the reservation goes to the front |
| Reservations.Hydrate | frontend/src/context/ReservationContext.jsx:45-61 | a parsed current slot sets the current reservation; a parsed history slot sets the history; an unparsable current slot skips both |
| Reservations.SaveKeepsUnique | frontend/src/context/ReservationContext.jsx:24-31 | the saved id is in the history, and the ids stay unique |
| Reservations.SaveTwice | frontend/src/context/ReservationContext.jsx:27-31 | saving the same id again leaves the history as after the first save |
| Reservations.HydrateIdempotent | frontend/src/context/ReservationContext.jsx:45-61 | loading twice from the same slots equals loading once |
| Reservations.SaveThenHydrate | frontend/src/context/ReservationContext.jsx:24-61 | with the corrected history slot, a reload restores what the save left in memory (the corrected half of a finding) |
| Reservations.ResaveDuplicatesAsWritten | frontend/src/context/ReservationContext.jsx:35 | as written, saving a reservation whose id is already in any history keeps the in-memory history but writes a different slot, and the reload from it has duplicate ids |
| Reservations.PersistedHistoryAgrees | frontend/src/context/ReservationContext.jsx:27-35 | the corrected slot equals the in-memory history, keeps ids unique, and matches the written code when the id is new |
| Reservations.TimeUntilReservation | frontend/src/context/ReservationContext.jsx:64-82 | null for no reservation; for a positive difference, fields within 24/60/60 that add up to the difference to the whole second, and total = difference; otherwise all zeros |
| Reservations.CountdownSums | frontend/src/context/ReservationContext.jsx:73-76 | days, hours, minutes and seconds decompose the difference down to whole seconds |
| Reservations.CountdownOf | frontend/src/context/ReservationContext.jsx:64-82 | any positive difference split into days, hours < 24, minutes < 60, seconds < 60 and leftover milliseconds reads back as exactly that countdown (one hour ahead shows 0d 1h 0m 0s) |
| Reservations.IsUpcomingReservation | frontend/src/context/ReservationContext.jsx:108-113 | a reservation is upcoming iff it exists, that is, iff a countdown is shown for it at every instant and clock |
| Reservations.PassedStillUpcoming | frontend/src/context/ReservationContext.jsx:108-113 | a reservation in the past has an all-zero countdown and still counts as upcoming (see also frontend/src/context/ReservationContext.jsx:71-81) |
| Reservations.ReservationStore.Mount | frontend/src/context/ReservationContext.jsx:14-21 | mount: the state is the hydration of the empty state from the stored slots |
| Reservations.ReservationStore.SaveReservation | frontend/src/context/ReservationContext.jsx:24-36 | current = the reservation; in-memory history = HistoryAfterSave; the current slot holds the reservation and the history slot `[reservation] + old history`, as written, even when the id was there |
| Reservations.ReservationStore.ClearReservation | frontend/src/context/ReservationContext.jsx:39-42 | current cleared and its slot removed; the history and its slot are kept |
| Reservations.ReservationStore.LoadReservationFromStorage | frontend/src/context/ReservationContext.jsx:45-61 | new state = Hydrate of the old state from the slots |
| Reservations.SaveTwiceThenReload | frontend/src/context/ReservationContext.jsx:24-61 | saving one reservation twice and reloading gives `[r] + HistoryAfterSave(old history, r)`, whose ids are not unique |
| Auth.UserSlotFor | frontend/src/context/AuthContext.js:41-45 | a user is written to the 'user' slot; no user removes it |
| Auth.UserFromSlot | frontend/src/context/AuthContext.js:23-32 | a user is read back exactly when the slot parsed |
| Auth.UserSlotRoundTrip | frontend/src/context/AuthContext.js:23-46 | writing a user and reading the slot back gives the same user |
| Auth.AuthStore.Startup | frontend/src/context/AuthContext.js:11-35 | the stored token and the parsed user are taken; an unparsable user slot is removed; loading ends false |
| Auth.AuthStore.UpdateUser | frontend/src/context/AuthContext.js:38-46 | the user is set and its slot mirrors it; the token is unchanged |
| Auth.AuthStore.UpdateToken | frontend/src/context/AuthContext.js:49-57 | the token is set and its slot mirrors it (empty = removed); the user is unchanged |
| Auth.AuthStore.Logout | frontend/src/context/AuthContext.js:60-66 | no user, empty token, both slots removed |
| AuthPage.AuthForm.constructor | frontend/src/components/Auth.jsx:12-24 | login mode, step 0, all inputs and messages empty |
| AuthPage.AuthForm.HandleSubmit | frontend/src/components/Auth.jsx:29-67 | login stores the token and customer and goes to onSuccess or the /home redirect; sign-up switches to login; failure shows the server message or "An unexpected error occurred."; the container is untouched except on login |
| AuthPage.AuthForm.OpenForgotPassword | frontend/src/components/Auth.jsx:254 | step 0 → 1 in login mode, nothing else changes |
| AuthPage.AuthForm.ToggleMode | frontend/src/components/Auth.jsx:277 | flips login/sign-up, nothing else changes |
| AuthPage.AuthForm.HandleForgotPasswordRequest | frontend/src/components/Auth.jsx:69-85 | success → step 2 with "OTP sent to your email."; failure stays at step 1 with the message or default |
| AuthPage.AuthForm.HandleVerifyOtp | frontend/src/components/Auth.jsx:87-104 | success stores the reply token and goes to step 3; failure keeps step 2 and the inputs |
| AuthPage.AuthForm.SubmitNewPassword | frontend/src/components/Auth.jsx:118-133 | once the entries agree: success returns to the login form at step 0 with every reset input cleared; failure keeps step 3 and the inputs and shows the message or "Failed to reset password." |
| AuthPage.AuthForm.HandleResetPassword | frontend/src/components/Auth.jsx:106-134 | different passwords are refused before any call; success returns to the login form with all reset inputs cleared; failure keeps step 3 |
| Booking.Caption | frontend/src/components/ReservationForm.jsx:187 | the label, else "T<n>" (components copy) or "Table <n>" (pages copy) (see also frontend/src/pages/ReservationForm.jsx:196) |
| Booking.TablesFrom | frontend/src/components/ReservationForm.jsx:41 | the listed array, else [] |
| Booking.StyledAvailable | frontend/src/components/ReservationForm.jsx:176-195 | styled "available" iff selectable or without a status; a table without one is badged "Available" yet cannot be selected |
| Booking.Selectable | frontend/src/components/ReservationForm.jsx:176 | a table can be selected iff its status equals "available" ignoring ASCII case ("Available", "AVAILABLE", …) |
| Booking.StatusBadge | frontend/src/components/ReservationForm.jsx:195 | the badge is never empty and is either "Available" or the table's own status |
| Booking.StatusClass | frontend/src/components/ReservationForm.jsx:181 | the style class is never empty and always lower-case |
| Booking.ErrorText | frontend/src/components/ReservationForm.jsx:79-82 | error, else message, else "Reservation failed"; never empty |
| Booking.IsAuthFailure | frontend/src/components/ReservationForm.jsx:84 | an authentication failure is a 401 or an occurrence of "token" in the lower-cased text |
| Booking.FailureShown | frontend/src/components/ReservationForm.jsx:84-88 | the refusal alert is never empty and ends in the server text, unless the components copy reports an authentication failure (see also frontend/src/pages/ReservationForm.jsx:83) |
| Booking.MentionOfTokenIsAuthFailure | frontend/src/components/ReservationForm.jsx:84-85 | in the components copy, any error text containing "token" in any ASCII case shows the authentication alert |
| Booking.Unauthorized | frontend/src/components/ReservationForm.jsx:84-88 | status 401 gives the authentication alert in the components copy, and the server text in the pages copy (see also frontend/src/pages/ReservationForm.jsx:83) |
| Booking.MissingMeansTokenOrTable | frontend/src/components/ReservationForm.jsx:55-57 | with a date and a time, `ReadyToSubmit` fails and the missing message appears iff the token is empty, no table is selected, or the selected id is 0, which is falsy although an available table with id 0 can be selected |
| Booking.BookingWizard.constructor | frontend/src/components/ReservationForm.jsx:15-23 | step 1, everything empty |
| Booking.BookingWizard.SetDate | frontend/src/components/ReservationForm.jsx:124 | only the date changes |
| Booking.BookingWizard.SetTime | frontend/src/components/ReservationForm.jsx:149 | only the time changes |
| Booking.BookingWizard.HandleNextToTime | frontend/src/components/ReservationForm.jsx:30-33 | no date: stays at step 1 with the variant's message; else step 2 (see also frontend/src/pages/ReservationForm.jsx:30-33) |
| Booking.BookingWizard.HandleNextToTables | frontend/src/components/ReservationForm.jsx:35-49 | no time: message; a listing: step 3 with its tables; a failed call: the failure message and step 2 (see also frontend/src/pages/ReservationForm.jsx:35-49) |
| Booking.BookingWizard.SelectTable | frontend/src/components/ReservationForm.jsx:182 | a selectable table becomes the selection; any other click changes nothing |
| Booking.BookingWizard.HandleSubmit | frontend/src/components/ReservationForm.jsx:51-92 | not ready: the missing message and no call; created: navigating, the reservation saved into the container (its history slot as written) and returned; refused: the variant's failure text, and the container untouched (see also frontend/src/pages/ReservationForm.jsx:51-87) |
| Booking.BookingWizard.MessageTimerFires | frontend/src/components/ReservationForm.jsx:25-28 | the timer clears the message and nothing else |
| OrderApi.CustomerNameFor | frontend/src/api/orderApi.js:25-38 | the order's name, else the parsed user's non-empty name, else "Customer App"; never empty |
| OrderApi.TableNumberFor | frontend/src/api/orderApi.js:42 | no table gives "1"; result never empty |
| OrderApi.TableNumberStripsPrefix | frontend/src/api/orderApi.js:42 | "Table 7" is sent as "7"; a bare "Table " as "1" |
| OrderApi.TableNumberWithoutPrefix | frontend/src/api/orderApi.js:42 | a non-empty number not containing "Table " is sent unchanged |
| OrderApi.AdminItems | frontend/src/api/orderApi.js:45-51 | one admin line per order line, with total = price × quantity |
| OrderApi.AdminLinesSum | frontend/src/api/orderApi.js:45-51 | the admin lines' totals add up to the subtotal (see also frontend/src/api/orderApi.js:80-83) |
| OrderApi.Tax | frontend/src/api/orderApi.js:80-83 | calculateTax is a twentieth of the subtotal, and not negative for a non-negative subtotal |
| OrderApi.TotalAmount | frontend/src/api/orderApi.js:86-91 | calculateTotal is the subtotal plus its tax plus the fee of 12, so at least 12 for a non-negative subtotal |
| OrderApi.AdminOrderFor | frontend/src/api/orderApi.js:41-54 | one admin line per order line with its id, quantity and price × quantity; a non-empty table number, "1" when the order has none; a non-empty customer name; type "Customer" |
| OrderApi.AdminTotals | frontend/src/api/orderApi.js:80-91 | tax = subtotal / 20, amount = subtotal × 1.05 + 12 = line totals + tax + fee, type "Customer" (see also frontend/src/api/orderApi.js:41-54) |
| OrderApi.SubmitResult | frontend/src/api/orderApi.js:58-65 | resolves with the order iff the call succeeded and `success` is set; otherwise throws |
| Checkout.OrderNumber | frontend/src/pages/CartPage.jsx:69 | the random display number lies in 10000..99999 |
| Checkout.DisplayIdRoundTrip | frontend/src/pages/CartPage.jsx:69 | "#"+n starts with '#' and the rest parses back to n |
| Checkout.OrderLines | frontend/src/pages/CartPage.jsx:74-79 | one order line per cart line with id, name, quantity and price |
| Checkout.OrderLinesSubtotal | frontend/src/pages/CartPage.jsx:74-79 | the order lines' subtotal is the cart's line sum (see also frontend/src/api/orderApi.js:80-91) |
| Checkout.OrderSnapshot | frontend/src/pages/CartPage.jsx:71-85 | the order object with the cart's table number, and otherwise the object as written: the corrected half of a finding, which the handlers do not use |
| Checkout.AdminTableAsWritten | frontend/src/pages/CartPage.jsx:71-85 | as written, every checkout is sent to the admin service as table "1" (see also frontend/src/api/orderApi.js:42) |
| Checkout.AdminTableFromCart | frontend/src/api/orderApi.js:42 | with the table passed on, a "Table 7" cart is sent as table "7" (see also frontend/src/pages/CartPage.jsx:71-85) |
| Checkout.AdminOrderForCart | frontend/src/api/orderApi.js:29-53 | for a consistent cart the admin body of the order as written carries the page's name (or "Guest"), an amount of 1.05 × the cart total + 12 and one item per cart line (see also frontend/src/pages/CartPage.jsx:83) |
| Checkout.RetryRecordsTwice | frontend/src/pages/CartPage.jsx:87-99 | the retry's order shares the display number but has a different id when the clock moved |
| Checkout.PlacedOrder | frontend/src/pages/CartPage.jsx:69-88 | the recorded order is the object as written with the clock-reading id: no table number, the cart total and one line per cart line |
| Checkout.HandleQuantityChange | frontend/src/pages/CartPage.jsx:60-63 | new cart state = AfterUpdate; 0 removes |
| Checkout.RecordOrder | frontend/src/pages/CartPage.jsx:86-97 | the order is added to the order container once when the hand-off succeeds and twice (same data, the second clock reading on top) when it fails; the first saved order is returned |
| Checkout.ConfirmPaid | frontend/src/pages/CartPage.jsx:69-99 | with a payment method set: the order is recorded in the order container, the admin body for it is returned with table "1" and the cart is cleared; a failed hand-off records it a second time and returns the sync warning |
| Checkout.HandleConfirmOrder | frontend/src/pages/CartPage.jsx:66-100 | no payment method: an alert and nothing changes; otherwise the order is recorded and posted with table "1", and the cart is cleared; a failed hand-off records it a second time and shows the sync warning |
| AddOrder.FilteredItems | frontend/src/pages/AddOrder.jsx:126-128 | exactly the menu items whose lower-cased name contains the lower-cased term, in order |
| AddOrder.EmptyTermListsAll | frontend/src/pages/AddOrder.jsx:126-128 | an empty term lists the whole menu |
| AddOrder.SearchIgnoresCase | frontend/src/pages/AddOrder.jsx:126-128 | lower-casing the term changes nothing |
| AddOrder.TableField | frontend/src/pages/AddOrder.jsx:110 | "" gives null; anything else is parseInt |
| AddOrder.TableChoice | frontend/src/pages/AddOrder.jsx:153-163 | choosing "Table k" (1..10) sends k; the blank choice sends null (see also frontend/src/pages/AddOrder.jsx:110) |
| AddOrder.RequestFor | frontend/src/pages/AddOrder.jsx:103-115 | the body: the cart, an amount equal to its line sum, the user's name or "Guest", the table field, "Customer" and "Placed" |
| AddOrder.AddItemRaisesTotal | frontend/src/pages/AddOrder.jsx:78-92 | adding an item raises the cart total by its price and its count by one, and ids stay unique (see also frontend/src/pages/AddOrder.jsx:141) |
| AddOrder.RemoveItemLowersTotal | frontend/src/pages/AddOrder.jsx:94-96 | removal deletes exactly the item's lines, keeps the rest, lowers the total by that line's value, and an absent item changes nothing (see also frontend/src/pages/AddOrder.jsx:141) |
| AddOrder.AddOrderPage.constructor | frontend/src/pages/AddOrder.jsx:48-53 | everything empty, no modal |
| AddOrder.AddOrderPage.CartTotal | frontend/src/pages/AddOrder.jsx:141 | the left-to-right `reduce` of the page's cart equals the line sum Σ price × quantity |
| AddOrder.AddOrderPage.MenuFetched | frontend/src/pages/AddOrder.jsx:55-75 | the fetched menu replaces the list; a failure keeps it |
| AddOrder.AddOrderPage.SetSearchTerm | frontend/src/pages/AddOrder.jsx:172 | only the term changes |
| AddOrder.AddOrderPage.SetTableNumber | frontend/src/pages/AddOrder.jsx:155 | only the table choice changes |
| AddOrder.AddOrderPage.HandleAddItem | frontend/src/pages/AddOrder.jsx:78-92 | cart = WithLineAdded; ids stay unique |
| AddOrder.AddOrderPage.HandleRemoveItem | frontend/src/pages/AddOrder.jsx:94-96 | cart = WithoutLine; ids stay unique |
| AddOrder.AddOrderPage.PlaceOrder | frontend/src/pages/AddOrder.jsx:98-124 | an empty cart: alert, no post; otherwise the body is posted; success opens the modal on the created order and clears the cart and table; failure alerts and keeps everything |
| AddOrder.AddOrderPage.CloseModal | frontend/src/pages/AddOrder.jsx:264-270 | the modal closes, nothing else changes |
| Menu.Priced | frontend/src/pages/Menu.jsx:49-55 | a price that is not a number becomes 0; the other fields are kept |
| Menu.PricedAll | frontend/src/pages/Menu.jsx:49-55 | each fetched item is priced one for one |
| Menu.SearchResults | frontend/src/pages/Menu.jsx:64-73 | a blank query lists everything; any other lists exactly the items matching the untrimmed lower-cased query in name or description, in order |
| Menu.SearchNothing | frontend/src/pages/Menu.jsx:64-73 | with nothing fetched nothing is listed |
| Menu.SearchIdempotent | frontend/src/pages/Menu.jsx:64-73 | searching the results again changes nothing |
| Menu.SearchIgnoresCase | frontend/src/pages/Menu.jsx:64-73 | lower-casing the query changes nothing |
| Menu.LeadingSpaceMisses | frontend/src/pages/Menu.jsx:65-70 | the query is trimmed only for the blank test: " pizza" does not find "pizza" |
| Menu.MenuPage.constructor | frontend/src/pages/Menu.jsx:20-25 | no category, nothing listed, empty query |
| Menu.MenuPage.CategoriesFetched | frontend/src/pages/Menu.jsx:30-40 | the fetched categories, or the previous ones on failure |
| Menu.MenuPage.HandleSearch | frontend/src/pages/Menu.jsx:76 | on the category list the query is stored and the listed items are [] (see also frontend/src/pages/Menu.jsx:89-104) |
| Menu.MenuPage.HandleCategoryClick | frontend/src/pages/Menu.jsx:43-61 | a truthy id with a successful fetch lists the search results of the typed query over the priced items; id 0 or a failure lists nothing (see also frontend/src/pages/Menu.jsx:78) |
| Menu.MenuPage.HandleBackToCategories | frontend/src/pages/Menu.jsx:79-84 | no category; both lists and the query are cleared |
| Menu.MenuPage.HandleAddToCart | frontend/src/pages/Menu.jsx:77 | the cart container's addToCart |
| Menu.QueryCarriesOver | frontend/src/pages/Menu.jsx:64-84 | a query typed on the category list filters the next category's items |
| Header.Capitalize | frontend/src/components/Header.jsx:28 | same length; only the case of the first character may change and it ends up upper-case; the rest is kept |
| Header.CategoryOf | frontend/src/components/Header.jsx:27 | piece 2 of the path split on "/", which contains no "/" |
| Header.HeaderFor | frontend/src/components/Header.jsx:19-35 | every fixed page of pageMap shows its own title with a back button, as no fixed page lies under "/home" |
| Header.BackButtonIff | frontend/src/components/Header.jsx:22-35 | the back button shows iff the path is not "/home" |
| Header.CategoryTitle | frontend/src/components/Header.jsx:26-29 | "/home/pizza" and "/home/pizza/…" are both titled "Pizza" |
| Header.EmptyTitle | frontend/src/components/Header.jsx:19-35 | the title is empty only for "/home/" with an empty category piece |
| Header.NearHomeFallsBack | frontend/src/components/Header.jsx:26-34 | any path extending "/home" by something other than "/" ("/homepage", "/home-x") is titled "App" with a back button |
| Seqs.Filter | frontend/src/context/CartContext.js:58 | `filter`: exactly the kept elements, with their multiplicities, in order |
| Seqs.Find | frontend/src/context/CartContext.js:41 | `find`: none iff nothing matches, else the first match |
| Text.TrimEmpty | frontend/src/pages/Menu.jsx:65 | `trim()` is empty iff the text is all white space |
| Text.ParseInteger | frontend/src/pages/AddOrder.jsx:110 | parseInt of a rendered integer gives it back |
| Text.ReplaceLeading | frontend/src/api/orderApi.js:42 | `replace` strips a leading pattern |

## Left out

- Network, timers and routing are outside the model. Each call's outcome, each clock reading and the random draw are parameters. Navigation appears only as returned flags or values.
- Asynchrony is not modelled: React's batched updates, effects firing between renders, and a handler racing its own reply. Steps are atomic. The loading flags are therefore always false between steps.
- Item prices are integers, and the model has no floating point. `parseFloat` of prices in `CartContext.js` and `orderApi.js` is not modelled; a price that is not a number appears only on the menu page, as `Menu.Priced`. The admin tax and total are exact reals.
- Case mapping is ASCII-only, in `Text.LowerChar` and `Text.UpperChar`. JavaScript's full Unicode `toLowerCase`/`toUpperCase` is not modelled.
- JSON text is not modelled. A slot is absent, unparsable or a parsed value. A parsed value of the wrong shape is treated as unparsable.
- Cart lines (`Cart.NewLine`) keep only the item's id, name, price and quantity. The `{...item, quantity: 1}` spread also copies the description and any other field the item carries, but nothing in the core reads those fields.
- The name-loading effect of the cart page (`CartPage.jsx:38-56`) is not modelled. The displayed customer name is a parameter of `Checkout.HandleConfirmOrder`.
- Formatting helpers are not modelled: `formatReservationDate`, `formatReservationTime`, and the dates shown on the pages.
- The commented-out "today or later" policy of `isUpcomingReservation` is not modelled.
- Date parsing is not modelled. The reservation instant is passed in, and None stands for an invalid date, whose difference is NaN.
- Image and photo URLs are not modelled: `photoUrl` and `image_url` on the menu, the staff page and the categories.
- Rendering is not modelled: styles, the theme, and hover effects.
- A booking reply without a `reservation` field is not modelled. A created outcome always carries one.
- Other exports of `orderApi.js`, which are thin wrappers around a single request, are not modelled.
- The two booking wizards' look-only differences beyond messages and captions are not modelled, and neither is their intro image.
- Checkout.HandleConfirmOrder: the 1000 ms delay before the sync warning is not modelled. The warning is returned directly.
- Booking.BookingWizard.MessageTimerFires: each message's own 4-second timer is not modelled. The timer clears whatever message is showing when it fires, and the model does not track which message started which timer.

## Findings

| source | as written | input that shows it | evidently intended | confidence | as-written member | corrected member |
|---|---|---|---|---|---|---|
| frontend/src/context/ReservationContext.jsx:35 | the history slot is written as `[reservationData, ...reservationHistory]` even when the id is already in the history, which the in-memory update skips | save reservation r, then save r again, then reload: the history slot holds [r, r], and the reloaded history shows r twice | write the same list as the in-memory history | high (not executed) | Reservations.ResaveDuplicatesAsWritten | Reservations.PersistedHistoryAgrees |
| frontend/src/pages/CartPage.jsx:71-85 | the order object given to `submitOrderToAdmin` has no `tableNumber`, so `orderApi.js:42` always sends table "1" | a cart for table "Table 7" is checked out: the admin service receives table_number "1" | pass the cart's table number, which `orderApi.js:42` strips of its "Table " prefix | medium (not executed) | Checkout.AdminTableAsWritten | Checkout.AdminTableFromCart |

The containers and handlers follow the code as written (`Reservations.ReservationStore.SaveReservation`, `Reservations.SaveTwiceThenReload`, `Checkout.PlacedOrder`, `Checkout.ConfirmPaid`). The corrected definitions (`Reservations.PersistedHistory`, `Checkout.OrderSnapshot`) are stated and proved beside them.
