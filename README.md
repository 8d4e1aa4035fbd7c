# Baburchi order panel — a Dafny model of its list-transforming core

Baburchi is a browser-only admin panel for a spice business. Admins and
moderators sign in, moderators enter orders from a product catalog, and admins
manage products, moderators and call-task leads. Admins also push orders to the
Steadfast courier. All state is lists of records held by the root component and
saved to local storage. This project models, in Dafny, the rules that transform
those lists and the small state machines of the forms around them:

- **Store** (`App.tsx`): order creation with stock deduction, status updates,
  product add/update/delete with the stock default, lead append, bulk
  re-assignment by position, lead status update and delete, and moderator
  append. `AppStore` is a class whose fields are the four lists and the active tab. Each handler
  method replaces a list with a function of the old one, and lemmas state what
  those functions do.
- **OrderForm** (`components/OrderForm.tsx`): cart rows (add, remove, clamp
  the quantity to the stock), the cart total, and building the order on submit.
- **OrderList** (`components/OrderList.tsx`): the visible list (role scope,
  then search, then reversal), the guarded courier sync split at its `await`,
  and the per-order address toggle.
- **Dashboard** (`components/Dashboard.tsx`): counts by status, the
  confirmation rate, revenue and pending calls.
- **Login** and **ModeratorManager**: the credential lookup and the
  moderator form.
- **Constants** (`constants.tsx`): the fixtures, with lemmas that check them
  against the invariants above.

Shared modules: `Wrappers` (Option, Result), `Seqs` (`filter`, `find`,
`reverse` and their laws), `Strings` (ASCII lower-casing, `includes`, `trim`,
decimal rendering) and `Domain` (the record types and role scoping).

Quirks of the code that the model keeps:
- Only the first line per product is deducted from stock.
- Stock is floored at 0, and a missing stock counts as 0.
- Any status may be set.
- Cancelling never restocks: `UpdateOrderStatus` leaves `products` as it was.
- Bulk re-assignment works by position.
- "Already synced" uses JavaScript truthiness: an empty `steadfastId` counts as unsynced.
- The quick-login fallback also applies when the first moderator's email is empty.

Behaviours of the code that a stricter design would change, kept as written:
- Stock is reduced by the first line for each product, not by every line.
- A status update for an unknown id is a silent no-op, not an error.
- A courier response with `success` false shows no message.
- The single `syncingId` slot is shared by all orders, so it does not keep two
  orders' syncs apart. Starting a sync for B while A's is outstanding re-enables
  A's button (`OrderList.SharedSyncSlot`).

## Model

| member | source | states |
|---|---|---|
| `Store.LoadProducts` | App.tsx:28-32 | loading keeps the list's length and order; each product gets a stock: 50 when absent, the stored value (0 included) otherwise |
| `Store.WithDefaultStock` | App.tsx:31 | a product with a stored stock keeps it (0 included); one without gets 50; no other field changes |
| `Store.AddProduct` | App.tsx:126-128 | appends one product after the unchanged list, with the same stock default |
| `Store.ReplaceProduct` | App.tsx:130-132 | every product with the updated id becomes the updated product; the others and the length stay |
| `Store.RemoveProduct` | App.tsx:134-136 | what remains has no product with that id and comes from the list; every product with another id remains |
| `Store.RemoveProductKeepsOrder` | App.tsx:135 | deleting distributes over concatenation, so the remaining products keep their relative order |
| `Store.RemoveProductUnknown` | App.tsx:135 | deleting an id no product has leaves the catalog identical |
| `Store.DeductStockSpec` | App.tsx:93-99 | a product named by the order loses the quantity of the first line naming it, floored at 0, absent stock read as 0; unnamed products are untouched; length and order kept |
| `Store.DeductStock` | App.tsx:93-99 | keeps the catalog's length; what happens to each product is stated by `DeductStockSpec` |
| `Store.DeductedStockNonNegative` | App.tsx:96 | a product named by the order ends with a present, non-negative stock |
| `Store.DeductKeepsStocksNonNegative` | App.tsx:93-99 | if every stock was present and non-negative before the deduction, it still is |
| `Store.DuplicateLineIgnored` | App.tsx:94 | adding a later line for a product the order already names does not change the deduction |
| `Store.DeductWithinStock` | App.tsx:96 | when the first line's quantity is within the stock, the stock drops by exactly that quantity |
| `Store.UpdateStatusSpec` | App.tsx:105-116 | orders with the id get the new status and, only when courier data is given, its id and status; all their other fields and all other orders are unchanged |
| `Store.UpdateStatus` | App.tsx:106-115 | keeps the list's length; the effect on each order is stated by `UpdateStatusSpec` |
| `Store.UpdateStatusUnknownId` | App.tsx:106-115 | an id no order carries leaves the list identical |
| `Store.UpdateStatusIdempotent` | App.tsx:105-116 | applying the same update twice equals applying it once |
| `Store.UpdateStatusKeepsTotals` | App.tsx:105-116 | status updates keep every order's total equal to the sum of its lines |
| `Store.Reassign` | App.tsx:147-152 | a re-assigned lead keeps its id and takes the moderator, the date and status new |
| `Store.ReassignIdempotent` | App.tsx:147-152 | re-assigning twice to the same moderator and date equals doing it once |
| `Store.BulkReassign` | App.tsx:142-157 | the loop over indices yields exactly the declarative result: listed in-range positions re-assigned, all others unchanged, same length |
| `Store.BulkReassignedSpec` | App.tsx:145-146 | an index that is out of range, or already listed, has no effect |
| `Store.BulkReassignExample` | App.tsx:142-157 | indices [0,2,7,-1,2] to m2 on 2024-01-05 re-assign positions 0 and 2 only |
| `Store.SetLeadStatus` | App.tsx:159-161 | only the status changes, and only on leads with that id; length kept |
| `Store.DeleteLead` | App.tsx:163-165 | exactly the leads with that id are removed; all others remain |
| `Store.DeleteLeadKeepsOrder` | App.tsx:164 | deleting distributes over concatenation, so survivors keep their relative order |
| `Store.DeleteLeadUnknown` | App.tsx:164 | deleting an id no lead has leaves the list identical |
| `Store.InitialCatalogStock` | App.tsx:28-32 | with nothing stored, all nine initial products load with stock 50 |
| `Store.AppStore.constructor` | App.tsx:28-47 | each list is its snapshot or the fixture default (no leads); products get the stock default |
| `Store.AppStore.CreateOrder` | App.tsx:92-103 | stock deducted as above, the order appended last, leads and moderators untouched, order tab shown |
| `Store.AppStore.UpdateOrderStatus` | App.tsx:105-116 | orders updated as above; products (no restock), leads and moderators unchanged |
| `Store.AppStore.AddModerator` | App.tsx:118-120 | the moderator is appended after the unchanged list; nothing else changes |
| `Store.AppStore.AddNewProduct` | App.tsx:126-128 | products become `AddProduct` of the old list; nothing else changes |
| `Store.AppStore.UpdateProduct` | App.tsx:130-132 | products become `ReplaceProduct` of the old list; nothing else changes |
| `Store.AppStore.DeleteProduct` | App.tsx:134-136 | products become `RemoveProduct` of the old list; nothing else changes |
| `Store.AppStore.AssignLeads` | App.tsx:138-140 | new leads appended after the unchanged list; nothing else changes |
| `Store.AppStore.BulkUpdateLeads` | App.tsx:142-157 | leads become the bulk re-assignment of the old list; nothing else changes |
| `Store.AppStore.UpdateLeadStatus` | App.tsx:159-161 | leads become `SetLeadStatus` of the old list; nothing else changes |
| `Store.AppStore.RemoveLead` | App.tsx:163-165 | leads become `DeleteLead` of the old list; nothing else changes |
| `Domain.FindProduct` | components/OrderForm.tsx:28 | none exactly when no product has the id; otherwise a catalog product with that id |
| `Domain.FindProductAt` | components/OrderForm.tsx:28 | the product found is the one at the first position carrying the id |
| `Domain.ScopedOrders` | components/Dashboard.tsx:16-18 | an admin gets every order; anyone else gets exactly the orders carrying their id |
| `Domain.ScopedLeads` | components/Dashboard.tsx:20-22 | an admin gets every lead; anyone else gets exactly the leads carrying their id |
| `Strings.Trim` | components/OrderForm.tsx:66-68 | a contiguous piece of the input, all of whose cut-off characters are JavaScript white space, and which neither starts nor ends with white space |
| `OrderForm.StockLimit` | components/OrderForm.tsx:28-29 | an unknown product has limit 0; for a known one `StockLimitKnown` gives its stock |
| `OrderForm.StockLimitKnown` | components/OrderForm.tsx:28-29 | for a product in the catalog the limit is the stock of the first product with that id, 0 when none is recorded |
| `OrderForm.ClampQuantity` | components/OrderForm.tsx:32 | never above the stock; at least 1 when the stock is at least 1; the request itself when within [1, stock]; the stock when the request exceeds it; equal to the stock when the stock is below 1 |
| `OrderForm.StockNotice` | components/OrderForm.tsx:34-36 | the notice appears exactly when the request exceeds the stock, names the stock, and the row is then cut to the stock |
| `OrderForm.RemoveAt` | components/OrderForm.tsx:23-25 | an in-range position is removed and the other rows keep their order; an out-of-range index changes nothing |
| `OrderForm.RowAmount` | components/OrderForm.tsx:44-45 | price × quantity of the row's product, 0 for an unknown product; `BuildItemsTotal` ties it to the built lines |
| `OrderForm.CartTotal` | components/OrderForm.tsx:42-47 | Σ of the row amounts; additive by `CartTotalAppend` and equal to the submitted order's total by `SubmittedTotal` |
| `OrderForm.CartTotalAppend` | components/OrderForm.tsx:42-47 | the cart total is additive over concatenation of rows |
| `OrderForm.ItemIdsDistinct` | components/OrderForm.tsx:56 | line ids built from different positions differ |
| `OrderForm.BuildItems` | components/OrderForm.tsx:53-61 | one line per row; `BuildItemsAt` states each line's fields and `BuildItemsDistinctIds` their distinct ids |
| `OrderForm.BuildItemsAt` | components/OrderForm.tsx:53-61 | line k has row k's product and quantity, the catalog price at submit time, and the id for position k |
| `OrderForm.BuildItemsTotal` | components/OrderForm.tsx:42-61 | the built lines' Σ price × quantity equals the cart total |
| `OrderForm.BuildItemsDistinctIds` | components/OrderForm.tsx:53-61 | the lines of one order have pairwise distinct ids |
| `OrderForm.BuildOrder` | components/OrderForm.tsx:49-74 | an empty cart is rejected with EmptyCart; a row whose product is missing fails; otherwise a PENDING, unsynced order of the user with trimmed customer fields and the notes |
| `OrderForm.SubmittedItems` | components/OrderForm.tsx:53-61 | a submitted order has one line per row, in order, with the row's product and quantity, the current catalog price and distinct ids |
| `OrderForm.SubmittedTotal` | components/OrderForm.tsx:63-74 | a submitted order's total is the cart total and equals Σ price × quantity of its own lines |
| `OrderForm.SubmittedFieldsTrimmed` | components/OrderForm.tsx:66-68 | the stored customer name, phone and address carry no surrounding white space: trimming them again changes nothing |
| `OrderForm.CartExample` | components/OrderForm.tsx:27-47 | p1 at 550 with stock 10: three cost 1650; a request for 50 is cut to 10 with a notice |
| `OrderForm.OrderCreationExample` | components/OrderForm.tsx:49-74 | three p1 from stock 10: a PENDING order totalling 1650, after which p1's stock is 7 |
| `OrderForm.OrderFormState.constructor` | components/OrderForm.tsx:12-16 | every field starts empty |
| `OrderForm.OrderFormState.AddItem` | components/OrderForm.tsx:18-21 | appends the first product with quantity 1; no change on an empty catalog |
| `OrderForm.OrderFormState.RemoveItem` | components/OrderForm.tsx:23-25 | rows become `RemoveAt` of the old rows; customer fields unchanged |
| `OrderForm.OrderFormState.UpdateItem` | components/OrderForm.tsx:27-40 | only the row at the index changes, to the product and clamped quantity; row count kept; the notice as `StockNotice` |
| `OrderForm.OrderFormState.Submit` | components/OrderForm.tsx:49-83 | the result is `BuildOrder` of the form; on success the form is reset, on failure nothing changes |
| `OrderForm.OrderFormState.Reset` | components/OrderForm.tsx:77-81 | after a successful submit all five fields are empty again |
| `OrderList.VisibleOrders` | components/OrderList.tsx:36-62 | the visible list is never longer than the input |
| `OrderList.MatchesSearch` | components/OrderList.tsx:42-47 | the lower-cased term occurs in the lower-cased id or customer name, or the lower-cased term occurs in the raw phone; used by `VisibleOrdersMembers` |
| `OrderList.SearchFiltered` | components/OrderList.tsx:41-48 | an empty term keeps the list as is; otherwise exactly the orders matching the search remain, all taken from the list |
| `OrderList.ScopeThenSearch` | components/OrderList.tsx:37-48 | role scoping then searching is one filter by both tests |
| `OrderList.VisibleOrdersIsReversedFilter` | components/OrderList.tsx:36-62 | the visible list is the reverse of the subsequence of orders in scope that match the search |
| `OrderList.VisibleOrdersMembers` | components/OrderList.tsx:37-48 | an order is visible iff the user is admin or owns it, and the term is empty or matches its lower-cased id or name or its raw phone |
| `OrderList.ModeratorSeesOwnOrders` | components/OrderList.tsx:37-39 | every order a non-admin sees carries their id |
| `OrderList.SyncUpdates` | components/OrderList.tsx:68-74 | a finished sync causes one update, to CONFIRMED with the consignment id and status, exactly on success; otherwise none |
| `OrderList.HasSteadfastId` | components/OrderList.tsx:65 | the order counts as synced when its consignment id is present and non-empty; `SyncIsOneWay` shows an accepted sync makes it so |
| `OrderList.SyncIsOneWay` | components/OrderList.tsx:65-70 | after the store applies a successful sync the order is CONFIRMED with the courier fields; with a non-empty consignment id it counts as synced |
| `OrderList.SyncButtonShown` | components/OrderList.tsx:163 | the sync button is offered to admins on unsynced orders only |
| `OrderList.SyncHidesButton` | components/OrderList.tsx:163 | after the store applies an accepted sync with a non-empty consignment id, no user is offered the button for that order |
| `OrderList.SyncButtonDisabled` | components/OrderList.tsx:164 | the button is disabled exactly while syncingId names that order; `StartSync` establishes it |
| `OrderList.ToggleAddress` | components/OrderList.tsx:29-34 | flips only that order's flag, absent read as false |
| `OrderList.ToggleTwice` | components/OrderList.tsx:29-34 | toggling twice restores every order's flag |
| `OrderList.OrderListView.constructor` | components/OrderList.tsx:20-24 | no search term, nothing syncing, no flags |
| `OrderList.OrderListView.StartSync` | components/OrderList.tsx:64-66 | an already synced order causes no courier call and no change; otherwise syncingId becomes its id and its button is disabled |
| `OrderList.OrderListView.FinishSync` | components/OrderList.tsx:67-77 | the updates are `SyncUpdates` of the outcome, and syncingId is cleared in every outcome |
| `OrderList.OrderListView.ToggleAddressOf` | components/OrderList.tsx:29-34 | the flags become `ToggleAddress` of the old flags |
| `OrderList.OrderListView.SetSearchTerm` | components/OrderList.tsx:107-108 | only the search term changes |
| `OrderList.SharedSyncSlot` | components/OrderList.tsx:64-66 | starting syncs for two unsynced orders in turn leaves the second marked and the first order's button enabled again |
| `Dashboard.ConfirmationRate` | components/Dashboard.tsx:28 | 0 without orders; otherwise 100·confirmed/total rounded half up, always within [0,100] |
| `Dashboard.CountStatus` | components/Dashboard.tsx:26-27 | the number of orders with a status, never more than the orders given; the four counts partition the list by `StatusCountsPartition` |
| `Dashboard.ConfirmedCount` | components/Dashboard.tsx:25 | never more than the orders given; equal to CONFIRMED plus DELIVERED by `ConfirmedIsConfirmedPlusDelivered` |
| `Dashboard.NewLeadCount` | components/Dashboard.tsx:30 | never more than the leads given; scoped counts are bounded by `ScopedNewLeadsAtMost` |
| `Dashboard.Revenue` | components/Dashboard.tsx:40 | Σ of order totals, cancelled orders included; additive by `RevenueAppend` and split by `RevenueCountsCancelled` |
| `Dashboard.RevenueCountsCancelled` | components/Dashboard.tsx:40 | revenue is that of non-cancelled plus that of cancelled orders |
| `Dashboard.StatusData` | components/Dashboard.tsx:32-37 | four bars |
| `Dashboard.StatusCountsPartition` | components/Dashboard.tsx:24-37 | the four status counts add up to the number of orders |
| `Dashboard.ConfirmedIsConfirmedPlusDelivered` | components/Dashboard.tsx:25 | "confirmed" is the CONFIRMED count plus the DELIVERED count |
| `Dashboard.StatusDataSum` | components/Dashboard.tsx:32-37 | the bars sum to the orders shown and none exceeds it |
| `Dashboard.ComputeStats` | components/Dashboard.tsx:13-44 | every figure is its count, revenue or rate over the orders and leads in the user's scope; counts within the scoped total and rate in [0,100] (0 without orders); pending calls never exceed the all-leads count and equal it for an admin |
| `Dashboard.ScopedNewLeadsAtMost` | components/Dashboard.tsx:30-43 | a moderator's new-lead count never exceeds the all-leads "Pending" count |
| `Login.AuthenticateSpec` | components/Login.tsx:25-28 | success iff some account has exactly the email and the password is "password"; the first match is signed in, so the admin wins |
| `Login.Authenticate` | components/Login.tsx:25-28 | the first account, admin before moderators, whose email equals the entered one when the password is "password"; characterised by `AuthenticateSpec` |
| `Login.DemoAccounts` | components/Login.tsx:25-28 | the admin and a moderator sign in; a wrong password or differently cased email fails |
| `Login.LoginForm.constructor` | components/Login.tsx:13-16 | empty fields, not loading |
| `Login.LoginForm.HandleLogin` | components/Login.tsx:18-35 | the user passed on is the credential check's; success leaves loading set with no error; failure sets the message and clears loading |
| `Login.LoginForm.QuickLogin` | components/Login.tsx:37-40 | email becomes the admin's, or the first moderator's, or the fallback; password becomes "password" |
| `Login.QuickLoginEmail` | components/Login.tsx:38 | the admin's email, else the first moderator's when present and non-empty, else the fallback; `QuickAdminLoginWorks` shows the admin choice signs in |
| `Login.QuickAdminLoginWorks` | components/Login.tsx:37-40 | quick admin login then sign-in signs in the admin |
| `ModeratorManager.NewModerator` | components/ModeratorManager.tsx:18-25 | none iff a field is empty; otherwise a MODERATOR with the entered name and email and no password |
| `ModeratorManager.ModeratorForm.constructor` | components/ModeratorManager.tsx:11-14 | empty fields, form closed |
| `ModeratorManager.ModeratorForm.HandleSubmit` | components/ModeratorManager.tsx:16-33 | the record is `NewModerator`; on success the fields are cleared and the form closes, otherwise nothing changes |
| `ModeratorManager.ModeratorForm.ToggleAdding` | components/ModeratorManager.tsx:43 | flips isAdding, nothing else |
| `Constants.MockTotalsConsistent` | constants.tsx:28-56 | each mock order's total (1200, 1424) is Σ price × quantity of its lines |
| `Constants.ProductIdsDistinct` | constants.tsx:4-14 | the catalog ids are pairwise distinct |
| `Constants.MockItemsMatchCatalog` | constants.tsx:38-54 | every mock line names a catalog product and carries its price |
| `Constants.StatusColorsTotal` | constants.tsx:58-63 | every status has a colour entry |
| `Constants.FixtureUsersConsistent` | constants.tsx:16-45 | mock orders belong to existing moderators; the admin's email is not a moderator's |

## Left out

- Local-storage persistence and JSON: the stored snapshots are constructor parameters (`None` when nothing is stored), and each save is not modelled.
- The brand logo, the courier configuration, `handleLogin`/`handleLogout` in `App.tsx` and the screen routing, apart from the tab `CreateOrder` switches to.
- The courier HTTP request, which is a foreign call: its answer is the `CourierOutcome` given to `FinishSync`. The request body is not modelled.
- Rendering, `alert` (except the stock notice, which is returned), `window.open` and invoice printing: user interface only.
- The 800 ms `setTimeout` in login: the callback is taken as immediate.
- Ids from `Date.now` and `Math.random`: the order number, the clock stamp for line ids, the creation time and the new moderator's id are parameters. Random order ids can collide. `UpdateStatus` then updates every order with that id, as the code does.
- The date-range filter of the order list: it is date arithmetic on host objects.
- `orderVelocity`, the progress-bar width, `toLocaleString` and the fixed percentage widget: floating-point display only.
- `NaN` from `parseInt` on an empty quantity box: quantities are integers.
- JavaScript numbers are unbounded integers here: fractional prices or quantities are not modelled.
- Browser validation, enforced before `handleSubmit` runs: the `required` inputs, and the quantity box's `min="1"` and `max` bounds. So `OrderFormState.Submit` accepts a row of quantity 0 (the clamp's result at stock 0), which the browser would refuse.
- The mock orders' `createdAt`, computed from the clock, is left empty. The product names are kept as in the source.
- `types.ts` is not part of this model. Record fields are those the code reads or writes, and the enum values beyond `'admin'` are not known.
- `Strings.Lower`: lower-cases ASCII letters only, not full Unicode `toLowerCase`.
- `Dashboard.ConfirmationRate`: rounds the exact rational 100·confirmed/total. It does not model the floating-point error of `(c / t) * 100` next to a half.
- The two lists the order list receives but does not filter on (`products`, `moderators`) are used only for display.
