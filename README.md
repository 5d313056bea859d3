# Smart Laundry dashboard — a Dafny model

This project models the logic of a single-operator laundry-shop dashboard.
The shop's working set is a list of orders and a list of expenses, kept in
memory and mirrored into a key-value store.

- **Orders.** An order is created as PENDING from an intake form. It moves
  through PROCESSING, COMPLETED and PICKED_UP by one button per table row.
- **Notifications.** Entering PROCESSING or COMPLETED triggers a WhatsApp
  notification through a gateway, guarded by an API token. The model keeps
  the prepared request as a value.
- **Intake pricing.** Price is unit price × weight; the estimate is now plus
  the service's turnaround.
- **Summaries.** The finance and overview pages fold the two lists into
  revenue, expenses, profit and order counts.

Modules follow the source files:

| module | file | source |
|---|---|---|
| `Types` | types.dfy | types.ts |
| `Constants` | constants.dfy | constants.ts |
| `Phone` | phone.dfy | App.tsx, `formatPhoneNumber` |
| `Notification` | notification.dfy | App.tsx, `sendFonnteNotification` (token guard and templates) |
| `WorkingSet` | working_set.dfy | App.tsx, the list operations (map by id, find, load-time sort) |
| `App` | app.dfy | App.tsx, the `Shop` class holding the app's state |
| `Store` | store.dfy | db.ts, kept abstract: one map per collection |
| `OrderList` | order_list.dfy | components/OrderList.tsx |
| `NewOrderModal` | new_order_modal.dfy | components/NewOrderModal.tsx |
| `Finance` | finance.dfy | components/Finance.tsx |
| `Dashboard` | dashboard.dfy | components/Dashboard.tsx |

Modelling choices:

- Weight and money are `real`. Timestamps are whole hours (`int`).
- Ids and the current time are parameters of the operations that need them.
- The locale currency formatter is an opaque function, `Shop.localeFormat`.
- `waStatus` is an `Option<string>`. The order list and the dashboard read
  this field, but the order record type does not declare it. The order list
  also imports a `WaStatus` type that types.ts does not declare.
- Stateful parts are classes whose methods state their whole new state:
  `Shop` (the app's orders, expenses, token, toast and outbox), `Store`,
  `OrderModal` (the intake form) and `FinancePanel` (the expense form).
- `Shop.outbox` records every call of the notification sender. An entry is
  either `NotConfigured` (no request was made) or `Send(token, target, message)`.

Behaviour of the code worth knowing:

- **Unknown id.** A status change on an unknown id is silently ignored
  (nothing stored, nothing sent). It does not fail with a not-found error.
- **No enable flag.** There is no "integration enabled" flag. Only an empty
  token stops a send.
- **No message id.** A successful send records nothing on the order: no
  message id, and `waStatus` is never set. In a working set where no order
  has a `waStatus`, the dashboard's "read" counter is always 0
  (`Dashboard.NoWaStatusNoReads`).
- **No status refresh.** There is no status-refresh operation. The order list
  declares a `checkWaStatus` callback, but the app never passes one.
- **Invalid submit.** An invalid intake or expense submit does nothing; no
  error is reported.
- **Two written records.** A valid intake submit writes two order records to
  the store:
  - the app's own record, under an id of at most six characters;
  - a second record that the form writes itself, under `order-<suffix>`.

  The in-memory list gains only one order. After a reload both records are
  listed, so the order appears twice. `NewOrderModal.OrderModal.Submit` and
  `NewOrderModal.SubmitWritesTwoRecords` state this.
- **Shared ids.** Row buttons only move an order forward. But a status change
  rewrites every order with that id, so two orders sharing an id can move one
  of them backward (`OrderList.SharedIdMovesBackward`). With distinct ids,
  every press moves exactly its own row one step forward
  (`OrderList.PressAdvancesOnlyItsRow`).

## Model

| member | source | states |
|---|---|---|
| `Types.Rank` | types.ts:2-7 | statuses are ranked 0..3 in declared lifecycle order; rank 0 is exactly PENDING and rank 3 exactly PICKED_UP |
| `Types.RankInjective` | types.ts:2-7 | distinct statuses have distinct ranks, so there are exactly four lifecycle states |
| `Types.StatusTagInjective` | types.ts:2-7 | the four status strings are pairwise distinct |
| `Types.ServiceFromTag` | components/NewOrderModal.tsx:131-139 | a tag string the service select hands back reads as a variant only if that variant's tag is the string |
| `Types.ServiceTagRoundTrip` | types.ts:9-14 | every service variant's tag reads back as that variant |
| `Types.ServiceTagInjective` | types.ts:9-14 | the four service tags are pairwise distinct |
| `Types.RoleTagInjective` | types.ts:36-39 | a user role is admin or staff, with distinct tags |
| `Constants.ServicePrice` | constants.ts:4-9 | every service has a positive unit price |
| `Constants.EstimatedHours` | constants.ts:11-16 | every service has a positive turnaround |
| `Constants.PriceTable` | constants.ts:4-16 | prices 7000/10000/6000/25000 and turnarounds 24/48/24/72 hours |
| `Constants.DryCleanIsDearestAndSlowest` | constants.ts:8-15 | every other service is strictly cheaper and strictly faster than dry cleaning |
| `Phone.StripNonDigits` | App.tsx:110 | the stripped string holds only decimal digits and is no longer than the input |
| `Phone.StripConcat` | App.tsx:110 | stripping distributes over concatenation |
| `Phone.StripDigitsIsIdentity` | App.tsx:110 | a digit-only string is left unchanged by stripping |
| `Phone.StripNoDigitsIsEmpty` | App.tsx:110 | a string without digits strips to the empty string |
| `Phone.StripKeepsExactlyDigits` | App.tsx:110 | a character survives stripping iff it occurs in the input and is a digit |
| `Phone.FormatPhoneNumber` | App.tsx:109-115 | the normalised number is digits only and never starts with `0` |
| `Phone.FormatPrefixRule` | App.tsx:111-113 | a digit string starting with `0` becomes `62` plus the rest; any other digit string is returned as it is |
| `Phone.TrunkPrefixReplaced` | App.tsx:111-113 | `0` followed by digits d normalises to `62` followed by d |
| `Phone.PunctuationDropped` | App.tsx:110-114 | non-digit characters before a normalised digit string are dropped |
| `Phone.FormatIdempotent` | App.tsx:109-115 | normalising twice equals normalising once |
| `Phone.SampleTrunkNumber` | App.tsx:109-115 | `081234567890` becomes `6281234567890` |
| `Phone.SampleInternationalNumber` | App.tsx:109-115 | `+6281234567890` becomes `6281234567890` |
| `Phone.SampleNormalisedNumber` | App.tsx:109-115 | `6281234567890` is left as it is |
| `Notification.MessageOnlyWhenNotifying` | App.tsx:123-128 | the message is non-empty iff the status is PROCESSING or COMPLETED |
| `Notification.ProcessingMessageMentions` | App.tsx:124-125 | the PROCESSING message contains `#` followed by the order id, the service tag and `Rp ` followed by the formatted price |
| `Notification.CompletedMessageMentions` | App.tsx:126-127 | the COMPLETED message contains `#` followed by the order id and `Rp ` followed by the formatted price |
| `Notification.SendNotification` | App.tsx:117-138 | no request is prepared iff the token is empty; a request carries the token and goes to a digit-only target that does not start with `0` |
| `Notification.SendCarriesOrder` | App.tsx:117-138 | with a token, a PROCESSING or COMPLETED send targets the normalised phone with a non-empty message naming `#<id>` |
| `WorkingSet.FromDraft` | App.tsx:71-77 | a created order keeps every draft field, takes the given id and time, and is PENDING with no message status |
| `WorkingSet.SetStatusById` | App.tsx:86 | same length and order; orders with the id get the new status, every other order is unchanged |
| `WorkingSet.FindById` | App.tsx:89 | None iff no order has the id; otherwise the first order carrying the id |
| `WorkingSet.FindAfterSetStatus` | App.tsx:86-89 | after the rewrite, the order found under the id is the previously first match, now carrying the new status |
| `WorkingSet.SetStatusUnknownId` | App.tsx:86-90 | an unknown id leaves the list unchanged |
| `WorkingSet.SetStatusKeepsNoWaStatus` | App.tsx:86 | a status rewrite introduces no message status |
| `WorkingSet.Insert` | App.tsx:50 | insertion adds exactly the one order (multiset) |
| `WorkingSet.InsertNewestFirst` | App.tsx:50 | inserting into a newest-first list keeps it newest first |
| `WorkingSet.SortNewestFirst` | App.tsx:50 | the load-time ordering is a permutation of the loaded orders, ordered by creation time, newest first |
| `Store.ListValues` | db.ts:47-53 | get-all lists exactly one value per key: each listed value is read from a distinct key, and every key is read |
| `Store.Store.constructor` | db.ts:14-29 | the four collections start out existing and empty |
| `Store.Store.GetUser` | db.ts:63-69 | get-by-key finds a user iff its key is present, and returns the record stored under it |
| `Store.Store.GetSetting` | db.ts:63-69 | get-by-key finds a setting iff its key is present, and returns its value |
| `Store.Store.PutUser` | db.ts:55-61 | upsert of a user under its username; other collections unchanged |
| `Store.Store.PutOrder` | db.ts:55-61 | upsert of an order under its id; other collections unchanged |
| `Store.Store.PutExpense` | db.ts:55-61 | upsert of an expense under its id; other collections unchanged |
| `Store.Store.PutSetting` | db.ts:55-61 | upsert of a setting under its key; other collections unchanged |
| `Store.Store.GetAllOrders` | db.ts:47-53 | every stored order is listed exactly once |
| `Store.Store.GetAllExpenses` | db.ts:47-53 | every stored expense is listed exactly once |
| `App.ExpenseFromDraft` | App.tsx:98-103 | a recorded expense keeps the form's category, amount and description and takes the given id and date |
| `App.SeedAdmin` | App.tsx:39-43 | the default administrator is stored iff no `admin` user exists; nothing else changes |
| `App.Load` | App.tsx:39-52 | the load seeds the administrator when absent, leaves the other collections unchanged, and returns every stored order (newest first), every stored expense and the stored token or the empty string |
| `App.SortKeepsStoredOrders` | App.tsx:46-50 | sorting the loaded orders keeps them an exact listing of the stored orders |
| `App.Shop.Init` | App.tsx:34-61 | start-up seeds the administrator, loads all stored orders newest first and all expenses, and takes the stored token or none |
| `App.Shop.AddOrder` | App.tsx:71-83 | the new PENDING order is at index 0 followed by the previous orders; it is stored under its id; the form closes and a success toast names the id |
| `App.Shop.SendFonnteNotification` | App.tsx:117-144 | one entry is appended to the outbox; an empty token gives the not-configured error toast and no request |
| `App.Shop.UpdateOrderStatus` | App.tsx:85-96 | the list is rewritten by id; an unknown id stores, sends and reports nothing; otherwise the first match is stored, and a notification is attempted iff the new status is PROCESSING or COMPLETED |
| `App.Shop.AddExpense` | App.tsx:98-107 | the new expense is prepended and stored under its id, with a success toast |
| `App.Shop.SaveFonnteToken` | App.tsx:66-69 | the token is kept in memory and stored under `fonnte_token` |
| `App.Shop.OpenNewOrder` | App.tsx:207 | the header button opens the intake form |
| `App.PickedUpNeverNotifies` | App.tsx:92-94 | only the two middle lifecycle states notify; PENDING and PICKED_UP never do |
| `OrderList.NextStatus` | components/OrderList.tsx:128-151 | the successor is one rank higher; only PICKED_UP has none |
| `OrderList.RowActionsFollowLifecycle` | components/OrderList.tsx:128-151 | a row offers exactly the one button to its next status, bound to its own id; a PICKED_UP row offers none |
| `OrderList.AdvanceRank` | components/OrderList.tsx:128-151 | after n presses the rank is min(3, rank + n): strictly forward, one step each |
| `OrderList.ThreeStepsToPickUp` | components/OrderList.tsx:128-151 | a PENDING order reaches PICKED_UP after exactly three presses, not fewer |
| `OrderList.PressAdvancesOnlyItsRow` | components/OrderList.tsx:128-151 | with distinct ids a press advances its own row one step and leaves all other rows unchanged |
| `OrderList.SharedIdMovesBackward` | App.tsx:86 | with a shared id, pressing a PENDING row moves a COMPLETED order back to PROCESSING |
| `OrderList.WaLabel` | components/OrderList.tsx:25-36 | no badge iff the status is absent or empty; an unknown status shows its raw string |
| `OrderList.WaLabelKnown` | components/OrderList.tsx:30-34 | the five known statuses show Pending, Terkirim, Sampai, Dibaca, Gagal |
| `NewOrderModal.PreviewPrice` | components/NewOrderModal.tsx:30-32 | positive weight gives a positive price; zero weight gives zero |
| `NewOrderModal.Estimate` | components/NewOrderModal.tsx:34-37 | the estimate lies after now, at most 72 hours later |
| `NewOrderModal.PreviewPriceOrder` | components/NewOrderModal.tsx:31 | the price grows with weight, and dry cleaning is the dearest for any weight |
| `NewOrderModal.SampleWashIron` | components/NewOrderModal.tsx:31 | 5 kg wash-and-iron costs 50000 |
| `NewOrderModal.OrderModal.constructor` | components/NewOrderModal.tsx:15-38 | the form starts empty with weight 0 and wash-fold; preview price 0, estimate now + 24 |
| `NewOrderModal.OrderModal.Edit` | components/NewOrderModal.tsx:30-38 | the preview is recomputed only when weight or service changes, and always matches the form |
| `NewOrderModal.OrderModal.Draft` | components/NewOrderModal.tsx:43-47 | the payload is the form fields plus the previewed price (unit price × weight) and estimate |
| `NewOrderModal.OrderModal.OwnRecord` | components/NewOrderModal.tsx:53-63 | the second record is PENDING, has id `order-<suffix>`, the same price and estimate, and equals the payload placed under that id |
| `NewOrderModal.OrderModal.Submit` | components/NewOrderModal.tsx:40-73 | weight ≤ 0 or an empty name changes nothing; otherwise the app prepends the order, the store gains both records, and the form resets to empty, weight 0, wash-fold, preview 0; the expenses, the token, the outbox and the other store collections are unchanged |
| `NewOrderModal.SubmitWritesTwoRecords` | components/NewOrderModal.tsx:49-65 | the two writes go to two different keys, so one submit leaves two stored records |
| `Finance.NetProfit` | components/Finance.tsx:18 | with no orders and no expenses the profit is 0 |
| `Finance.RevenueAppend` | components/Finance.tsx:16 | revenue is additive over concatenated order lists |
| `Finance.ExpensesAppend` | components/Finance.tsx:17 | expenses are additive over concatenated lists |
| `Finance.RevenuePrepend` | components/Finance.tsx:16 | a prepended order adds exactly its price to revenue |
| `Finance.ExpensePrepend` | components/Finance.tsx:17-18 | a prepended expense of amount a raises expenses by a and lowers profit by a |
| `Finance.RevenueSamePrices` | components/Finance.tsx:16 | revenue depends only on the prices, position by position |
| `Finance.RevenueIgnoresStatus` | components/Finance.tsx:16 | revenue counts every order regardless of status, so a status change never alters it |
| `Finance.RevenueNonNegative` | components/Finance.tsx:16 | with no negative prices revenue is not negative |
| `Finance.SampleTwoExpenses` | components/Finance.tsx:16-18 | expenses 10000 and 15000 with no orders give expenses 25000, revenue 0, profit −25000 |
| `Finance.FinancePanel.constructor` | components/Finance.tsx:13-14 | the expense form starts empty and closed |
| `Finance.FinancePanel.Open` | components/Finance.tsx:64 | the add button opens the panel |
| `Finance.FinancePanel.Cancel` | components/Finance.tsx:100 | the cancel button closes the panel, keeping the fields |
| `Finance.FinancePanel.Edit` | components/Finance.tsx:79-96 | a field edit replaces the form |
| `Finance.FinancePanel.Submit` | components/Finance.tsx:20-27 | amount ≤ 0 or an empty category changes nothing; otherwise the expense is prepended and stored, the panel closes and the form clears; the orders, the token, the outbox, the intake-form flag and the other store collections are unchanged |
| `Dashboard.ActiveOrders` | components/Dashboard.tsx:33 | the active count is at most the number of orders |
| `Dashboard.CountStatus` | components/Dashboard.tsx:33 | a per-status count is at most the number of orders |
| `Dashboard.ReadMessages` | components/Dashboard.tsx:34 | the read count is at most the number of orders |
| `Dashboard.ComputeStats` | components/Dashboard.tsx:30-43 | profit = revenue − expenses; revenue and expenses agree with the finance page; both counts are bounded by the number of orders |
| `Dashboard.StatusPartition` | components/Dashboard.tsx:33 | active + COMPLETED + PICKED_UP = number of orders, and active = PENDING + PROCESSING |
| `Dashboard.AddOrderCounts` | components/Dashboard.tsx:31-33 | a new PENDING order raises the active count by one and revenue by its price |
| `Dashboard.ReadMessagesIgnoreStatus` | components/Dashboard.tsx:34 | a status change leaves the read count unchanged |
| `Dashboard.NoWaStatusNoReads` | components/Dashboard.tsx:34 | with no message status recorded the read count is 0 |
| `Dashboard.RecentActivity` | components/Dashboard.tsx:105 | the panel shows the first min(5, \|orders\|) orders in list order |
| `Dashboard.NewOrderHeadsRecent` | components/Dashboard.tsx:105 | a new order heads the panel, followed by the previously shown orders less the last if full |

## Left out

- The gateway call, its reply and its error path (App.tsx:130-143) are network I/O and are not modelled. The outbox records the prepared request. The success or failure toasts that depend on the reply are not modelled.
- Currency and date formatting with the `id-ID` locale are treated as opaque (`Shop.localeFormat`) or not modelled.
- IDs from `Math.random` and times from `Date.now` are nondeterministic, so they are parameters. The model does not ensure app ids are unique; `OrderList.SharedIdMovesBackward` shows what happens when they are not.
- The store is a map per collection, so the order of get-all results is left unspecified. IndexedDB callbacks, store opening and failure paths are foreign APIs. The fall-through loading state after a failed start-up is not modelled.
- The toast auto-dismiss timer, React rendering and effects, tab navigation, the chart and all styling are UI. The edit form's preview update is modelled as part of `OrderModal.Edit`.
- Login, header and settings screens are out: their only logic is a plaintext comparison and presentation. The token save they call is modelled as `Shop.SaveFonnteToken`.
- The message-status refresh button calls a callback the app never supplies; the model has no refresh operation.
- WorkingSet.SortNewestFirst: the model is stable by construction (equal times keep their input order), but no lemma states stability.
- Weight and money are exact reals, not IEEE doubles. Timestamps are hours, so the ISO-string parsing behind the sort is not modelled.
