# Storefront cart, inventory and order rules in Dafny

This project models the rules at the centre of a Next.js + Supabase storefront
with a Midtrans payment gateway:

- the client cart store (one line per product, stock-gated adds and updates);
- the realtime product projection: the store of deltas and inserts, the
  provider that feeds it, the per-product live view with its out-of-stock
  alert, and the product list that merges realtime inserts;
- the server cart actions over the `cart_items` table, including the
  guest-to-account merge `syncCart`;
- checkout order assembly `createOrder`: validation order, server-side total,
  order lines, stock reservation and the gateway hand-off;
- the payment-notification webhook: the status decision table and the
  paid-only stock decrement;
- the admin order list reducer over the orders change feed;
- the route guard middleware;
- the product admin actions: slug derivation and required-field guards.

Every database table is an abstract map held by `Backend.Database`:
`products`, `orders`, `order_items` grouped by order id, and `cart_items`
keyed by (user, product). Prices and stock are unbounded integers. What the
code learns from outside is a parameter of the operation: the signed-in user,
a role table, the generated order id, the gateway's token, the outcome of each
stock write, and whether the reads and writes that the code checks for errors
failed. Writes whose errors the code ignores are taken to succeed (see
"Left out"). Code that updates
state in place is a class with `modifies` clauses. Each of its methods is
proved equal to a pure step function, and the properties are lemmas about
those functions. The loops of `syncCart`, `createOrder`'s two loops and the
webhook's decrement loop are `while` loops. Their invariants tie them to
folds over the processed prefix.

The model follows the code where the code and its design notes differ:

- Checkout reserves stock when the order is created, and the webhook
  decrements it again when the payment settles. `Notification.PaidOrderStockDecrementedTwice`
  states the outcome: a paid order ends up taking 2q off the stock.
- The cart stock checks only bound quantities from above.
  `Checkout.NegativeQuantityAccepted` shows a negative quantity accepted
  at checkout, lowering the total.
- The server cart actions apply no stock check at all.

## Model

| member | source | states |
|---|---|---|
| CartStore.Find | src/store/use-cart-store.ts:31 | the index returned is the first line with that id; `None` exactly when no line has it |
| CartStore.AddStep | src/store/use-cart-store.ts:29-58 | reports out of stock exactly when the stock is 0; adds exactly when the product is absent or one more unit fits the live stock; a refused add changes nothing, an accepted one opens the panel and adds at most one line |
| CartStore.UpdateStep | src/store/use-cart-store.ts:63-85 | no line exactly when the id is absent; refused exactly when the quantity exceeds the line's stored stock; a refusal changes nothing; a removal follows a non-positive quantity and keeps exactly the lines with other ids; the panel is untouched |
| CartStore.Without | src/store/use-cart-store.ts:60-61 | the filtered list keeps exactly the lines with another id and is no longer than the input |
| CartStore.AddOutOfStockIsNoOp | src/store/use-cart-store.ts:33-37 | adding a product whose stock is 0 leaves items and `isOpen` unchanged and reports out of stock |
| CartStore.AddOverStockIsNoOp | src/store/use-cart-store.ts:39-44 | adding a present product when one more unit would exceed its live stock leaves the state unchanged and reports the available stock |
| CartStore.AddPresentIncrements | src/store/use-cart-store.ts:46-53 | within stock, only the matching line gains exactly one unit, keeping its stored product (old stock snapshot included); other lines unchanged; panel opens |
| CartStore.AddAbsentAppends | src/store/use-cart-store.ts:54-56 | an absent product is appended at the end as a single unit and the panel opens |
| CartStore.WithoutConcat | src/store/use-cart-store.ts:61 | removal distributes over concatenation, so the remaining lines keep their order |
| CartStore.WithoutAbsent | src/store/use-cart-store.ts:61 | removing an id no line carries changes nothing |
| CartStore.RemoveIdempotent | src/store/use-cart-store.ts:60-61 | removing twice equals removing once |
| CartStore.WithoutAt | src/store/use-cart-store.ts:61 | with unique ids, removal deletes exactly the line at its index and keeps the rest in order |
| CartStore.UpdateRejected | src/store/use-cart-store.ts:63-71 | an unknown id, or a quantity above the line's stored stock, leaves the state unchanged (the stock check precedes the removal check) |
| CartStore.UpdateWithinStock | src/store/use-cart-store.ts:73-84 | within stock, a quantity of 0 or less removes just that line, and a positive one sets exactly that line's quantity; other lines and the panel unchanged |
| CartStore.WithoutValid | src/store/use-cart-store.ts:60-61 | removal preserves unique ids and positive quantities |
| CartStore.AddPreservesValid | src/store/use-cart-store.ts:29-58 | `addItem` preserves unique ids and quantities of at least 1 |
| CartStore.UpdatePreservesValid | src/store/use-cart-store.ts:63-85 | `updateQuantity` preserves unique ids and quantities of at least 1 |
| CartStore.Cart.constructor | src/store/use-cart-store.ts:26-27 | the cart starts empty and closed |
| CartStore.Cart.AddItem | src/store/use-cart-store.ts:29-58 | the new state and toast are those of the add step, and the cart invariant is kept |
| CartStore.Cart.RemoveItem | src/store/use-cart-store.ts:60-61 | items become the filtered list, the panel flag is unchanged, and the invariant is kept |
| CartStore.Cart.UpdateQuantity | src/store/use-cart-store.ts:63-85 | the new state is that of the update step, and the invariant is kept |
| CartStore.Cart.ClearCart | src/store/use-cart-store.ts:87 | items become empty and the panel flag is unchanged |
| CartStore.Cart.ToggleCart | src/store/use-cart-store.ts:88 | the panel flag is negated and items are unchanged |
| CartStore.Cart.SetOpen | src/store/use-cart-store.ts:89 | the panel flag is set and items are unchanged |
| RealtimeStore.RecordUpdate | src/store/use-realtime-store.ts:14-17 | the delta for the id is replaced; every other key and the inserts are unchanged; deltas stay keyed by their own id |
| RealtimeStore.RecordInsert | src/store/use-realtime-store.ts:18-21 | the product becomes the head, the old list the tail, the length grows by one, and updates are unchanged |
| RealtimeStore.Dispatch | src/components/providers/realtime-products-provider.tsx:27-39 | INSERT prepends the product and keeps the deltas; DELETE records a deletion marker under the old id; UPDATE records the full new row under its id; only INSERT touches the insert list |
| RealtimeStore.AnnouncesArrival | src/components/providers/realtime-products-provider.tsx:32-37 | only inserts are announced; always when the given pathname is absent; never when it is an `/admin` path (the pathname is the one captured at subscription) |
| RealtimeStore.LastWriteWins | src/store/use-realtime-store.ts:16 | two deltas for the same id equal the second alone |
| RealtimeStore.InsertTwiceKeepsBoth | src/store/use-realtime-store.ts:20 | inserting the same product twice lists it twice |
| RealtimeStore.FoldInserts | src/store/use-realtime-store.ts:18-21 | any run of inserts leaves updates unchanged and adds one entry each |
| RealtimeStore.DeletionSurvivesInserts | src/components/providers/realtime-products-provider.tsx:28-38 | after a DELETE, the deletion marker remains the recorded delta whatever inserts follow |
| RealtimeStore.Store.constructor | src/store/use-realtime-store.ts:12-13 | the store starts with no deltas and no inserts |
| RealtimeStore.Store.AddUpdate | src/store/use-realtime-store.ts:14-17 | the store's state becomes that of the update step |
| RealtimeStore.Store.AddInsert | src/store/use-realtime-store.ts:18-21 | the store's state becomes that of the insert step |
| RealtimeStore.Provider.constructor | src/components/providers/realtime-products-provider.tsx:11-17 | the provider keeps the store and the pathname of the render in which it subscribed |
| RealtimeStore.Provider.Receive | src/components/providers/realtime-products-provider.tsx:27-47 | DELETE records a deletion marker, UPDATE the full record, INSERT an insert; an arrival is announced exactly for inserts when the pathname captured at subscription is outside `/admin`, whatever page is shown later |
| RealtimeStore.AnnouncementIgnoresNavigation | src/components/providers/realtime-products-provider.tsx:12-47 | a provider that subscribed on `/` announces inserts even while an `/admin` page is shown, and one that subscribed on an `/admin` page stays silent after navigating to `/` |
| ProductRealtime.LiveProduct | src/hooks/use-product-realtime.ts:9-12 | with no delta the initial product is returned unchanged; with a delta the result is null exactly when it marks deletion; the id is kept |
| ProductRealtime.Overlay | src/hooks/use-product-realtime.ts:12 | every field present in the delta, `createdAt`, `updatedAt` and `is_deleted` included, overrides the base; every absent field keeps the base value; the id is the delta's |
| ProductRealtime.LiveAfterUpdateEvent | src/hooks/use-product-realtime.ts:12 | after an UPDATE event, the live product is the new record, except that an `is_deleted` flag missing from the record is kept from the base |
| ProductRealtime.LiveAfterDeleteEvent | src/hooks/use-product-realtime.ts:29 | after a DELETE event, the live product is null |
| ProductRealtime.LiveIgnoresOtherIds | src/hooks/use-product-realtime.ts:9 | events about other products do not change this product's live view |
| ProductRealtime.AlertStep | src/hooks/use-product-realtime.ts:17-26 | a deleted product neither alerts nor moves the tracked stock; otherwise the alert fires exactly when the tracked stock was positive and the new tracked stock is 0 |
| ProductRealtime.AlertFollowsLiveProduct | src/hooks/use-product-realtime.ts:9-31 | when the hook returns null the effect does nothing; otherwise it alerts exactly on a positive-to-zero transition to the returned product's stock, which becomes the tracked stock |
| ProductRealtime.AlertsOnlyOnDrop | src/hooks/use-product-realtime.ts:17-26 | over any sequence of effect runs, a run alerts exactly when the product is not deleted and the tracked stock goes from positive to 0 across it |
| ProductRealtime.NoRepeatedAlert | src/hooks/use-product-realtime.ts:17-26 | re-running the effect on the same inputs raises no second alert |
| ProductRealtime.StockWatch.constructor | src/hooks/use-product-realtime.ts:15 | the tracked stock starts at the initial product's stock |
| ProductRealtime.StockWatch.Effect | src/hooks/use-product-realtime.ts:17-26 | the alert and the new tracked stock are those of `AlertStep` on the old tracked stock |
| RealtimeProductList.FreshInserts | src/hooks/use-realtime-product-list.ts:11 | keeps exactly the inserts whose id is absent from the initial list |
| RealtimeProductList.MergeInserts | src/hooks/use-realtime-product-list.ts:11-13 | the initial list is an unchanged suffix, and every element before it is an insert whose id is absent from the initial list |
| RealtimeProductList.MergeLength | src/hooks/use-realtime-product-list.ts:11-13 | output length is the initial length plus the number of inserts with an unseen id, duplicates among inserts counted |
| RealtimeProductList.FreshLength | src/hooks/use-realtime-product-list.ts:11 | the filtered inserts number exactly the inserts with an unseen id |
| RealtimeProductList.FreshConcat | src/hooks/use-realtime-product-list.ts:11 | filtering distributes over concatenation, so surviving inserts keep their relative order |
| RealtimeProductList.NoInsertsKeepsInitial | src/hooks/use-realtime-product-list.ts:11-13 | with no inserts the output is the initial list |
| RealtimeProductList.KnownInsertsHidden | src/hooks/use-realtime-product-list.ts:11-13 | when every insert is already listed, the output is the initial list |
| RealtimeProductList.MergeAfterInsert | src/hooks/use-realtime-product-list.ts:11-13 | a newly recorded insert is prepended to the output unless its id is already listed |
| RealtimeProductList.FreshOne | src/hooks/use-realtime-product-list.ts:11 | a single insert survives the filter exactly when its id is unseen |
| RealtimeProductList.FreshDistinct | src/hooks/use-realtime-product-list.ts:11 | filtering keeps ids distinct |
| RealtimeProductList.MergeShowsEachOnce | src/hooks/use-realtime-product-list.ts:11-13 | if neither list repeats an id, no product appears twice |
| ServerCart.UserRows | src/actions/cart.ts:103-108 | the snapshot maps exactly the user's products to their row quantities |
| ServerCart.SyncStep | src/actions/cart.ts:111-134 | a product the snapshot lacks gets a row with the local quantity; a product it has updates an existing row to snapshot plus local quantity and inserts none; every other row is kept |
| ServerCart.SyncFold | src/actions/cart.ts:111-135 | the loop deletes no row |
| ServerCart.AddedToCart | src/actions/cart.ts:6-38 | no-op for a guest; otherwise an existing row gains `quantity`, else a row with exactly `quantity`; no other row changes |
| ServerCart.RemovedFromCart | src/actions/cart.ts:40-53 | no-op for a guest; otherwise only that (user, product) row is deleted |
| ServerCart.UpdatedCartItem | src/actions/cart.ts:55-73 | a guest changes nothing; a quantity of 0 or less is exactly `removeFromCart`; a positive quantity sets an existing row to exactly that quantity (no stock check), adds no row, and changes nothing else |
| ServerCart.GetCart | src/actions/cart.ts:75-94 | empty for a guest; otherwise one entry per row of the user, with its quantity and the joined product (absent if none) |
| ServerCart.SyncFrame | src/actions/cart.ts:111-135 | rows of other users, and products the local cart does not name, are untouched |
| ServerCart.SyncMergedLine | src/actions/cart.ts:111-135 | a local line ends at DB quantity plus local quantity if the DB had the product, else at the local quantity |
| ServerCart.SyncMerge | src/actions/cart.ts:103-135 | the merge law: a product in both carts is summed, a local-only product gets the local quantity, a DB-only product and other users' rows are unchanged |
| ServerCart.SyncExample | src/actions/cart.ts:103-135 | local {A:2} merged into DB {A:3, B:1} gives {A:5, B:1} |
| ServerCart.AddToCart | src/actions/cart.ts:6-38 | the table becomes that of the add function |
| ServerCart.RemoveFromCart | src/actions/cart.ts:40-53 | the table becomes that of the remove function |
| ServerCart.UpdateCartItem | src/actions/cart.ts:55-73 | the table becomes that of the update function (a quantity of 0 or less removes the row) |
| ServerCart.SyncCart | src/actions/cart.ts:96-138 | no-op for a guest; otherwise the table is the fold of the merge step over the local lines against the quantities read before the loop |
| Checkout.ParseShipping | src/app/checkout/actions.ts:8-15 | shipping is accepted iff name ≥ 1, the email check, phone ≥ 10, address ≥ 5, city ≥ 1 and postal code ≥ 1 characters hold; the details are those fields |
| Checkout.Message | src/app/checkout/actions.ts:28-184 | the thrown message determines the kind of error, and carries the missing product's id or the short product's name |
| Checkout.MessagesIdentifyErrors | src/app/checkout/actions.ts:28-184 | two errors with the same message are the same error |
| Checkout.LineError | src/app/checkout/actions.ts:65-72 | no error exactly when the product was fetched with stock ≥ quantity; not found exactly when it was not fetched; otherwise insufficient stock for that product's name |
| Checkout.Fetch | src/app/checkout/actions.ts:51-54 | exactly the products whose id a cart line names, with their stored fields |
| Checkout.Assemble | src/app/checkout/actions.ts:60-80 | succeeds iff every line's product is found with stock ≥ quantity; then one line per cart line, in order, at the server price, and the total is their sum |
| Checkout.AssembleFailsAtFirstBadLine | src/app/checkout/actions.ts:63-72 | the error is that of the first failing line: product not found, else insufficient stock |
| Checkout.AssemblePrefixError | src/app/checkout/actions.ts:63-72 | once a prefix fails, the whole cart fails with the same error |
| Checkout.AssembleStep | src/app/checkout/actions.ts:74-79 | an accepted line appends its server-priced order line and adds price × quantity to the total |
| Checkout.AssembleStepFails | src/app/checkout/actions.ts:65-72 | a failing line after an accepted prefix decides the error |
| Checkout.CollectOrderLines | src/app/checkout/actions.ts:60-80 | the loop's result equals the assembly function |
| Checkout.Validate | src/app/checkout/actions.ts:22-80 | success implies a user, valid shipping, a non-empty cart, a successful fetch and an accepted assembly; past the first three checks, a failed fetch gives the fetch error, and otherwise validation succeeds exactly when assembly does and fails with assembly's error |
| Checkout.EarlyFailuresPrecedeFetch | src/app/checkout/actions.ts:26-49 | no user gives Unauthorized, then invalid shipping, then an empty cart, and these outcomes do not depend on the product fetch |
| Checkout.ValidatedOrderUsesServerPrices | src/app/checkout/actions.ts:17-20 | on success each line's product exists with enough stock; the lines carry id, quantity and server price in cart order; the total is their sum |
| Checkout.TotalExample | src/app/checkout/actions.ts:60-80 | server prices A 1000 × 2 and B 500 × 1 give a total of 2500 |
| Checkout.NegativeQuantityAccepted | src/app/checkout/actions.ts:70-79 | a negative quantity passes the stock check and contributes a negative amount |
| Checkout.ReservedFrame | src/app/checkout/actions.ts:118-138 | the reservation touches only products its lines name |
| Checkout.ReserveLine | src/app/checkout/actions.ts:119-137 | one line's write keeps the key set; a write that was not applied changes nothing |
| Checkout.ReserveLineFrame | src/app/checkout/actions.ts:119-137 | one line's write changes only that line's product, and of it only the stock |
| Checkout.Reserved | src/app/checkout/actions.ts:118-138 | the reservation keeps the key set |
| Checkout.ReservedOnlyStock | src/app/checkout/actions.ts:118-138 | the reservation changes no column but stock |
| Checkout.ReservedLine | src/app/checkout/actions.ts:118-138 | with one line per product and every write applied, each product loses exactly its line's quantity, whether by RPC or by the fetched-stock fallback |
| Checkout.ReserveStock | src/app/checkout/actions.ts:118-138 | the loop's table is the reservation fold |
| Checkout.CheckoutOutcome | src/app/checkout/actions.ts:22-188 | the caller succeeds iff validation passes, both inserts succeed and the gateway returns a token; the failure reported is the first one met |
| Checkout.ProductsAfter | src/app/checkout/actions.ts:98-138 | a failure up to the items insert leaves products unchanged; otherwise the key set is kept and only stock changes |
| Checkout.OrdersAfter | src/app/checkout/actions.ts:82-96 | after validation, a successful header insert adds one pending row with the server total and the shipping details, carrying the token only if everything succeeded |
| Checkout.ItemsAfter | src/app/checkout/actions.ts:98-114 | the draft's lines are stored under the new order id exactly when both inserts succeed |
| Checkout.EarlyFailureWritesNothing | src/app/checkout/actions.ts:64-96 | a failure before the header insert leaves orders, items and stock unchanged |
| Checkout.ItemsFailureLeavesOrphanOrder | src/app/checkout/actions.ts:104-114 | a failed items insert leaves a pending order without lines and the stock untouched |
| Checkout.GatewayFailureKeepsOrder | src/app/checkout/actions.ts:140-185 | a gateway failure reports an error but keeps the order without a token, its lines and the reservation |
| Checkout.StoredTotalMatchesLines | src/app/checkout/actions.ts:82-114 | whenever the new order has lines, its stored total is the sum of those lines' price × quantity |
| Checkout.InsufficientStockWritesNothing | src/app/checkout/actions.ts:64-72 | when the first failing line has too little stock, createOrder reports insufficient stock for that product and orders, order lines and stock are all unchanged |
| Checkout.ValidateOrder | src/app/checkout/actions.ts:22-80 | the method's result equals the validation function |
| Checkout.PersistOrder | src/app/checkout/actions.ts:82-187 | result, orders, items and products are those of the outcome functions for a validated request |
| Checkout.CreateOrder | src/app/checkout/actions.ts:22-188 | result, orders, items and products are those of the outcome functions applied to the validation result |
| Checkout.ValidatedOrderReservesStock | src/app/checkout/actions.ts:116-138 | for a validated cart with one line per product and every write applied, each product's stock drops by its line quantity |
| Notification.MapStatus | src/app/api/midtrans/notification/route.ts:38-55 | paid iff settlement, or capture with fraud status accept; cancelled iff cancel, deny or expire; never shipped; otherwise pending |
| Notification.UpdatedRow | src/app/api/midtrans/notification/route.ts:57-63 | the row takes the mapped status, and the payment id only when a non-empty transaction id is present; nothing else changes |
| Notification.ResponseStatus | src/app/api/midtrans/notification/route.ts:57-75 | 200 iff the notification was read and either maps to pending or updates an existing order; otherwise 500 |
| Notification.OrdersAfter | src/app/api/midtrans/notification/route.ts:57-75 | only a non-pending status with a successful update of an existing order writes that order's row |
| Notification.OnlyPaidTouchesStock | src/app/api/midtrans/notification/route.ts:72-95 | a non-paid outcome, or a 500 response, leaves every product unchanged |
| Notification.PaidDecrements | src/app/api/midtrans/notification/route.ts:88-95 | the paid loop keeps the key set |
| Notification.StockAfter | src/app/api/midtrans/notification/route.ts:57-95 | the key set is kept; no order write, a failed items query or a status other than paid leaves products unchanged; a written paid status with the items answered applies the paid decrements to the order's lines |
| Notification.PendingWritesNothing | src/app/api/midtrans/notification/route.ts:57 | a pending outcome answers 200 and leaves the orders unchanged |
| Notification.PaidFrame | src/app/api/midtrans/notification/route.ts:88-95 | the paid loop touches only products its lines name |
| Notification.PaidLine | src/app/api/midtrans/notification/route.ts:88-95 | with one line per product and every call applied, each product loses exactly its line's quantity |
| Notification.PaidOrderStockDecrementedTwice | src/app/api/midtrans/notification/route.ts:77-95 | the checkout reservation followed by the paid decrement leaves an ordered product 2 × quantity below its stock before checkout |
| Notification.DecrementPaidStock | src/app/api/midtrans/notification/route.ts:88-95 | the loop's table is the paid-decrement fold |
| Notification.HandleNotification | src/app/api/midtrans/notification/route.ts:12-148 | the response code, orders and products are those of the response, order and stock functions |
| RealtimeOrders.ApplyUpdate | src/hooks/use-realtime-orders.ts:68-71 | same length; items kept; the matching orders take the new row, other orders unchanged |
| RealtimeOrders.DropOrder | src/hooks/use-realtime-orders.ts:72-73 | keeps exactly the orders with another id |
| RealtimeOrders.ApplyEvent | src/hooks/use-realtime-orders.ts:52-67 | a successful insert fetch prepends the fetched order; a failed one leaves the list unchanged |
| RealtimeOrders.Settled | src/hooks/use-realtime-orders.ts:26-34 | success replaces the list (empty for a null body); failure restores a non-empty initial list, otherwise keeps the current one |
| RealtimeOrders.UpdateIdempotent | src/hooks/use-realtime-orders.ts:69-71 | applying the same update twice equals applying it once |
| RealtimeOrders.UpdateAbsentIsNoOp | src/hooks/use-realtime-orders.ts:69-71 | an update for an unknown id leaves the list unchanged |
| RealtimeOrders.DropConcat | src/hooks/use-realtime-orders.ts:73 | deletion distributes over concatenation, so the remaining orders keep their order |
| RealtimeOrders.DropAbsentIsNoOp | src/hooks/use-realtime-orders.ts:73 | deleting an unknown id leaves the list unchanged |
| RealtimeOrders.DropIdempotent | src/hooks/use-realtime-orders.ts:73 | deleting twice equals deleting once |
| RealtimeOrders.InsertThenDelete | src/hooks/use-realtime-orders.ts:61-73 | a delete after the insert of the same order undoes the insert |
| RealtimeOrders.InsertThenUpdate | src/hooks/use-realtime-orders.ts:61-71 | an update after an insert rewrites the new head's row and keeps its fetched items |
| RealtimeOrders.OrdersFeed.constructor | src/hooks/use-realtime-orders.ts:7-8 | the list starts as the initial orders and is loading iff there are none |
| RealtimeOrders.OrdersFeed.SettleInitialFetch | src/hooks/use-realtime-orders.ts:12-38 | the list becomes the settled list and loading becomes false |
| RealtimeOrders.OrdersFeed.Receive | src/hooks/use-realtime-orders.ts:51-75 | the list becomes that of the event, and loading is unchanged |
| Middleware.Guard | src/middleware.ts:41-81 | login redirect iff a protected prefix and no user; home redirect iff `/admin…` with a non-admin user (missing profile included); pass otherwise |
| Middleware.MatchedIsProtected | src/middleware.ts:84-86 | every path the matcher selects starts with a protected prefix, admin or customer |
| Middleware.Route | src/middleware.ts:41-86 | unmatched paths pass; on matched paths, login redirect iff no user, home redirect iff an `/admin` path with a non-admin user, pass otherwise |
| Middleware.UnprotectedIgnoresUser | src/middleware.ts:41-47 | outside the protected prefixes the request passes, whoever asks |
| Middleware.CustomerRouteIgnoresRole | src/middleware.ts:74-86 | off the admin prefix the role is irrelevant; on matched `/checkout` and `/orders` paths any user passes and a guest goes to login |
| Middleware.AdministratorIsNotGuarded | src/middleware.ts:52-86 | the body's prefix test would send a non-admin on `/administrator` home, but the matcher does not select that path, so every visitor passes |
| Middleware.OnlyOwnRoleMatters | src/middleware.ts:58-64 | only the signed-in user's own profile role affects the decision |
| ProductAdmin.LowerChar | src/app/admin/products/actions.ts:64 | ASCII capitals become lower case; every other character is kept |
| ProductAdmin.Lower | src/app/admin/products/actions.ts:64 | same length, each character lowered |
| ProductAdmin.SpacesToDashes | src/app/admin/products/actions.ts:64 | same length; exactly the space characters become `-` |
| ProductAdmin.DropNonWord | src/app/admin/products/actions.ts:64 | keeps exactly the characters in `[A-Za-z0-9_-]`, and is no longer than the input |
| ProductAdmin.Slug | src/app/admin/products/actions.ts:64 | the slug is no longer than the name and holds only word characters and `-`, none of them upper-case |
| ProductAdmin.SlugShape | src/app/admin/products/actions.ts:64 | a slug holds only `[a-z0-9_-]` (no spaces) and is no longer than the name |
| ProductAdmin.LowerFixes | src/app/admin/products/actions.ts:64 | lowering leaves a string of slug characters unchanged |
| ProductAdmin.DashesFix | src/app/admin/products/actions.ts:64 | replacing spaces leaves a string of slug characters unchanged |
| ProductAdmin.DropFixes | src/app/admin/products/actions.ts:64 | dropping non-word characters leaves a string of slug characters unchanged |
| ProductAdmin.SlugFixedPoint | src/app/admin/products/actions.ts:64 | a name already made of slug characters is its own slug |
| ProductAdmin.SlugIdempotent | src/app/admin/products/actions.ts:64 | slugging a slug changes nothing |
| ProductAdmin.DropConcat | src/app/admin/products/actions.ts:64 | dropping distributes over concatenation, so kept characters stay in order |
| ProductAdmin.CreateProduct | src/app/admin/products/actions.ts:25-74 | no user gives Unauthorized; a falsy name, price (0 or not a number) or category gives missing fields; otherwise the row carries the fields and the slug of the name |
| ProductAdmin.CreatedSlugIsWellFormed | src/app/admin/products/actions.ts:64-74 | the created product's slug is well formed and no longer than its name |
| ProductAdmin.UpdateRecord | src/app/admin/products/actions.ts:85-130 | no user gives Unauthorized; a falsy id or name gives missing fields; otherwise the record carries the id, name, description, price, stock and category from the form and the current time, and an image URL exactly when an upload succeeded, that upload's URL |
| ProductAdmin.ApplyUpdate | src/app/admin/products/actions.ts:105-139 | the matching row takes the name, description, price, stock, category and timestamp of the record, and the image only when uploaded; its id, slug, creation time and deletion flag are kept, so its URL stays stable; other rows unchanged; null numeric fields are refused |
| ProductAdmin.DeleteProduct | src/app/admin/products/actions.ts:6-23 | without a session nothing is deleted (Unauthorized); otherwise exactly that row is removed unless the delete fails |
| Backend.DecrementStock | src/app/api/midtrans/notification/route.ts:90-93 | the row with that id loses `amount` of stock; the other rows and the key set are unchanged |

## Left out

- Rendering, toasts, `revalidatePath`, logging, email sending, currency formatting: presentation and side channels. Only the announce flag of the product provider and the alert flag of the live product are kept, as booleans.
- Supabase client construction, sessions and cookies: the user, the session flag and the profile roles are inputs.
- The payment gateway SDK: signature verification is the presence of a notification, and token creation is an optional token in the checkout environment.
- The body of the `decrement_stock` database function is not part of this model. `Backend.DecrementStock` takes it to subtract the amount from the row's current stock.
- zustand's `persist` to localStorage is treated as identity. The realtime channel subscribe/unsubscribe is not modelled; events are delivered one at a time in some order.
- The zod email-format check is the `isEmail` parameter. Database error messages appended to thrown errors are not modelled.
- `parseFloat`/`parseInt`: price and stock are integers, and a value that does not parse is `None`. Image upload is an outcome parameter; `Date.now()` file names are not modelled.
- `toLowerCase` on non-ASCII characters (for example the Kelvin sign, which lowers to `k`) is not modelled; non-ASCII characters are kept by the lowering step and then dropped.
- Row order of the `getCart` and order-items queries: the model returns a map keyed by product id and a stored list per order. Duplicate (user, product) rows in `cart_items`, which `.single()` would turn into a second insert, are not modelled because the table is a map keyed by that pair.
- Database-generated ids and timestamps, and the joined `category` of products.
- The API route that serves the admin orders list is not part of this model; its answers are the fetch results of the orders feed.
- Async interleavings (rapid clicks, concurrent webhooks, events arriving while the initial fetch is in flight) are out of scope. The orders feed allows any order of `Receive` and `SettleInitialFetch` calls, but each runs atomically.
- Checkout.ReservedLine: proved only when every stock write is applied and the fetched stock equals the current stock. A failed RPC with a stale snapshot makes the fallback overwrite the stock with the older value minus the quantity; `Checkout.Reserved` models that write but no lemma states a bound for it.
- ProductAdmin.ApplyUpdate: treats a null price, stock or category as refused by the table, relying on the non-nullable fields of the Product type; the table's schema is not part of this model.
- Read and write failures in the server cart actions. Every `cart_items` read and write there succeeds in the model. The code checks none of their errors. A failed snapshot read in `syncCart` (src/actions/cart.ts:103-108) would leave its map empty and send every local line to the insert branch; `ServerCart.SyncCart` always reads the true rows.
- The `snap_token` write after the gateway answers (src/app/checkout/actions.ts:174-177) is taken to succeed. The code does not check its error, so with a failed write it would still report success while the stored order has no token.
- Checkout.MinLength counts Unicode scalar values (Dafny characters), while zod's `.min` counts UTF-16 code units. A character outside the Basic Multilingual Plane counts once here and twice in the code, so such short fields can be refused here and accepted there.
- Checkout.CreateOrder and Checkout.PersistOrder require the new order id to be absent from the orders table, as the database's generated ids are.
