# LocalBiz.AI order and storefront rules in Dafny

LocalBiz.AI is a multi-tenant shop-management service. Shop owners keep a product catalogue and record orders. The service tracks each shop's customers and sends WhatsApp confirmations. A subscription plan caps what an account may do each month. This project models the business rules underneath the REST API and the dashboard, and proves them:

- **Order placement** (`POST /api/orders`). Each line is looked up, checked against stock, snapshotted and decremented in turn. Then the customer is found or created by (shop, phone), the order is inserted and the customer's aggregates and segment are updated. Finally the shop's counters are bumped and the caller's usage is metered. The route also has a status update and a WhatsApp send.
- **The Mongoose documents.** Each of Order, Customer, Product, Shop, User, Payment and Message is a `class` with its fields and methods: the pre-save hooks, `updateSegment`, `updateStock`, the status setters and so on. Every method is proved equal to a function on the document's record, and the lemmas are stated about that function.
- **The plan-limit gate and the usage counter.** The gate lazily downgrades an expired plan, then compares the category's counter against its limit. The usage counter is incremented under a field name built from the category.
- **The pure helpers of the backend and the dashboard.** These are `generateSlug`, pagination, `cleanObject`, percentage change, the phone normalisers and `truncate`.
- **The storefront cart** of the public shop page, and the checks and request body of its checkout.
- **The dashboard's product form** (validation, tag parsing) and the AI assistant's suggested questions.

The database is an in-memory store of value maps. It holds products by id, customers by (shop, phone), orders by id, shop counters, users and logged messages. The `Db` class holds these maps as fields. Its methods are the route's steps, each proved equal to a pure function of the old store. The clock, the current day's window and date string, the WhatsApp outcome and the confirmation text are parameters.

Two behaviours of the code are worth stating up front:

- **Order placement is not atomic.** The code decrements stock line by line and never rolls back, so a line refused late leaves the earlier decrements in place. `OrderRoutes.LineFailureIsNotRolledBack` states this.
- **An apostrophe in a shop name is deleted, not turned into a hyphen.** `"Rahul's Kirana Store!!"` gives `"rahuls-kirana-store"`. `Slugs.DroppedCharVanishes` states this.

Files:

- `common.dfy`: `Option` and the id and time types.
- `text.dfy`: JavaScript whitespace, `trim`, `split`/`join` and decimal numerals.
- `slugs.dfy`: `generateSlug`.
- `helpers.dfy`: the rest of `backend/utils/helpers.js`.
- `products.dfy`, `customers.dfy`, `shops.dfy`, `users.dfy`, `payments.dfy`, `messages.dfy`, `orders.dfy`: the models.
- `plan_limits.dfy`: the middleware.
- `order_lines.dfy`: the stock loop.
- `order_routes.dfy`: the order routes and the `Db` class.
- `cart.dfy`: `ShopPage.jsx`.
- `product_form.dfy`: `ProductForm.jsx`.
- `formatters.dfy`: `formatters.js`.
- `suggestions.dfy`: `getSuggestedQuestions`.

## Model

| member | source | states |
|---|---|---|
| Products.NewProduct | backend/models/Product.js:20-34 | A new product has stock 0 when none is given, unit `piece` and zero stats, and lies within the schema bounds when price and stock are at least 0 |
| Products.StockUpdated | backend/models/Product.js:100-107 | `subtract` (the default) gives `max(0, stock - q)`, so stock is never negative. `add` gives `stock + q` and stamps `lastRestocked`. Any other operation changes nothing. No field other than stock and `lastRestocked` changes |
| Products.AddThenSubtract | backend/models/Product.js:100-107 | Adding q and then subtracting q restores the stock |
| Products.SubtractThenAddLoses | backend/models/Product.js:101-105 | Subtracting more than the stock and adding it back does not restore the stock, because the clamp loses the excess |
| Products.StockUpdatedInBounds | backend/models/Product.js:20-29 | A non-negative `add`, and any subtract, keeps a product within `price >= 0`, `stock >= 0` |
| Products.LowStockMonotone | backend/models/Product.js:95-97 | A low-stock product stays low after a subtract, and is low for any larger threshold. The threshold defaults to 10 |
| Products.Product.UpdateStock | backend/models/Product.js:100-107 | The document's new record is `StockUpdated` of the old one |
| Customers.CreateCustomer | backend/models/Customer.js:10-34 | Creation succeeds exactly when the trimmed name is 1-100 characters and the trimmed phone is ten digits. The new customer is `new` with zero aggregates. It never holds the request's address string, because the schema's `address` is a nested object and strict mode drops a plain string |
| Customers.NextSegment | backend/models/Customer.js:85-101 | A customer is set to `inactive` only with 1-2 orders, spend under 10000 and a last order before the cutoff. One with 3 or more orders becomes `regular` or `vip`. One is set back to `new` only with 0 orders |
| Customers.SegmentRules | backend/models/Customer.js:86-100 | The four branches: 0 orders gives `new`. 10+ orders or 10000+ spent gives `vip`. 3-9 orders give `regular`. 1-2 orders give `inactive` iff the last order is older than the cutoff, else the segment is unchanged |
| Customers.RoundDiv | backend/models/Customer.js:106 | The result is the nearest integer to a/b, halves rounded up, as `Math.round` does |
| Customers.RoundDivUnique | backend/models/Customer.js:106 | That rounding has exactly one solution |
| Customers.AverageOrderValue | backend/models/Customer.js:104-110 | The average is 0 without orders, and otherwise the rounded quotient of spend by orders |
| Customers.AverageOfEqualOrders | backend/models/Customer.js:104-110 | n orders of k each average exactly k |
| Customers.Customer.UpdateSegment | backend/models/Customer.js:85-101 | Only the segment changes, to `NextSegment` with the 90-day cutoff |
| Customers.Customer.CalculateAverageOrderValue | backend/models/Customer.js:104-110 | Only `averageOrderValue` changes, to `AverageOrderValue` |
| Shops.Candidate | backend/models/Shop.js:123-129 | The k-th retry slug is at least 2k characters longer than the base |
| Shops.CandidatesGrow | backend/models/Shop.js:123-129 | Later retries are strictly longer, so each candidate is tried once |
| Shops.AccumulatedSuffixes | backend/models/Shop.js:126-127 | Suffixes accumulate: the second retry is `base-1-2`, and the k-th is never `base-k` |
| Shops.CandidateChars | backend/models/Shop.js:123-129 | Suffixing a slug keeps it within `[a-z0-9-]` |
| Shops.LongTakenShrinks | backend/models/Shop.js:123-129 | The number of taken slugs at least as long as the candidate drops as the candidate grows, which is why the loop ends |
| Shops.FirstFreeFrom | backend/models/Shop.js:122-131 | The slug the loop settles on is owned by no other shop |
| Shops.FirstFreeFromIsFirst | backend/models/Shop.js:122-131 | The loop settles on the first free candidate |
| Shops.FirstFreeFromSkipsTaken | backend/models/Shop.js:122-131 | Every shorter candidate it passed was taken by another shop |
| Shops.FreeBaseKept | backend/models/Shop.js:125 | The base slug is kept iff no other shop owns it. A slug this shop owns itself is not a collision |
| Shops.FreeSlug | backend/models/Shop.js:122-131 | The `while` loop computes `FirstFreeFrom` |
| Shops.Shop.PreSave | backend/models/Shop.js:108-133 | An unchanged name with a slug already set leaves the slug alone. Otherwise the slug becomes the first free candidate for `generateSlug(shopName)` |
| Users.LimitsFor | backend/models/User.js:92-125 | The table row is the free row exactly for an unknown or free plan. Every row lies between the free row and the 999999 sentinel |
| Users.FreeRowIsDefault | backend/models/User.js:44-50 | The free row is orders 20, messages 50, products 50, customers 100, AI 10, equal to the schema defaults |
| Users.TiersMonotone | backend/models/User.js:93-122 | Each limit is non-decreasing along free, basic, pro, enterprise |
| Users.NewUser | backend/models/User.js:35-55 | A new user is on the free plan, with no expiry, zero usage and the free row's limits |
| Users.User.UpdatePlanLimits | backend/models/User.js:92-125 | Only `planLimits` changes, to the row of the current plan. It reads nothing else, so a second call changes nothing |
| Users.User.ResetMonthlyUsage | backend/models/User.js:128-134 | The three monthly counters become 0 and nothing else changes |
| Messages.NewMessage | backend/models/Message.js:34-52 | A new message is `queued` with no provider id, timestamps or failure reason, and a retry count of 0 |
| Messages.SettersIgnorePriorStatus | backend/models/Message.js:63-80 | Each setter's result does not depend on the prior status, and none touches the text or the retry count |
| Messages.NoMonotonicTransitions | backend/models/Message.js:63-80 | `delivered` can become `failed`, `failed` can become `delivered`, and `delivered` can go back to `sent` |
| Messages.Message.MarkAsSent | backend/models/Message.js:64-68 | Sets status `sent`, the provider id and `sentAt`, and nothing else |
| Messages.Message.MarkAsDelivered | backend/models/Message.js:71-74 | Sets status `delivered` and `deliveredAt`, and nothing else |
| Messages.Message.MarkAsFailed | backend/models/Message.js:77-80 | Sets status `failed` and `failureReason`, and nothing else |
| Payments.DaysIn | backend/models/Payment.js:65-67 | A month has 28 to 31 days (Gregorian leap years) |
| Payments.AddOneMonth | backend/models/Payment.js:65-67 | `setMonth(getMonth() + 1)` keeps the time of day and moves the date forward. A day the next month lacks overflows into the month after, as JavaScript's Date does |
| Payments.EndOfJanuary | backend/models/Payment.js:65-67 | January 31 plus one month is March 2, or March 3 outside leap years |
| Payments.NewPayment | backend/models/Payment.js:37-41 | A new payment is `created` with no payment id, signature, validity or failure reason |
| Payments.SuccessValidity | backend/models/Payment.js:57-68 | Success stores the id and signature, with `validFrom = now` and `validUntil` a valid instant after it |
| Payments.SettersIgnorePriorStatus | backend/models/Payment.js:57-74 | Neither setter reads the prior status: success can follow failure and vice versa |
| Payments.Payment.MarkAsSuccess | backend/models/Payment.js:57-68 | The new record is `Succeeded` of the old one |
| Payments.Payment.MarkAsFailed | backend/models/Payment.js:71-74 | The new record is `MarkedFailed` of the old one |
| Orders.NewOrder | backend/models/Order.js:76-85 | A new order is `pending` and `unpaid` (both in their enums), with no number, no final total, an empty history and the draft's items, total, discount and source |
| Orders.RemoveHyphens | backend/models/Order.js:131 | `.replace(/-/g, '')` leaves no hyphen |
| Orders.OrderNumberSuffix | backend/models/Order.js:142 | The suffix is a numeral of count + 1. It is exactly 4 characters iff count < 9999 and 5 or more beyond that, since `padStart` never truncates |
| Orders.OrderNumberInjective | backend/models/Order.js:142-143 | On one date, different counts give different numbers |
| Orders.FirstOrderOfDay | backend/models/Order.js:129-143 | The first order of a day is `ORD-<date>-0001` |
| Orders.CompactDateOfIso | backend/models/Order.js:131 | The ISO date `YYYY-MM-DD...` becomes `YYYYMMDD` |
| Orders.Hooked | backend/models/Order.js:124-152 | The hooks set the number only for a new document, set `finalTotal = total - discount`, and change nothing else |
| Orders.NewOrderNeverSaved | backend/models/Order.js:10-75 | As written, validation runs before the hooks, so a new order is always refused |
| Orders.Save | backend/models/Order.js:124-152 | A saved order passes the schema and has `finalTotal = total - discount`. A later save keeps the number |
| Orders.NewOrderSaved | backend/models/Order.js:124-152 | A new order within the schema bounds is saved with the generated number and its final total |
| Orders.ExistingOrderSaveAgrees | backend/models/Order.js:124-152 | For an existing, consistent order both hook orders agree and store it unchanged |
| Orders.WithHistory | backend/models/Order.js:155-161 | Exactly one entry `{status, now, updatedBy or 'system'}` is appended, earlier entries are kept and nothing else changes |
| Orders.Order.PreSave | backend/models/Order.js:124-152 | The document's record becomes `Hooked` of the old one |
| Orders.Order.AddStatusHistory | backend/models/Order.js:155-161 | The document's record becomes `WithHistory` of the old one |
| Orders.SaveAsWritten | backend/models/Order.js:3-146 | Defines `save()` as written: validation first, then the hooks. Stated by `NewOrderNeverSaved` |
| Orders.Valid | backend/models/Order.js:3-115 | Defines the schema's validators: required fields, bounds and enums. `Save` ensures a saved order meets it |
| Orders.OrderNumber | backend/models/Order.js:142-143 | Defines `ORD-<date>-<padded count + 1>`. Stated by `OrderNumberSuffix`, `OrderNumberInjective` and `FirstOrderOfDay` |
| Orders.CountToday | backend/models/Order.js:137-140 | Defines the count of this shop's orders created within the day window. Used by `InsertOrder`; `CrossShopNumberCollision` shows it is per shop |
| PlanLimits.Counter | backend/middleware/planLimits.js:28-52 | A counter exists exactly for `orders`, `messages` and `ai` |
| PlanLimits.Limit | backend/middleware/planLimits.js:28-52 | A limit exists exactly for `orders`, `messages` and `ai` |
| PlanLimits.Downgraded | backend/middleware/planLimits.js:15-20 | An expired paid plan becomes free with the free limits. An unexpired one is untouched. Usage and identity are kept, and the result is never expired |
| PlanLimits.AiPayloadMissing | backend/middleware/planLimits.js:61-62 | For `ai` the 403 payload's current and limit are both undefined, although the counter and the limit exist |
| PlanLimits.PayloadAsWrittenElsewhere | backend/middleware/planLimits.js:61-62 | For `orders` and `messages` the payload reads the right counter and limit |
| PlanLimits.Decide | backend/middleware/planLimits.js:28-65 | The gate refuses iff the category's counter is at or above its limit. An unknown type always passes. A refusal reports the plan, the counter and the limit |
| PlanLimits.ExpiredPlanJudgedAsFree | backend/middleware/planLimits.js:15-52 | An expired plan is judged against the free limits |
| PlanLimits.ResetReopensGate | backend/models/User.js:128-134 | After the monthly reset every gate passes |
| PlanLimits.CheckPlanLimit | backend/middleware/planLimits.js:2-76 | No user gives 401. Otherwise the user is downgraded if expired and the decision is `Decide` on the result. No usage counter changes |
| PlanLimits.IncrementedField | backend/middleware/planLimits.js:83-88 | `$inc` adds 1 to the named counter if it exists, leaves the others alone, and changes nothing when the path does not exist |
| PlanLimits.IncrementAt | backend/middleware/planLimits.js:79-92 | Only the given user's usage changes. An unknown user leaves the collection unchanged |
| PlanLimits.CounterField | backend/models/User.js:51-55 | Every metered category has a schema counter |
| PlanLimits.OrdersIncrement | backend/middleware/planLimits.js:79-92 | `incrementUsage(u, 'orders')` adds exactly 1 to that user's `ordersThisMonth` |
| PlanLimits.CounterIsField | backend/middleware/planLimits.js:28-52 | The counter the gate reads is the field the corrected increment writes |
| PlanLimits.IncrementUsageMeters | backend/middleware/planLimits.js:79-92 | The corrected increment adds 1 to the gate's counter for its category and leaves the others |
| PlanLimits.IncrementUsage | backend/middleware/planLimits.js:79-92 | Defines the corrected increment, on the counter the gate reads. Stated by `IncrementUsageMeters` and `OrdersIncrement` |
| PlanLimits.IncrementUsageAsWritten | backend/middleware/planLimits.js:83-88 | Defines the increment as written, on `usage.<type>ThisMonth`. Stated by `AiIncrementLost` and `AsWrittenAgreesElsewhere` |
| PlanLimits.AiIncrementLost | backend/middleware/planLimits.js:84 | As written, `incrementUsage(u, 'ai')` changes nothing |
| PlanLimits.AsWrittenAgreesElsewhere | backend/middleware/planLimits.js:84 | For every other category the written increment is the corrected one |
| PlanLimits.AiGateNeverCloses | backend/middleware/planLimits.js:43-48 | As written, an open AI gate stays open after any number of queries |
| PlanLimits.AiGateCloses | backend/middleware/planLimits.js:43-48 | Corrected, n queries add n to the counter, and the gate closes once the limit is reached |
| OrderLines.Snapshot | backend/routes/orders.js:51-58 | A line snapshots the product's name, price and unit, with `subtotal = price * quantity` |
| OrderLines.StoppedAfterPrefix | backend/routes/orders.js:32-65 | A refused order failed on some line k after lines 0..k-1 were applied |
| OrderLines.StoppedPersists | backend/routes/orders.js:32-65 | Lines after the failing one are never looked at |
| OrderLines.AfterAfter | backend/routes/orders.js:61-64 | Two decrements add up |
| OrderLines.AppliedAccounting | backend/routes/orders.js:32-65 | If every line passes, each product's stock falls by the summed quantity of its lines, never below 0. Sold count and revenue rise to match |
| OrderLines.AppliedSnapshots | backend/routes/orders.js:32-65 | If every line passes, there is one snapshot per line, in order, from the product before the order |
| OrderLines.ApplyLines | backend/routes/orders.js:32-65 | Defines the stock loop: look up, check stock, snapshot, decrement, stop at the first refusal. Stated by `StoppedAfterPrefix`, `AppliedAccounting` and `AppliedSnapshots` |
| OrderRoutes.TargetShop | backend/routes/orders.js:22 | There is no shop iff neither the body nor the user names one |
| OrderRoutes.AfterOrder | backend/routes/orders.js:101-106 | The customer gains one order, the final total in spend and `lastOrderDate = now`. The rounded average is updated and identity and address are kept. Only an already inactive customer can end up inactive |
| OrderRoutes.Bumped | backend/routes/orders.js:109-114 | The shop's order count rises by 1 and its revenue by the final total. Other counters and shops are unchanged |
| OrderRoutes.PostOrderAlwaysRefused | backend/routes/orders.js:18 | As written, POST `/api/orders` changes nothing and answers 400 or 401, never 201 |
| OrderRoutes.PostOrderReachesHandler | backend/routes/orders.js:18-29 | Corrected, a valid request from the public page, or from a caller under the order limit, is answered neither 401 nor 403 |
| OrderRoutes.PlaceNeverGates | backend/routes/orders.js:19-132 | The handler answers only 400 for a missing shop, 404 or 400 from the stock loop, 500 or 201. Built on the corrected `Orders.Save` (hooks before validation, see Findings); with the schema as written see `OrderRoutes.PlaceAsWrittenFailsLate` |
| OrderRoutes.PlaceAfterStockReplies | backend/routes/orders.js:68-132 | After the stock loop the answer is 500 or 201. Built on the corrected `Orders.Save` (hooks before validation, see Findings); with the schema as written see `OrderRoutes.PlaceAsWrittenFailsLate` |
| OrderRoutes.NoShopNoChange | backend/routes/orders.js:22-29 | With no shop id anywhere the answer is 400 and nothing changes |
| OrderRoutes.LineFailureIsNotRolledBack | backend/routes/orders.js:32-65 | A 404 or 400 on line k keeps the decrements of lines before k |
| OrderRoutes.InsertedOrder | backend/models/Order.js:124-152 | An inserted order is the draft with a fresh id, an unused number, `finalTotal = total - discount` and the `pending`/`unpaid` defaults. Built on the corrected `Orders.Save` (hooks before validation, see Findings); with the schema as written see `OrderRoutes.PlaceAsWrittenFailsLate` |
| OrderRoutes.DraftedOrder | backend/routes/orders.js:83-98 | The order takes the client's total as is, discount defaulting to 0 and source to `manual`, with the snapshot lines and the customer's id. Built on the corrected `Orders.Save` (hooks before validation, see Findings); with the schema as written see `OrderRoutes.PlaceAsWrittenFailsLate` |
| OrderRoutes.FoundCustomer | backend/routes/orders.js:68-80 | An existing (shop, phone) customer is reused unchanged. Otherwise a new one with zero aggregates and no address is created. No other collection changes |
| OrderRoutes.CreatedPath | backend/routes/orders.js:18-125 | A 201 means a shop was found, every line passed, the customer step and the insert succeeded, and the store was then settled. Built on the corrected `Orders.Save` (hooks before validation, see Findings); with the schema as written see `OrderRoutes.PlaceAsWrittenFailsLate` |
| OrderRoutes.CreatedOrderContents | backend/routes/orders.js:32-98 | The created order carries the client total, the defaults and one snapshot per line, and every product fell by its ordered quantity. Built on the corrected `Orders.Save` (hooks before validation, see Findings); with the schema as written see `OrderRoutes.PlaceAsWrittenFailsLate` |
| OrderRoutes.SettledCustomer | backend/routes/orders.js:68-106 | After the insert, the customer step gives an existing customer `AfterOrder` with name and address kept, and a new one exactly this order and no address. Built on the corrected `Orders.Save` (hooks before validation, see Findings); with the schema as written see `OrderRoutes.PlaceAsWrittenFailsLate` |
| OrderRoutes.CreatedOrderCustomer | backend/routes/orders.js:68-106 | The same, stated about the route's result. Built on the corrected `Orders.Save` (hooks before validation, see Findings); with the schema as written see `OrderRoutes.PlaceAsWrittenFailsLate` |
| OrderRoutes.SettledCounters | backend/routes/orders.js:109-119 | The shop's counters rise by one order and the final total. The caller's `ordersThisMonth` rises by 1 and no one else's changes. Built on the corrected `Orders.Save` (hooks before validation, see Findings); with the schema as written see `OrderRoutes.PlaceAsWrittenFailsLate` |
| OrderRoutes.CreatedOrderCounters | backend/routes/orders.js:109-119 | The same, stated about the route's result. Built on the corrected `Orders.Save` (hooks before validation, see Findings); with the schema as written see `OrderRoutes.PlaceAsWrittenFailsLate` |
| OrderRoutes.OrderNeverDeactivates | backend/routes/orders.js:101-106 | Placing an order never makes an active customer inactive |
| OrderRoutes.FirstOrderKeepsNew | backend/models/Customer.js:85-101 | A new customer's first order under 10000 leaves them `new`, as the 1-2 order branch keeps the segment |
| OrderRoutes.InsertFailedPath | backend/routes/orders.js:126-132 | A failed insert answers 500 and keeps the stock decrements and the customer |
| OrderRoutes.OverDiscountRefused | backend/models/Order.js:71-75 | A discount above the total fails the `finalTotal >= 0` bound |
| OrderRoutes.OverDiscountFailsLate | backend/routes/orders.js:83-132 | Such an order is refused with 500 only after stock was decremented and the customer saved |
| OrderRoutes.NumberCollisionRefused | backend/models/Order.js:10-14 | A shop's first order of a day whose number another shop already took fails the unique index |
| OrderRoutes.CrossShopNumberCollision | backend/routes/orders.js:83-132 | A second shop's first order of the day is refused with 500 after its stock was decremented |
| OrderRoutes.GateRefusesAtLimit | backend/middleware/planLimits.js:54-65 | An authenticated caller at the order limit gets 403 and no product, customer or order changes |
| OrderRoutes.StatusUpdateUnchecked | backend/routes/orders.js:224-226 | Any enum status is set, from any status, with exactly one history entry by the caller. Nothing else in the order changes |
| OrderRoutes.BadStatusNotStored | backend/routes/orders.js:224-238 | A status outside the enum fails validation on save: 500, nothing stored |
| OrderRoutes.FailedSendWritesNothing | backend/routes/orders.js:268-297 | A failed send changes nothing and reports failure |
| OrderRoutes.SuccessfulSendMeters | backend/routes/orders.js:270-291 | A successful send marks the order, logs a `sent` message with the provider id and adds 1 to `messagesThisMonth`. Products and customers are untouched |
| OrderRoutes.Db.TakeStock | backend/routes/orders.js:32-65 | The loop over the items computes `ApplyLines`, leaving the products it produces |
| OrderRoutes.Db.FindOrCreate | backend/routes/orders.js:68-80 | The customer step matches `FindOrCreateCustomer` |
| OrderRoutes.Db.InsertNew | backend/routes/orders.js:83-98 | `Order.create` matches `InsertOrder`, the insert with the hook order corrected. Built on the corrected `Orders.Save` (hooks before validation, see Findings); with the schema as written see `OrderRoutes.PlaceAsWrittenFailsLate` |
| OrderRoutes.Db.SettleOrder | backend/routes/orders.js:101-119 | The customer, shop and usage updates match `Settle` |
| OrderRoutes.Db.PlaceLines | backend/routes/orders.js:68-132 | The steps after the stock loop match `PlaceAfterStock`. Built on the corrected `Orders.Save` (hooks before validation, see Findings); with the schema as written see `OrderRoutes.PlaceAsWrittenFailsLate` |
| OrderRoutes.Db.CreateOrder | backend/routes/orders.js:18-133 | The whole handler matches `Place`, the handler with the hook order corrected. Built on the corrected `Orders.Save` (hooks before validation, see Findings); with the schema as written see `OrderRoutes.PlaceAsWrittenFailsLate` |
| OrderRoutes.Db.UpdateOrderStatus | backend/routes/orders.js:208-240 | The status route matches `UpdateStatus` |
| OrderRoutes.Db.SendOrderWhatsapp | backend/routes/orders.js:245-305 | The send route, gate included, matches `SendWhatsapp` |
| OrderRoutes.Db.SendConfirmation | backend/routes/orders.js:246-297 | The handler past the gate matches `SendPastGate` |
| OrderRoutes.Db.LogMessage | backend/routes/orders.js:270-291 | The success branch matches `LogSent` |
| OrderRoutes.PlaceAsWrittenFailsLate | backend/models/Order.js:10-14 | With the schema as written, every order that passes the stock loop is answered 500 after its stock was decremented and a new customer, if any, was stored |
| OrderRoutes.PlaceAsWrittenNeverCreates | backend/routes/orders.js:83-98 | With the schema as written, the handler never answers 201 and never adds an order |
| OrderRoutes.PostOrder | backend/routes/orders.js:18-133 | Defines the corrected route: validation, the lazy downgrade and the order gate, then `Place`. Its properties are stated by `PostOrderReachesHandler` and `GateRefusesAtLimit` |
| OrderRoutes.PostOrderAsWritten | backend/routes/orders.js:18 | Defines the route as registered, with no `protect`: 400 or 401. Stated by `PostOrderAlwaysRefused` |
| OrderRoutes.Place | backend/routes/orders.js:19-133 | Defines the handler body: target shop, stock loop, customer step, insert, settle. Stated by `PlaceNeverGates`, `CreatedPath` and the `Created*` lemmas, over the corrected save |
| OrderRoutes.PlaceAsWritten | backend/routes/orders.js:19-133 | Defines the handler body over the insert as written. Stated by `PlaceAsWrittenFailsLate` |
| OrderRoutes.InsertOrder | backend/routes/orders.js:83-98 | Defines `Order.create` with the corrected save and the unique order number. Stated by `InsertedOrder` and `NumberCollisionRefused` |
| OrderRoutes.InsertOrderAsWritten | backend/routes/orders.js:83-98 | Defines `Order.create` with `Orders.SaveAsWritten`. Stated by `PlaceAsWrittenFailsLate` |
| OrderRoutes.FindOrCreateCustomer | backend/routes/orders.js:68-80 | Defines the (shop, phone) lookup or `Customer.create`. Stated by `FoundCustomer` |
| OrderRoutes.UpdateStatus | backend/routes/orders.js:208-240 | Defines the status route. Stated by `StatusUpdateUnchecked` and `BadStatusNotStored` |
| OrderRoutes.SendWhatsapp | backend/routes/orders.js:245-305 | Defines the send route with its gate. Stated by `FailedSendWritesNothing` and `SuccessfulSendMeters` |
| Helpers.DigitPrefix | backend/utils/helpers.js:43-44 | `parseInt` reads the longest run of leading digits |
| Helpers.DigitPrefixOfDigits | backend/utils/helpers.js:43-44 | It stops exactly at the first non-digit |
| Helpers.ParseIntOfDigits | backend/utils/helpers.js:43-44 | A digit string parses to its value |
| Helpers.ParseIntOfNegatedDigits | backend/utils/helpers.js:43-44 | `-` followed by digits parses to the negated value |
| Helpers.ParseIntOfNumeral | backend/utils/helpers.js:43-44 | Parsing a decimal numeral gives its number back |
| Helpers.ParseIntOfNonNumeral | backend/utils/helpers.js:43-44 | A string starting with anything but whitespace, a sign or a digit is `NaN` |
| Helpers.ParseInt | backend/utils/helpers.js:43-44 | Defines the decimal forms of `parseInt`. Stated by `ParseIntOfDigits`, `ParseIntOfNumeral` and `ParseIntOfNonNumeral` |
| Helpers.OrDefault | backend/utils/helpers.js:43-44 | `parseInt(x) || d` is the parsed value unless it is `NaN` or 0, in which case it is d |
| Helpers.GetPagination | backend/utils/helpers.js:42-48 | Page and limit are never 0. A missing page is 1 and a missing limit is 20. `skip = (page - 1) * limit` |
| Helpers.GetPaginationOfNumerals | backend/utils/helpers.js:42-48 | Positive numerals are taken as given |
| Helpers.GetPaginationZeroIsDefault | backend/utils/helpers.js:43-44 | `"0"` and an unparseable page fall back to 1, and `"0"` as limit to 20 |
| Helpers.ParseZero | backend/utils/helpers.js:43 | `"0"` parses to 0 |
| Helpers.ParseLetters | backend/utils/helpers.js:43 | `"abc"` parses to `NaN` |
| Helpers.PagesAreAdjacent | backend/utils/helpers.js:45 | Page p+1 starts exactly `limit` documents after page p |
| Helpers.CeilDiv | backend/utils/helpers.js:58 | `Math.ceil(a / b)` is the least integer at or above the quotient |
| Helpers.BuildPaginationResponse | backend/utils/helpers.js:51-63 | Data, total, page and limit are passed through. `pages` is the ceiling of total / limit. `hasNext` iff page < pages, `hasPrev` iff page > 1 |
| Helpers.HasNextIffMoreDocuments | backend/utils/helpers.js:42-63 | For a page from `getPagination`, `hasNext` iff documents remain after it, `hasPrev` iff some come before it |
| Helpers.CleanObject | backend/utils/helpers.js:66-73 | The `reduce` loop keeps exactly the keys whose value is not undefined, null or `''`, with their values unchanged |
| Helpers.CleanedKeepsZeroAndFalse | backend/utils/helpers.js:68 | 0 and false are kept, and cleaning twice is cleaning once |
| Helpers.PercentageChange | backend/utils/helpers.js:76-79 | With previous 0, the result is 100 iff current > 0 and 0 otherwise. Otherwise it is the one-decimal ratio |
| Helpers.PercentageChangeSign | backend/utils/helpers.js:78 | With previous > 0 the change is positive iff current grew, and 0 iff it is unchanged |
| Helpers.Digits | backend/utils/helpers.js:119 | `replace(/\D/g, '')` leaves only digits |
| Helpers.DigitsOfDigits | backend/utils/helpers.js:119 | A digit string is left as is |
| Helpers.Last10 | backend/utils/helpers.js:126 | `slice(-10)` is the last ten characters, or all of a shorter string |
| Helpers.FormatPhoneNumber | backend/utils/helpers.js:117-127 | The result is at most ten digits |
| Helpers.FormatPhoneNumberIsLastDigits | backend/utils/helpers.js:117-127 | The result is the last ten digits: stripping `91` from a 12-digit string gives the same |
| Helpers.FormatPhoneNumberIdempotent | backend/utils/helpers.js:117-127 | A ten-digit phone is kept, and normalising twice is normalising once |
| Slugs.KeepSlugChars | backend/utils/helpers.js:133 | Only `[a-z0-9]`, whitespace and `-` survive |
| Slugs.SkipRun | backend/utils/helpers.js:134-135 | A run is skipped to its end |
| Slugs.SquashHead | backend/utils/helpers.js:134-135 | A run at the head becomes one `-`, and the empty string stays empty |
| Slugs.SquashChars | backend/utils/helpers.js:134-135 | Squashing leaves `-` or characters outside the run class |
| Slugs.SquashNoDoubleHyphen | backend/utils/helpers.js:135 | After `/-+/g` there is no `--` |
| Slugs.SquashIdentity | backend/utils/helpers.js:134-135 | A string without runs is unchanged |
| Slugs.LowerIdentity | backend/utils/helpers.js:132 | Lowercasing a slug changes nothing |
| Slugs.KeepIdentity | backend/utils/helpers.js:133 | Filtering kept characters changes nothing |
| Slugs.SquashedKeptIsSlug | backend/utils/helpers.js:133-135 | The two replacements turn filtered text into `[a-z0-9-]*` without `--` |
| Slugs.TrimSlug | backend/utils/helpers.js:136 | `trim` leaves a slug alone, hyphens at either end included |
| Slugs.SquashedIsSlug | backend/utils/helpers.js:130-137 | The chain before `trim` already yields a slug, so `trim` has no effect |
| Slugs.GenerateSlugIsSlug | backend/utils/helpers.js:130-137 | The output contains only `[a-z0-9-]` and never `--` |
| Slugs.SlugFixedPoint | backend/utils/helpers.js:130-137 | A slug is its own slug |
| Slugs.GenerateSlugIdempotent | backend/utils/helpers.js:130-137 | `generateSlug` is idempotent |
| Slugs.GenerateSlug | backend/utils/helpers.js:130-137 | Defines the lowercase, filter, squash and trim chain. Stated by `GenerateSlugIsSlug`, `GenerateSlugIdempotent` and `DroppedCharVanishes` |
| Slugs.LowerHead | backend/utils/helpers.js:132 | Lowercasing keeps a head that is not an uppercase letter |
| Slugs.KeepHead | backend/utils/helpers.js:133 | Filtering keeps a kept head |
| Slugs.LeadingSpaceKeepsHyphen | backend/utils/helpers.js:134-136 | Leading whitespace becomes a leading `-` that `trim` does not remove |
| Slugs.LowerAppend | backend/utils/helpers.js:132 | Lowercasing is character-wise |
| Slugs.KeepAppend | backend/utils/helpers.js:133 | Filtering is character-wise |
| Slugs.DroppedCharVanishes | backend/utils/helpers.js:133 | A dropped character such as an apostrophe disappears without a trace, so no hyphen takes its place |
| ShopCart.Find | frontend/src/pages/ShopPage.jsx:62 | A found entry has the id searched for |
| ShopCart.FindNone | frontend/src/pages/ShopPage.jsx:62 | Nothing is found iff no entry has the id |
| ShopCart.FindUnique | frontend/src/pages/ShopPage.jsx:62 | With unique ids, `find` returns the one entry with that id |
| ShopCart.TailInvariants | frontend/src/pages/ShopPage.jsx:61-100 | The cart invariants hold for the tail, and the head's id does not recur |
| ShopCart.IncrementAbsent | frontend/src/pages/ShopPage.jsx:69-73 | The `map` leaves a cart without the id unchanged |
| ShopCart.RemoveAbsent | frontend/src/pages/ShopPage.jsx:95-97 | Removing an absent id changes nothing |
| ShopCart.UpdateAbsent | frontend/src/pages/ShopPage.jsx:80-93 | Updating an absent id changes nothing |
| ShopCart.IncrementShape | frontend/src/pages/ShopPage.jsx:69-73 | The `map` adds 1 to the quantity of the entries with the id and copies the others |
| ShopCart.IncrementTotals | frontend/src/pages/ShopPage.jsx:69-73 | Incrementing a present entry adds 1 to the item count and its price to the total |
| ShopCart.AddToCartEffect | frontend/src/pages/ShopPage.jsx:61-78 | A new product is appended with quantity 1. One already at or above stock leaves the cart unchanged. Otherwise its quantity rises by 1. Count and total move accordingly |
| ShopCart.AddToCart | frontend/src/pages/ShopPage.jsx:61-78 | Defines `addToCart`. Stated by `AddToCartEffect`, `AddKeepsInvariants` and `AddKeepsWithinStock` |
| ShopCart.AddBelowStock | frontend/src/pages/ShopPage.jsx:65-73 | Below stock the entry's quantity rises by 1, the count by 1 and the total by its price |
| ShopCart.IncrementFind | frontend/src/pages/ShopPage.jsx:69-73 | After the `map` the entry has quantity + 1 |
| ShopCart.AppendTotals | frontend/src/pages/ShopPage.jsx:75 | Appending adds the entry's quantity to the count and its price times quantity to the total |
| ShopCart.AddIgnoresStockOfNewProduct | frontend/src/pages/ShopPage.jsx:74-75 | A stock-0 product is still added with quantity 1. Only the disabled button stops it |
| ShopCart.RemoveFromCartEffect | frontend/src/pages/ShopPage.jsx:95-97 | The id is gone, every other lookup is unchanged, and count and total fall by the entry's share |
| ShopCart.RemoveFromCart | frontend/src/pages/ShopPage.jsx:95-97 | The filter never lengthens the cart. Its effect is stated by `RemoveFromCartEffect` and `RemoveKeepsInvariants` |
| ShopCart.UpdateKeepsOthers | frontend/src/pages/ShopPage.jsx:80-93 | Apart from the updated id, the cart is the same entries in the same order |
| ShopCart.UpdateQuantityEffect | frontend/src/pages/ShopPage.jsx:80-93 | A quantity reaching 0 or less removes the entry. One above stock leaves the cart unchanged. Otherwise the quantity is set and count and total move by the change |
| ShopCart.UpdateQuantity | frontend/src/pages/ShopPage.jsx:80-93 | The map and filter never lengthen the cart. Its effect is stated by `UpdateQuantityEffect` and `UpdateKeepsInvariants` |
| ShopCart.UpdateHead | frontend/src/pages/ShopPage.jsx:80-93 | The same three cases when the entry is the first |
| ShopCart.Cons | frontend/src/pages/ShopPage.jsx:99-100 | `find`, `cartItemCount` and `cartTotal` of an entry in front of a cart |
| ShopCart.AddKeepsInvariants | frontend/src/pages/ShopPage.jsx:61-78 | Adding keeps ids unique and quantities positive |
| ShopCart.AddKeepsWithinStock | frontend/src/pages/ShopPage.jsx:61-78 | Adding an in-stock product keeps every quantity within stock |
| ShopCart.UpdateKeepsInvariants | frontend/src/pages/ShopPage.jsx:80-93 | Updating keeps ids unique, quantities positive and within stock, and adds no id |
| ShopCart.RemoveKeepsInvariants | frontend/src/pages/ShopPage.jsx:95-97 | Removing keeps ids unique, quantities positive and within stock, and adds no id |
| ShopCart.ConsInvariants | frontend/src/pages/ShopPage.jsx:61-100 | Putting an entry with a new id in front keeps the invariants |
| ShopCart.SessionInvariants | frontend/src/pages/ShopPage.jsx:61-97 | Any sequence of adds, updates and removes from an empty cart keeps ids unique and quantities positive |
| ShopCart.OrderItems | frontend/src/pages/ShopPage.jsx:127-130 | One `{productId, quantity}` per entry, in order |
| ShopCart.PlaceOrderChecks | frontend/src/pages/ShopPage.jsx:106-119 | The request is sent iff the cart is non-empty, name and phone are given and the phone is ten digits. Each refusal is the first check that failed |
| ShopCart.PlaceOrderPayload | frontend/src/pages/ShopPage.jsx:124-138 | The body has the cart's entries, `total = cartTotal`, no discount, source `public_page`, the shop's id and the address field as typed, `''` when empty |
| ShopCart.PlaceOrder | frontend/src/pages/ShopPage.jsx:103-138 | Defines `handlePlaceOrder` up to the API call. Stated by `PlaceOrderChecks`, `PlaceOrderPayload` and `SubmittedPassesValidation` |
| ShopCart.SubmittedPassesValidation | frontend/src/pages/ShopPage.jsx:103-138 | A cart built by the page with non-negative prices, and a name that is not blank, passes the backend's validation |
| ShopCart.CartPassesValidation | frontend/src/pages/ShopPage.jsx:124-138 | A positive cart with non-negative prices and a non-blank name passes the validation |
| ShopCart.NonNegativeTotal | frontend/src/pages/ShopPage.jsx:99 | A cart of non-negative prices has a non-negative total |
| ShopCart.BlankNameRefusedOnlyByServer | frontend/src/pages/ShopPage.jsx:106-110 | A name of spaces passes the page's check but fails the server's trimmed check |
| ProductForm.TrimAll | frontend/src/components/products/ProductForm.jsx:54 | Trimming keeps one piece per piece |
| ProductForm.DropEmpty | frontend/src/components/products/ProductForm.jsx:54 | `filter(Boolean)` keeps only non-empty pieces, all from the input |
| ProductForm.ParsedTagsClean | frontend/src/components/products/ProductForm.jsx:54 | Every parsed tag is non-empty, trimmed and free of commas |
| ProductForm.TrimmedPiece | frontend/src/components/products/ProductForm.jsx:54 | A trimmed comma-free piece is a clean tag |
| ProductForm.EmptyTagsGuardRedundant | frontend/src/components/products/ProductForm.jsx:54 | The `tags ?` guard changes nothing: the empty input gives `[]` either way |
| ProductForm.TrimAfterSpace | frontend/src/components/products/ProductForm.jsx:54 | The joiner's space is trimmed off a clean tag |
| ProductForm.TagsRoundTrip | frontend/src/components/products/ProductForm.jsx:27-54 | Clean tags shown as `join(', ')` and parsed back are the same tags |
| ProductForm.JoinedPieces | frontend/src/components/products/ProductForm.jsx:27-54 | Splitting the joined tags on `,` gives each tag, after the first with a leading space |
| ProductForm.TrimPieces | frontend/src/components/products/ProductForm.jsx:54 | Trimming those pieces gives the tags |
| ProductForm.DropEmptyKeepsNonEmpty | frontend/src/components/products/ProductForm.jsx:54 | The filter keeps a list without empty strings as it is |
| ProductForm.ParseTagsIdempotent | frontend/src/components/products/ProductForm.jsx:27-54 | Parsing the rendering of parsed tags gives them back |
| ProductForm.Validate | frontend/src/components/products/ProductForm.jsx:32-42 | One error per faulty field: a blank name, a missing or non-positive price, a negative stock, a negative cost price. Valid iff there are none |
| ProductForm.HandleSubmit | frontend/src/components/products/ProductForm.jsx:44-58 | `onSubmit` gets `submitData` exactly when validation found nothing |
| ProductForm.SubmittedInBounds | frontend/src/components/products/ProductForm.jsx:49-55 | A submitted product has price > 0, stock and cost at least 0, and clean tags |
| ProductForm.EditRoundTrip | frontend/src/components/products/ProductForm.jsx:19-55 | Opening a valid product and saving it untouched sends back the same product |
| ProductForm.ZeroPriceNotEditable | frontend/src/components/products/ProductForm.jsx:22-36 | A product with price 0 opens with an empty price and cannot be saved as it is |
| ProductForm.EmptyFormRefused | frontend/src/components/products/ProductForm.jsx:19-38 | An empty form is refused for its name and price only |
| Formatters.FormatPhoneTen | frontend/src/utils/formatters.js:33-35 | A ten-character phone becomes `+91 XXXXX XXXXX`, and taking the halves back out gives the number |
| Formatters.FormatPhoneOtherwise | frontend/src/utils/formatters.js:30-37 | A falsy phone shows `-`, any other length is unchanged |
| Formatters.FormatPhoneIdempotent | frontend/src/utils/formatters.js:30-37 | Formatting a formatted phone changes nothing |
| Formatters.FormatPhone | frontend/src/utils/formatters.js:30-37 | Defines `formatPhone`. Stated by `FormatPhoneTen`, `FormatPhoneOtherwise` and `FormatPhoneIdempotent` |
| Formatters.DigitsAppend | backend/utils/helpers.js:119 | Removing non-digits distributes over concatenation |
| Formatters.DisplayedPhoneDigits | frontend/src/utils/formatters.js:34 | The digits of the displayed form are `91` and the number |
| Formatters.DisplayedPhoneNormalisesBack | frontend/src/utils/formatters.js:30-37 | The backend's `formatPhoneNumber` turns the displayed form back into the stored number |
| Formatters.SubstringEnd | frontend/src/utils/formatters.js:52 | `substring` clamps a negative end to 0 |
| Formatters.TruncateShape | frontend/src/utils/formatters.js:49-53 | A fitting string is unchanged. A longer one becomes its first `length` characters and `...`, `length + 3` in all. A missing one gives `''` |
| Formatters.TruncateDefault | frontend/src/utils/formatters.js:49 | The length defaults to 50 |
| Formatters.TruncateIdempotent | frontend/src/utils/formatters.js:49-53 | Truncating twice to the same length is truncating once |
| Formatters.Truncate | frontend/src/utils/formatters.js:49-53 | Defines `truncate`. Stated by `TruncateShape`, `TruncateDefault` and `TruncateIdempotent` |
| Suggestions.SuggestedShape | backend/services/aiService.js:157-178 | The five common questions come first, in order. A category among kirana, salon, tailor, tiffin and tuition adds its one question, iff there are six. Any other category adds nothing |
| Suggestions.SuggestedQuestions | backend/services/aiService.js:157-178 | Defines `getSuggestedQuestions`. Stated by `SuggestedShape` |

## Left out

- Database I/O, indexes other than the unique order number and shop slug, and concurrency: each route runs alone against an in-memory store, so concurrent requests racing on the same stock or the same daily count are not modelled.
- The clock and time zones: `now`, the local day window `[todayStart, todayEnd]`, the UTC date string and the 90-day inactivity cutoff are parameters. The +1 month calendar step of a payment is modelled.
- WhatsApp: the confirmation text (`formatOrderConfirmation`) is a parameter, and so is the provider's outcome (success with a message id, or failure). The send route's `populate('shopId')` is not modelled.
- Money and quantities are integers: fractional prices, `toFixed(1)` rendering (the percentage change is kept as an exact ratio) and floating-point rounding are not modelled.
- `parseInt` beyond decimal integers: hex prefixes, exponent forms and strings longer than a safe integer are not modelled. Inputs are strings or absent.
- Helpers.ParseIntOfNegatedDigits: negative numerals are stated over digit strings, not over the decimal rendering of a negative number.
- `Object.prototype` keys (such as `constructor`) looked up in the plan table or in the suggestion map are treated as absent.
- Casting errors: an invalid ObjectId, a non-numeric quantity or a non-string field becomes a validation failure or is excluded by the types.
- `formatCurrency`, `formatDate`, `formatDateTime`, `generateRandomString` and `getDateRange` of `backend/utils/helpers.js`, and `formatNumber` and `copyToClipboard` of `frontend/src/utils/formatters.js`: locale formatting, randomness, the clipboard and the clock, none of which the core's rules depend on.
- The GET order routes (list, single order), other routes, authentication, password hashing and the product `profitMargin` virtual: not part of the core rules.
- Dashboard UI state: toasts, loading flags, clearing the cart after an order, clearing an error on typing (`handleChange`), and the add button disabled at stock 0 (the model states what `addToCart` does without it).
- ProductForm.Validate: the number inputs are integers or empty; a non-numeric string, which the browser's number input does not produce, is not modelled.
- Payments.AddOneMonth: years are proleptic Gregorian with no time zone or daylight-saving shift.
- Formatters.FormatPhoneTen: "ten characters" counts Unicode scalar values; `phone.length` counts UTF-16 code units. The two agree for a phone whose characters all lie in the Basic Multilingual Plane, which covers every phone made of digits; a character outside it counts twice in JavaScript.
- Formatters.FormatPhoneOtherwise: the length test counts Unicode scalar values, not UTF-16 code units, with the same agreement for characters in the Basic Multilingual Plane.
- Formatters.TruncateShape: `str.length` and `substring` count UTF-16 code units, the model counts scalar values; a string with characters outside the Basic Multilingual Plane is cut at a different place, and JavaScript may split a surrogate pair, which a Dafny `char` cannot hold.
- Customers.CreateCustomer: the 100-character name cap counts Unicode scalar values, where Mongoose's `maxlength` counts UTF-16 code units.
- String lengths in general: Formatters.FormatPhone, Formatters.Truncate, the 100-character name cap of Customers.CreateCustomer and the 1-1000 text bound of OrderRoutes.MessageValid count Unicode scalar values, where JavaScript and Mongoose's `maxlength` count UTF-16 code units. A name of 60 emoji is 120 code units and is refused by the schema, but the model accepts it.

## Findings

| source | as written | input that shows it | evidently intended | confidence | as-written member | corrected member |
|---|---|---|---|---|---|---|
| backend/routes/orders.js:18 | `POST /api/orders` runs `checkPlanLimit('orders')` without `protect`, so `req.user` is never set and the gate always answers 401 | any valid order body, with or without a bearer token | authenticate when a token is sent and let public-page orders through, as "Private/Public" and `req.user?.shopId` say | not executed | OrderRoutes.PostOrderAlwaysRefused | OrderRoutes.PostOrderReachesHandler |
| backend/middleware/planLimits.js:84 | `incrementUsage(id, 'ai')` increments `usage.aiThisMonth`, a path the schema does not have, so the AI counter never grows | `incrementUsage(u, 'ai')` after each AI query | increment `usage.aiQueriesThisMonth`, the counter the gate reads | not executed | PlanLimits.AiGateNeverCloses | PlanLimits.AiGateCloses |
| backend/middleware/planLimits.js:61-62 | the 403 payload for `ai` reads `usage.aiThisMonth` and `limits.maxAi`, both undefined | a user with `aiQueriesThisMonth >= aiQueries` calling an AI route | report `aiQueriesThisMonth` and `aiQueries` | not executed | PlanLimits.AiPayloadMissing | PlanLimits.Decide |
| backend/models/Order.js:10-14 | `orderNumber` and `finalTotal` are required, but Mongoose validates before the pre('save') hooks that fill them in, so `Order.create` is refused | any new order | fill both in before validation (a pre('validate') hook) | not executed | Orders.NewOrderNeverSaved | Orders.NewOrderSaved |
