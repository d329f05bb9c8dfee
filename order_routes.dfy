/** backend/routes/orders.js: POST / (order creation behind `orderValidation`
    and `checkPlanLimit('orders')`), PUT /:id/status and the outcome branch
    of POST /:id/send-whatsapp, over an in-memory store of the collections. */
module OrderRoutes {
  import opened Common
  import opened Text
  import opened Products
  import opened Customers
  import opened Orders
  import opened Users
  import opened PlanLimits
  import opened OrderLines
  import Shops
  import Messages

  datatype CustomerRequest = CustomerRequest(name: string, phone: string, address: Option<string>)

  /** `req.body` of POST /api/orders; an absent or falsy field is `None`. */
  datatype OrderRequest = OrderRequest(
    customer: CustomerRequest,
    items: seq<ItemRequest>,
    total: int,
    discount: Option<int>,
    source: Option<string>,
    shopId: Option<Id>)

  /** The clock readings a request needs: the instant, its UTC date as
      YYYYMMDD, and the first and last millisecond of its local day. */
  datatype Clock = Clock(now: Time, dateStr: string, dayStart: Time, dayEnd: Time)

  /** What a route answers. */
  datatype Reply =
    | ValidationFailed                  // 400 from the validation chain
    | Unauthorized                      // 401
    | LimitReached(gate: Gate)          // 403 from the plan gate
    | ShopIdRequired                    // 400 'Shop ID required'
    | LineRejected(failure: LineFailure) // 404 or 400 from the stock loop
    | OrderNotFound                     // 404 'Order not found'
    | ServerError                       // 500, whatever was written before stays
    | Created(order: OrderRecord)       // 201
    | Updated(order: OrderRecord)       // 200 'Order status updated'
    | WhatsappResult(success: bool, messageId: Option<string>)  // 200

  function HttpStatus(r: Reply): int {
    match r
    case ValidationFailed => 400
    case Unauthorized => 401
    case LimitReached(_) => 403
    case ShopIdRequired => 400
    case LineRejected(f) => if f.ProductNotFound? then 404 else 400
    case OrderNotFound => 404
    case ServerError => 500
    case Created(_) => 201
    case Updated(_) => 200
    case WhatsappResult(_, _) => 200
  }

  /** The collections the routes touch; customers are keyed by (shop, phone),
      the schema's unique compound index; `nextId` is the next fresh id. */
  datatype Store = Store(
    products: map<Id, ProductRecord>,
    customers: map<(Id, string), CustomerRecord>,
    orders: map<Id, OrderRecord>,
    shops: map<Id, Shops.ShopStats>,
    users: map<Id, UserRecord>,
    messages: map<Id, Messages.MessageRecord>,
    nextId: Id)

  // ---------------------------------------------------------------- POST /api/orders

  /** `orderValidation` trims `customer.name` and `customer.phone` in place. */
  function Sanitized(req: OrderRequest): OrderRequest {
    req.(customer := req.customer.(name := Trim(req.customer.name), phone := Trim(req.customer.phone)))
  }

  /** `orderValidation`: a name left after trimming, a ten-digit phone, at
      least one item, every quantity an integer of at least 1, a total of at least 0. */
  predicate RequestValid(req: OrderRequest) {
    && Trim(req.customer.name) != ""
    && IsPhone10(Trim(req.customer.phone))
    && |req.items| >= 1
    && (forall i :: 0 <= i < |req.items| ==> req.items[i].quantity >= 1)
    && req.total >= 0
  }

  /** `shopId || req.user?.shopId` */
  function TargetShop(req: OrderRequest, user: Option<UserRecord>): (t: Option<Id>)
    ensures t.None? <==> req.shopId.None? && (user.None? || user.value.shopId.None?)
  {
    if req.shopId.Some? then req.shopId else if user.Some? then user.value.shopId else None
  }

  /** `source || 'manual'` */
  function SourceOr(source: Option<string>): string {
    if source.None? || source.value == "" then "manual" else source.value
  }

  /** Some stored order already carries this number (the unique index). */
  predicate NumberTaken(orders: map<Id, OrderRecord>, number: string) {
    exists id :: id in orders && orders[id].orderNumber == number
  }

  /** The customer after the handler's updates: one more order, the final
      total added to the spend, the last order now, then
      `calculateAverageOrderValue()` and `updateSegment()`. */
  function AfterOrder(c: CustomerRecord, amount: int, now: Time): (u: CustomerRecord)
    ensures u.totalOrders == c.totalOrders + 1 && u.totalSpent == c.totalSpent + amount
    ensures u.lastOrderDate == Some(now)
    ensures u.id == c.id && u.shopId == c.shopId && u.name == c.name && u.phone == c.phone && u.address == c.address
    ensures u.totalOrders > 0 ==> 2 * u.averageOrderValue * u.totalOrders - u.totalOrders <= 2 * u.totalSpent
                                  < 2 * u.averageOrderValue * u.totalOrders + u.totalOrders
    ensures u.segment == Inactive ==> c.segment == Inactive
  {
    var t := c.(totalOrders := c.totalOrders + 1, totalSpent := c.totalSpent + amount, lastOrderDate := Some(now));
    var a := t.(averageOrderValue := AverageOrderValue(t.totalSpent, t.totalOrders));
    a.(segment := NextSegment(a.totalOrders, a.totalSpent, a.lastOrderDate, a.segment, now - InactiveAfter))
  }

  /** `Shop.findByIdAndUpdate(shop, {$inc: {totalOrders: 1, totalRevenue: amount}})`;
      no update when the shop does not exist. */
  function Bumped(shops: map<Id, Shops.ShopStats>, shop: Id, amount: int): (m: map<Id, Shops.ShopStats>)
    ensures m.Keys == shops.Keys
    ensures shop in shops ==> m[shop].totalOrders == shops[shop].totalOrders + 1
                              && m[shop].totalRevenue == shops[shop].totalRevenue + amount
                              && m[shop].totalCustomers == shops[shop].totalCustomers
                              && m[shop].totalProducts == shops[shop].totalProducts
    ensures forall id :: id in shops && id != shop ==> m[id] == shops[id]
  {
    if shop in shops then
      shops[shop := shops[shop].(totalOrders := shops[shop].totalOrders + 1,
                                 totalRevenue := shops[shop].totalRevenue + amount)]
    else shops
  }

  /** `Customer.findOne({shopId, phone})`, else `Customer.create(...)`; `None`
      when the create fails validation. */
  function FindOrCreateCustomer(s: Store, shop: Id, c: CustomerRequest): Option<(Store, CustomerRecord)> {
    if (shop, c.phone) in s.customers then Some((s, s.customers[(shop, c.phone)]))
    else
      match CreateCustomer(s.nextId, shop, c.name, c.phone, c.address)
      case None => None
      case Some(n) => Some((s.(customers := s.customers[(shop, c.phone) := n], nextId := s.nextId + 1), n))
  }

  /** What `Order.create` is handed. */
  function Draft(req: OrderRequest, shop: Id, customerId: Id, lines: seq<LineItem>): OrderDraft {
    OrderDraft(shop, OrderCustomer(req.customer.name, req.customer.phone, Some(customerId), req.customer.address),
               lines, req.total, req.discount.GetOr(0), SourceOr(req.source))
  }

  /** `Order.create(...)`: the hooks, validation and the unique order number;
      `None` when the insert fails. */
  function InsertOrder(s: Store, d: OrderDraft, clock: Clock): Option<(Store, OrderRecord)> {
    var count := CountToday(s.orders, d.shopId, clock.dayStart, clock.dayEnd);
    match Save(NewOrder(s.nextId, d, clock.now), true, clock.dateStr, count)
    case None => None
    case Some(o) =>
      if NumberTaken(s.orders, o.orderNumber) then None
      else Some((s.(orders := s.orders[o.id := o], nextId := s.nextId + 1), o))
  }

  /** The writes after the order exists: customer aggregates, shop counters,
      and the caller's order usage. */
  function Settle(s: Store, key: (Id, string), c: CustomerRecord, o: OrderRecord, user: Option<UserRecord>, now: Time): Store
    requires o.finalTotal.Some?
  {
    var amount := o.finalTotal.value;
    s.(customers := s.customers[key := AfterOrder(c, amount, now)],
       shops := Bumped(s.shops, key.0, amount),
       users := if user.Some? then IncrementUsage(s.users, user.value.id, "orders") else s.users)
  }

  /** The handler after the stock loop went through: the customer is found
      or created, the order inserted, then the aggregates written. */
  function PlaceAfterStock(s1: Store, req: OrderRequest, shop: Id, lines: seq<LineItem>,
                           user: Option<UserRecord>, clock: Clock): (Store, Reply)
  {
    match FindOrCreateCustomer(s1, shop, req.customer)
    case None => (s1, ServerError)
    case Some((s2, c)) =>
      match InsertOrder(s2, Draft(req, shop, c.id, lines), clock)
      case None => (s2, ServerError)
      case Some((s3, o)) => (Settle(s3, (shop, req.customer.phone), c, o, user, clock.now), Created(o))
  }

  /** The handler body of POST /api/orders on a validated request; `user` is
      `req.user`. */
  function Place(s: Store, req: OrderRequest, user: Option<UserRecord>, clock: Clock): (Store, Reply) {
    var target := TargetShop(req, user);
    if target.None? then (s, ShopIdRequired)
    else
      match ApplyLines(s.products, req.items, clock.now)
      case Stopped(ps, f) => (s.(products := ps), LineRejected(f))
      case Applied(ps, lines) => PlaceAfterStock(s.(products := ps), req, target.value, lines, user, clock)
  }

  /** `Order.create(...)` with the order schema as written, where validation
      runs before the hooks that set the number and the final total. */
  function InsertOrderAsWritten(s: Store, d: OrderDraft, clock: Clock): Option<(Store, OrderRecord)> {
    var count := CountToday(s.orders, d.shopId, clock.dayStart, clock.dayEnd);
    match SaveAsWritten(NewOrder(s.nextId, d, clock.now), true, clock.dateStr, count)
    case None => None
    case Some(o) =>
      if NumberTaken(s.orders, o.orderNumber) then None
      else Some((s.(orders := s.orders[o.id := o], nextId := s.nextId + 1), o))
  }

  /** `PlaceAfterStock` over the insert as written. */
  function PlaceAfterStockAsWritten(s1: Store, req: OrderRequest, shop: Id, lines: seq<LineItem>,
                                    user: Option<UserRecord>, clock: Clock): (Store, Reply)
  {
    match FindOrCreateCustomer(s1, shop, req.customer)
    case None => (s1, ServerError)
    case Some((s2, c)) =>
      match InsertOrderAsWritten(s2, Draft(req, shop, c.id, lines), clock)
      case None => (s2, ServerError)
      case Some((s3, o)) => (Settle(s3, (shop, req.customer.phone), c, o, user, clock.now), Created(o))
  }

  /** The handler body with the order schema as written. */
  function PlaceAsWritten(s: Store, req: OrderRequest, user: Option<UserRecord>, clock: Clock): (Store, Reply) {
    var target := TargetShop(req, user);
    if target.None? then (s, ShopIdRequired)
    else
      match ApplyLines(s.products, req.items, clock.now)
      case Stopped(ps, f) => (s.(products := ps), LineRejected(f))
      case Applied(ps, lines) => PlaceAfterStockAsWritten(s.(products := ps), req, target.value, lines, user, clock)
  }

  /** With the schema as written, every order that gets through the stock
      loop is answered 500, after its stock was taken and a new customer, if
      any, was stored; no order is written. */
  lemma PlaceAsWrittenFailsLate(s: Store, req: OrderRequest, user: Option<UserRecord>, clock: Clock)
    requires TargetShop(req, user).Some?
    requires ApplyLines(s.products, req.items, clock.now).Applied?
    ensures var s1 := s.(products := ApplyLines(s.products, req.items, clock.now).products);
            var F := FindOrCreateCustomer(s1, TargetShop(req, user).value, req.customer);
            PlaceAsWritten(s, req, user, clock) == (if F.Some? then F.value.0 else s1, ServerError)
  {
    var L := ApplyLines(s.products, req.items, clock.now);
    var shop := TargetShop(req, user).value;
    var s1 := s.(products := L.products);
    var F := FindOrCreateCustomer(s1, shop, req.customer);
    if F.Some? {
      var s2 := F.value.0;
      var d := Draft(req, shop, F.value.1.id, L.lines);
      NewOrderNeverSaved(s2.nextId, d, clock.now, clock.dateStr,
                         CountToday(s2.orders, d.shopId, clock.dayStart, clock.dayEnd));
      assert InsertOrderAsWritten(s2, d, clock).None?;
    }
  }

  /** With the schema as written, the handler never answers 201 and never
      adds an order. */
  lemma PlaceAsWrittenNeverCreates(s: Store, req: OrderRequest, user: Option<UserRecord>, clock: Clock)
    ensures !PlaceAsWritten(s, req, user, clock).1.Created?
    ensures PlaceAsWritten(s, req, user, clock).0.orders == s.orders
  {
    if TargetShop(req, user).Some? && ApplyLines(s.products, req.items, clock.now).Applied? {
      PlaceAsWrittenFailsLate(s, req, user, clock);
      var s1 := s.(products := ApplyLines(s.products, req.items, clock.now).products);
      if FindOrCreateCustomer(s1, TargetShop(req, user).value, req.customer).Some? {
        FoundCustomer(s1, TargetShop(req, user).value, req.customer);
      }
    }
  }

  /** The route as registered: the validation chain, then `checkPlanLimit('orders')`.
      There is no `protect` in front of it, so `req.user` is never set and
      every request that passes validation is answered 401; the caller's
      credentials are never read. */
  function PostOrderAsWritten(s: Store, req: OrderRequest): (Store, Reply) {
    if !RequestValid(req) then (s, ValidationFailed) else (s, Unauthorized)
  }

  /** No order can ever be created through the route as written. */
  lemma PostOrderAlwaysRefused(s: Store, req: OrderRequest)
    ensures PostOrderAsWritten(s, req).0 == s
    ensures HttpStatus(PostOrderAsWritten(s, req).1) == (if RequestValid(req) then 401 else 400)
  {
  }

  /** The route as its "Private/Public" access and `req.user?.shopId` mean it:
      an anonymous caller goes straight to the handler, an authenticated one
      through the plan gate, whose downgrade of an expired plan is saved. */
  function PostOrder(s: Store, req: OrderRequest, caller: Option<UserRecord>, clock: Clock): (Store, Reply) {
    if !RequestValid(req) then (s, ValidationFailed)
    else if caller.None? then Place(s, Sanitized(req), None, clock)
    else
      var u := caller.value;
      var d := Downgraded(u, clock.now);
      var s1 := if Expired(u, clock.now) then s.(users := s.users[u.id := d]) else s;
      var g := Decide(d, "orders");
      if g.Exceeded? then (s1, LimitReached(g))
      else Place(s1, Sanitized(req), Some(d), clock)
  }

  // ---------------------------------------------------------------- properties of POST /api/orders

  /** Without a shop in the body or on the caller the answer is 400 and nothing changes. */
  lemma NoShopNoChange(s: Store, req: OrderRequest, user: Option<UserRecord>, clock: Clock)
    requires req.shopId.None? && (user.None? || user.value.shopId.None?)
    ensures Place(s, req, user, clock) == (s, ShopIdRequired)
    ensures HttpStatus(ShopIdRequired) == 400
  {
  }

  /** A line that stops the loop leaves the lines before it applied: the reply
      is that line's 404 or 400, the products are as the loop left them, and
      no customer, order, shop or usage is written. */
  lemma LineFailureIsNotRolledBack(s: Store, req: OrderRequest, user: Option<UserRecord>, clock: Clock)
    requires TargetShop(req, user).Some?
    requires ApplyLines(s.products, req.items, clock.now).Stopped?
    ensures var (t, r) := Place(s, req, user, clock);
            && r == LineRejected(ApplyLines(s.products, req.items, clock.now).failure)
            && t == s.(products := ApplyLines(s.products, req.items, clock.now).products)
            && exists k :: 0 <= k < |req.items| && ApplyLines(s.products, req.items[..k], clock.now).Applied?
                 && t.products == ApplyLines(s.products, req.items[..k], clock.now).products
  {
    StoppedAfterPrefix(s.products, req.items, clock.now);
  }

  /** What `Order.create` stores: the draft's fields, status 'pending',
      payment 'unpaid', `finalTotal = total - discount`, a valid document
      under a fresh id and a number no stored order carries. */
  lemma InsertedOrder(s: Store, d: OrderDraft, clock: Clock)
    requires InsertOrder(s, d, clock).Some?
    ensures var I := InsertOrder(s, d, clock).value;
            var o := I.1;
            && o.id == s.nextId && o.shopId == d.shopId && o.customer == d.customer && o.items == d.items
            && o.total == d.total && o.discount == d.discount && o.source == d.source
            && o.finalTotal == Some(d.total - d.discount)
            && o.status == "pending" && o.paymentStatus == "unpaid" && Valid(o)
            && !NumberTaken(s.orders, o.orderNumber)
            && I.0 == s.(orders := s.orders[o.id := o], nextId := s.nextId + 1)
  {
  }

  /** The order inserted from the handler's draft: the client's total and
      discount, the source defaulting to 'manual', and a valid document. */
  lemma DraftedOrder(s2: Store, req: OrderRequest, shop: Id, customerId: Id, lines: seq<LineItem>, clock: Clock)
    requires InsertOrder(s2, Draft(req, shop, customerId, lines), clock).Some?
    ensures var I := InsertOrder(s2, Draft(req, shop, customerId, lines), clock).value;
            var o := I.1;
            && o.total == req.total && o.discount == req.discount.GetOr(0) && o.source == SourceOr(req.source)
            && o.finalTotal == Some(req.total - req.discount.GetOr(0))
            && o.status == "pending" && o.paymentStatus == "unpaid" && Valid(o)
            && o.items == lines && o.shopId == shop
            && o.customer == OrderCustomer(req.customer.name, req.customer.phone, Some(customerId), req.customer.address)
            && I.0 == s2.(orders := s2.orders[o.id := o], nextId := s2.nextId + 1)
  {
    InsertedOrder(s2, Draft(req, shop, customerId, lines), clock);
  }

  /** Finding or creating the customer writes only the customer collection
      and the id counter; a found customer is the stored one, a created one
      starts with no orders, no spend and no address. */
  lemma FoundCustomer(s1: Store, shop: Id, cr: CustomerRequest)
    requires FindOrCreateCustomer(s1, shop, cr).Some?
    ensures var F := FindOrCreateCustomer(s1, shop, cr).value;
            && F.0.products == s1.products && F.0.orders == s1.orders
            && F.0.shops == s1.shops && F.0.users == s1.users
            && ((shop, cr.phone) in s1.customers ==> F.1 == s1.customers[(shop, cr.phone)])
            && ((shop, cr.phone) !in s1.customers ==>
                  F.1.totalOrders == 0 && F.1.totalSpent == 0 && F.1.segment == New && F.1.address == None)
  {
  }

  /** The success path of the handler, stage by stage. */
  lemma CreatedPath(s: Store, req: OrderRequest, user: Option<UserRecord>, clock: Clock)
    requires Place(s, req, user, clock).1.Created?
    ensures TargetShop(req, user).Some?
    ensures ApplyLines(s.products, req.items, clock.now).Applied?
    ensures var L := ApplyLines(s.products, req.items, clock.now);
            var shop := TargetShop(req, user).value;
            var F := FindOrCreateCustomer(s.(products := L.products), shop, req.customer);
            && F.Some?
            && InsertOrder(F.value.0, Draft(req, shop, F.value.1.id, L.lines), clock).Some?
            && var I := InsertOrder(F.value.0, Draft(req, shop, F.value.1.id, L.lines), clock).value;
               Place(s, req, user, clock) == (Settle(I.0, (shop, req.customer.phone), F.value.1, I.1, user, clock.now), Created(I.1))
  {
  }

  /** A created order: its lines are the product snapshots, its total and
      discount are what the client sent (the subtotals are not summed), the
      source defaults to 'manual', `finalTotal = total - discount`, and every
      product's stock fell by exactly the quantity ordered. */
  lemma CreatedOrderContents(s: Store, req: OrderRequest, user: Option<UserRecord>, clock: Clock)
    requires Place(s, req, user, clock).1.Created?
    ensures var (t, r) := Place(s, req, user, clock);
            var o := r.order;
            && o.total == req.total && o.discount == req.discount.GetOr(0) && o.source == SourceOr(req.source)
            && o.finalTotal == Some(req.total - req.discount.GetOr(0))
            && o.status == "pending" && o.paymentStatus == "unpaid" && Valid(o)
            && |o.items| == |req.items|
            && (forall i :: 0 <= i < |req.items| ==>
                  req.items[i].productId in s.products
                  && o.items[i] == Snapshot(req.items[i].productId, s.products[req.items[i].productId], req.items[i].quantity))
            && t.products.Keys == s.products.Keys
            && (forall pid :: pid in s.products ==> t.products[pid] == After(s.products[pid], SumQty(req.items, pid)))
  {
    CreatedPath(s, req, user, clock);
    var L := ApplyLines(s.products, req.items, clock.now);
    var shop := TargetShop(req, user).value;
    var F := FindOrCreateCustomer(s.(products := L.products), shop, req.customer).value;
    FoundCustomer(s.(products := L.products), shop, req.customer);
    DraftedOrder(F.0, req, shop, F.1.id, L.lines, clock);
    AppliedSnapshots(s.products, req.items, clock.now);
    AppliedAccounting(s.products, req.items, clock.now);
  }

  /** The customer write of the success path, stated on the stages. */
  lemma SettledCustomer(s: Store, req: OrderRequest, user: Option<UserRecord>, clock: Clock, shop: Id)
    requires ApplyLines(s.products, req.items, clock.now).Applied?
    requires var L := ApplyLines(s.products, req.items, clock.now);
             var F := FindOrCreateCustomer(s.(products := L.products), shop, req.customer);
             F.Some? && InsertOrder(F.value.0, Draft(req, shop, F.value.1.id, L.lines), clock).Some?
    ensures var L := ApplyLines(s.products, req.items, clock.now);
            var F := FindOrCreateCustomer(s.(products := L.products), shop, req.customer);
            var I := InsertOrder(F.value.0, Draft(req, shop, F.value.1.id, L.lines), clock).value;
            var t := Settle(I.0, (shop, req.customer.phone), F.value.1, I.1, user, clock.now);
            var key := (shop, req.customer.phone);
            var amount := req.total - req.discount.GetOr(0);
            && I.1.shopId == shop
            && key in t.customers
            && t.customers[key].lastOrderDate == Some(clock.now)
            && (key in s.customers ==>
                  && t.customers[key] == AfterOrder(s.customers[key], amount, clock.now)
                  && t.customers[key].name == s.customers[key].name
                  && t.customers[key].address == s.customers[key].address)
            && (key !in s.customers ==>
                  && t.customers[key].totalOrders == 1 && t.customers[key].totalSpent == amount
                  && t.customers[key].address == None)
  {
    var L := ApplyLines(s.products, req.items, clock.now);
    var F := FindOrCreateCustomer(s.(products := L.products), shop, req.customer).value;
    FoundCustomer(s.(products := L.products), shop, req.customer);
    DraftedOrder(F.0, req, shop, F.1.id, L.lines, clock);
  }

  /** After a created order the customer found by (shop, phone), or the one
      just created, has one more order, the final total added to its spend
      and its last order dated now; a found customer keeps its name and
      address, a new one has exactly this order and no address. */
  lemma CreatedOrderCustomer(s: Store, req: OrderRequest, user: Option<UserRecord>, clock: Clock)
    requires Place(s, req, user, clock).1.Created?
    ensures TargetShop(req, user).Some?
    ensures var (t, r) := Place(s, req, user, clock);
            var shop := TargetShop(req, user).value;
            var key := (shop, req.customer.phone);
            var amount := req.total - req.discount.GetOr(0);
            && r.order.shopId == shop
            && key in t.customers
            && t.customers[key].lastOrderDate == Some(clock.now)
            && (key in s.customers ==>
                  && t.customers[key] == AfterOrder(s.customers[key], amount, clock.now)
                  && t.customers[key].name == s.customers[key].name
                  && t.customers[key].address == s.customers[key].address)
            && (key !in s.customers ==>
                  && t.customers[key].totalOrders == 1 && t.customers[key].totalSpent == amount
                  && t.customers[key].address == None)
  {
    CreatedPath(s, req, user, clock);
    SettledCustomer(s, req, user, clock, TargetShop(req, user).value);
  }

  /** The counter writes of the success path, stated on the stages. */
  lemma SettledCounters(s: Store, req: OrderRequest, user: Option<UserRecord>, clock: Clock, shop: Id)
    requires ApplyLines(s.products, req.items, clock.now).Applied?
    requires var L := ApplyLines(s.products, req.items, clock.now);
             var F := FindOrCreateCustomer(s.(products := L.products), shop, req.customer);
             F.Some? && InsertOrder(F.value.0, Draft(req, shop, F.value.1.id, L.lines), clock).Some?
    ensures var L := ApplyLines(s.products, req.items, clock.now);
            var F := FindOrCreateCustomer(s.(products := L.products), shop, req.customer);
            var I := InsertOrder(F.value.0, Draft(req, shop, F.value.1.id, L.lines), clock).value;
            var t := Settle(I.0, (shop, req.customer.phone), F.value.1, I.1, user, clock.now);
            var amount := req.total - req.discount.GetOr(0);
            && t.shops.Keys == s.shops.Keys
            && (shop in s.shops ==>
                  && t.shops[shop].totalOrders == s.shops[shop].totalOrders + 1
                  && t.shops[shop].totalRevenue == s.shops[shop].totalRevenue + amount
                  && t.shops[shop].totalCustomers == s.shops[shop].totalCustomers)
            && (forall id :: id in s.shops && id != shop ==> t.shops[id] == s.shops[id])
            && t.users.Keys == s.users.Keys
            && (forall id :: id in s.users && (user.None? || id != user.value.id) ==> t.users[id] == s.users[id])
            && (user.Some? && user.value.id in s.users ==>
                  var before := s.users[user.value.id];
                  t.users[user.value.id] == before.(usage := before.usage.(ordersThisMonth := before.usage.ordersThisMonth + 1)))
  {
    var L := ApplyLines(s.products, req.items, clock.now);
    var F := FindOrCreateCustomer(s.(products := L.products), shop, req.customer).value;
    FoundCustomer(s.(products := L.products), shop, req.customer);
    DraftedOrder(F.0, req, shop, F.1.id, L.lines, clock);
    if user.Some? {
      OrdersIncrement(s.users, user.value.id);
    }
  }

  /** After a created order the shop's order count rose by 1 and its revenue
      by the final total, no other shop changed, the caller's order usage rose
      by 1 and no other user changed (with no caller, no user at all). */
  lemma CreatedOrderCounters(s: Store, req: OrderRequest, user: Option<UserRecord>, clock: Clock)
    requires Place(s, req, user, clock).1.Created?
    ensures TargetShop(req, user).Some?
    ensures var t := Place(s, req, user, clock).0;
            var shop := TargetShop(req, user).value;
            var amount := req.total - req.discount.GetOr(0);
            && t.shops.Keys == s.shops.Keys
            && (shop in s.shops ==>
                  && t.shops[shop].totalOrders == s.shops[shop].totalOrders + 1
                  && t.shops[shop].totalRevenue == s.shops[shop].totalRevenue + amount
                  && t.shops[shop].totalCustomers == s.shops[shop].totalCustomers)
            && (forall id :: id in s.shops && id != shop ==> t.shops[id] == s.shops[id])
            && t.users.Keys == s.users.Keys
            && (forall id :: id in s.users && (user.None? || id != user.value.id) ==> t.users[id] == s.users[id])
            && (user.Some? && user.value.id in s.users ==>
                  var before := s.users[user.value.id];
                  t.users[user.value.id] == before.(usage := before.usage.(ordersThisMonth := before.usage.ordersThisMonth + 1)))
  {
    CreatedPath(s, req, user, clock);
    SettledCounters(s, req, user, clock, TargetShop(req, user).value);
  }

  /** Placing an order never makes a customer inactive: the new last order
      date is within ninety days, so 'inactive' only survives from before. */
  lemma OrderNeverDeactivates(c: CustomerRecord, amount: int, now: Time)
    requires c.segment != Inactive
    ensures AfterOrder(c, amount, now).segment != Inactive
  {
  }

  /** A first-time customer stays 'new' after a first order under 10000,
      even though it now has an order. */
  lemma FirstOrderKeepsNew(c: CustomerRecord, amount: int, now: Time)
    requires c.totalOrders == 0 && c.totalSpent == 0 && c.segment == New
    requires 0 <= amount < VipSpend
    ensures AfterOrder(c, amount, now).segment == New
    ensures AfterOrder(c, amount, now).totalOrders == 1
  {
  }

  /** The path where the insert fails after the lines and the customer went
      through: 500, with the store as the customer stage left it. */
  lemma InsertFailedPath(s: Store, req: OrderRequest, user: Option<UserRecord>, clock: Clock)
    requires TargetShop(req, user).Some?
    requires ApplyLines(s.products, req.items, clock.now).Applied?
    requires var L := ApplyLines(s.products, req.items, clock.now);
             var shop := TargetShop(req, user).value;
             var F := FindOrCreateCustomer(s.(products := L.products), shop, req.customer);
             F.Some? && InsertOrder(F.value.0, Draft(req, shop, F.value.1.id, L.lines), clock).None?
    ensures var L := ApplyLines(s.products, req.items, clock.now);
            var F := FindOrCreateCustomer(s.(products := L.products), TargetShop(req, user).value, req.customer);
            Place(s, req, user, clock) == (F.value.0, ServerError)
  {
  }

  /** The order schema refuses a discount larger than the total. */
  lemma OverDiscountRefused(s2: Store, d: OrderDraft, clock: Clock)
    requires d.discount > d.total
    ensures InsertOrder(s2, d, clock).None?
  {
  }

  /** A discount larger than the total fails the order's `finalTotal >= 0`
      check: the answer is 500, but the stock was already taken and a new
      customer already stored. */
  lemma OverDiscountFailsLate(s: Store, req: OrderRequest, user: Option<UserRecord>, clock: Clock)
    requires TargetShop(req, user).Some?
    requires ApplyLines(s.products, req.items, clock.now).Applied?
    requires FindOrCreateCustomer(s.(products := ApplyLines(s.products, req.items, clock.now).products),
                                  TargetShop(req, user).value, req.customer).Some?
    requires req.discount.GetOr(0) > req.total
    ensures Place(s, req, user, clock).1 == ServerError
    ensures Place(s, req, user, clock).0.products == ApplyLines(s.products, req.items, clock.now).products
    ensures var shop := TargetShop(req, user).value;
            (shop, req.customer.phone) in Place(s, req, user, clock).0.customers
  {
    var L := ApplyLines(s.products, req.items, clock.now);
    var shop := TargetShop(req, user).value;
    var F := FindOrCreateCustomer(s.(products := L.products), shop, req.customer).value;
    FoundCustomer(s.(products := L.products), shop, req.customer);
    OverDiscountRefused(F.0, Draft(req, shop, F.1.id, L.lines), clock);
    InsertFailedPath(s, req, user, clock);
  }

  /** An order number already stored makes the insert fail. */
  lemma NumberCollisionRefused(s2: Store, d: OrderDraft, clock: Clock, other: Id)
    requires other in s2.orders && s2.orders[other].orderNumber == OrderNumber(clock.dateStr, 0)
    requires CountToday(s2.orders, d.shopId, clock.dayStart, clock.dayEnd) == 0
    ensures InsertOrder(s2, d, clock).None?
  {
    var o := Hooked(NewOrder(s2.nextId, d, clock.now), true, clock.dateStr, 0);
    assert NumberTaken(s2.orders, o.orderNumber);
  }

  /** Order numbers are counted per shop but unique across all shops: when
      another shop's first order today already took number 0001, this shop's
      first order today is refused with 500, after its stock was taken. */
  lemma CrossShopNumberCollision(s: Store, req: OrderRequest, user: Option<UserRecord>, clock: Clock, other: Id)
    requires TargetShop(req, user).Some?
    requires ApplyLines(s.products, req.items, clock.now).Applied?
    requires other in s.orders && s.orders[other].orderNumber == OrderNumber(clock.dateStr, 0)
    requires CountToday(s.orders, TargetShop(req, user).value, clock.dayStart, clock.dayEnd) == 0
    ensures Place(s, req, user, clock).1 == ServerError
    ensures Place(s, req, user, clock).0.products == ApplyLines(s.products, req.items, clock.now).products
  {
    var L := ApplyLines(s.products, req.items, clock.now);
    var shop := TargetShop(req, user).value;
    var F := FindOrCreateCustomer(s.(products := L.products), shop, req.customer);
    if F.Some? {
      FoundCustomer(s.(products := L.products), shop, req.customer);
      NumberCollisionRefused(F.value.0, Draft(req, shop, F.value.1.id, L.lines), clock, other);
      InsertFailedPath(s, req, user, clock);
    }
  }

  /** A valid request from the public page, or from a caller under its order
      limit, reaches the handler: it is answered neither 401 nor 403. */
  lemma PostOrderReachesHandler(s: Store, req: OrderRequest, caller: Option<UserRecord>, clock: Clock)
    requires RequestValid(req)
    requires caller.None? || !AtLimit(Downgraded(caller.value, clock.now), "orders")
    ensures !PostOrder(s, req, caller, clock).1.Unauthorized?
    ensures !PostOrder(s, req, caller, clock).1.LimitReached?
  {
    var s1 := if caller.Some? && Expired(caller.value, clock.now)
              then s.(users := s.users[caller.value.id := Downgraded(caller.value, clock.now)]) else s;
    var user := if caller.Some? then Some(Downgraded(caller.value, clock.now)) else None;
    assert PostOrder(s, req, caller, clock).1 == Place(s1, Sanitized(req), user, clock).1;
    PlaceNeverGates(s1, Sanitized(req), user, clock);
  }

  /** The handler itself never answers 401 or 403: its replies are 400 for
      a missing shop, 404 or 400 from the stock loop, 500 or 201. */
  lemma PlaceNeverGates(s: Store, req: OrderRequest, user: Option<UserRecord>, clock: Clock)
    ensures var r := Place(s, req, user, clock).1;
            r.ShopIdRequired? || r.LineRejected? || r.ServerError? || r.Created?
  {
    var r := Place(s, req, user, clock).1;
    if TargetShop(req, user).None? {
      assert r == ShopIdRequired;
    } else {
      var L := ApplyLines(s.products, req.items, clock.now);
      if L.Stopped? {
        assert r == LineRejected(L.failure);
      } else {
        var shop := TargetShop(req, user).value;
        assert r == PlaceAfterStock(s.(products := L.products), req, shop, L.lines, user, clock).1;
        PlaceAfterStockReplies(s.(products := L.products), req, shop, L.lines, user, clock);
      }
    }
  }

  lemma PlaceAfterStockReplies(s1: Store, req: OrderRequest, shop: Id, lines: seq<LineItem>,
                               user: Option<UserRecord>, clock: Clock)
    ensures PlaceAfterStock(s1, req, shop, lines, user, clock).1.ServerError?
            || PlaceAfterStock(s1, req, shop, lines, user, clock).1.Created?
  {
  }

  /** With a caller at its order limit the answer is 403 and no order,
      product or customer is touched. */
  lemma GateRefusesAtLimit(s: Store, req: OrderRequest, u: UserRecord, clock: Clock)
    requires RequestValid(req)
    requires AtLimit(Downgraded(u, clock.now), "orders")
    ensures PostOrder(s, req, Some(u), clock).1.LimitReached?
    ensures var t := PostOrder(s, req, Some(u), clock).0;
            t.products == s.products && t.customers == s.customers && t.orders == s.orders
  {
  }

  // ---------------------------------------------------------------- PUT /api/orders/:id/status

  /** PUT /:id/status behind `protect`: the caller's own order is given the
      requested status and one history entry by the caller's name, then saved;
      a status outside the enum fails validation (500) and nothing is stored. */
  function UpdateStatus(s: Store, orderId: Id, status: string, user: Option<UserRecord>, now: Time): (Store, Reply) {
    if user.None? then (s, Unauthorized)
    else if orderId !in s.orders || Some(s.orders[orderId].shopId) != user.value.shopId then (s, OrderNotFound)
    else
      var r := WithHistory(s.orders[orderId].(status := status), status, Some(user.value.name), now);
      match Save(r, false, "", 0)
      case None => (s, ServerError)
      case Some(o) => (s.(orders := s.orders[orderId := o]), Updated(o))
  }

  /** Any status in the enum is accepted from any current status, delivered
      and cancelled included, with exactly one history entry appended and the
      order number kept; nothing else in the store changes. */
  lemma StatusUpdateUnchecked(s: Store, orderId: Id, status: string, u: UserRecord, now: Time)
    requires orderId in s.orders && Some(s.orders[orderId].shopId) == u.shopId
    requires Valid(s.orders[orderId]) && s.orders[orderId].finalTotal == Some(s.orders[orderId].total - s.orders[orderId].discount)
    requires status in Statuses
    ensures var (t, r) := UpdateStatus(s, orderId, status, Some(u), now);
            var old_ := s.orders[orderId];
            && r.Updated? && r.order.status == status
            && r.order.statusHistory == old_.statusHistory + [HistoryEntry(status, now, u.name)]
            && r.order.orderNumber == old_.orderNumber && r.order.items == old_.items
            && t == s.(orders := s.orders[orderId := r.order])
  {
    var r := WithHistory(s.orders[orderId].(status := status), status, Some(u.name), now);
    assert Hooked(r, false, "", 0) == r;
  }

  /** A status outside the enum is refused with 500 and the store is unchanged. */
  lemma BadStatusNotStored(s: Store, orderId: Id, status: string, u: UserRecord, now: Time)
    requires orderId in s.orders && Some(s.orders[orderId].shopId) == u.shopId
    requires status !in Statuses
    ensures UpdateStatus(s, orderId, status, Some(u), now) == (s, ServerError)
  {
  }

  // ---------------------------------------------------------------- POST /api/orders/:id/send-whatsapp

  /** The route behind `protect` and `checkPlanLimit('messages')`, given the
      composed confirmation text and the provider's answer (`Some(messageId)`
      on success). On success the order is marked sent, a 'sent' message is
      logged and the messages usage is counted; on failure nothing is written. */
  function SendWhatsapp(s: Store, orderId: Id, user: Option<UserRecord>, clock: Clock,
                        text: string, outcome: Option<string>): (Store, Reply)
  {
    if user.None? then (s, Unauthorized)
    else
      var u := user.value;
      var d := Downgraded(u, clock.now);
      var s1 := if Expired(u, clock.now) then s.(users := s.users[u.id := d]) else s;
      var g := Decide(d, "messages");
      if g.Exceeded? then (s1, LimitReached(g))
      else SendPastGate(s1, orderId, d, clock, text, outcome)
  }

  /** The handler once the gate has let `caller` through. */
  function SendPastGate(s1: Store, orderId: Id, caller: UserRecord, clock: Clock,
                        text: string, outcome: Option<string>): (Store, Reply)
  {
    if orderId !in s1.orders || Some(s1.orders[orderId].shopId) != caller.shopId then (s1, OrderNotFound)
    else if outcome.None? then (s1, WhatsappResult(false, None))
    else
      var order := s1.orders[orderId];
      match Save(order.(whatsappSent := true), false, "", 0)
      case None => (s1, ServerError)
      case Some(o) => LogSent(s1.(orders := s1.orders[orderId := o]), order, caller.id, clock, text, outcome)
  }

  /** After the order is saved: the 'sent' message is logged and the
      caller's messages usage counted. */
  function LogSent(s2: Store, order: OrderRecord, callerId: Id, clock: Clock,
                   text: string, outcome: Option<string>): (Store, Reply)
  {
    var m := Messages.NewMessage(s2.nextId, order.shopId, order.customer.phone, text)
               .(status := Messages.Sent, whatsappMessageId := outcome, sentAt := Some(clock.now));
    if !MessageValid(m) then (s2, ServerError)
    else
      var s3 := s2.(messages := s2.messages[m.id := m], nextId := s2.nextId + 1,
                    users := IncrementUsage(s2.users, callerId, "messages"));
      (s3, WhatsappResult(true, outcome))
  }

  /** The message schema's checks that can fail here: a ten-digit phone and a
      text of 1 to 1000 characters. */
  predicate MessageValid(m: Messages.MessageRecord) {
    IsPhone10(m.phone) && m.text != "" && |m.text| <= 1000
  }

  /** A failed send changes nothing beyond the plan gate's own downgrade,
      and answers 200 with success false. */
  lemma FailedSendWritesNothing(s: Store, orderId: Id, u: UserRecord, clock: Clock, text: string)
    requires !Expired(u, clock.now) && !AtLimit(u, "messages")
    requires orderId in s.orders && Some(s.orders[orderId].shopId) == u.shopId
    ensures SendWhatsapp(s, orderId, Some(u), clock, text, None) == (s, WhatsappResult(false, None))
  {
  }

  /** A successful send marks the order, logs one 'sent' message with the
      provider's id, and meters exactly one message. */
  lemma SuccessfulSendMeters(s: Store, orderId: Id, u: UserRecord, clock: Clock, text: string, mid: string)
    requires !Expired(u, clock.now) && !AtLimit(u, "messages")
    requires SendWhatsapp(s, orderId, Some(u), clock, text, Some(mid)).1 == WhatsappResult(true, Some(mid))
    requires u.id in s.users
    ensures var t := SendWhatsapp(s, orderId, Some(u), clock, text, Some(mid)).0;
            && orderId in t.orders && t.orders[orderId].whatsappSent
            && s.nextId in t.messages && t.messages[s.nextId].status == Messages.Sent
            && t.messages[s.nextId].whatsappMessageId == Some(mid)
            && t.users[u.id].usage.messagesThisMonth == s.users[u.id].usage.messagesThisMonth + 1
            && t.products == s.products && t.customers == s.customers
  {
    IncrementUsageMeters(s.users, u.id, "messages", "messages");
  }

  // ---------------------------------------------------------------- the handler over the collections

  /** The collections as the handler sees them, updated in place. */
  class Db {
    var products: map<Id, ProductRecord>
    var customers: map<(Id, string), CustomerRecord>
    var orders: map<Id, OrderRecord>
    var shops: map<Id, Shops.ShopStats>
    var users: map<Id, UserRecord>
    var messages: map<Id, Messages.MessageRecord>
    var nextId: Id

    function State(): Store
      reads this
    {
      Store(products, customers, orders, shops, users, messages, nextId)
    }

    constructor Load(st: Store)
      ensures State() == st
    {
      products, customers, orders, shops := st.products, st.customers, st.orders, st.shops;
      users, messages, nextId := st.users, st.messages, st.nextId;
    }

    /** The stock loop: each item's product is loaded, checked, snapshotted,
        updated and saved before the next item is read; the first failing
        item ends the loop with what was saved so far. */
    method TakeStock(items: seq<ItemRequest>, now: Time) returns (res: Lines)
      modifies this`products
      ensures res == ApplyLines(old(products), items, now)
      ensures products == res.products
    {
      var processed: seq<LineItem> := [];
      var i := 0;
      while i < |items|
        invariant 0 <= i <= |items|
        invariant ApplyLines(old(products), items[..i], now) == Applied(products, processed)
      {
        var item := items[i];
        assert items[..i + 1][..i] == items[..i];
        if item.productId !in products {
          StoppedPersists(old(products), items, i + 1, now);
          return Stopped(products, ProductNotFound(item.productId));
        }
        var before := products[item.productId];
        var product := new Product.Load(before);
        if product.stock < item.quantity {
          StoppedPersists(old(products), items, i + 1, now);
          return Stopped(products, InsufficientStock(product.name, product.stock));
        }
        processed := processed + [LineItem(item.productId, product.name, product.price, item.quantity,
                                           product.unit, product.price * item.quantity)];
        product.UpdateStock(item.quantity, Some("subtract"), now);
        product.stats := product.stats.(totalSold := product.stats.totalSold + item.quantity);
        product.stats := product.stats.(revenue := product.stats.revenue + product.price * item.quantity);
        assert product.Record() == Sold(before, item.quantity, now);
        products := products[item.productId := product.Record()];
        i := i + 1;
      }
      assert items[..i] == items;
      res := Applied(products, processed);
    }

    /** `Customer.findOne({shopId, phone})`, else `Customer.create(...)`. */
    method FindOrCreate(shop: Id, cr: CustomerRequest) returns (doc: Customer?)
      modifies this`customers, this`nextId
      ensures var F := FindOrCreateCustomer(old(State()), shop, cr);
              && (doc == null <==> F.None?)
              && (doc == null ==> State() == old(State()))
              && (doc != null ==> fresh(doc) && doc.Record() == F.value.1 && State() == F.value.0)
    {
      var key := (shop, cr.phone);
      if key in customers {
        doc := new Customer.Load(customers[key]);
        return;
      }
      var created := CreateCustomer(nextId, shop, cr.name, cr.phone, cr.address);
      if created.None? {
        return null;
      }
      doc := new Customer.Load(created.value);
      customers := customers[key := created.value];
      nextId := nextId + 1;
    }

    /** `Order.create(draft)`: the document is built, its pre-save hooks run,
        it is validated and inserted under the unique order number. */
    method InsertNew(d: OrderDraft, clock: Clock) returns (doc: Order?)
      modifies this`orders, this`nextId
      ensures var I := InsertOrder(old(State()), d, clock);
              && (doc == null <==> I.None?)
              && (doc == null ==> State() == old(State()))
              && (doc != null ==> fresh(doc) && doc.Record() == I.value.1 && State() == I.value.0)
    {
      var count := CountToday(orders, d.shopId, clock.dayStart, clock.dayEnd);
      doc := new Order.Create(nextId, d, clock.now);
      doc.PreSave(clock.dateStr, count);
      if !Valid(doc.Record()) || NumberTaken(orders, doc.orderNumber) {
        return null;
      }
      orders := orders[doc.id := doc.Record()];
      nextId := nextId + 1;
    }

    /** The writes after the order exists: the customer document's counters,
        `calculateAverageOrderValue()`, `updateSegment()` and save, the shop's
        `$inc`, and the caller's order usage. */
    method SettleOrder(key: (Id, string), customerDoc: Customer, o: OrderRecord, user: Option<UserRecord>, now: Time)
      requires o.finalTotal.Some?
      modifies this`customers, this`shops, this`users, customerDoc
      ensures State() == Settle(old(State()), key, old(customerDoc.Record()), o, user, now)
    {
      var amount := o.finalTotal.value;
      customerDoc.totalOrders := customerDoc.totalOrders + 1;
      customerDoc.totalSpent := customerDoc.totalSpent + amount;
      customerDoc.lastOrderDate := Some(now);
      customerDoc.CalculateAverageOrderValue();
      customerDoc.UpdateSegment(now);
      assert customerDoc.Record() == AfterOrder(old(customerDoc.Record()), amount, now);
      customers := customers[key := customerDoc.Record()];
      shops := Bumped(shops, key.0, amount);
      if user.Some? {
        users := IncrementUsage(users, user.value.id, "orders");
      }
    }

    /** The handler after the stock loop: customer, order, aggregates. */
    method PlaceLines(req: OrderRequest, shop: Id, lines: seq<LineItem>, user: Option<UserRecord>, clock: Clock)
      returns (reply: Reply)
      modifies this
      ensures (State(), reply) == PlaceAfterStock(old(State()), req, shop, lines, user, clock)
    {
      ghost var s1 := State();
      var customerDoc := FindOrCreate(shop, req.customer);
      if customerDoc == null {
        return ServerError;
      }
      ghost var F := FindOrCreateCustomer(s1, shop, req.customer).value;
      var order := InsertNew(Draft(req, shop, customerDoc.id, lines), clock);
      if order == null {
        return ServerError;
      }
      ghost var I := InsertOrder(F.0, Draft(req, shop, F.1.id, lines), clock).value;
      assert State() == I.0 && order.Record() == I.1;
      var o := order.Record();
      SettleOrder((shop, req.customer.phone), customerDoc, o, user, clock.now);
      reply := Created(o);
    }

    /** PUT /api/orders/:id/status: the order is looked up within the
        caller's shop, its status set, one history entry appended under the
        caller's name, and the document saved. */
    method UpdateOrderStatus(orderId: Id, status: string, user: Option<UserRecord>, now: Time) returns (reply: Reply)
      modifies this`orders
      ensures (State(), reply) == UpdateStatus(old(State()), orderId, status, user, now)
    {
      if user.None? {
        return Unauthorized;
      }
      if orderId !in orders || Some(orders[orderId].shopId) != user.value.shopId {
        return OrderNotFound;
      }
      var order := new Order.Load(orders[orderId]);
      order.status := status;
      order.AddStatusHistory(status, Some(user.value.name), now);
      order.PreSave("", 0);
      if !Valid(order.Record()) {
        return ServerError;
      }
      orders := orders[orderId := order.Record()];
      reply := Updated(order.Record());
    }

    /** POST /api/orders/:id/send-whatsapp behind `protect` and
        `checkPlanLimit('messages')`, given the composed text and the
        provider's answer: on success the order is marked and saved, a 'sent'
        message is logged and the caller's messages usage is counted. */
    method SendOrderWhatsapp(orderId: Id, user: Option<UserRecord>, clock: Clock, text: string, outcome: Option<string>)
      returns (reply: Reply)
      modifies this`orders, this`messages, this`nextId, this`users
      ensures (State(), reply) == SendWhatsapp(old(State()), orderId, user, clock, text, outcome)
    {
      if user.None? {
        return Unauthorized;
      }
      var u := user.value;
      var d := Downgraded(u, clock.now);
      if Expired(u, clock.now) {
        users := users[u.id := d];
      }
      var gate := Decide(d, "messages");
      if gate.Exceeded? {
        return LimitReached(gate);
      }
      reply := SendConfirmation(orderId, d, clock, text, outcome);
    }

    /** The send-whatsapp handler past the gate. */
    method SendConfirmation(orderId: Id, caller: UserRecord, clock: Clock, text: string, outcome: Option<string>)
      returns (reply: Reply)
      modifies this`orders, this`messages, this`nextId, this`users
      ensures (State(), reply) == SendPastGate(old(State()), orderId, caller, clock, text, outcome)
    {
      if orderId !in orders || Some(orders[orderId].shopId) != caller.shopId {
        return OrderNotFound;
      }
      if outcome.None? {
        return WhatsappResult(false, None);
      }
      var found := orders[orderId];
      var order := new Order.Load(found);
      order.whatsappSent := true;
      order.PreSave("", 0);
      assert order.Record() == Hooked(found.(whatsappSent := true), false, "", 0);
      if !Valid(order.Record()) {
        return ServerError;
      }
      assert Save(found.(whatsappSent := true), false, "", 0) == Some(order.Record());
      orders := orders[orderId := order.Record()];
      reply := LogMessage(found, caller.id, clock, text, outcome);
    }

    /** `Message.create({... status: 'sent' ...})`, then `incrementUsage(req.user._id, 'messages')`. */
    method LogMessage(order: OrderRecord, callerId: Id, clock: Clock, text: string, outcome: Option<string>)
      returns (reply: Reply)
      modifies this`messages, this`nextId, this`users
      ensures (State(), reply) == LogSent(old(State()), order, callerId, clock, text, outcome)
    {
      var logged := Messages.NewMessage(nextId, order.shopId, order.customer.phone, text)
                      .(status := Messages.Sent, whatsappMessageId := outcome, sentAt := Some(clock.now));
      if !MessageValid(logged) {
        return ServerError;
      }
      messages := messages[logged.id := logged];
      nextId := nextId + 1;
      users := IncrementUsage(users, callerId, "messages");
      reply := WhatsappResult(true, outcome);
    }

    /** The handler body of POST /api/orders on a validated request. */
    method CreateOrder(req: OrderRequest, user: Option<UserRecord>, clock: Clock) returns (reply: Reply)
      modifies this
      ensures (State(), reply) == Place(old(State()), req, user, clock)
    {
      var target := TargetShop(req, user);
      if target.None? {
        return ShopIdRequired;
      }
      var lines := TakeStock(req.items, clock.now);
      if lines.Stopped? {
        return LineRejected(lines.failure);
      }
      reply := PlaceLines(req, target.value, lines.lines, user, clock);
    }
  }
}
