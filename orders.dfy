/** backend/models/Order.js: the order record, its enums and defaults, the
    two pre-save hooks (order number, `finalTotal`), schema validation and
    `addStatusHistory`. */
module Orders {
  import opened Common
  import opened Text
  import Products

  const Statuses: seq<string> := ["pending", "confirmed", "processing", "ready", "delivered", "cancelled"]
  const PaymentStatuses: seq<string> := ["unpaid", "partial", "paid"]
  const Sources: seq<string> := ["shop", "public_page", "whatsapp", "manual"]

  /** One line of an order: a snapshot of the product taken when the order was placed. */
  datatype LineItem = LineItem(productId: Id, name: string, price: int, quantity: int, unit: Products.Unit, subtotal: int)

  datatype OrderCustomer = OrderCustomer(name: string, phone: string, customerId: Option<Id>, address: Option<string>)

  datatype HistoryEntry = HistoryEntry(status: string, timestamp: Time, updatedBy: string)

  /** An order document. `orderNumber` is "" and `finalTotal` is `None` until
      the pre-save hooks have set them. */
  datatype OrderRecord = OrderRecord(
    id: Id,
    shopId: Id,
    orderNumber: string,
    customer: OrderCustomer,
    items: seq<LineItem>,
    total: int,
    discount: int,
    finalTotal: Option<int>,
    status: string,
    paymentStatus: string,
    source: string,
    createdAt: Time,
    whatsappSent: bool,
    statusHistory: seq<HistoryEntry>)

  /** What `Order.create` receives; the schema fills in the rest. */
  datatype OrderDraft = OrderDraft(
    shopId: Id,
    customer: OrderCustomer,
    items: seq<LineItem>,
    total: int,
    discount: int,
    source: string)

  /** A new document built from a draft: status 'pending', payment 'unpaid',
      no history, not yet numbered or totalled. */
  function NewOrder(id: Id, d: OrderDraft, now: Time): (r: OrderRecord)
    ensures r.status == "pending" && r.status in Statuses
    ensures r.paymentStatus == "unpaid" && r.paymentStatus in PaymentStatuses
    ensures r.orderNumber == "" && r.finalTotal == None && r.statusHistory == [] && !r.whatsappSent
    ensures r.items == d.items && r.total == d.total && r.discount == d.discount && r.source == d.source
  {
    OrderRecord(id, d.shopId, "", d.customer, d.items, d.total, d.discount, None,
                "pending", "unpaid", d.source, now, false, [])
  }

  // ---------------------------------------------------------------- the order number

  /** `String(n).padStart(4, '0')`: pads on the left, never truncates. */
  function PadStart4(s: string): string
  {
    if |s| >= 4 then s else Zeros(4 - |s|) + s
  }

  /** `toISOString().slice(0, 10).replace(/-/g, '')` applied to the ISO rendering `iso`. */
  function CompactDate(iso: string): string
  {
    RemoveHyphens(iso[..if |iso| < 10 then |iso| else 10])
  }

  function RemoveHyphens(s: string): (r: string)
    ensures '-' !in r
  {
    if s == [] then []
    else if s[0] == '-' then RemoveHyphens(s[1..])
    else [s[0]] + RemoveHyphens(s[1..])
  }

  /** `ORD-${dateStr}-${orderNum}` with `orderNum` the padded `count + 1`. */
  function OrderNumber(dateStr: string, count: nat): string
  {
    "ORD-" + dateStr + "-" + PadStart4(NatToString(count + 1))
  }

  /** The number counts orders of the same shop created within [dayStart, dayEnd]. */
  function CountToday(orders: map<Id, OrderRecord>, shopId: Id, dayStart: Time, dayEnd: Time): nat
  {
    |set id | id in orders && orders[id].shopId == shopId && dayStart <= orders[id].createdAt <= dayEnd|
  }

  /** The numeric part is four digits up to count 9998, and grows past four
      digits from count 9999 on; it always reads back as count + 1. */
  lemma {:induction false} OrderNumberSuffix(count: nat)
    ensures AllDigits(PadStart4(NatToString(count + 1)))
    ensures DigitsValue(PadStart4(NatToString(count + 1))) == count + 1
    ensures |PadStart4(NatToString(count + 1))| == 4 <==> count < 9999
    ensures count >= 9999 ==> |PadStart4(NatToString(count + 1))| >= 5
  {
    var s := NatToString(count + 1);
    NatToStringValue(count + 1);
    NatToStringLength(count + 1, 4);
    assert Pow10(4) == 10000 by {
      assert Pow10(0) == 1;
      assert Pow10(1) == 10;
      assert Pow10(2) == 100;
      assert Pow10(3) == 1000;
    }
    if |s| < 4 {
      LeadingZerosValue(4 - |s|, s);
    }
  }

  /** On one day, different counts give different numbers. */
  lemma OrderNumberInjective(dateStr: string, a: nat, b: nat)
    requires OrderNumber(dateStr, a) == OrderNumber(dateStr, b)
    ensures a == b
  {
    var p := "ORD-" + dateStr + "-";
    var sa, sb := PadStart4(NatToString(a + 1)), PadStart4(NatToString(b + 1));
    assert (p + sa)[|p|..] == sa;
    assert (p + sb)[|p|..] == sb;
    OrderNumberSuffix(a);
    OrderNumberSuffix(b);
  }

  /** The first order of the day is number 0001, whatever the shop: two shops
      that both take their first order on the same day get the same number. */
  lemma FirstOrderOfDay(dateStr: string)
    ensures OrderNumber(dateStr, 0) == "ORD-" + dateStr + "-0001"
  {
    assert NatToString(1) == "1";
    assert Zeros(3) == "000";
  }

  /** A well-formed ISO instant yields its eight date digits. */
  lemma CompactDateOfIso(y: string, m: string, d: string, rest: string)
    requires |y| == 4 && |m| == 2 && |d| == 2
    requires '-' !in y && '-' !in m && '-' !in d
    ensures CompactDate(y + "-" + m + "-" + d + rest) == y + m + d
  {
    var iso := y + "-" + m + "-" + d + rest;
    assert iso[..10] == y + "-" + m + "-" + d;
    RemoveHyphensAppend(y + "-" + m + "-", d);
    RemoveHyphensAppend(y + "-" + m, "-");
    RemoveHyphensAppend(y + "-", m);
    RemoveHyphensAppend(y, "-");
    RemoveHyphensIdentity(y);
    RemoveHyphensIdentity(m);
    RemoveHyphensIdentity(d);
    assert RemoveHyphens("-") == [];
  }

  lemma {:induction false} RemoveHyphensAppend(a: string, b: string)
    ensures RemoveHyphens(a + b) == RemoveHyphens(a) + RemoveHyphens(b)
  {
    if a != [] {
      assert (a + b)[1..] == a[1..] + b;
      RemoveHyphensAppend(a[1..], b);
    } else {
      assert a + b == b;
    }
  }

  lemma {:induction false} RemoveHyphensIdentity(s: string)
    requires '-' !in s
    ensures RemoveHyphens(s) == s
  {
    if s != [] {
      assert '-' !in s[1..];
      RemoveHyphensIdentity(s[1..]);
      assert s == [s[0]] + s[1..];
    }
  }

  // ---------------------------------------------------------------- hooks and validation

  /** The two pre-save hooks: on a new document the first sets the order
      number; the second always sets `finalTotal = total - discount`. */
  function Hooked(r: OrderRecord, isNew: bool, dateStr: string, count: nat): (h: OrderRecord)
    ensures isNew ==> h.orderNumber == OrderNumber(dateStr, count)
    ensures !isNew ==> h.orderNumber == r.orderNumber
    ensures h.finalTotal == Some(r.total - r.discount)
    ensures h == r.(orderNumber := h.orderNumber, finalTotal := h.finalTotal)
  {
    r.(orderNumber := if isNew then OrderNumber(dateStr, count) else r.orderNumber,
       finalTotal := Some(r.total - r.discount))
  }

  predicate LineInBounds(l: LineItem) {
    l.name != "" && l.price >= 0 && l.quantity >= 1 && l.subtotal >= 0
  }

  /** The order schema's validators: required number and customer, ten-digit
      phone, line bounds, `total`, `discount` and `finalTotal` at least 0, and
      the three enums. */
  predicate Valid(r: OrderRecord) {
    && r.orderNumber != ""
    && r.customer.name != ""
    && IsPhone10(r.customer.phone)
    && (forall i :: 0 <= i < |r.items| ==> LineInBounds(r.items[i]))
    && r.total >= 0
    && r.discount >= 0
    && r.finalTotal.Some? && r.finalTotal.value >= 0
    && r.status in Statuses
    && r.paymentStatus in PaymentStatuses
    && r.source in Sources
  }

  /** `save()` as the schema is written: Mongoose validates a document before
      it runs the pre('save') hooks, so the required `orderNumber` and
      `finalTotal` are still unset when they are checked. */
  function SaveAsWritten(r: OrderRecord, isNew: bool, dateStr: string, count: nat): Option<OrderRecord>
  {
    if Valid(r) then Some(Hooked(r, isNew, dateStr, count)) else None
  }

  /** A freshly created order never passes: `Order.create` always fails. */
  lemma NewOrderNeverSaved(id: Id, d: OrderDraft, now: Time, dateStr: string, count: nat)
    ensures SaveAsWritten(NewOrder(id, d, now), true, dateStr, count) == None
  {
  }

  /** `save()` as intended: hooks first, then validation of the completed document. */
  function Save(r: OrderRecord, isNew: bool, dateStr: string, count: nat): (s: Option<OrderRecord>)
    ensures s.Some? ==> Valid(s.value)
    ensures s.Some? ==> s.value.finalTotal == Some(r.total - r.discount)
    ensures s.Some? && !isNew ==> s.value.orderNumber == r.orderNumber
  {
    var h := Hooked(r, isNew, dateStr, count);
    if Valid(h) then Some(h) else None
  }

  /** A new order whose fields are in bounds is saved with its number, and with
      `finalTotal = total - discount`. */
  lemma NewOrderSaved(id: Id, d: OrderDraft, now: Time, dateStr: string, count: nat)
    requires d.customer.name != "" && IsPhone10(d.customer.phone)
    requires forall i :: 0 <= i < |d.items| ==> LineInBounds(d.items[i])
    requires 0 <= d.discount <= d.total && d.source in Sources
    ensures Save(NewOrder(id, d, now), true, dateStr, count).Some?
    ensures Save(NewOrder(id, d, now), true, dateStr, count).value.orderNumber == OrderNumber(dateStr, count)
    ensures Save(NewOrder(id, d, now), true, dateStr, count).value.finalTotal == Some(d.total - d.discount)
  {
    var h := Hooked(NewOrder(id, d, now), true, dateStr, count);
    assert h.orderNumber != "" by {
      assert |h.orderNumber| >= 4;
    }
  }

  /** For a document already in the collection (valid, `finalTotal` kept in
      step with `total - discount`) the hook order does not matter: saving
      it as written and as intended agree, and it is stored unchanged. */
  lemma ExistingOrderSaveAgrees(r: OrderRecord, dateStr: string, count: nat)
    requires Valid(r) && r.finalTotal == Some(r.total - r.discount)
    ensures SaveAsWritten(r, false, dateStr, count) == Save(r, false, dateStr, count) == Some(r)
  {
    assert Hooked(r, false, dateStr, count) == r;
  }

  /** The status history after `addStatusHistory(status, updatedBy = 'system')`. */
  function WithHistory(r: OrderRecord, status: string, updatedBy: Option<string>, now: Time): (u: OrderRecord)
    ensures |u.statusHistory| == |r.statusHistory| + 1
    ensures u.statusHistory[..|r.statusHistory|] == r.statusHistory
    ensures u.statusHistory[|r.statusHistory|] == HistoryEntry(status, now, updatedBy.GetOr("system"))
    ensures u == r.(statusHistory := u.statusHistory)
  {
    r.(statusHistory := r.statusHistory + [HistoryEntry(status, now, updatedBy.GetOr("system"))])
  }

  /** An order document in memory. */
  class Order {
    var id: Id
    var shopId: Id
    var orderNumber: string
    var customer: OrderCustomer
    var items: seq<LineItem>
    var total: int
    var discount: int
    var finalTotal: Option<int>
    var status: string
    var paymentStatus: string
    var source: string
    var createdAt: Time
    var whatsappSent: bool
    var statusHistory: seq<HistoryEntry>
    var isNew: bool

    function Record(): OrderRecord
      reads this
    {
      OrderRecord(id, shopId, orderNumber, customer, items, total, discount, finalTotal, status,
                  paymentStatus, source, createdAt, whatsappSent, statusHistory)
    }

    /** `new Order(draft)` */
    constructor Create(newId: Id, d: OrderDraft, now: Time)
      ensures Record() == NewOrder(newId, d, now) && isNew
    {
      id, shopId, orderNumber, customer, items := newId, d.shopId, "", d.customer, d.items;
      total, discount, finalTotal := d.total, d.discount, None;
      status, paymentStatus, source, createdAt := "pending", "unpaid", d.source, now;
      whatsappSent, statusHistory, isNew := false, [], true;
    }

    /** A document read from the collection. */
    constructor Load(r: OrderRecord)
      ensures Record() == r && !isNew
    {
      id, shopId, orderNumber, customer, items := r.id, r.shopId, r.orderNumber, r.customer, r.items;
      total, discount, finalTotal := r.total, r.discount, r.finalTotal;
      status, paymentStatus, source, createdAt := r.status, r.paymentStatus, r.source, r.createdAt;
      whatsappSent, statusHistory, isNew := r.whatsappSent, r.statusHistory, false;
    }

    /** The two pre-save hooks, given today's compact date and this shop's count of orders today. */
    method PreSave(dateStr: string, todayCount: nat)
      modifies this
      ensures Record() == Hooked(old(Record()), old(isNew), dateStr, todayCount)
      ensures isNew == old(isNew)
    {
      if isNew {
        var orderNum := PadStart4(NatToString(todayCount + 1));
        orderNumber := "ORD-" + dateStr + "-" + orderNum;
      }
      finalTotal := Some(total - discount);
    }

    /** `addStatusHistory(status, updatedBy)` at instant `now`. */
    method AddStatusHistory(newStatus: string, updatedBy: Option<string>, now: Time)
      modifies this
      ensures Record() == WithHistory(old(Record()), newStatus, updatedBy, now)
      ensures isNew == old(isNew)
    {
      statusHistory := statusHistory + [HistoryEntry(newStatus, now, updatedBy.GetOr("system"))];
    }
  }
}
