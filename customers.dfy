/** backend/models/Customer.js: the customer record, its segmentation rule
    (`updateSegment`) and `calculateAverageOrderValue`. */
module Customers {
  import opened Common
  import opened Text

  datatype Segment = New | Regular | Vip | Inactive

  /** A stored customer, as far as the core reads or writes it. `address`
      stands for the schema's nested address object: `None` when it was never
      set, `Some` of its rendering otherwise. */
  datatype CustomerRecord = CustomerRecord(
    id: Id,
    shopId: Id,
    name: string,
    phone: string,
    address: Option<string>,
    totalOrders: int,
    totalSpent: int,
    lastOrderDate: Option<Time>,
    averageOrderValue: int,
    segment: Segment)

  const VipOrders := 10
  const VipSpend := 10000
  const RegularOrders := 3
  const DayMs := 24 * 60 * 60 * 1000
  /** `ninetyDaysAgo` is taken as exactly ninety days of milliseconds before now. */
  const InactiveAfter := 90 * DayMs

  /** `Customer.create({shopId, name, phone, address})`: the schema trims name and
      phone, requires both, caps the name at 100 characters and requires ten
      digits for the phone; the counters start at 0 and the segment at 'new'.
      The schema's `address` is a nested object, so the plain string the
      order request carries is dropped by strict mode and never stored. */
  function CreateCustomer(id: Id, shopId: Id, name: string, phone: string, address: Option<string>): (r: Option<CustomerRecord>)
    ensures r.Some? <==> Trim(name) != [] && |Trim(name)| <= 100 && IsPhone10(Trim(phone))
    ensures r.Some? ==> (r.value.id == id && r.value.shopId == shopId && r.value.segment == New
                         && r.value.name == Trim(name) && r.value.phone == Trim(phone)
                         && r.value.totalOrders == 0 && r.value.totalSpent == 0
                         && r.value.averageOrderValue == 0 && r.value.lastOrderDate == None)
    ensures r.Some? ==> r.value.address == None
  {
    var n, p := Trim(name), Trim(phone);
    if n != [] && |n| <= 100 && IsPhone10(p) then
      Some(CustomerRecord(id, shopId, n, p, None, 0, 0, None, 0, New))
    else None
  }

  /** The segment `updateSegment` leaves behind, given the instant ninety days before now. */
  function NextSegment(totalOrders: int, totalSpent: int, lastOrderDate: Option<Time>, current: Segment, cutoff: Time): (s: Segment)
    ensures s == Inactive && current != Inactive ==>
              totalOrders != 0 && totalOrders < VipOrders && totalSpent < VipSpend
              && totalOrders < RegularOrders && lastOrderDate.Some? && lastOrderDate.value < cutoff
    ensures totalOrders >= RegularOrders ==> s == Regular || s == Vip
    ensures s == New && current != New ==> totalOrders == 0
  {
    if totalOrders == 0 then New
    else if totalOrders >= VipOrders || totalSpent >= VipSpend then Vip
    else if totalOrders >= RegularOrders then Regular
    else if lastOrderDate.Some? && lastOrderDate.value < cutoff then Inactive
    else current
  }

  /** The five rules of `updateSegment`, each as the source states it. */
  lemma SegmentRules(n: int, spent: int, last: Option<Time>, current: Segment, cutoff: Time)
    ensures n == 0 ==> NextSegment(n, spent, last, current, cutoff) == New
    ensures n != 0 && (n >= 10 || spent >= 10000) ==> NextSegment(n, spent, last, current, cutoff) == Vip
    ensures 3 <= n < 10 && spent < 10000 ==> NextSegment(n, spent, last, current, cutoff) == Regular
    ensures 1 <= n <= 2 && spent < 10000 ==>
              NextSegment(n, spent, last, current, cutoff)
              == if last.Some? && last.value < cutoff then Inactive else current
  {
  }

  /** `Math.round(a / b)` for a positive divisor: the integer nearest to a/b,
      halves rounded up. */
  function RoundDiv(a: int, b: int): (r: int)
    requires b > 0
    ensures 2 * r * b - b <= 2 * a < 2 * r * b + b
  {
    (2 * a + b) / (2 * b)
  }

  /** There is only one such integer. */
  lemma RoundDivUnique(a: int, b: int, r: int)
    requires b > 0
    requires 2 * r * b - b <= 2 * a < 2 * r * b + b
    ensures r == RoundDiv(a, b)
  {
    var q := RoundDiv(a, b);
    assert r * (2 * b) < (q + 1) * (2 * b);
    assert q * (2 * b) < (r + 1) * (2 * b);
    MulCancel(r, q + 1, 2 * b);
    MulCancel(q, r + 1, 2 * b);
  }

  lemma MulCancel(x: int, y: int, k: int)
    requires k > 0 && x * k < y * k
    ensures x < y
  {
  }

  /** `calculateAverageOrderValue`: the rounded mean spend per order, 0 without orders. */
  function AverageOrderValue(totalSpent: int, totalOrders: int): (v: int)
    ensures totalOrders <= 0 ==> v == 0
    ensures totalOrders > 0 ==> 2 * v * totalOrders - totalOrders <= 2 * totalSpent < 2 * v * totalOrders + totalOrders
  {
    if totalOrders > 0 then RoundDiv(totalSpent, totalOrders) else 0
  }

  /** Equal spend on every order gives that spend as the average. */
  lemma AverageOfEqualOrders(k: int, n: int)
    requires n > 0
    ensures AverageOrderValue(k * n, n) == k
  {
    assert 2 * k * n - n <= 2 * (k * n) < 2 * k * n + n;
    RoundDivUnique(k * n, n, k);
  }

  /** A loaded customer document. */
  class Customer {
    var id: Id
    var shopId: Id
    var name: string
    var phone: string
    var address: Option<string>
    var totalOrders: int
    var totalSpent: int
    var lastOrderDate: Option<Time>
    var averageOrderValue: int
    var segment: Segment

    function Record(): CustomerRecord
      reads this
    {
      CustomerRecord(id, shopId, name, phone, address, totalOrders, totalSpent, lastOrderDate,
                     averageOrderValue, segment)
    }

    constructor Load(r: CustomerRecord)
      ensures Record() == r
    {
      id, shopId, name, phone, address := r.id, r.shopId, r.name, r.phone, r.address;
      totalOrders, totalSpent, lastOrderDate := r.totalOrders, r.totalSpent, r.lastOrderDate;
      averageOrderValue, segment := r.averageOrderValue, r.segment;
    }

    /** `updateSegment()` at instant `now`. */
    method UpdateSegment(now: Time)
      modifies this
      ensures Record() == old(Record()).(segment :=
                NextSegment(old(totalOrders), old(totalSpent), old(lastOrderDate), old(segment), now - InactiveAfter))
    {
      if totalOrders == 0 {
        segment := New;
      } else if totalOrders >= VipOrders || totalSpent >= VipSpend {
        segment := Vip;
      } else if totalOrders >= RegularOrders {
        segment := Regular;
      } else {
        var ninetyDaysAgo := now - InactiveAfter;
        if lastOrderDate.Some? && lastOrderDate.value < ninetyDaysAgo {
          segment := Inactive;
        }
      }
    }

    /** `calculateAverageOrderValue()` */
    method CalculateAverageOrderValue()
      modifies this
      ensures Record() == old(Record()).(averageOrderValue := AverageOrderValue(old(totalSpent), old(totalOrders)))
    {
      if totalOrders > 0 {
        averageOrderValue := (2 * totalSpent + totalOrders) / (2 * totalOrders);
      } else {
        averageOrderValue := 0;
      }
    }
  }
}
