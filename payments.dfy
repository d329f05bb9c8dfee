/** backend/models/Payment.js: the payment record, its status enum and the
    two setters `markAsSuccess` and `markAsFailed`. */
module Payments {
  import opened Common

  datatype PaymentStatus = Created | Pending | Success | Failed | Refunded

  /** A local calendar instant as `Date` keeps it: year, month 0-11, day of
      the month from 1, and the milliseconds into that day. */
  datatype Instant = Instant(year: int, month: nat, day: nat, ms: nat)

  const DayMs := 24 * 60 * 60 * 1000

  predicate Leap(y: int) {
    y % 4 == 0 && (y % 100 != 0 || y % 400 == 0)
  }

  function DaysIn(y: int, m: nat): (n: nat)
    ensures 28 <= n <= 31
  {
    if m == 1 then (if Leap(y) then 29 else 28)
    else if m == 3 || m == 5 || m == 8 || m == 10 then 30
    else 31
  }

  predicate ValidInstant(d: Instant) {
    d.month < 12 && 1 <= d.day <= DaysIn(d.year, d.month) && d.ms < DayMs
  }

  /** Calendar order of instants. */
  predicate Before(a: Instant, b: Instant) {
    || a.year < b.year
    || (a.year == b.year && a.month < b.month)
    || (a.year == b.year && a.month == b.month && a.day < b.day)
    || (a.year == b.year && a.month == b.month && a.day == b.day && a.ms < b.ms)
  }

  /** `d.setMonth(d.getMonth() + 1)`: the same day and time one month on,
      December rolling into January of the next year; a day the next month
      lacks spills over into the month after it. */
  function AddOneMonth(d: Instant): (e: Instant)
    requires ValidInstant(d)
    ensures ValidInstant(e) && Before(d, e) && e.ms == d.ms
    ensures var y, m := if d.month == 11 then d.year + 1 else d.year, (d.month + 1) % 12;
            && (d.day <= DaysIn(y, m) ==> e == Instant(y, m, d.day, d.ms))
            && (d.day > DaysIn(y, m) ==> e == Instant(y, m + 1, d.day - DaysIn(y, m), d.ms))
  {
    var y := if d.month == 11 then d.year + 1 else d.year;
    var m := (d.month + 1) % 12;
    if d.day <= DaysIn(y, m) then Instant(y, m, d.day, d.ms)
    else Instant(y, m + 1, d.day - DaysIn(y, m), d.ms)
  }

  /** A month from the 31st of January is early March: the 3rd, or the 2nd
      in a leap year. */
  lemma EndOfJanuary(y: int, ms: nat)
    requires ms < DayMs
    ensures AddOneMonth(Instant(y, 0, 31, ms)) == Instant(y, 2, if Leap(y) then 2 else 3, ms)
  {
  }

  /** A stored payment, as far as the core reads or writes it. */
  datatype PaymentRecord = PaymentRecord(
    id: Id,
    userId: Id,
    razorpayOrderId: string,
    plan: string,
    amount: int,
    status: PaymentStatus,
    razorpayPaymentId: Option<string>,
    razorpaySignature: Option<string>,
    validFrom: Option<Instant>,
    validUntil: Option<Instant>,
    failureReason: Option<string>)

  /** `Payment.create({userId, razorpayOrderId, plan, amount})`: status
      'created', no Razorpay payment yet, no validity period. */
  function NewPayment(id: Id, userId: Id, orderId: string, plan: string, amount: int): (r: PaymentRecord)
    ensures r.status == Created && r.razorpayPaymentId == None && r.razorpaySignature == None
    ensures r.validFrom == None && r.validUntil == None && r.failureReason == None
  {
    PaymentRecord(id, userId, orderId, plan, amount, Created, None, None, None, None, None)
  }

  /** The record after `markAsSuccess(paymentId, signature)` at instant `now`. */
  function Succeeded(r: PaymentRecord, paymentId: string, signature: string, now: Instant): PaymentRecord
    requires ValidInstant(now)
  {
    r.(status := Success, razorpayPaymentId := Some(paymentId), razorpaySignature := Some(signature),
       validFrom := Some(now), validUntil := Some(AddOneMonth(now)))
  }

  /** The record after `markAsFailed(reason)`. */
  function MarkedFailed(r: PaymentRecord, reason: string): PaymentRecord {
    r.(status := Failed, failureReason := Some(reason))
  }

  /** A successful payment is valid from now until one calendar month later,
      and the validity period is never empty. */
  lemma SuccessValidity(r: PaymentRecord, paymentId: string, signature: string, now: Instant)
    requires ValidInstant(now)
    ensures var s := Succeeded(r, paymentId, signature, now);
            s.status == Success && s.validFrom == Some(now) && s.validUntil.Some?
            && Before(now, s.validUntil.value) && ValidInstant(s.validUntil.value)
            && s.razorpayPaymentId == Some(paymentId) && s.razorpaySignature == Some(signature)
  {
  }

  /** Neither setter looks at the prior status: a failed or refunded payment
      can be marked successful, and a successful one failed. */
  lemma SettersIgnorePriorStatus(r: PaymentRecord, s: PaymentStatus, paymentId: string, signature: string,
                                 now: Instant, reason: string)
    requires ValidInstant(now)
    ensures Succeeded(r.(status := s), paymentId, signature, now) == Succeeded(r, paymentId, signature, now)
    ensures MarkedFailed(r.(status := s), reason) == MarkedFailed(r, reason)
    ensures MarkedFailed(Succeeded(r, paymentId, signature, now), reason).status == Failed
    ensures Succeeded(MarkedFailed(r, reason), paymentId, signature, now).status == Success
  {
  }

  /** A loaded payment document. */
  class Payment {
    var id: Id
    var userId: Id
    var razorpayOrderId: string
    var plan: string
    var amount: int
    var status: PaymentStatus
    var razorpayPaymentId: Option<string>
    var razorpaySignature: Option<string>
    var validFrom: Option<Instant>
    var validUntil: Option<Instant>
    var failureReason: Option<string>

    function Record(): PaymentRecord
      reads this
    {
      PaymentRecord(id, userId, razorpayOrderId, plan, amount, status, razorpayPaymentId,
                    razorpaySignature, validFrom, validUntil, failureReason)
    }

    constructor Load(r: PaymentRecord)
      ensures Record() == r
    {
      id, userId, razorpayOrderId, plan, amount := r.id, r.userId, r.razorpayOrderId, r.plan, r.amount;
      status, razorpayPaymentId, razorpaySignature := r.status, r.razorpayPaymentId, r.razorpaySignature;
      validFrom, validUntil, failureReason := r.validFrom, r.validUntil, r.failureReason;
    }

    /** `markAsSuccess(paymentId, signature)`, the clock reading `now`. */
    method MarkAsSuccess(paymentId: string, signature: string, now: Instant)
      requires ValidInstant(now)
      modifies this
      ensures Record() == Succeeded(old(Record()), paymentId, signature, now)
    {
      status := Success;
      razorpayPaymentId := Some(paymentId);
      razorpaySignature := Some(signature);
      validFrom := Some(now);
      var y := if now.month == 11 then now.year + 1 else now.year;
      var m := (now.month + 1) % 12;
      var until := Instant(y, m, now.day, now.ms);
      if now.day > DaysIn(y, m) {
        until := Instant(y, m + 1, now.day - DaysIn(y, m), now.ms);
      }
      validUntil := Some(until);
    }

    /** `markAsFailed(reason)` */
    method MarkAsFailed(reason: string)
      modifies this
      ensures Record() == MarkedFailed(old(Record()), reason)
    {
      status := Failed;
      failureReason := Some(reason);
    }
  }
}
