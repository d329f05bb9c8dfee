/** backend/models/Message.js: the WhatsApp message record, its status enum
    and the three status setters. */
module Messages {
  import opened Common

  datatype MessageStatus = Queued | Sent | Delivered | Read | Failed

  /** A stored message, as far as the core reads or writes it. */
  datatype MessageRecord = MessageRecord(
    id: Id,
    shopId: Id,
    phone: string,
    text: string,
    status: MessageStatus,
    whatsappMessageId: Option<string>,
    sentAt: Option<Time>,
    deliveredAt: Option<Time>,
    failureReason: Option<string>,
    retryCount: int)

  /** `Message.create(...)`: status 'queued', nothing sent, no retries. */
  function NewMessage(id: Id, shopId: Id, phone: string, text: string): (r: MessageRecord)
    ensures r.status == Queued && r.retryCount == 0
    ensures r.whatsappMessageId == None && r.sentAt == None && r.deliveredAt == None && r.failureReason == None
  {
    MessageRecord(id, shopId, phone, text, Queued, None, None, None, None, 0)
  }

  /** The record after `markAsSent(whatsappMessageId)` at instant `now`. */
  function MarkedSent(r: MessageRecord, providerId: string, now: Time): MessageRecord {
    r.(status := Sent, whatsappMessageId := Some(providerId), sentAt := Some(now))
  }

  /** The record after `markAsDelivered()` at instant `now`. */
  function MarkedDelivered(r: MessageRecord, now: Time): MessageRecord {
    r.(status := Delivered, deliveredAt := Some(now))
  }

  /** The record after `markAsFailed(reason)`. */
  function MarkedFailed(r: MessageRecord, reason: string): MessageRecord {
    r.(status := Failed, failureReason := Some(reason))
  }

  /** No setter looks at the current status, and none touches the retry
      counter or the content. */
  lemma SettersIgnorePriorStatus(r: MessageRecord, s: MessageStatus, providerId: string, now: Time, reason: string)
    ensures MarkedSent(r.(status := s), providerId, now) == MarkedSent(r, providerId, now).(status := Sent)
    ensures MarkedSent(r.(status := s), providerId, now).status == Sent
    ensures MarkedDelivered(r.(status := s), now).status == Delivered
    ensures MarkedFailed(r.(status := s), reason).status == Failed
    ensures MarkedSent(r, providerId, now).retryCount == MarkedDelivered(r, now).retryCount
            == MarkedFailed(r, reason).retryCount == r.retryCount
    ensures MarkedSent(r, providerId, now).text == MarkedDelivered(r, now).text == MarkedFailed(r, reason).text == r.text
  {
  }

  /** Transitions are not monotonic: a delivered message can be marked
      failed, a failed one delivered, and a delivered one sent again, which
      keeps its old delivery time. */
  lemma NoMonotonicTransitions(r: MessageRecord, providerId: string, t1: Time, t2: Time, reason: string)
    ensures MarkedFailed(MarkedDelivered(r, t1), reason).status == Failed
    ensures MarkedDelivered(MarkedFailed(r, reason), t1).status == Delivered
    ensures var m := MarkedSent(MarkedDelivered(r, t1), providerId, t2);
            m.status == Sent && m.deliveredAt == Some(t1) && m.sentAt == Some(t2)
  {
  }

  /** A loaded message document. */
  class Message {
    var id: Id
    var shopId: Id
    var phone: string
    var text: string
    var status: MessageStatus
    var whatsappMessageId: Option<string>
    var sentAt: Option<Time>
    var deliveredAt: Option<Time>
    var failureReason: Option<string>
    var retryCount: int

    function Record(): MessageRecord
      reads this
    {
      MessageRecord(id, shopId, phone, text, status, whatsappMessageId, sentAt, deliveredAt,
                    failureReason, retryCount)
    }

    constructor Load(r: MessageRecord)
      ensures Record() == r
    {
      id, shopId, phone, text, status := r.id, r.shopId, r.phone, r.text, r.status;
      whatsappMessageId, sentAt, deliveredAt := r.whatsappMessageId, r.sentAt, r.deliveredAt;
      failureReason, retryCount := r.failureReason, r.retryCount;
    }

    /** `markAsSent(whatsappMessageId)` */
    method MarkAsSent(providerId: string, now: Time)
      modifies this
      ensures Record() == MarkedSent(old(Record()), providerId, now)
    {
      status := Sent;
      whatsappMessageId := Some(providerId);
      sentAt := Some(now);
    }

    /** `markAsDelivered()` */
    method MarkAsDelivered(now: Time)
      modifies this
      ensures Record() == MarkedDelivered(old(Record()), now)
    {
      status := Delivered;
      deliveredAt := Some(now);
    }

    /** `markAsFailed(reason)` */
    method MarkAsFailed(reason: string)
      modifies this
      ensures Record() == MarkedFailed(old(Record()), reason)
    {
      status := Failed;
      failureReason := Some(reason);
    }
  }
}
