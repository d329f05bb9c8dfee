/** backend/middleware/planLimits.js: the `checkPlanLimit(limitType)` gate
    and the `incrementUsage(userId, usageType)` counter update. */
module PlanLimits {
  import opened Common
  import opened Text
  import opened Users

  /** What the gate does with a request. */
  datatype Gate =
    | Unauthenticated                          // 401 'User not authenticated'
    | Exceeded(message: string, currentPlan: string,
               current: Option<int>, limit: Option<int>)  // 403 with the usage payload
    | Pass                                     // next()

  /** The three metered categories. */
  predicate Metered(t: string) {
    t == "orders" || t == "messages" || t == "ai"
  }

  /** The usage counter a category is metered by. */
  function Counter(u: Usage, t: string): (c: Option<int>)
    ensures c.Some? <==> Metered(t)
  {
    if t == "orders" then Some(u.ordersThisMonth)
    else if t == "messages" then Some(u.messagesThisMonth)
    else if t == "ai" then Some(u.aiQueriesThisMonth)
    else None
  }

  /** The limit a category is compared against. */
  function Limit(l: Limits, t: string): (c: Option<int>)
    ensures c.Some? <==> Metered(t)
  {
    if t == "orders" then Some(l.maxOrders)
    else if t == "messages" then Some(l.maxMessages)
    else if t == "ai" then Some(l.aiQueries)
    else None
  }

  /** The request is over its plan: the category's counter has reached its limit. */
  predicate AtLimit(r: UserRecord, t: string) {
    Metered(t) && Counter(r.usage, t).value >= Limit(r.planLimits, t).value
  }

  /** A paid plan whose `planExpiry` lies before `now`. */
  predicate Expired(r: UserRecord, now: Time) {
    r.plan != "free" && r.planExpiry.Some? && r.planExpiry.value < now
  }

  /** The lazy downgrade: an expired plan becomes 'free' with the free limits;
      the expiry date and the usage are kept. */
  function Downgraded(r: UserRecord, now: Time): (d: UserRecord)
    ensures Expired(r, now) ==> d.plan == "free" && d.planLimits == DefaultLimits
    ensures !Expired(r, now) ==> d == r
    ensures d.usage == r.usage && d.planExpiry == r.planExpiry && d.id == r.id && d.name == r.name && d.shopId == r.shopId
    ensures !Expired(d, now)
  {
    if Expired(r, now) then r.(plan := "free", planLimits := LimitsFor("free")) else r
  }

  /** The message of a 403 for a metered category. */
  function LimitMessage(t: string, limit: int): string
    requires Metered(t)
  {
    var what := if t == "orders" then "order" else if t == "messages" then "WhatsApp message" else "AI query";
    "You have reached your monthly " + what + " limit of " + IntToString(limit) + ". Please upgrade your plan."
  }

  /** The 403 payload as the code builds it: `usage[t + 'ThisMonth']` and
      `limits['max' + capitalised t]`, each undefined when no such field exists. */
  function UsageField(u: Usage, field: string): Option<int> {
    if field == "ordersThisMonth" then Some(u.ordersThisMonth)
    else if field == "messagesThisMonth" then Some(u.messagesThisMonth)
    else if field == "aiQueriesThisMonth" then Some(u.aiQueriesThisMonth)
    else None
  }

  function LimitField(l: Limits, field: string): Option<int> {
    if field == "maxOrders" then Some(l.maxOrders)
    else if field == "maxMessages" then Some(l.maxMessages)
    else if field == "maxProducts" then Some(l.maxProducts)
    else if field == "maxCustomers" then Some(l.maxCustomers)
    else if field == "aiQueries" then Some(l.aiQueries)
    else None
  }

  /** `charAt(0).toUpperCase() + slice(1)` on the lower-case ASCII names the gate is given. */
  function Capitalize(t: string): string {
    if t == [] then []
    else if 'a' <= t[0] <= 'z' then [(t[0] as int - 32) as char] + t[1..]
    else t
  }

  function PayloadAsWritten(r: UserRecord, t: string): (Option<int>, Option<int>) {
    (UsageField(r.usage, t + "ThisMonth"), LimitField(r.planLimits, "max" + Capitalize(t)))
  }

  /** For 'ai' the payload names `aiThisMonth` and `maxAi`, which the user
      record does not have, so the client is told neither its usage nor its limit. */
  lemma AiPayloadMissing(r: UserRecord)
    ensures PayloadAsWritten(r, "ai") == (None, None)
    ensures Counter(r.usage, "ai").Some? && Limit(r.planLimits, "ai").Some?
  {
    assert "ai" + "ThisMonth" == "aiThisMonth";
    assert "max" + Capitalize("ai") == "maxAi";
  }

  /** For orders and messages the written payload is the counter and limit the gate compared. */
  lemma PayloadAsWrittenElsewhere(r: UserRecord, t: string)
    requires t == "orders" || t == "messages"
    ensures PayloadAsWritten(r, t) == (Counter(r.usage, t), Limit(r.planLimits, t))
  {
    if t == "orders" {
      assert t + "ThisMonth" == "ordersThisMonth";
      assert "max" + Capitalize(t) == "maxOrders";
    } else {
      assert t + "ThisMonth" == "messagesThisMonth";
      assert "max" + Capitalize(t) == "maxMessages";
    }
  }

  /** The decision after the downgrade: 403 exactly when the category is at
      its limit, with the counter and limit it compared; every other
      request, an unrecognised type included, passes. */
  function Decide(r: UserRecord, t: string): (g: Gate)
    ensures g.Exceeded? <==> AtLimit(r, t)
    ensures g != Unauthenticated
    ensures g.Exceeded? ==> g.currentPlan == r.plan && g.current == Counter(r.usage, t)
                            && g.limit == Limit(r.planLimits, t)
  {
    if AtLimit(r, t) then
      var limit := Limit(r.planLimits, t).value;
      Exceeded(LimitMessage(t, limit), r.plan, Counter(r.usage, t), Some(limit))
    else Pass
  }

  /** An expired paid plan is judged by the free limits, whatever it allowed before. */
  lemma ExpiredPlanJudgedAsFree(r: UserRecord, now: Time, t: string)
    requires Expired(r, now)
    ensures Decide(Downgraded(r, now), t).Exceeded? <==>
              Metered(t) && Counter(r.usage, t).value >= Limit(DefaultLimits, t).value
  {
  }

  /** After `resetMonthlyUsage`, a user whose limits are its plan's row passes every category. */
  lemma ResetReopensGate(r: UserRecord, t: string)
    requires r.planLimits == LimitsFor(r.plan)
    ensures Decide(r.(usage := ZeroUsage), t) == Pass
  {
  }

  /** The middleware `checkPlanLimit(limitType)` for the caller `user`
      (null without authentication) at instant `now`. */
  method CheckPlanLimit(user: User?, limitType: string, now: Time) returns (g: Gate)
    modifies user
    ensures user == null ==> g == Unauthenticated
    ensures user != null ==> user.Record() == Downgraded(old(user.Record()), now)
    ensures user != null ==> g == Decide(user.Record(), limitType)
    ensures user != null ==> user.usage == old(user.usage)
  {
    if user == null {
      return Unauthenticated;
    }
    if user.plan != "free" && user.planExpiry.Some? && user.planExpiry.value < now {
      user.plan := "free";
      user.UpdatePlanLimits();
    }
    var limits, usage := user.planLimits, user.usage;
    var exceeded := false;
    var message := "";
    var current, limit := None, None;
    if limitType == "orders" {
      if usage.ordersThisMonth >= limits.maxOrders {
        exceeded, message := true, LimitMessage(limitType, limits.maxOrders);
        current, limit := Some(usage.ordersThisMonth), Some(limits.maxOrders);
      }
    } else if limitType == "messages" {
      if usage.messagesThisMonth >= limits.maxMessages {
        exceeded, message := true, LimitMessage(limitType, limits.maxMessages);
        current, limit := Some(usage.messagesThisMonth), Some(limits.maxMessages);
      }
    } else if limitType == "ai" {
      if usage.aiQueriesThisMonth >= limits.aiQueries {
        exceeded, message := true, LimitMessage(limitType, limits.aiQueries);
        current, limit := Some(usage.aiQueriesThisMonth), Some(limits.aiQueries);
      }
    }
    if exceeded {
      return Exceeded(message, user.plan, current, limit);
    }
    return Pass;
  }

  /** `$inc` of one `usage.<field>` path; a path the schema does not define
      is dropped by strict mode, so the record is left as it was. */
  function IncrementedField(u: Usage, field: string): (v: Usage)
    ensures UsageField(u, field).None? ==> v == u
    ensures UsageField(u, field).Some? ==> UsageField(v, field) == Some(UsageField(u, field).value + 1)
    ensures forall f :: f != field ==> UsageField(v, f) == UsageField(u, f)
  {
    if field == "ordersThisMonth" then u.(ordersThisMonth := u.ordersThisMonth + 1)
    else if field == "messagesThisMonth" then u.(messagesThisMonth := u.messagesThisMonth + 1)
    else if field == "aiQueriesThisMonth" then u.(aiQueriesThisMonth := u.aiQueriesThisMonth + 1)
    else u
  }

  /** `findByIdAndUpdate(userId, {$inc: {[field]: 1}})` on the user collection;
      a missing user is no update. */
  function IncrementAt(users: map<Id, UserRecord>, userId: Id, field: string): (m: map<Id, UserRecord>)
    ensures m.Keys == users.Keys
    ensures forall id :: id in users && id != userId ==> m[id] == users[id]
    ensures userId in users ==> m[userId] == users[userId].(usage := IncrementedField(users[userId].usage, field))
  {
    if userId in users then users[userId := users[userId].(usage := IncrementedField(users[userId].usage, field))]
    else users
  }

  /** `incrementUsage(userId, usageType)` as written: the path is
      `usage.${usageType}ThisMonth`. */
  function IncrementUsageAsWritten(users: map<Id, UserRecord>, userId: Id, usageType: string): map<Id, UserRecord> {
    IncrementAt(users, userId, usageType + "ThisMonth")
  }

  /** The schema field that meters a category. */
  function CounterField(t: string): (f: string)
    ensures Metered(t) ==> UsageField(ZeroUsage, f).Some?
  {
    if t == "ai" then "aiQueriesThisMonth" else t + "ThisMonth"
  }

  /** `incrementUsage` with 'ai' mapped to `aiQueriesThisMonth`, the counter
      the gate reads for 'ai'. */
  function IncrementUsage(users: map<Id, UserRecord>, userId: Id, usageType: string): map<Id, UserRecord> {
    IncrementAt(users, userId, CounterField(usageType))
  }

  /** Counting an order raises exactly that user's `ordersThisMonth`. */
  lemma OrdersIncrement(users: map<Id, UserRecord>, userId: Id)
    ensures var m := IncrementUsage(users, userId, "orders");
            && m.Keys == users.Keys
            && (forall id :: id in users && id != userId ==> m[id] == users[id])
            && (userId in users ==>
                  var u := users[userId];
                  m[userId] == u.(usage := u.usage.(ordersThisMonth := u.usage.ordersThisMonth + 1)))
  {
    assert CounterField("orders") == "ordersThisMonth";
  }

  lemma CounterIsField(u: Usage, t: string)
    requires Metered(t)
    ensures Counter(u, t) == UsageField(u, CounterField(t))
  {
    if t == "orders" {
      assert CounterField(t) == "ordersThisMonth";
    } else if t == "messages" {
      assert CounterField(t) == "messagesThisMonth";
    }
  }

  /** The corrected increment raises exactly the counter the gate compares
      for that category by one, and no other counter. */
  lemma IncrementUsageMeters(users: map<Id, UserRecord>, userId: Id, t: string, s: string)
    requires userId in users && Metered(t) && Metered(s)
    ensures Counter(IncrementUsage(users, userId, t)[userId].usage, t).value
            == Counter(users[userId].usage, t).value + 1
    ensures s != t ==> Counter(IncrementUsage(users, userId, t)[userId].usage, s)
                       == Counter(users[userId].usage, s)
  {
    var u, v := users[userId].usage, IncrementUsage(users, userId, t)[userId].usage;
    CounterIsField(u, t);
    CounterIsField(v, t);
    CounterIsField(u, s);
    CounterIsField(v, s);
    if s != t {
      assert CounterField(s) != CounterField(t) by {
        if s == "ai" || t == "ai" {
        } else {
          assert CounterField(s)[..|s|] == s && CounterField(t)[..|t|] == t;
        }
      }
    }
  }

  /** As written, `incrementUsage(id, 'ai')` changes no record at all. */
  lemma AiIncrementLost(users: map<Id, UserRecord>, userId: Id)
    ensures IncrementUsageAsWritten(users, userId, "ai") == users
  {
    assert "ai" + "ThisMonth" == "aiThisMonth";
    if userId in users {
      assert users[userId].(usage := users[userId].usage) == users[userId];
    }
  }

  /** For every other usage type the code does what the corrected version does. */
  lemma AsWrittenAgreesElsewhere(users: map<Id, UserRecord>, userId: Id, t: string)
    requires t != "ai"
    ensures IncrementUsageAsWritten(users, userId, t) == IncrementUsage(users, userId, t)
  {
  }

  /** `n` successive increments of one usage type. */
  function Repeated(users: map<Id, UserRecord>, userId: Id, t: string, n: nat, asWritten: bool): map<Id, UserRecord> {
    if n == 0 then users
    else
      var prev := Repeated(users, userId, t, n - 1, asWritten);
      if asWritten then IncrementUsageAsWritten(prev, userId, t) else IncrementUsage(prev, userId, t)
  }

  /** As written, no number of AI queries ever closes the AI gate for a user it lets through. */
  lemma {:induction false} AiGateNeverCloses(users: map<Id, UserRecord>, userId: Id, n: nat)
    requires userId in users && !AtLimit(users[userId], "ai")
    ensures userId in Repeated(users, userId, "ai", n, true)
    ensures Decide(Repeated(users, userId, "ai", n, true)[userId], "ai") == Pass
  {
    if n > 0 {
      AiGateNeverCloses(users, userId, n - 1);
      AiIncrementLost(Repeated(users, userId, "ai", n - 1, true), userId);
    }
  }

  /** With the corrected increment, the AI counter after `n` queries is the
      starting count plus `n`, so the gate closes once that reaches the limit. */
  lemma {:induction false} AiGateCloses(users: map<Id, UserRecord>, userId: Id, n: nat)
    requires userId in users
    ensures userId in Repeated(users, userId, "ai", n, false)
    ensures Repeated(users, userId, "ai", n, false)[userId].usage.aiQueriesThisMonth
            == users[userId].usage.aiQueriesThisMonth + n
    ensures Repeated(users, userId, "ai", n, false)[userId].planLimits == users[userId].planLimits
    ensures users[userId].usage.aiQueriesThisMonth + n >= users[userId].planLimits.aiQueries ==>
              Decide(Repeated(users, userId, "ai", n, false)[userId], "ai").Exceeded?
  {
    if n > 0 {
      AiGateCloses(users, userId, n - 1);
    }
  }
}
