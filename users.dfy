/** backend/models/User.js: the subscription plan, the limits table behind
    `updatePlanLimits` and the monthly usage counters. */
module Users {
  import opened Common

  /** The `planLimits` sub-document. */
  datatype Limits = Limits(maxOrders: int, maxMessages: int, maxProducts: int, maxCustomers: int, aiQueries: int)

  /** The `usage` sub-document. */
  datatype Usage = Usage(ordersThisMonth: int, messagesThisMonth: int, aiQueriesThisMonth: int)

  /** The table's stand-in for "unlimited". */
  const Unlimited := 999999

  /** The schema defaults of `planLimits` and `usage`. */
  const DefaultLimits := Limits(20, 50, 50, 100, 10)
  const ZeroUsage := Usage(0, 0, 0)

  /** The plans of the schema enum, cheapest first. */
  const Plans: seq<string> := ["free", "basic", "pro", "enterprise"]

  /** A stored user, as far as the core reads or writes it. */
  datatype UserRecord = UserRecord(
    id: Id,
    name: string,
    shopId: Option<Id>,
    plan: string,
    planExpiry: Option<Time>,
    planLimits: Limits,
    usage: Usage)

  /** Every limit of `b` is at least the matching limit of `a`. */
  predicate AtMost(a: Limits, b: Limits) {
    && a.maxOrders <= b.maxOrders && a.maxMessages <= b.maxMessages
    && a.maxProducts <= b.maxProducts && a.maxCustomers <= b.maxCustomers
    && a.aiQueries <= b.aiQueries
  }

  /** `limits[plan] || limits.free`: the table row of a plan, the free row
      for any plan the table does not list. */
  function LimitsFor(plan: string): (l: Limits)
    ensures l == DefaultLimits <==> plan !in Plans[1..]
    ensures AtMost(DefaultLimits, l) && AtMost(l, Limits(Unlimited, Unlimited, Unlimited, Unlimited, Unlimited))
  {
    if plan == "basic" then Limits(100, 500, 200, 500, 50)
    else if plan == "pro" then Limits(Unlimited, 2000, Unlimited, Unlimited, 200)
    else if plan == "enterprise" then Limits(Unlimited, Unlimited, Unlimited, Unlimited, Unlimited)
    else Limits(20, 50, 50, 100, 10)
  }

  /** The free row of the table is exactly the schema default. */
  lemma FreeRowIsDefault()
    ensures LimitsFor("free") == DefaultLimits == Limits(20, 50, 50, 100, 10)
  {
  }

  /** Every limit is non-decreasing along free, basic, pro, enterprise. */
  lemma TiersMonotone(i: nat, j: nat)
    requires i <= j < |Plans|
    ensures AtMost(LimitsFor(Plans[i]), LimitsFor(Plans[j]))
  {
  }

  /** A user as registration stores it: plan 'free' with no expiry, the
      default limits and zero usage; its limits are those of its plan. */
  function NewUser(id: Id, name: string, shopId: Option<Id>): (r: UserRecord)
    ensures r.plan == "free" && r.planExpiry == None && r.usage == ZeroUsage
    ensures r.planLimits == LimitsFor(r.plan)
  {
    UserRecord(id, name, shopId, "free", None, DefaultLimits, ZeroUsage)
  }

  /** A loaded user document. */
  class User {
    var id: Id
    var name: string
    var shopId: Option<Id>
    var plan: string
    var planExpiry: Option<Time>
    var planLimits: Limits
    var usage: Usage

    function Record(): UserRecord
      reads this
    {
      UserRecord(id, name, shopId, plan, planExpiry, planLimits, usage)
    }

    constructor Load(r: UserRecord)
      ensures Record() == r
    {
      id, name, shopId := r.id, r.name, r.shopId;
      plan, planExpiry, planLimits, usage := r.plan, r.planExpiry, r.planLimits, r.usage;
    }

    /** `updatePlanLimits()`: overwrites the limits with the row of the
        current plan and reads nothing else, so a second call changes nothing. */
    method UpdatePlanLimits()
      modifies this
      ensures Record() == old(Record()).(planLimits := LimitsFor(old(plan)))
    {
      planLimits := LimitsFor(plan);
    }

    /** `resetMonthlyUsage()`: all three counters back to 0, nothing else touched. */
    method ResetMonthlyUsage()
      modifies this
      ensures Record() == old(Record()).(usage := ZeroUsage)
    {
      usage := Usage(0, 0, 0);
    }
  }
}
