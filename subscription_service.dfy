/** The subscription rules: the four plans, the tier a team size calls for, the status
    labels, which statuses give access, and the lookup of a company's subscription. */
module SubscriptionService {
  import opened Wrappers
  import opened Text

  datatype Tier = Basic | Plus | Pro | Enterprise

  /** The order of the tiers, smallest plan first. */
  function Rank(t: Tier): nat
  {
    match t
    case Basic => 0
    case Plus => 1
    case Pro => 2
    case Enterprise => 3
  }

  /** A plan; `price` and `maxMembers` are null for the enterprise plan. */
  datatype Plan = Plan(
    tier: Tier,
    name: string,
    price: Option<int>,
    memberRange: string,
    minMembers: int,
    maxMembers: Option<int>,
    features: seq<string>,
    contactSupport: bool)

  const BASIC_PLAN: Plan := Plan(Basic, "Basic", Some(79), "1 login", 1, Some(1),
    ["1 team member", "Unlimited inspections", "PDF report generation", "Email reports to clients", "Offline support"],
    false)

  const PLUS_PLAN: Plan := Plan(Plus, "Plus", Some(99), "2-9 logins", 2, Some(9),
    ["Up to 9 team members", "Unlimited inspections", "PDF report generation", "Email reports to clients", "Offline support"],
    false)

  const PRO_PLAN: Plan := Plan(Pro, "Pro", Some(119), "10-19 logins", 10, Some(19),
    ["Up to 19 team members", "Unlimited inspections", "PDF report generation", "Email reports to clients",
     "Offline support", "Priority support"],
    false)

  const ENTERPRISE_PLAN: Plan := Plan(Enterprise, "Enterprise", None, "20+ logins", 20, None,
    ["Unlimited team members", "Unlimited inspections", "PDF report generation", "Email reports to clients",
     "Offline support", "Priority support", "Custom integrations", "Dedicated account manager"],
    true)

  /** `getPlanForTier`: the entry of `SUBSCRIPTION_PLANS`. */
  function PlanForTier(t: Tier): (p: Plan)
    ensures p.tier == t
  {
    match t
    case Basic => BASIC_PLAN
    case Plus => PLUS_PLAN
    case Pro => PRO_PLAN
    case Enterprise => ENTERPRISE_PLAN
  }

  /** Whether a team of `count` members fits a plan's member range. */
  predicate InRange(p: Plan, count: int)
  {
    p.minMembers <= count && (p.maxMembers.None? || count <= p.maxMembers.value)
  }

  /** `getTierForMemberCount`. */
  function TierForMemberCount(count: int): (t: Tier)
    ensures count >= 20 <==> t == Enterprise
    ensures 10 <= count < 20 <==> t == Pro
    ensures 2 <= count < 10 <==> t == Plus
    ensures count < 2 <==> t == Basic
  {
    if count >= 20 then Enterprise
    else if count >= 10 then Pro
    else if count >= 2 then Plus
    else Basic
  }

  /** A bigger team never calls for a smaller plan. */
  lemma TierMonotone(a: int, b: int)
    requires a <= b
    ensures Rank(TierForMemberCount(a)) <= Rank(TierForMemberCount(b))
  {
  }

  /** For a team of at least one member, the chosen plan's range holds the team, and it
      is the only plan whose range does: the ranges do not overlap. */
  lemma ChosenPlanFits(count: int, t: Tier)
    requires count >= 1
    ensures InRange(PlanForTier(TierForMemberCount(count)), count)
    ensures InRange(PlanForTier(t), count) <==> t == TierForMemberCount(count)
  {
  }

  /** The member ranges are contiguous: 1–1, 2–9, 10–19 and 20 upwards, each plan
      starting one above where the previous one ends. */
  lemma RangesContiguous()
    ensures BASIC_PLAN.minMembers == 1
    ensures BASIC_PLAN.maxMembers == Some(BASIC_PLAN.minMembers)
    ensures PLUS_PLAN.minMembers == BASIC_PLAN.maxMembers.value + 1
    ensures PRO_PLAN.minMembers == PLUS_PLAN.maxMembers.value + 1
    ensures ENTERPRISE_PLAN.minMembers == PRO_PLAN.maxMembers.value + 1
    ensures ENTERPRISE_PLAN.maxMembers.None?
    ensures forall t: Tier :: PlanForTier(t).minMembers >= 1
  {
  }

  /** Plans of a higher tier start at more members. */
  lemma RangesOrdered(s: Tier, t: Tier)
    requires Rank(s) < Rank(t)
    ensures PlanForTier(s).maxMembers.Some? && PlanForTier(s).maxMembers.value < PlanForTier(t).minMembers
  {
  }

  // ---------------------------------------------------------------- statuses

  /** What `formatStatus` returns: a badge, or, for an inherited key, the built-in
      `Object.prototype[name]`, which has none of the badge's fields. */
  datatype StatusBadge = StatusBadge(text: string, color: string, bgColor: string) | InheritedMember(name: string)

  /** `formatStatus`: a fixed badge for each known status, the inherited built-in for a
      key of `Object.prototype`, and for anything else a grey badge showing the raw
      status. */
  function FormatStatus(status: string): (b: StatusBadge)
    ensures (status !in {"active", "past_due", "canceled", "incomplete", "incomplete_expired", "trialing", "unpaid"} &&
             !InheritedKey(status)) ==>
      b == StatusBadge(status, "#757575", "#F5F5F5")
    ensures InheritedKey(status) ==> b == InheritedMember(status)
  {
    if status == "active" then StatusBadge("Active", "#2E7D32", "#E8F5E9")
    else if status == "past_due" then StatusBadge("Past Due", "#C62828", "#FFEBEE")
    else if status == "canceled" then StatusBadge("Canceled", "#757575", "#F5F5F5")
    else if status == "incomplete" then StatusBadge("Incomplete", "#F57C00", "#FFF3E0")
    else if status == "incomplete_expired" then StatusBadge("Expired", "#757575", "#F5F5F5")
    else if status == "trialing" then StatusBadge("Trial", "#1565C0", "#E3F2FD")
    else if status == "unpaid" then StatusBadge("Unpaid", "#C62828", "#FFEBEE")
    else if InheritedKey(status) then InheritedMember(status)
    else StatusBadge(status, "#757575", "#F5F5F5")
  }

  /** The seven known statuses have seven different labels, none of them empty. */
  lemma StatusLabelsDistinct(a: string, b: string)
    requires a in {"active", "past_due", "canceled", "incomplete", "incomplete_expired", "trialing", "unpaid"}
    requires b in {"active", "past_due", "canceled", "incomplete", "incomplete_expired", "trialing", "unpaid"}
    ensures FormatStatus(a).text != ""
    ensures FormatStatus(a).text == FormatStatus(b).text <==> a == b
  {
  }

  /** `canAccessFeatures`: exactly the active, trialing and past-due subscriptions. */
  predicate CanAccessFeatures(status: Option<string>)
  {
    status.Some? && status.value != "" && status.value in ["active", "trialing", "past_due"]
  }

  lemma CanAccessFeaturesExactly(status: Option<string>)
    ensures CanAccessFeatures(status) <==>
      status == Some("active") || status == Some("trialing") || status == Some("past_due")
  {
  }

  // ---------------------------------------------------------------- the company's subscription

  /** A row of `company_subscriptions` (Stripe identifiers and period fields left out). */
  datatype CompanySubscription = CompanySubscription(
    id: string,
    companyId: string,
    status: string,
    tier: Tier,
    cancelAtPeriodEnd: bool,
    currentMemberCount: int)

  /** `getCompanySubscription`: a company without a subscription row gets neither data
      nor an error; other errors pass their message on. */
  function GetCompanySubscription(response: DbResponse<CompanySubscription>): (r: ApiResponse<CompanySubscription>)
    ensures response.error.Some? && response.error.value.code == NO_ROWS ==> r == ApiResponse(None, None)
    ensures response.error.Some? && response.error.value.code != NO_ROWS ==> r == Err(response.error.value.message)
    ensures response.error.None? ==> r == ApiResponse(response.data, None)
  {
    if response.error.Some? then
      if response.error.value.code == NO_ROWS then ApiResponse(None, None)
      else Err(response.error.value.message)
    else ApiResponse(response.data, None)
  }
}
