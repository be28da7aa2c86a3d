/** Plan resolution and the allow-list checks of the usage utilities: which
    plan a user is on, and whether that plan permits a model or a connector.
    The subscription and plan tables are passed in as the rows the queries
    would read. */
module Entitlement {
  import opened Results
  import Constants

  /** The subscription fields the plan query reads. */
  datatype Subscription = Subscription(id: int, userId: string, status: string, planId: int)

  datatype Plan = Plan(id: int, name: string)

  /** Statuses that count as an active subscription. */
  const ActiveStatuses: set<string> := {"active", "trialing", "past_due"}

  const LowestPlan := "basic"
  const MultipleSubscriptionsMsg := "Multiple active subscriptions found for user."
  const PlanNotFoundMsg := "Plan not found for active subscription."
  const UpgradeModelMsg := "Please upgrade to access this model."
  const UpgradeMcpMsg := "Please upgrade to access this MCP."

  /** Text of the `KeyError` a missing dict key raises (`str` of it is the
      key's `repr`; escaping inside the quotes is not modelled). */
  function KeyErrorMsg(key: string): string {
    "'" + key + "'"
  }

  /** Whether a subscription row is one of the user's active ones. */
  predicate ActiveFor(s: Subscription, user: string) {
    s.userId == user && s.status in ActiveStatuses
  }

  /** The user's active subscriptions, in table order: every active row of
      the user, as many times as it occurs, and nothing else. */
  function ActiveSubscriptions(subs: seq<Subscription>, user: string): (r: seq<Subscription>)
    ensures forall s :: s in r <==> s in subs && ActiveFor(s, user)
    ensures forall s :: multiset(r)[s] == if ActiveFor(s, user) then multiset(subs)[s] else 0
    ensures |r| <= |subs|
  {
    if |subs| == 0 then []
    else
      var rest := ActiveSubscriptions(subs[1..], user);
      assert subs == [subs[0]] + subs[1..];
      if ActiveFor(subs[0], user) then [subs[0]] + rest else rest
  }

  /** Without active rows there are no active subscriptions. */
  lemma {:induction false} NoneActive(subs: seq<Subscription>, user: string)
    requires forall j :: 0 <= j < |subs| ==> !ActiveFor(subs[j], user)
    ensures ActiveSubscriptions(subs, user) == []
    decreases |subs|
  {
    if |subs| > 0 {
      NoneActive(subs[1..], user);
    }
  }

  /** A user whose only active row is row `i` has exactly that one active
      subscription. */
  lemma {:induction false} OnlyActive(subs: seq<Subscription>, user: string, i: nat)
    requires i < |subs| && ActiveFor(subs[i], user)
    requires forall j :: 0 <= j < |subs| && j != i ==> !ActiveFor(subs[j], user)
    ensures ActiveSubscriptions(subs, user) == [subs[i]]
    decreases |subs|
  {
    assert subs == [subs[0]] + subs[1..];
    if i == 0 {
      NoneActive(subs[1..], user);
    } else {
      OnlyActive(subs[1..], user, i - 1);
    }
  }

  /** Index of the first plan row with the given id, or `|plans|`. */
  function FirstPlanIndex(plans: seq<Plan>, id: int): (i: nat)
    ensures i <= |plans|
    ensures i < |plans| ==> plans[i].id == id
    ensures forall j :: 0 <= j < i ==> plans[j].id != id
    decreases |plans|
  {
    if |plans| == 0 then 0
    else if plans[0].id == id then 0
    else 1 + FirstPlanIndex(plans[1..], id)
  }

  /** The first plan row with the given id (`.first()`). */
  function FindPlan(plans: seq<Plan>, id: int): (r: Option<Plan>)
    ensures r.Some? <==> exists p :: p in plans && p.id == id
    ensures r.Some? ==> r.value in plans && r.value.id == id
    ensures r.Some? ==> exists i :: (0 <= i < |plans| && plans[i] == r.value &&
      forall j :: 0 <= j < i ==> plans[j].id != id)
  {
    var i := FirstPlanIndex(plans, id);
    if i == |plans| then None else Some(plans[i])
  }

  /** Plan resolution from the user's active subscriptions. */
  function ResolvePlan(active: seq<Subscription>, plans: seq<Plan>): (r: Result<string>)
    ensures |active| == 0 ==> r == Ok(LowestPlan)
    ensures |active| > 1 ==> r == Err(MultipleSubscriptionsMsg)
    ensures |active| == 1 ==>
      && (r.Ok? <==> exists p :: p in plans && p.id == active[0].planId)
      && (r.Err? ==> r.message == PlanNotFoundMsg)
      && (r.Ok? ==> exists p :: p in plans && p.id == active[0].planId && p.name == r.value)
  {
    if |active| == 0 then Ok(LowestPlan)
    else if |active| > 1 then Err(MultipleSubscriptionsMsg)
    else
      match FindPlan(plans, active[0].planId)
      case None => Err(PlanNotFoundMsg)
      case Some(p) => Ok(p.name)
  }

  /** `get_active_subscription_plan_name`. */
  function ActivePlanName(subs: seq<Subscription>, plans: seq<Plan>, user: string): Result<string> {
    ResolvePlan(ActiveSubscriptions(subs, user), plans)
  }

  /** A user with two active subscriptions is never assigned a plan, whatever
      the plans are; a user without any is on the lowest plan. */
  lemma {:induction false} PlanResolutionNeverGuesses(subs: seq<Subscription>, plans: seq<Plan>, user: string,
                                                      s1: Subscription, s2: Subscription)
    requires s1 in subs && s2 in subs && s1 != s2
    requires s1.userId == user && s2.userId == user
    requires s1.status in ActiveStatuses && s2.status in ActiveStatuses
    ensures ActivePlanName(subs, plans, user) == Err(MultipleSubscriptionsMsg)
  {
    var active := ActiveSubscriptions(subs, user);
    assert s1 in active && s2 in active;
    var i :| 0 <= i < |active| && active[i] == s1;
    var j :| 0 <= j < |active| && active[j] == s2;
    assert i != j;
    assert |active| > 1;
  }

  /** A user with exactly one active subscription is on that subscription's
      plan when the plan row exists, and gets the plan-not-found error when it
      does not. */
  lemma SingleActivePlan(subs: seq<Subscription>, plans: seq<Plan>, user: string, i: nat)
    requires i < |subs| && ActiveFor(subs[i], user)
    requires forall j :: 0 <= j < |subs| && j != i ==> !ActiveFor(subs[j], user)
    ensures FindPlan(plans, subs[i].planId).Some? ==>
      ActivePlanName(subs, plans, user) == Ok(FindPlan(plans, subs[i].planId).value.name)
    ensures FindPlan(plans, subs[i].planId).None? ==> ActivePlanName(subs, plans, user) == Err(PlanNotFoundMsg)
  {
    OnlyActive(subs, user, i);
  }

  /** A subscription whose status is not one of the active ones never affects
      the plan: dropping it changes nothing. */
  lemma {:induction false} InactiveIgnored(subs: seq<Subscription>, plans: seq<Plan>, user: string, s: Subscription)
    requires s.status !in ActiveStatuses || s.userId != user
    ensures ActivePlanName([s] + subs, plans, user) == ActivePlanName(subs, plans, user)
  {
    assert ([s] + subs)[1..] == subs;
  }

  /** `check_allowed_model` for an already resolved plan: true exactly when the
      plan's allow-list contains the model; an unknown plan name is a
      `KeyError`. */
  function CheckAllowedModel(llm: string, plan: string): (r: Result<bool>)
    ensures plan !in Constants.ModelsPassport ==> r == Err(KeyErrorMsg(plan))
    ensures plan in Constants.ModelsPassport ==>
      && (r == Ok(true) <==> llm in Constants.ModelsPassport[plan])
      && (r.Ok? || r == Err(UpgradeModelMsg))
  {
    if plan !in Constants.ModelsPassport then Err(KeyErrorMsg(plan))
    else if llm !in Constants.ModelsPassport[plan] then Err(UpgradeModelMsg)
    else Ok(true)
  }

  /** `check_allowed_mcps` for an already resolved plan. */
  function CheckAllowedMcp(mcpId: string, plan: string): (r: Result<bool>)
    ensures plan !in Constants.McpsPassport ==> r == Err(KeyErrorMsg(plan))
    ensures plan in Constants.McpsPassport ==>
      && (r == Ok(true) <==> mcpId in Constants.McpsPassport[plan])
      && (r.Ok? || r == Err(UpgradeMcpMsg))
  {
    if plan !in Constants.McpsPassport then Err(KeyErrorMsg(plan))
    else if mcpId !in Constants.McpsPassport[plan] then Err(UpgradeMcpMsg)
    else Ok(true)
  }

  /** `check_allowed_model(llm=..., user_id=...)`: resolve the plan, then check. */
  function CheckAllowedModelForUser(llm: string, user: string, subs: seq<Subscription>, plans: seq<Plan>): (r: Result<bool>)
    ensures r.Ok? ==> (r.value && ActivePlanName(subs, plans, user).Ok?
      && ActivePlanName(subs, plans, user).value in Constants.ModelsPassport
      && llm in Constants.ModelsPassport[ActivePlanName(subs, plans, user).value])
    ensures ActivePlanName(subs, plans, user).Ok? && ActivePlanName(subs, plans, user).value in Constants.ModelsPassport ==>
      (r == Ok(true) <==> llm in Constants.ModelsPassport[ActivePlanName(subs, plans, user).value])
    ensures ActivePlanName(subs, plans, user).Err? ==> r == Err(ActivePlanName(subs, plans, user).message)
  {
    var plan :- ActivePlanName(subs, plans, user);
    CheckAllowedModel(llm, plan)
  }

  /** `check_allowed_mcps(mcp_id=..., user_id=...)`. */
  function CheckAllowedMcpForUser(mcpId: string, user: string, subs: seq<Subscription>, plans: seq<Plan>): (r: Result<bool>)
    ensures r.Ok? ==> (r.value && ActivePlanName(subs, plans, user).Ok?
      && ActivePlanName(subs, plans, user).value in Constants.McpsPassport
      && mcpId in Constants.McpsPassport[ActivePlanName(subs, plans, user).value])
    ensures ActivePlanName(subs, plans, user).Ok? && ActivePlanName(subs, plans, user).value in Constants.McpsPassport ==>
      (r == Ok(true) <==> mcpId in Constants.McpsPassport[ActivePlanName(subs, plans, user).value])
    ensures ActivePlanName(subs, plans, user).Err? ==> r == Err(ActivePlanName(subs, plans, user).message)
  {
    var plan :- ActivePlanName(subs, plans, user);
    CheckAllowedMcp(mcpId, plan)
  }

  /** The tier order. */
  function Rank(plan: string): int {
    if plan == "basic" then 0 else if plan == "pro" then 1 else 2
  }

  /** Entitlement is monotone in the tier: whatever a plan permits, every
      higher plan permits too. */
  lemma {:induction false} HigherTierKeepsAccess(llm: string, mcpId: string, low: string, high: string)
    requires low in Constants.PlanNames && high in Constants.PlanNames && Rank(low) <= Rank(high)
    ensures CheckAllowedModel(llm, low).Ok? ==> CheckAllowedModel(llm, high).Ok?
    ensures CheckAllowedMcp(mcpId, low).Ok? ==> CheckAllowedMcp(mcpId, high).Ok?
  {
    Constants.TiersCumulative();
    Constants.PassportKeys();
  }
}
