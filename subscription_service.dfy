/**
 * Plan resolution and the entitlement gate: decisions over the subscription
 * and plan tables, which these operations only read.
 */
module Subscriptions {
  import opened Base
  import opened Uuids
  import opened Tables
  import opened Entities
  import opened Tenancy

  const FreePlanName: string := "FREE"
  const PaymentsFeature: string := "payments"
  const CustomDomainFeature: string := "custom_domain"

  /** The subscription query: rows of that store that are not soft-deleted. */
  function LiveSubscriptionOf(storeId: Uuid): Subscription -> bool
  {
    (s: Subscription) => s.storeId == storeId && !s.deleted
  }

  /** The plan query: rows with that name. */
  function PlanCalled(name: string): SubscriptionPlan -> bool
  {
    (p: SubscriptionPlan) => p.name == name
  }

  /** No two plans share a name (the registry the loader keeps). */
  predicate UniqueNames(plans: seq<SubscriptionPlan>)
  {
    forall i, j :: 0 <= i < j < |plans| ==> plans[i].name != plans[j].name
  }

  /** `findByStoreId`: the store's live subscription, if any. */
  function FindSubscription(subscriptions: seq<Subscription>, storeId: Uuid): (r: Result<Option<Subscription>, Error>)
    ensures r == Success(None) <==> forall s :: s in subscriptions ==> !(s.storeId == storeId && !s.deleted)
    ensures r.Success? && r.value.Some? ==>
      r.value.value in subscriptions && r.value.value.storeId == storeId && !r.value.value.deleted
    ensures r.Failure? ==> r.error == IncorrectResultSize
    ensures r.Failure? <==> Count(subscriptions, LiveSubscriptionOf(storeId)) > 1
    ensures Count(subscriptions, LiveSubscriptionOf(storeId)) == 1 ==>
      forall s :: s in subscriptions && s.storeId == storeId && !s.deleted ==> r == Success(Some(s))
  {
    FindUnique(subscriptions, LiveSubscriptionOf(storeId))
  }

  /** `findByName` then `orElseThrow`: the plan with that name, or ResourceNotFound. */
  function PlanNamed(plans: seq<SubscriptionPlan>, name: string): (r: Result<SubscriptionPlan, Error>)
    ensures r.Success? ==> r.value in plans && r.value.name == name
    ensures r == Failure(ResourceNotFound("SubscriptionPlan")) <==> forall p :: p in plans ==> p.name != name
    ensures r.Failure? ==> r.error in {ResourceNotFound("SubscriptionPlan"), IncorrectResultSize}
  {
    var found :- FindUnique(plans, PlanCalled(name));
    if found.None? then Failure(ResourceNotFound("SubscriptionPlan")) else Success(found.value)
  }

  /** In a registry with unique names, a lookup finds exactly the plan of that name. */
  lemma {:induction false} PlanNamedUnique(plans: seq<SubscriptionPlan>, i: nat)
    requires UniqueNames(plans) && i < |plans|
    ensures PlanNamed(plans, plans[i].name) == Success(plans[i])
  {
    var keep := PlanCalled(plans[i].name);
    CountIsMatching(plans, keep);
    assert Matching(plans, keep) == {i} by {
      forall j | j in Matching(plans, keep) ensures j == i {
      }
    }
  }

  /**
   * `getPlanForStore`: the plan named by the store's subscription; with no
   * subscription, the FREE plan. A named plan that is missing is
   * ResourceNotFound; FREE is never used in its place.
   */
  function GetPlanForStore(subscriptions: seq<Subscription>, plans: seq<SubscriptionPlan>, storeId: Uuid)
    : (r: Result<SubscriptionPlan, Error>)
    ensures r.Success? ==> r.value in plans
    ensures FindSubscription(subscriptions, storeId) == Success(None) ==> r == PlanNamed(plans, FreePlanName)
    ensures forall s: Subscription :: FindSubscription(subscriptions, storeId) == Success(Some(s)) ==> r == PlanNamed(plans, s.planName)
    ensures FindSubscription(subscriptions, storeId).Failure? ==> r == Failure(IncorrectResultSize)
  {
    var found :- FindSubscription(subscriptions, storeId);
    match found
    case Some(s) => PlanNamed(plans, s.planName)
    case None => PlanNamed(plans, FreePlanName)
  }

  /**
   * The feature switch over a resolved plan: "payments" and "custom_domain"
   * read their flag, where only an explicit true enables; every other key is off.
   */
  function FeatureOf(plan: SubscriptionPlan, featureKey: string): (enabled: bool)
    ensures enabled <==>
      || (featureKey == PaymentsFeature && plan.paymentsEnabled == Some(true))
      || (featureKey == CustomDomainFeature && plan.customDomainEnabled == Some(true))
  {
    if featureKey == PaymentsFeature then plan.paymentsEnabled == Some(true)
    else if featureKey == CustomDomainFeature then plan.customDomainEnabled == Some(true)
    else false
  }

  /** `isFeatureEnabled`: the feature switch over the store's resolved plan. */
  function IsFeatureEnabled(subscriptions: seq<Subscription>, plans: seq<SubscriptionPlan>, storeId: Uuid, featureKey: string)
    : (r: Result<bool, Error>)
    ensures r.Failure? <==> GetPlanForStore(subscriptions, plans, storeId).Failure?
    ensures r.Failure? ==> r.error == GetPlanForStore(subscriptions, plans, storeId).error
    ensures r.Success? ==> r.value == FeatureOf(GetPlanForStore(subscriptions, plans, storeId).value, featureKey)
  {
    var plan :- GetPlanForStore(subscriptions, plans, storeId);
    Success(FeatureOf(plan, featureKey))
  }

  function GetProductLimit(subscriptions: seq<Subscription>, plans: seq<SubscriptionPlan>, storeId: Uuid)
    : (r: Result<Option<int>, Error>)
    ensures r.Failure? <==> GetPlanForStore(subscriptions, plans, storeId).Failure?
    ensures r.Failure? ==> r.error == GetPlanForStore(subscriptions, plans, storeId).error
    ensures r.Success? ==> r.value == GetPlanForStore(subscriptions, plans, storeId).value.productLimit
  {
    var plan :- GetPlanForStore(subscriptions, plans, storeId);
    Success(plan.productLimit)
  }

  function GetStaffLimit(subscriptions: seq<Subscription>, plans: seq<SubscriptionPlan>, storeId: Uuid)
    : (r: Result<Option<int>, Error>)
    ensures r.Failure? <==> GetPlanForStore(subscriptions, plans, storeId).Failure?
    ensures r.Failure? ==> r.error == GetPlanForStore(subscriptions, plans, storeId).error
    ensures r.Success? ==> r.value == GetPlanForStore(subscriptions, plans, storeId).value.staffLimit
  {
    var plan :- GetPlanForStore(subscriptions, plans, storeId);
    Success(plan.staffLimit)
  }

  /**
   * The limit test both assertions share: a null or non-positive limit is
   * unlimited; otherwise LimitExceeded exactly when the current count plus
   * the addition passes the limit, reporting the limit and the current count.
   */
  function CheckLimit(limit: Option<int>, currentCount: int, adding: int): (r: Outcome)
    ensures r.Fail? <==> limit.Some? && limit.value > 0 && currentCount + adding > limit.value
    ensures r.Fail? ==> r.error == LimitExceeded(limit.value, currentCount)
  {
    if limit.Some? && limit.value > 0 && currentCount + adding > limit.value then
      Fail(LimitExceeded(limit.value, currentCount))
    else Pass
  }

  /** `assertCanCreateProducts`: plan resolution errors propagate, then the limit test on the product limit. */
  function AssertCanCreateProducts(subscriptions: seq<Subscription>, plans: seq<SubscriptionPlan>,
                                   storeId: Uuid, currentCount: int, creating: int): (r: Outcome)
    ensures GetPlanForStore(subscriptions, plans, storeId).Failure? ==>
      r == Fail(GetPlanForStore(subscriptions, plans, storeId).error)
    ensures GetPlanForStore(subscriptions, plans, storeId).Success? ==>
      r == CheckLimit(GetPlanForStore(subscriptions, plans, storeId).value.productLimit, currentCount, creating)
  {
    match GetProductLimit(subscriptions, plans, storeId)
    case Failure(e) => Fail(e)
    case Success(limit) => CheckLimit(limit, currentCount, creating)
  }

  /** `assertCanAddStaff`: plan resolution errors propagate, then the limit test on the staff limit. */
  function AssertCanAddStaff(subscriptions: seq<Subscription>, plans: seq<SubscriptionPlan>,
                             storeId: Uuid, currentCount: int, adding: int): (r: Outcome)
    ensures GetPlanForStore(subscriptions, plans, storeId).Failure? ==>
      r == Fail(GetPlanForStore(subscriptions, plans, storeId).error)
    ensures GetPlanForStore(subscriptions, plans, storeId).Success? ==>
      r == CheckLimit(GetPlanForStore(subscriptions, plans, storeId).value.staffLimit, currentCount, adding)
  {
    match GetStaffLimit(subscriptions, plans, storeId)
    case Failure(e) => Fail(e)
    case Success(limit) => CheckLimit(limit, currentCount, adding)
  }

  /** A larger count is refused whenever a smaller one is: the gate is monotone in the count. */
  lemma CheckLimitMonotone(limit: Option<int>, smaller: int, larger: int, adding: int)
    requires smaller <= larger
    ensures CheckLimit(limit, smaller, adding).Fail? ==> CheckLimit(limit, larger, adding).Fail?
  {
  }

  /**
   * What the gate buys its callers: after a passing check with a positive
   * limit, inserting one row keeps the counted rows within the limit.
   */
  lemma {:induction false} GatedInsertStaysWithinLimit<T>(rows: seq<T>, counted: T -> bool, limit: int, row: T)
    requires limit > 0
    requires CheckLimit(Some(limit), Count(rows, counted), 1) == Pass
    ensures Count(rows + [row], counted) <= limit
  {
    CountAppend(rows, row, counted);
  }

  /**
   * `getSubscriptionForStore`: the bound tenant's live subscription;
   * TenantAccessDenied with nothing bound, ResourceNotFound with no subscription.
   */
  method GetSubscriptionForStore(ctx: TenantContext, subscriptions: Table<Subscription>)
    returns (r: Result<Subscription, Error>)
    ensures ctx.tenant.None? ==> r == Failure(TenantAccessDenied)
    ensures ctx.tenant.Some? ==> match FindSubscription(subscriptions.rows, ctx.tenant.value)
      case Success(None) => r == Failure(ResourceNotFound("Subscription"))
      case Success(Some(s)) => r == Success(s)
      case Failure(e) => r == Failure(e)
    ensures r.Success? ==>
      ctx.tenant.Some? && r.value in subscriptions.rows && r.value.storeId == ctx.tenant.value && !r.value.deleted
  {
    var storeId :- ctx.GetTenantId();
    var found :- FindSubscription(subscriptions.rows, storeId);
    if found.None? {
      return Failure(ResourceNotFound("Subscription"));
    }
    r := Success(found.value);
  }
}
