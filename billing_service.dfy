/** The billing service: the payments gate in front of the store's transactions. */
module Billing {
  import opened Base
  import opened Uuids
  import opened Tables
  import opened Entities
  import opened Tenancy
  import opened Subscriptions

  /** `findByStoreId`: rows of that store that are not soft-deleted. */
  function LiveTransactionOf(storeId: Uuid): BillingTransaction -> bool
  {
    (b: BillingTransaction) => b.storeId == storeId && !b.deleted
  }

  /**
   * The service body for a bound store: the payments feature is checked
   * first, and only an enabled plan reaches the filtered read.
   */
  function TransactionsFor(transactions: seq<BillingTransaction>, subscriptions: seq<Subscription>,
                           plans: seq<SubscriptionPlan>, storeId: Uuid): (r: Result<seq<BillingTransaction>, Error>)
    ensures r.Success? <==> IsFeatureEnabled(subscriptions, plans, storeId, PaymentsFeature) == Success(true)
    ensures IsFeatureEnabled(subscriptions, plans, storeId, PaymentsFeature) == Success(false) ==>
      r == Failure(BusinessRule("PAYMENTS_NOT_ALLOWED"))
    ensures IsFeatureEnabled(subscriptions, plans, storeId, PaymentsFeature).Failure? ==>
      r == Failure(IsFeatureEnabled(subscriptions, plans, storeId, PaymentsFeature).error)
    ensures r.Success? ==> forall b :: b in r.value <==> b in transactions && b.storeId == storeId && !b.deleted
  {
    var allowed :- IsFeatureEnabled(subscriptions, plans, storeId, PaymentsFeature);
    if !allowed then Failure(BusinessRule("PAYMENTS_NOT_ALLOWED"))
    else Success(Filter(transactions, LiveTransactionOf(storeId)))
  }

  /** `getTransactionsForStore`: the bound store's transactions behind the payments gate; nothing changes. */
  method GetTransactionsForStore(ctx: TenantContext, transactions: Table<BillingTransaction>,
                                 subscriptions: Table<Subscription>, plans: Table<SubscriptionPlan>)
    returns (r: Result<seq<BillingTransaction>, Error>)
    ensures ctx.tenant.None? ==> r == Failure(TenantAccessDenied)
    ensures ctx.tenant.Some? ==> r == TransactionsFor(transactions.rows, subscriptions.rows, plans.rows, ctx.tenant.value)
  {
    var storeId :- ctx.GetTenantId();
    r := TransactionsFor(transactions.rows, subscriptions.rows, plans.rows, storeId);
  }

  /** Transactions are returned only when the resolved plan explicitly enables payments. */
  lemma {:induction false} TransactionsNeedPayments(transactions: seq<BillingTransaction>, subscriptions: seq<Subscription>,
                                                    plans: seq<SubscriptionPlan>, storeId: Uuid)
    requires TransactionsFor(transactions, subscriptions, plans, storeId).Success?
    ensures GetPlanForStore(subscriptions, plans, storeId).Success?
    ensures GetPlanForStore(subscriptions, plans, storeId).value.paymentsEnabled == Some(true)
  {
    assert IsFeatureEnabled(subscriptions, plans, storeId, PaymentsFeature) == Success(true);
  }
}
