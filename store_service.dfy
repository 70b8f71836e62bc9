/** The store service: lookup of live stores and the custom-domain gate on update. */
module Stores {
  import opened Base
  import opened Uuids
  import opened Tables
  import opened Entities
  import opened Subscriptions

  datatype StoreDto = StoreDto(id: Uuid, name: string, slug: string)

  function ToStoreDto(s: Store): (d: StoreDto)
    ensures d.id == s.id && d.name == s.name && d.slug == s.slug
  {
    StoreDto(s.id, s.name, s.slug)
  }

  /** The store repository's `findById`, overridden to skip soft-deleted stores. */
  function LiveStoreWithId(id: Uuid): Store -> bool
  {
    (s: Store) => s.id == id && !s.deleted
  }

  /** The live store of that id, or ResourceNotFound for a missing or soft-deleted one. */
  function FindStore(rows: seq<Store>, id: Uuid): (r: Result<Store, Error>)
    ensures r.Success? ==> r.value in rows && r.value.id == id && !r.value.deleted
    ensures r == Failure(ResourceNotFound("Store")) <==> forall s :: s in rows ==> !(s.id == id && !s.deleted)
    ensures r.Failure? ==> r.error in {ResourceNotFound("Store"), IncorrectResultSize}
    ensures r == Failure(IncorrectResultSize) <==> Count(rows, LiveStoreWithId(id)) > 1
    ensures Count(rows, LiveStoreWithId(id)) == 1 ==>
      forall s :: s in rows && s.id == id && !s.deleted ==> r == Success(s)
  {
    var found :- FindUnique(rows, LiveStoreWithId(id));
    if found.None? then Failure(ResourceNotFound("Store")) else Success(found.value)
  }

  /** `getStoreById`: no tenant check; any live store can be read by id. */
  function GetStoreById(rows: seq<Store>, id: Uuid): (r: Result<StoreDto, Error>)
    ensures r.Success? <==> FindStore(rows, id).Success?
    ensures r.Success? ==> exists s :: s in rows && s.id == id && !s.deleted && r.value == ToStoreDto(s)
    ensures r.Failure? ==> r.error == FindStore(rows, id).error
  {
    var store :- FindStore(rows, id);
    Success(ToStoreDto(store))
  }

  /**
   * The decision `updateStore` makes: after the lookup, a request asking for
   * a custom domain is checked against the plan of the store named by the
   * argument (not the tenant cell); a plan without the feature is
   * CUSTOM_DOMAIN_NOT_ALLOWED.
   */
  function UpdateOutcome(stores: seq<Store>, subscriptions: seq<Subscription>, plans: seq<SubscriptionPlan>,
                       storeId: Uuid, customDomain: Option<bool>): (r: Result<StoreDto, Error>)
    ensures FindStore(stores, storeId).Failure? ==> r == Failure(FindStore(stores, storeId).error)
    ensures FindStore(stores, storeId).Success? && customDomain != Some(true) ==>
      r == Success(ToStoreDto(FindStore(stores, storeId).value))
    ensures FindStore(stores, storeId).Success? && customDomain == Some(true) ==>
      match IsFeatureEnabled(subscriptions, plans, storeId, CustomDomainFeature)
      case Failure(e) => r == Failure(e)
      case Success(false) => r == Failure(BusinessRule("CUSTOM_DOMAIN_NOT_ALLOWED"))
      case Success(true) => r == Success(ToStoreDto(FindStore(stores, storeId).value))
  {
    var store :- FindStore(stores, storeId);
    if customDomain == Some(true) then
      var allowed :- IsFeatureEnabled(subscriptions, plans, storeId, CustomDomainFeature);
      if !allowed then Failure(BusinessRule("CUSTOM_DOMAIN_NOT_ALLOWED")) else Success(ToStoreDto(store))
    else Success(ToStoreDto(store))
  }

  /**
   * `updateStore`: decides as `UpdateOutcome` and, when it succeeds, saves the
   * loaded store back without applying any request field, so the rows stay
   * as they were.
   */
  method UpdateStore(stores: Table<Store>, subscriptions: Table<Subscription>, plans: Table<SubscriptionPlan>,
                     storeId: Uuid, customDomain: Option<bool>) returns (r: Result<StoreDto, Error>)
    modifies stores
    ensures r == UpdateOutcome(old(stores.rows), subscriptions.rows, plans.rows, storeId, customDomain)
    ensures stores.rows == old(stores.rows)
  {
    r := UpdateOutcome(stores.rows, subscriptions.rows, plans.rows, storeId, customDomain);
    if r.Success? {
      var k := IndexOf(stores.rows, LiveStoreWithId(storeId));
      assert FindStore(stores.rows, storeId).value in stores.rows;
      stores.Replace(k.value, stores.rows[k.value]);
    }
  }

  /** A custom-domain request succeeds only for a store whose resolved plan carries the feature. */
  lemma {:induction false} CustomDomainNeedsPlan(stores: seq<Store>, subscriptions: seq<Subscription>,
                                                 plans: seq<SubscriptionPlan>, storeId: Uuid)
    requires UpdateOutcome(stores, subscriptions, plans, storeId, Some(true)).Success?
    ensures GetPlanForStore(subscriptions, plans, storeId).Success?
    ensures GetPlanForStore(subscriptions, plans, storeId).value.customDomainEnabled == Some(true)
  {
    var r := IsFeatureEnabled(subscriptions, plans, storeId, CustomDomainFeature);
    assert r == Success(true);
  }
}
