/**
 * Bootstrap seeding: insert-if-absent of the four plans, then a default store
 * with a FREE subscription when there is no store, then a default owner (and
 * a manager row in the first store) when there is no user. The run is not
 * one transaction: every save stands even if a later step fails.
 */
module Startup {
  import opened Base
  import opened Uuids
  import opened Tables
  import opened Entities
  import opened Users
  import opened Subscriptions
  import opened StaffServices

  const FreePlan := SubscriptionPlan("FREE", "Free tier with basic features", Some(20), Some(1), Some(false), Some(false), 0.0)
  const StarterPlan := SubscriptionPlan("STARTER", "Starter plan", Some(100), Some(3), Some(true), Some(false), 19.0)
  const ProPlan := SubscriptionPlan("PRO", "Professional plan", Some(1000), Some(10), Some(true), Some(true), 99.0)
  const EnterprisePlan := SubscriptionPlan("ENTERPRISE", "Enterprise plan - unlimited products & staff",
                                           Some(0), Some(0), Some(true), Some(true), 499.0)

  /** The plans `seedPlans` creates, in the order it creates them. */
  const DefaultPlans: seq<SubscriptionPlan> := [FreePlan, StarterPlan, ProPlan, EnterprisePlan]

  const DefaultPassword: string := "Password123!"

  /** The ids persistence generates for the rows seeding may save. */
  datatype SeedIds = SeedIds(store: Uuid, subscription: Uuid, user: Uuid, staff: Uuid)

  /** The five tables seeding touches. */
  datatype Snapshot = Snapshot(
    plans: seq<SubscriptionPlan>,
    stores: seq<Store>,
    subscriptions: seq<Subscription>,
    users: seq<User>,
    staff: seq<Staff>)

  function DefaultStore(id: Uuid): Store
  {
    Store(id, "Default Store", "default-store", false)
  }

  function DefaultSubscription(id: Uuid, storeId: Uuid): Subscription
  {
    Subscription(id, storeId, FreePlanName, SubscriptionStatus.Active, 0.0, true, false)
  }

  function DefaultUser(id: Uuid, encode: string -> string): User
  {
    User(id, "admin@cartwave.local", encode(DefaultPassword), UserRole.BusinessOwner, UserStatus.Active, false)
  }

  function DefaultStaff(id: Uuid, userId: Uuid, storeId: Uuid): Staff
  {
    Entities.Staff(id, userId, storeId, Manager, StaffStatus.Active, false)
  }

  /**
   * `createIfMissing`: a plan whose name is already present is left as it is;
   * an absent one is appended; a name held by several rows makes the lookup throw.
   */
  function AddPlanIfMissing(plans: seq<SubscriptionPlan>, plan: SubscriptionPlan): (r: Result<seq<SubscriptionPlan>, Error>)
    ensures r.Failure? <==> Count(plans, PlanCalled(plan.name)) > 1
    ensures (exists p :: p in plans && p.name == plan.name) && r.Success? ==> r.value == plans
    ensures (forall p :: p in plans ==> p.name != plan.name) ==> r == Success(plans + [plan])
  {
    var existing :- FindUnique(plans, PlanCalled(plan.name));
    if existing.Some? then Success(plans) else Success(plans + [plan])
  }

  /** The plan table after creating each of `todo` in turn, and whether every step passed. */
  function AddPlans(plans: seq<SubscriptionPlan>, todo: seq<SubscriptionPlan>): (seq<SubscriptionPlan>, Outcome)
    decreases |todo|
  {
    if todo == [] then (plans, Pass)
    else match AddPlanIfMissing(plans, todo[0])
      case Failure(e) => (plans, Fail(e))
      case Success(next) => AddPlans(next, todo[1..])
  }

  /** `seedDefaultStoreAndSubscription`: only an empty store table gets the default store and its FREE subscription. */
  function SeedStore(s: Snapshot, ids: SeedIds): Snapshot
  {
    if |s.stores| == 0 then
      s.(stores := s.stores + [DefaultStore(ids.store)],
         subscriptions := s.subscriptions + [DefaultSubscription(ids.subscription, ids.store)])
    else s
  }

  /**
   * `seedDefaultUserAndStaff`: only an empty user table gets the default
   * owner, who becomes manager of the first store in `findAll` order (deleted
   * or not) when there is one.
   */
  function SeedUser(s: Snapshot, ids: SeedIds, encode: string -> string): Snapshot
  {
    if |s.users| == 0 then
      s.(users := s.users + [DefaultUser(ids.user, encode)],
         staff := if |s.stores| > 0 then s.staff + [DefaultStaff(ids.staff, ids.user, s.stores[0].id)] else s.staff)
    else s
  }

  /** `run`: the three steps in order; a failing plan step ends the run with what it had saved. */
  function Seed(s: Snapshot, ids: SeedIds, encode: string -> string): (Snapshot, Outcome)
  {
    var (plans, outcome) := AddPlans(s.plans, DefaultPlans);
    if outcome.Fail? then (s.(plans := plans), outcome)
    else (SeedUser(SeedStore(s.(plans := plans), ids), ids, encode), Pass)
  }

  /** No two of `todo` share a name. */
  predicate DistinctNames(todo: seq<SubscriptionPlan>)
  {
    forall i, j :: 0 <= i < j < |todo| ==> todo[i].name != todo[j].name
  }

  /** A created plan's name is then held by exactly one row; other names keep their counts. */
  lemma {:induction false} AddPlanCounts(plans: seq<SubscriptionPlan>, plan: SubscriptionPlan, name: string)
    requires AddPlanIfMissing(plans, plan).Success?
    ensures Count(AddPlanIfMissing(plans, plan).value, PlanCalled(plan.name)) == 1
    ensures name != plan.name ==>
      Count(AddPlanIfMissing(plans, plan).value, PlanCalled(name)) == Count(plans, PlanCalled(name))
  {
    if forall p :: p in plans ==> p.name != plan.name {
      CountNone(plans, PlanCalled(plan.name));
      CountAppend(plans, plan, PlanCalled(plan.name));
      CountAppend(plans, plan, PlanCalled(name));
    }
  }

  /** After a passing run of `todo`, each of its names is held by exactly one row. */
  lemma {:induction false} AddPlansCounts(plans: seq<SubscriptionPlan>, todo: seq<SubscriptionPlan>, name: string)
    requires DistinctNames(todo)
    requires AddPlans(plans, todo).1 == Pass
    ensures (exists j :: 0 <= j < |todo| && todo[j].name == name) ==> Count(AddPlans(plans, todo).0, PlanCalled(name)) == 1
    ensures (forall j :: 0 <= j < |todo| ==> todo[j].name != name) ==>
      Count(AddPlans(plans, todo).0, PlanCalled(name)) == Count(plans, PlanCalled(name))
    decreases |todo|
  {
    if todo != [] {
      var next := AddPlanIfMissing(plans, todo[0]).value;
      AddPlansCounts(next, todo[1..], name);
      AddPlanCounts(plans, todo[0], name);
      if name == todo[0].name {
        assert forall j :: 0 <= j < |todo[1..]| ==> todo[1..][j].name != name by {
          forall j | 0 <= j < |todo[1..]| ensures todo[1..][j].name != name {
            assert todo[1..][j] == todo[j + 1];
          }
        }
      } else if exists j :: 0 <= j < |todo| && todo[j].name == name {
        var j :| 0 <= j < |todo| && todo[j].name == name;
        assert todo[1..][j - 1] == todo[j];
      } else {
        assert forall j :: 0 <= j < |todo[1..]| ==> todo[1..][j] == todo[j + 1];
      }
    }
  }

  /** When every name of `todo` is held by exactly one row, creating them again changes nothing. */
  lemma {:induction false} AddPlansPresent(plans: seq<SubscriptionPlan>, todo: seq<SubscriptionPlan>)
    requires forall j :: 0 <= j < |todo| ==> Count(plans, PlanCalled(todo[j].name)) == 1
    ensures AddPlans(plans, todo) == (plans, Pass)
    decreases |todo|
  {
    if todo != [] {
      assert Count(plans, PlanCalled(todo[0].name)) == 1;
      assert AddPlanIfMissing(plans, todo[0]) == Success(plans);
      AddPlansPresent(plans, todo[1..]);
    }
  }

  /** Seeding twice leaves the tables as seeding once, whatever ids the second run would use. */
  lemma {:induction false} SeedIdempotent(s: Snapshot, ids: SeedIds, ids2: SeedIds, encode: string -> string, encode2: string -> string)
    requires Seed(s, ids, encode).1 == Pass
    ensures Seed(Seed(s, ids, encode).0, ids2, encode2) == (Seed(s, ids, encode).0, Pass)
  {
    var t := Seed(s, ids, encode).0;
    forall j | 0 <= j < |DefaultPlans| ensures Count(t.plans, PlanCalled(DefaultPlans[j].name)) == 1 {
      AddPlansCounts(s.plans, DefaultPlans, DefaultPlans[j].name);
    }
    AddPlansPresent(t.plans, DefaultPlans);
  }

  /** An empty plan table receives the four plans, in order. */
  lemma {:induction false} SeedPlansOnEmpty()
    ensures AddPlans([], DefaultPlans) == (DefaultPlans, Pass)
  {
    var p1 := [FreePlan];
    var p2 := [FreePlan, StarterPlan];
    var p3 := [FreePlan, StarterPlan, ProPlan];
    AddToPlansWithout([], FreePlan);
    AddToPlansWithout(p1, StarterPlan);
    AddToPlansWithout(p2, ProPlan);
    AddToPlansWithout(p3, EnterprisePlan);
    assert [] + [FreePlan] == p1 && p1 + [StarterPlan] == p2 && p2 + [ProPlan] == p3 && p3 + [EnterprisePlan] == DefaultPlans;
    assert AddPlans(DefaultPlans, []) == (DefaultPlans, Pass);
    assert AddPlans(p3, [EnterprisePlan]) == (DefaultPlans, Pass) by {
      assert [EnterprisePlan][1..] == [];
    }
    assert AddPlans(p2, [ProPlan, EnterprisePlan]) == (DefaultPlans, Pass) by {
      assert [ProPlan, EnterprisePlan][1..] == [EnterprisePlan];
    }
    assert AddPlans(p1, [StarterPlan, ProPlan, EnterprisePlan]) == (DefaultPlans, Pass) by {
      assert [StarterPlan, ProPlan, EnterprisePlan][1..] == [ProPlan, EnterprisePlan];
    }
    assert DefaultPlans[1..] == [StarterPlan, ProPlan, EnterprisePlan];
  }

  /** Each seeding step on the plans before it appends its plan. */
  lemma {:induction false} AddToPlansWithout(before: seq<SubscriptionPlan>, plan: SubscriptionPlan)
    requires (before, plan) in {([], FreePlan), ([FreePlan], StarterPlan), ([FreePlan, StarterPlan], ProPlan),
                                ([FreePlan, StarterPlan, ProPlan], EnterprisePlan)}
    ensures AddPlanIfMissing(before, plan) == Success(before + [plan])
  {
    assert forall p :: p in before ==> p.name != plan.name;
  }

  /** On empty tables, seeding creates exactly the four plans, the default store, its subscription, the owner and the manager row. */
  lemma {:induction false} SeedOnEmpty(ids: SeedIds, encode: string -> string)
    ensures Seed(Snapshot([], [], [], [], []), ids, encode) ==
      (Snapshot(DefaultPlans, [DefaultStore(ids.store)], [DefaultSubscription(ids.subscription, ids.store)],
                [DefaultUser(ids.user, encode)], [DefaultStaff(ids.staff, ids.user, ids.store)]), Pass)
  {
    SeedPlansOnEmpty();
    var ss := SeedStore(Snapshot(DefaultPlans, [], [], [], []), ids);
    assert ss == Snapshot(DefaultPlans, [DefaultStore(ids.store)], [DefaultSubscription(ids.subscription, ids.store)], [], []);
    var su := SeedUser(ss, ids, encode);
    assert su.users == [DefaultUser(ids.user, encode)];
    assert su.staff == [DefaultStaff(ids.staff, ids.user, ids.store)];
    assert Seed(Snapshot([], [], [], [], []), ids, encode) == (su, Pass);
  }

  /**
   * The owner always gets a manager row: the store step runs first, so the
   * store table is never empty when the user step looks for a first store.
   */
  lemma {:induction false} SeededOwnerManagesFirstStore(s: Snapshot, ids: SeedIds, encode: string -> string)
    requires Seed(s, ids, encode).1 == Pass
    requires |s.users| == 0
    ensures var t := Seed(s, ids, encode).0;
      && |t.stores| > 0
      && t.users == [DefaultUser(ids.user, encode)]
      && t.staff == s.staff + [DefaultStaff(ids.staff, ids.user, t.stores[0].id)]
  {
  }

  /** In the seeded plan table every name resolves to its seeded plan. */
  lemma {:induction false} DefaultPlansResolve()
    ensures UniqueNames(DefaultPlans)
    ensures PlanNamed(DefaultPlans, "FREE") == Success(FreePlan)
    ensures PlanNamed(DefaultPlans, "STARTER") == Success(StarterPlan)
    ensures PlanNamed(DefaultPlans, "PRO") == Success(ProPlan)
    ensures PlanNamed(DefaultPlans, "ENTERPRISE") == Success(EnterprisePlan)
  {
    PlanNamedUnique(DefaultPlans, 0);
    PlanNamedUnique(DefaultPlans, 1);
    PlanNamedUnique(DefaultPlans, 2);
    PlanNamedUnique(DefaultPlans, 3);
  }

  /** The store's live subscription exists and names that plan. */
  predicate SubscribedTo(subscriptions: seq<Subscription>, storeId: Uuid, planName: string)
  {
    var found := FindSubscription(subscriptions, storeId);
    found.Success? && found.value.Some? && found.value.value.planName == planName
  }

  /**
   * The seeded plans drive the gate: STARTER refuses a 101st product, FREE
   * refuses payments, and ENTERPRISE refuses no count at all.
   */
  lemma {:induction false} SeededEntitlements(subscriptions: seq<Subscription>, storeId: Uuid, count: int)
    ensures FindSubscription(subscriptions, storeId) == Success(None) ==>
      GetPlanForStore(subscriptions, DefaultPlans, storeId) == Success(FreePlan)
    ensures SubscribedTo(subscriptions, storeId, "STARTER") ==>
      && AssertCanCreateProducts(subscriptions, DefaultPlans, storeId, 100, 1) == Fail(LimitExceeded(100, 100))
      && AssertCanCreateProducts(subscriptions, DefaultPlans, storeId, 99, 1) == Pass
      && IsFeatureEnabled(subscriptions, DefaultPlans, storeId, PaymentsFeature) == Success(true)
      && IsFeatureEnabled(subscriptions, DefaultPlans, storeId, CustomDomainFeature) == Success(false)
    ensures SubscribedTo(subscriptions, storeId, "ENTERPRISE") ==>
      && AssertCanCreateProducts(subscriptions, DefaultPlans, storeId, count, 1) == Pass
      && AssertCanAddStaff(subscriptions, DefaultPlans, storeId, count, 1) == Pass
    ensures SubscribedTo(subscriptions, storeId, "FREE") ==>
      IsFeatureEnabled(subscriptions, DefaultPlans, storeId, PaymentsFeature) == Success(false)
  {
    DefaultPlansResolve();
  }

  /**
   * The default store starts at its FREE staff limit: the seeded manager row
   * counts, so one more staff member is refused, while products are allowed
   * up to 20.
   */
  lemma {:induction false} DefaultStoreAtStaffLimit(ids: SeedIds, encode: string -> string)
    ensures var t := Seed(Snapshot([], [], [], [], []), ids, encode).0;
      && AssertCanAddStaff(t.subscriptions, t.plans, ids.store, CountForStore(t.staff, ids.store), 1)
         == Fail(LimitExceeded(1, 1))
      && AssertCanCreateProducts(t.subscriptions, t.plans, ids.store, 19, 1) == Pass
      && AssertCanCreateProducts(t.subscriptions, t.plans, ids.store, 20, 1) == Fail(LimitExceeded(20, 20))
  {
    SeedOnEmpty(ids, encode);
    FreeStoreGates(ids.store, DefaultSubscription(ids.subscription, ids.store), DefaultStaff(ids.staff, ids.user, ids.store));
  }

  /** A store whose one subscription is to FREE and which has one live staff row, under the seeded plans. */
  lemma {:induction false} FreeStoreGates(storeId: Uuid, sub: Subscription, manager: Staff)
    requires sub.storeId == storeId && !sub.deleted && sub.planName == FreePlanName
    requires manager.storeId == storeId && !manager.deleted
    ensures AssertCanAddStaff([sub], DefaultPlans, storeId, CountForStore([manager], storeId), 1)
         == Fail(LimitExceeded(1, 1))
    ensures AssertCanCreateProducts([sub], DefaultPlans, storeId, 19, 1) == Pass
    ensures AssertCanCreateProducts([sub], DefaultPlans, storeId, 20, 1) == Fail(LimitExceeded(20, 20))
  {
    assert Count([sub], LiveSubscriptionOf(storeId)) == 1 by {
      CountAppend([], sub, LiveSubscriptionOf(storeId));
      assert [] + [sub] == [sub];
    }
    assert FindSubscription([sub], storeId) == Success(Some(sub));
    DefaultPlansResolve();
    assert GetPlanForStore([sub], DefaultPlans, storeId) == Success(FreePlan);
    assert CountForStore([manager], storeId) == 1 by {
      CountAppend([], manager, LiveStaffOf(storeId));
      assert [] + [manager] == [manager];
    }
  }

  /** The loader with the repositories it was given and the password encoder. */
  class StartupDataLoader {
    const plans: Table<SubscriptionPlan>
    const stores: Table<Store>
    const subscriptions: Table<Subscription>
    const users: Table<User>
    const staff: Table<Staff>
    const encode: string -> string

    constructor (plans: Table<SubscriptionPlan>, stores: Table<Store>, subscriptions: Table<Subscription>,
                 users: Table<User>, staff: Table<Staff>, encode: string -> string)
      ensures this.plans == plans && this.stores == stores && this.subscriptions == subscriptions
      ensures this.users == users && this.staff == staff && this.encode == encode
    {
      this.plans := plans;
      this.stores := stores;
      this.subscriptions := subscriptions;
      this.users := users;
      this.staff := staff;
      this.encode := encode;
    }

    /** The rows of the five tables. */
    function State(): Snapshot
      reads plans, stores, subscriptions, users, staff
    {
      Snapshot(plans.rows, stores.rows, subscriptions.rows, users.rows, staff.rows)
    }

    /** `createIfMissing`: look the name up, and save the plan only when nothing holds it. */
    method CreateIfMissing(plan: SubscriptionPlan) returns (r: Outcome)
      modifies plans
      ensures match AddPlanIfMissing(old(plans.rows), plan)
        case Success(next) => r == Pass && plans.rows == next
        case Failure(e) => r == Fail(e) && plans.rows == old(plans.rows)
    {
      var existing := FindUnique(plans.rows, PlanCalled(plan.name));
      if existing.Failure? {
        return Fail(existing.error);
      }
      if existing.value.Some? {
        return Pass;
      }
      plans.Insert(plan);
      r := Pass;
    }

    /** `seedPlans`: the four plans in order; a failing lookup ends the step with the earlier plans saved. */
    method SeedPlans() returns (r: Outcome)
      modifies plans
      ensures (plans.rows, r) == AddPlans(old(plans.rows), DefaultPlans)
    {
      assert DefaultPlans[1..] == [StarterPlan, ProPlan, EnterprisePlan];
      assert DefaultPlans[1..][1..] == [ProPlan, EnterprisePlan];
      assert DefaultPlans[1..][1..][1..] == [EnterprisePlan];
      assert DefaultPlans[1..][1..][1..][1..] == [];
      r := CreateIfMissing(FreePlan);
      if r.Fail? {
        return;
      }
      assert AddPlans(old(plans.rows), DefaultPlans) == AddPlans(plans.rows, DefaultPlans[1..]);
      ghost var afterFree := plans.rows;
      r := CreateIfMissing(StarterPlan);
      if r.Fail? {
        return;
      }
      assert AddPlans(afterFree, DefaultPlans[1..]) == AddPlans(plans.rows, DefaultPlans[1..][1..]);
      ghost var afterStarter := plans.rows;
      r := CreateIfMissing(ProPlan);
      if r.Fail? {
        return;
      }
      assert AddPlans(afterStarter, DefaultPlans[1..][1..]) == AddPlans(plans.rows, DefaultPlans[1..][1..][1..]);
      ghost var afterPro := plans.rows;
      r := CreateIfMissing(EnterprisePlan);
      assert r.Pass? ==> AddPlans(plans.rows, []) == (plans.rows, Pass);
      assert AddPlans(afterPro, [EnterprisePlan]) == (plans.rows, r);
    }

    /** `seedDefaultStoreAndSubscription`: guarded by a count over every store row. */
    method SeedDefaultStoreAndSubscription(ids: SeedIds)
      modifies stores, subscriptions
      ensures State() == SeedStore(old(State()), ids)
    {
      if |stores.rows| == 0 {
        stores.Insert(DefaultStore(ids.store));
        subscriptions.Insert(DefaultSubscription(ids.subscription, ids.store));
      }
    }

    /** `seedDefaultUserAndStaff`: guarded by a count over every user row. */
    method SeedDefaultUserAndStaff(ids: SeedIds)
      modifies users, staff
      ensures State() == SeedUser(old(State()), ids, encode)
    {
      if |users.rows| == 0 {
        var user := DefaultUser(ids.user, encode);
        users.Insert(user);
        if |stores.rows| > 0 {
          staff.Insert(DefaultStaff(ids.staff, user.id, stores.rows[0].id));
        }
      }
    }

    /** `run`: plans, then the default store, then the default user; a failing plan step ends the run. */
    method Run(ids: SeedIds) returns (r: Outcome)
      modifies plans, stores, subscriptions, users, staff
      ensures (State(), r) == Seed(old(State()), ids, encode)
    {
      r := SeedPlans();
      if r.Fail? {
        return;
      }
      SeedDefaultStoreAndSubscription(ids);
      SeedDefaultUserAndStaff(ids);
    }
  }
}
