/** The staff service: adding a member behind the staff-limit gate, and the per-store count. */
module StaffServices {
  import opened Base
  import opened Uuids
  import opened Tables
  import opened Entities
  import opened Tenancy
  import opened Subscriptions

  /** `countByStoreIdAndDeletedFalse`: the store's staff rows that are not soft-deleted. */
  function LiveStaffOf(storeId: Uuid): Staff -> bool
  {
    (s: Staff) => s.storeId == storeId && !s.deleted
  }

  /** `countForStore`: how many positions of the table hold a live row of that store. */
  function CountForStore(rows: seq<Staff>, storeId: Uuid): (n: nat)
    ensures n == |set i | 0 <= i < |rows| && rows[i].storeId == storeId && !rows[i].deleted|
  {
    CountIsMatching(rows, LiveStaffOf(storeId));
    assert Matching(rows, LiveStaffOf(storeId)) == set i | 0 <= i < |rows| && rows[i].storeId == storeId && !rows[i].deleted;
    Count(rows, LiveStaffOf(storeId))
  }

  /** The row `addStaff` builds for the bound store. */
  function NewStaff(storeId: Uuid, userId: Uuid, role: StaffRole, newId: Uuid): (s: Staff)
    ensures LiveStaffOf(storeId)(s) && s.userId == userId && s.role == role && s.status == StaffStatus.Active
  {
    Staff(newId, userId, storeId, role, StaffStatus.Active, false)
  }

  /**
   * `addStaff`: the bound store's live staff are counted and the gate is
   * asked for one more before anything is saved; a refused or unbound call
   * leaves the table as it was. `newId` is the id persistence generates.
   */
  method AddStaff(ctx: TenantContext, staff: Table<Staff>, subscriptions: Table<Subscription>,
                  plans: Table<SubscriptionPlan>, userId: Uuid, role: StaffRole, newId: Uuid)
    returns (r: Result<Staff, Error>)
    modifies staff
    ensures ctx.tenant.None? ==> r == Failure(TenantAccessDenied) && staff.rows == old(staff.rows)
    ensures ctx.tenant.Some? ==>
      var gate := AssertCanAddStaff(subscriptions.rows, plans.rows, ctx.tenant.value,
                                    CountForStore(old(staff.rows), ctx.tenant.value), 1);
      && (gate.Fail? ==> r == Failure(gate.error) && staff.rows == old(staff.rows))
      && (gate.Pass? ==> staff.rows == old(staff.rows) + [NewStaff(ctx.tenant.value, userId, role, newId)]
                         && r == Success(NewStaff(ctx.tenant.value, userId, role, newId)))
  {
    var storeId :- ctx.GetTenantId();
    var currentCount := CountForStore(staff.rows, storeId);
    var gate := AssertCanAddStaff(subscriptions.rows, plans.rows, storeId, currentCount, 1);
    if gate.Fail? {
      return Failure(gate.error);
    }
    var member := NewStaff(storeId, userId, role, newId);
    staff.Insert(member);
    r := Success(member);
  }

  /** Adding a member raises the store's count by one and leaves every other store's count alone. */
  lemma {:induction false} AddStaffCounts(rows: seq<Staff>, storeId: Uuid, userId: Uuid, role: StaffRole, newId: Uuid, other: Uuid)
    ensures CountForStore(rows + [NewStaff(storeId, userId, role, newId)], storeId) == CountForStore(rows, storeId) + 1
    ensures other != storeId ==>
      CountForStore(rows + [NewStaff(storeId, userId, role, newId)], other) == CountForStore(rows, other)
  {
    CountAppend(rows, NewStaff(storeId, userId, role, newId), LiveStaffOf(storeId));
    CountAppend(rows, NewStaff(storeId, userId, role, newId), LiveStaffOf(other));
  }

  /**
   * With a positive staff limit, an addition that succeeds leaves the store
   * with at most that many live staff.
   */
  lemma {:induction false} AddStaffStaysWithinLimit(rows: seq<Staff>, subscriptions: seq<Subscription>,
                                                    plans: seq<SubscriptionPlan>, storeId: Uuid, userId: Uuid, role: StaffRole, newId: Uuid)
    requires GetStaffLimit(subscriptions, plans, storeId).Success?
    requires GetStaffLimit(subscriptions, plans, storeId).value.Some?
    requires GetStaffLimit(subscriptions, plans, storeId).value.value > 0
    requires AssertCanAddStaff(subscriptions, plans, storeId, CountForStore(rows, storeId), 1) == Pass
    ensures CountForStore(rows + [NewStaff(storeId, userId, role, newId)], storeId)
            <= GetStaffLimit(subscriptions, plans, storeId).value.value
  {
    GatedInsertStaysWithinLimit(rows, LiveStaffOf(storeId), GetStaffLimit(subscriptions, plans, storeId).value.value,
                                NewStaff(storeId, userId, role, newId));
  }
}
