/**
 * The per-thread tenant cell. The source keeps one static thread-local UUID;
 * an instance of `TenantContext` is that cell as seen by one thread, which the
 * request filter and the services share.
 */
module Tenancy {
  import opened Base
  import opened Uuids

  class TenantContext {
    /** The bound tenant (store) id, `None` when nothing is bound. */
    var tenant: Option<Uuid>

    /** A thread starts with nothing bound. */
    constructor ()
      ensures tenant == None
    {
      tenant := None;
    }

    /**
     * Binds `id`, overwriting any earlier value. A null id is refused with
     * IllegalArgumentException and the cell keeps what it held.
     */
    method SetTenantId(id: Option<Uuid>) returns (r: Outcome)
      modifies this
      ensures id.None? ==> r == Fail(InvalidArgument) && tenant == old(tenant)
      ensures id.Some? ==> r == Pass && tenant == id
    {
      if id.None? {
        return Fail(InvalidArgument);
      }
      tenant := id;
      r := Pass;
    }

    /** Fail-closed read: the bound id, or TenantAccessDenied; there is no default tenant. */
    method GetTenantId() returns (r: Result<Uuid, Error>)
      ensures tenant.Some? ==> r == Success(tenant.value)
      ensures tenant.None? ==> r == Failure(TenantAccessDenied)
    {
      if tenant.None? {
        return Failure(TenantAccessDenied);
      }
      r := Success(tenant.value);
    }

    /** Unbinds unconditionally; never fails and is idempotent. */
    method Clear()
      modifies this
      ensures tenant == None
    {
      tenant := None;
    }

    /** Never throws: true exactly when a tenant is bound. */
    method IsSet() returns (b: bool)
      ensures b <==> tenant.Some?
    {
      b := tenant.Some?;
    }
  }

  /** Set-then-get returns what was set; clear-then-get is denied; clearing twice is clearing once. */
  method CellProtocol(t: Uuid, u: Uuid) returns (first: Result<Uuid, Error>, afterClear: Result<Uuid, Error>, stillSet: bool)
    ensures first == Success(u)
    ensures afterClear == Failure(TenantAccessDenied)
    ensures !stillSet
  {
    var ctx := new TenantContext();
    var _ := ctx.SetTenantId(Some(t));
    var _ := ctx.SetTenantId(Some(u));
    first := ctx.GetTenantId();
    ctx.Clear();
    ctx.Clear();
    afterClear := ctx.GetTenantId();
    stillSet := ctx.IsSet();
  }
}
