/**
 * The once-per-request authentication filter: reads the bearer token, binds
 * the tenant it names (or the first store's, when the token names none) for
 * the rest of the request, attaches the principal, runs the downstream
 * handler, and in a finally block clears the tenant cell, putting back a
 * tenant it found bound when it bound its own.
 *
 * The token provider, the user lookup and the handler are collaborators whose
 * code is not part of this model; what they return or throw is given as input.
 */
module AuthFilter {
  import opened Base
  import opened Uuids
  import opened Entities
  import opened Tenancy

  const BearerPrefix: string := "Bearer "

  /**
   * `getJwtFromRequest`: the Authorization header with its first seven
   * characters dropped when it starts with "Bearer ", otherwise null.
   */
  function GetJwtFromRequest(authorization: Option<string>): (jwt: Option<string>)
    ensures jwt.Some? <==> authorization.Some? && BearerPrefix <= authorization.value
    ensures jwt.Some? ==> authorization.value == BearerPrefix + jwt.value
  {
    if authorization.Some? && BearerPrefix <= authorization.value then
      Some(authorization.value[|BearerPrefix|..])
    else None
  }

  lemma BearerRoundTrip(token: string)
    ensures GetJwtFromRequest(Some(BearerPrefix + token)) == Some(token)
  {
    assert (BearerPrefix + token)[|BearerPrefix|..] == token;
  }

  /** What a token-provider call gives back: a value, null, or an exception. */
  datatype Extracted<T> = Value(value: T) | Null | Throws {
    function AsOption(): Option<T>
      requires !Throws?
    {
      if Value? then Some(value) else None
    }
  }

  /** The authenticated user attached to the request's security state. */
  datatype Principal = Principal(username: string)

  /** The request's security context: at most one authentication. */
  class SecurityContext {
    var authentication: Option<Principal>

    constructor ()
      ensures authentication == None
    {
      authentication := None;
    }
  }

  /**
   * One run of the downstream handler: whether it throws, and the tenant
   * cell it leaves behind (it may bind or clear the cell itself).
   */
  datatype HandlerRun = HandlerRun(throws: bool, leaves: Option<Uuid>)

  /** How control leaves the filter. */
  datatype Exit =
    | Returned          // the handler returned normally
    | HandlerThrew      // the handler's exception, rethrown after cleanup
    | ProviderThrew     // extracting the username or store id threw; the handler did not run
    | LookupThrew       // loading the user threw; the handler did not run

  /**
   * The store id bound for the request: the token's own, or else the first
   * store in `findAll` order, whatever the number of stores and whether or
   * not that store is soft-deleted.
   */
  function ResolveStoreId(claimed: Option<Uuid>, stores: seq<Store>): (r: Option<Uuid>)
    ensures claimed.Some? ==> r == claimed
    ensures claimed.None? && |stores| > 0 ==> r == Some(stores[0].id)
    ensures r.None? <==> claimed.None? && stores == []
  {
    if claimed.Some? then claimed
    else if |stores| > 0 then Some(stores[0].id)
    else None
  }

  /** True when the filter reaches its tenant-binding step and binds a store id. */
  predicate BindsTenant(jwt: Option<string>, username: Extracted<string>, storeClaim: Extracted<Uuid>, stores: seq<Store>)
  {
    jwt.Some? && !username.Throws? && !storeClaim.Throws? && ResolveStoreId(storeClaim.AsOption(), stores).Some?
  }

  /**
   * The tenant cell after the filter, on every exit path: the tenant that
   * was bound before, when the filter bound a store id over it; otherwise
   * nothing. In particular a thread that entered with nothing bound leaves
   * with nothing bound, and a tenant bound before a request that resolves no
   * store id is cleared, not restored.
   */
  function TenantAfterFilter(before: Option<Uuid>, binds: bool): (after: Option<Uuid>)
    ensures before.None? ==> after.None?
    ensures after.Some? ==> after == before
    ensures !binds ==> after.None?
  {
    if binds then before else None
  }

  /**
   * `doFilterInternal`. `authorization` is the request header; `username` and
   * `storeClaim` what the token provider extracts from the bearer token;
   * `stores` what `findAll` returns; `user` what the user lookup loads (None:
   * it throws); `tokenValid` the provider's verdict on token and user;
   * `handler` the downstream run. Returns how the filter exits and the tenant
   * cell the handler saw when it was invoked.
   */
  method DoFilterInternal(
    ctx: TenantContext, security: SecurityContext,
    authorization: Option<string>,
    username: Extracted<string>, storeClaim: Extracted<Uuid>,
    stores: seq<Store>,
    user: Option<Principal>, tokenValid: bool,
    handler: HandlerRun)
    returns (exit: Exit, handlerSaw: Option<Uuid>)
    modifies ctx, security
    // the handler always runs when there is no bearer token, and sees whatever was bound
    ensures GetJwtFromRequest(authorization).None? ==>
      exit == Returned || exit == HandlerThrew
    ensures GetJwtFromRequest(authorization).None? ==>
      security.authentication == old(security.authentication)
    // with a bearer token, the provider throwing ends the request before the handler
    ensures GetJwtFromRequest(authorization).Some? && (username.Throws? || storeClaim.Throws?) ==>
      exit == ProviderThrew
    // a resolved store id is what the handler sees: the token's, or the first store's
    ensures BindsTenant(GetJwtFromRequest(authorization), username, storeClaim, stores) &&
            (exit == Returned || exit == HandlerThrew) ==>
      handlerSaw == ResolveStoreId(storeClaim.AsOption(), stores)
    // otherwise the filter binds nothing and the handler sees the cell as it was
    ensures !BindsTenant(GetJwtFromRequest(authorization), username, storeClaim, stores) &&
            (exit == Returned || exit == HandlerThrew) ==>
      handlerSaw == old(ctx.tenant)
    // the handler's own outcome is the filter's outcome; cleanup never replaces it
    ensures exit == Returned ==> !handler.throws
    ensures exit == HandlerThrew ==> handler.throws
    // the cell afterwards, on every exit path
    ensures ctx.tenant == TenantAfterFilter(old(ctx.tenant), BindsTenant(GetJwtFromRequest(authorization), username, storeClaim, stores))
    // a principal is attached only for a resolved username, with none present, a loaded user and a valid token
    ensures security.authentication != old(security.authentication) <==>
      && GetJwtFromRequest(authorization).Some?
      && username.Value? && !storeClaim.Throws?
      && old(security.authentication).None?
      && user.Some? && tokenValid
    ensures security.authentication != old(security.authentication) ==> security.authentication == user
    ensures exit == LookupThrew <==>
      && GetJwtFromRequest(authorization).Some?
      && username.Value? && !storeClaim.Throws?
      && old(security.authentication).None? && user.None?
  {
    var jwt := GetJwtFromRequest(authorization);
    var previousTenant: Option<Uuid> := None;
    var escaped: Option<Exit> := None;   // an exception leaving the try block before the handler

    if jwt.Some? {
      if username.Throws? || storeClaim.Throws? {
        escaped := Some(ProviderThrew);
      } else {
        var storeId := ResolveStoreId(storeClaim.AsOption(), stores);
        if storeId.Some? {
          var bound := ctx.IsSet();
          if bound {
            var current := ctx.GetTenantId();
            previousTenant := Some(current.value);
          }
          var _ := ctx.SetTenantId(storeId);
        }
        if username.Value? && security.authentication.None? {
          if user.None? {
            escaped := Some(LookupThrew);
          } else if tokenValid {
            security.authentication := user;
          }
        }
      }
    }

    if escaped.Some? {
      exit := escaped.value;
      handlerSaw := None;
    } else {
      handlerSaw := ctx.tenant;
      if handler.leaves.Some? {
        var _ := ctx.SetTenantId(handler.leaves);
      } else {
        ctx.Clear();
      }
      exit := if handler.throws then HandlerThrew else Returned;
    }

    // finally: clear, then restore a captured tenant; nothing here can throw
    ctx.Clear();
    if previousTenant.Some? {
      var _ := ctx.SetTenantId(previousTenant);
    }
  }

  /**
   * Thread reuse: a pooled thread runs request A (anything, including a
   * handler that throws or binds a tenant of its own), then request B. When B
   * resolves no store id, B's handler finds no tenant bound, and the thread
   * is left empty after both.
   */
  method ReusedThreadStartsEmpty(
    headerA: Option<string>, userA: Extracted<string>, storeA: Extracted<Uuid>, principalA: Option<Principal>, validA: bool, runA: HandlerRun,
    headerB: Option<string>, userB: Extracted<string>, storeB: Extracted<Uuid>, principalB: Option<Principal>, validB: bool, runB: HandlerRun,
    stores: seq<Store>)
    returns (exitB: Exit, sawB: Option<Uuid>, leftOver: Option<Uuid>)
    requires !BindsTenant(GetJwtFromRequest(headerB), userB, storeB, stores)
    ensures (exitB == Returned || exitB == HandlerThrew) ==> sawB.None?
    ensures leftOver.None?
  {
    var ctx := new TenantContext();
    var security := new SecurityContext();
    var _, _ := DoFilterInternal(ctx, security, headerA, userA, storeA, stores, principalA, validA, runA);
    var securityB := new SecurityContext();
    exitB, sawB := DoFilterInternal(ctx, securityB, headerB, userB, storeB, stores, principalB, validB, runB);
    leftOver := ctx.tenant;
  }
}
