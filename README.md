# cartwave-backend: tenant isolation, tokens and entitlements in Dafny

This project models the core of the cartwave multi-tenant commerce back end. Each store is a tenant. The model covers:

- the per-thread **tenant cell**, which is fail-closed;
- the **request filter** that binds a tenant from the bearer token and clears or restores it on every exit path;
- **token** claim construction and the classification of parse failures;
- the **entitlement gate** that resolves a store's plan, with FREE as the fallback, and enforces feature switches and product/staff limits;
- the tenant-scoped **services** for products, staff, orders, stores and billing;
- **registration**;
- **bootstrap seeding**.

Repositories are in-memory tables (`Tables.Table<T>`, a `seq` of rows in `findAll` order). Each JPQL `WHERE` clause becomes a row predicate, and a single-row query (`Optional<T>`) becomes `Tables.FindUnique`. That lookup yields nothing, the row, or `IncorrectResultSize` when several rows match. Java `null` is `Option.None`. An exception is `Result.Failure`/`Outcome.Fail` carrying a `Base.Error` variant.

The following are inputs to the model rather than computed by it:

- ids that persistence generates (`newId`, `SeedIds`);
- wall-clock time (`now`);
- the password encoder (`encode`);
- the JWT sign/parse pair (`JwtService.sign`/`parse`);
- what the filter's collaborators return or throw.

In a few places the code does something other than what its own comments, or the behaviour a reader would expect, suggest. The model follows the code:

- **Filter fallback.** The comment at JwtAuthenticationFilter.java:48 says the fallback applies "if only one store exists". The code binds the *first* store returned by `findAll` whenever any store exists, soft-deleted ones included (`AuthFilter.ResolveStoreId`).
- **Pre-bound tenant.** The comment at JwtAuthenticationFilter.java:56 speaks of preserving a previous tenant. The code captures that tenant only when the request resolves a store id of its own. Otherwise the `finally` block clears it and does not restore it (`AuthFilter.TenantAfterFilter`).
- **Missing plan.** Plan resolution fails with `ResourceNotFound` when a subscription names a plan that does not exist. It does not fall back to FREE in that case (SubscriptionService.java:45-48, `Subscriptions.GetPlanForStore`).
- **Absent permissions.** A token without a `permissions` claim decodes to null permissions, not to an empty list (JwtService.java:72, `JwtServices.ListClaim`, `JwtServices.DecodeClaims`).
- **Type of an expired token.** `getTokenTypeFromToken` reports an expired token as Unauthorized rather than returning its type, because `ExpiredJwtException` is a `JwtException` (JwtService.java:126-133, `JwtServices.GetTokenTypeFromToken`).

## Model

| member | source | states |
|---|---|---|
| Tenancy.TenantContext.constructor | src/main/java/com/cartwave/tenant/TenantContext.java:11 | a thread starts with no tenant bound |
| Tenancy.TenantContext.SetTenantId | src/main/java/com/cartwave/tenant/TenantContext.java:13-19 | a null id is IllegalArgumentException and leaves the cell as it was; any other id is bound, overwriting the old one |
| Tenancy.TenantContext.GetTenantId | src/main/java/com/cartwave/tenant/TenantContext.java:21-27 | returns the bound id; an empty cell is TenantAccessDenied (no default tenant) |
| Tenancy.TenantContext.Clear | src/main/java/com/cartwave/tenant/TenantContext.java:29-32 | the cell is empty afterwards, whatever it held; never fails |
| Tenancy.TenantContext.IsSet | src/main/java/com/cartwave/tenant/TenantContext.java:34-36 | true exactly when an id is bound; never fails |
| Tenancy.CellProtocol | src/main/java/com/cartwave/tenant/TenantContext.java:13-36 | set after set reads the latest id; clear twice then get is denied and isSet is false |
| Uuids.ToString | src/main/java/com/cartwave/security/service/JwtService.java:49 | the canonical 36-character form with dashes at 8, 13, 18, 23 |
| Uuids.FromString | src/main/java/com/cartwave/security/service/JwtService.java:74 | parses exactly the canonical texts: 36 characters, a dash at 8, 13, 18 and 23 and a hexadecimal digit of either case everywhere else; any other text (a non-hex digit, a misplaced dash, a wrong length) is IllegalArgumentException; each digit gives its nibble |
| Uuids.ParseHex | src/main/java/com/cartwave/security/service/JwtService.java:74 | a digit string parses exactly when every character is a hexadecimal digit, and then each character gives its value |
| Uuids.FromToString | src/main/java/com/cartwave/security/service/JwtService.java:74 | parsing the printed form of an id gives the id back |
| Uuids.ToStringInjective | src/main/java/com/cartwave/security/service/JwtService.java:49-52 | distinct ids print differently |
| Tables.Count | src/main/java/com/cartwave/product/service/ProductService.java:28 | a count query counts at most every row |
| Tables.CountIsMatching | src/main/java/com/cartwave/staff/service/StaffService.java:43 | a count query equals the number of positions whose row matches |
| Tables.CountZeroIff | src/main/java/com/cartwave/staff/service/StaffService.java:43 | a count is zero exactly when no row matches |
| Tables.Filter | src/main/java/com/cartwave/order/repository/OrderRepository.java:20-21 | a list query returns exactly the matching rows (sound and complete), as many as the count says |
| Tables.FindUnique | src/main/java/com/cartwave/subscription/repository/SubscriptionRepository.java:15-16 | a single-row query is empty exactly when nothing matches, fails with IncorrectResultSize exactly when several match, and returns the matching row when exactly one does |
| Tables.RemoveWhere | src/main/java/com/cartwave/product/service/ProductService.java:62 | a delete keeps each unselected row as often as it occurred, adds no row, and leaves as many rows as were not selected |
| JwtServices.WithDefaults | src/main/java/com/cartwave/security/service/JwtService.java:25-34 | default lifetimes are 15 minutes (access) and 7 days (refresh) |
| JwtServices.TokenPayload | src/main/java/com/cartwave/security/service/JwtService.java:44-65 | the signed body holds userId, storeId and tokenType; it holds email, role and permissions exactly when they are non-null; the subject is the user id; expiry is issue time plus lifetime; a null user or store id is NullPointerException |
| JwtServices.BuildToken | src/main/java/com/cartwave/security/service/JwtService.java:44-65 | the step-by-step claim map signs to the token `Issue` describes |
| JwtServices.GenerateAccessToken | src/main/java/com/cartwave/security/service/JwtService.java:36-38 | issues with the access lifetime and type ACCESS |
| JwtServices.GenerateRefreshToken | src/main/java/com/cartwave/security/service/JwtService.java:40-42 | issues with the refresh lifetime and type REFRESH |
| JwtServices.AccessTokenClaims | src/main/java/com/cartwave/security/service/JwtService.java:36-38 | an access token with default configuration is typed ACCESS and expires 900000 ms after issue |
| JwtServices.RefreshTokenClaims | src/main/java/com/cartwave/security/service/JwtService.java:40-42 | a refresh token with default configuration is typed REFRESH and expires 604800000 ms after issue |
| JwtServices.StringClaim | src/main/java/com/cartwave/security/service/JwtService.java:75-78 | an absent claim reads as null; a string claim reads back as that string; any other value is a JwtException, and only then does it fail |
| JwtServices.UuidClaim | src/main/java/com/cartwave/security/service/JwtService.java:74-77 | an absent claim is NullPointerException; a non-string is ClassCastException; text that does not parse is IllegalArgumentException; canonical text succeeds, with the id it denotes |
| JwtServices.ListClaim | src/main/java/com/cartwave/security/service/JwtService.java:72 | an absent list reads as null; a list claim reads back as that list; any other value is ClassCastException, and only then does it fail |
| JwtServices.DecodeClaims | src/main/java/com/cartwave/security/service/JwtService.java:69-80 | succeeds exactly when all six readers do, and then each field is what its reader read from the body; a failing permissions read is ClassCastException, after which a failing userId read decides the error; every error is one of ClassCastException, NullPointerException, IllegalArgumentException or a JwtException |
| JwtServices.ExtractClaims | src/main/java/com/cartwave/security/service/JwtService.java:67-85 | every parse failure is Unauthorized; a decoding JwtException or IllegalArgumentException (wrong claim type, malformed UUID) is Unauthorized; NullPointerException and ClassCastException escape unchanged; otherwise the decoded claims |
| JwtServices.MalformedUserIdIsUnauthorized | src/main/java/com/cartwave/security/service/JwtService.java:74-84 | a parsed token whose userId is text that is not a UUID is refused as Unauthorized |
| JwtServices.ValidateToken | src/main/java/com/cartwave/security/service/JwtService.java:87-107 | true iff the token parses; false iff it fails with one of the five caught kinds; only another JwtException propagates |
| JwtServices.IsTokenExpired | src/main/java/com/cartwave/security/service/JwtService.java:117-124 | an expired-token failure is true; a parsed token compares its expiry with now; a parsed token without expiry is NullPointerException; an empty token is IllegalArgumentException; any other parse failure propagates as a JwtException |
| JwtServices.GetTokenTypeFromToken | src/main/java/com/cartwave/security/service/JwtService.java:126-133 | the stored type on success; every JwtException, expiry included, is Unauthorized; an empty token (IllegalArgumentException) escapes |
| JwtServices.IssuedTokenRoundTrip | src/main/java/com/cartwave/security/service/JwtService.java:44-133 | when parsing returns the built body, extractClaims returns the input claims stamped with their type, validateToken is true, the type reads back, and expiry is issue time plus lifetime |
| AuthFilter.GetJwtFromRequest | src/main/java/com/cartwave/security/filter/JwtAuthenticationFilter.java:87-93 | a token exactly when the header starts with "Bearer ", and the header is the prefix followed by that token |
| AuthFilter.BearerRoundTrip | src/main/java/com/cartwave/security/filter/JwtAuthenticationFilter.java:87-93 | the token read from "Bearer " + t is t |
| AuthFilter.ResolveStoreId | src/main/java/com/cartwave/security/filter/JwtAuthenticationFilter.java:45-53 | the token's store id wins; without one, the first store in findAll order; nothing only when there is neither |
| AuthFilter.TenantAfterFilter | src/main/java/com/cartwave/security/filter/JwtAuthenticationFilter.java:55-84 | the cell after the filter is empty unless it held a tenant before and the filter bound one over it, in which case it holds the earlier tenant |
| AuthFilter.DoFilterInternal | src/main/java/com/cartwave/security/filter/JwtAuthenticationFilter.java:35-85 | on every exit path (return, handler throws, provider throws, lookup throws) the cell ends as `TenantAfterFilter` says; the handler sees the resolved store or, if none, the cell as it was; with no token the handler always runs and no principal is attached; a principal is attached iff username non-null, none present, user loaded and token valid; the exit reflects the handler's own outcome |
| AuthFilter.ReusedThreadStartsEmpty | src/main/java/com/cartwave/security/filter/JwtAuthenticationFilter.java:75-84 | on a reused thread, a request that resolves no store finds no tenant left by the previous request, whatever that request did, and leaves none |
| Subscriptions.FindSubscription | src/main/java/com/cartwave/subscription/repository/SubscriptionRepository.java:15-16 | empty exactly when the store has no live subscription; IncorrectResultSize exactly when it has several; the one live subscription when there is exactly one |
| Subscriptions.PlanNamed | src/main/java/com/cartwave/subscription/service/SubscriptionService.java:47-48 | a found plan has the name; ResourceNotFound exactly when no plan has it |
| Subscriptions.PlanNamedUnique | src/main/java/com/cartwave/subscription/entity/SubscriptionPlan.java:21-22 | in a registry with unique names every name finds exactly its plan |
| Subscriptions.GetPlanForStore | src/main/java/com/cartwave/subscription/service/SubscriptionService.java:42-53 | with a subscription, the plan it names (ResourceNotFound if missing); without one, FREE; a resolved plan is always in the registry |
| Subscriptions.FeatureOf | src/main/java/com/cartwave/subscription/service/SubscriptionService.java:58-65 | enabled iff the key is "payments" with paymentsEnabled exactly true or "custom_domain" with customDomainEnabled exactly true |
| Subscriptions.IsFeatureEnabled | src/main/java/com/cartwave/subscription/service/SubscriptionService.java:56-66 | fails exactly when plan resolution fails; otherwise the feature switch over the resolved plan |
| Subscriptions.GetProductLimit | src/main/java/com/cartwave/subscription/service/SubscriptionService.java:69-72 | the resolved plan's product limit, or the resolution error |
| Subscriptions.GetStaffLimit | src/main/java/com/cartwave/subscription/service/SubscriptionService.java:75-78 | the resolved plan's staff limit, or the resolution error |
| Subscriptions.CheckLimit | src/main/java/com/cartwave/subscription/service/SubscriptionService.java:84-89 | LimitExceeded(limit, current) iff the limit is non-null, positive and current + adding exceeds it |
| Subscriptions.AssertCanCreateProducts | src/main/java/com/cartwave/subscription/service/SubscriptionService.java:83-90 | resolution errors propagate; otherwise the limit test on the product limit |
| Subscriptions.AssertCanAddStaff | src/main/java/com/cartwave/subscription/service/SubscriptionService.java:92-99 | resolution errors propagate; otherwise the limit test on the staff limit |
| Subscriptions.CheckLimitMonotone | src/main/java/com/cartwave/subscription/service/SubscriptionService.java:86 | a count refused at some size is refused at every larger size |
| Subscriptions.GatedInsertStaysWithinLimit | src/main/java/com/cartwave/subscription/service/SubscriptionService.java:85-87 | after a passing check for one more under a positive limit, inserting one row keeps the count within the limit |
| Subscriptions.GetSubscriptionForStore | src/main/java/com/cartwave/subscription/service/SubscriptionService.java:31-39 | TenantAccessDenied with no tenant; ResourceNotFound with no live subscription; a result is the tenant's own live subscription |
| Products.ToDto | src/main/java/com/cartwave/product/service/ProductService.java:65-72 | keeps the id; applying a product's own DTO back changes nothing |
| Products.Edit | src/main/java/com/cartwave/product/service/ProductService.java:53-56 | sets name, description and price from the DTO; id, store, stock, status and deleted flag are kept |
| Products.NewProduct | src/main/java/com/cartwave/product/service/ProductService.java:31-38 | a new product is live in the tenant's store, ACTIVE, stock 0, with the DTO's fields |
| Products.CreateProduct | src/main/java/com/cartwave/product/service/ProductService.java:26-41 | TenantAccessDenied with no tenant; the gate runs on the tenant's live-product count before any save; a refusal leaves the table unchanged; otherwise exactly the new row is appended |
| Products.CreateStaysWithinLimit | src/main/java/com/cartwave/product/service/ProductService.java:27-39 | under a positive product limit a successful creation leaves the store within the limit |
| Products.GetAllProducts | src/main/java/com/cartwave/product/service/ProductService.java:43-45 | every stored product of every store, projected, in order |
| Products.GetProductById | src/main/java/com/cartwave/product/service/ProductService.java:47-50 | a product of that id, deleted or not, whatever its store; ProductNotFound exactly when none has it |
| Products.UpdateProduct | src/main/java/com/cartwave/product/service/ProductService.java:52-59 | an unknown id is ProductNotFound and changes nothing; otherwise only the first row with that id is edited |
| Products.DeleteProduct | src/main/java/com/cartwave/product/service/ProductService.java:61-63 | the new table is the old one with exactly the rows of that id removed (row count drops by their number, every other row kept as often as it occurred), with no store check |
| StaffServices.CountForStore | src/main/java/com/cartwave/staff/service/StaffService.java:41-44 | the number of positions holding a live staff row of that store |
| StaffServices.NewStaff | src/main/java/com/cartwave/staff/service/StaffService.java:32-37 | the new row is live in the tenant's store, ACTIVE, with the given user and role |
| StaffServices.AddStaff | src/main/java/com/cartwave/staff/service/StaffService.java:27-39 | TenantAccessDenied with no tenant; the staff gate for one more runs before the save; a refusal leaves the table unchanged |
| StaffServices.AddStaffCounts | src/main/java/com/cartwave/staff/service/StaffService.java:32-44 | adding a member raises its store's count by one and leaves every other store's count alone |
| StaffServices.AddStaffStaysWithinLimit | src/main/java/com/cartwave/staff/service/StaffService.java:28-38 | under a positive staff limit a successful addition leaves the store within the limit |
| Orders.FindOrder | src/main/java/com/cartwave/order/repository/OrderRepository.java:17-18 | ResourceNotFound exactly when no live order of that store has the id; IncorrectResultSize exactly when several do; the order when exactly one does |
| Orders.OrdersOf | src/main/java/com/cartwave/order/repository/OrderRepository.java:20-21 | exactly the store's live orders |
| Orders.ToOrderDtos | src/main/java/com/cartwave/order/service/OrderService.java:43-44 | one projection per order, in order |
| Orders.GetOrderById | src/main/java/com/cartwave/order/service/OrderService.java:28-36 | TenantAccessDenied with no tenant; otherwise the tenant's live order of that id or its error; a result is never another store's order |
| Orders.GetOrdersByStore | src/main/java/com/cartwave/order/service/OrderService.java:39-45 | TenantAccessDenied with no tenant; every returned order is the tenant's and live |
| Orders.CreateOrder | src/main/java/com/cartwave/order/service/OrderService.java:47-56 | TenantAccessDenied with no tenant; otherwise the order is saved under the tenant's store, whatever the request said |
| Orders.UpdateOrder | src/main/java/com/cartwave/order/service/OrderService.java:58-67 | TenantAccessDenied with no tenant; a foreign, deleted or missing order is ResourceNotFound; the table never changes |
| Orders.CreatedOrderVisibility | src/main/java/com/cartwave/order/service/OrderService.java:47-56 | a created order is listed for its store and changes no other store's list |
| Stores.FindStore | src/main/java/com/cartwave/store/repository/StoreRepository.java:18-20 | ResourceNotFound exactly when no live store has the id; IncorrectResultSize exactly when several do; the store when exactly one does |
| Stores.GetStoreById | src/main/java/com/cartwave/store/service/StoreService.java:31-38 | succeeds exactly when the lookup does, with that live store |
| Stores.UpdateOutcome | src/main/java/com/cartwave/store/service/StoreService.java:40-57 | lookup errors first; a custom-domain request is checked on the argument store's plan and refused with CUSTOM_DOMAIN_NOT_ALLOWED when off; without that request no check is made |
| Stores.UpdateStore | src/main/java/com/cartwave/store/service/StoreService.java:40-57 | decides as `UpdateOutcome`; the store table is unchanged |
| Stores.CustomDomainNeedsPlan | src/main/java/com/cartwave/store/service/StoreService.java:46-52 | a successful custom-domain update implies the store's plan has customDomainEnabled true |
| Billing.TransactionsFor | src/main/java/com/cartwave/billing/service/BillingService.java:29-40 | succeeds iff payments are enabled; a disabled plan is PAYMENTS_NOT_ALLOWED; a failed plan lookup passes its error on; a result is exactly the store's live transactions |
| Billing.GetTransactionsForStore | src/main/java/com/cartwave/billing/service/BillingService.java:27-41 | TenantAccessDenied with no tenant; otherwise `TransactionsFor` the tenant |
| Billing.TransactionsNeedPayments | src/main/java/com/cartwave/billing/service/BillingService.java:31-35 | transactions are returned only when the resolved plan has paymentsEnabled true |
| Users.RoleNamed | src/main/java/com/cartwave/auth/service/AuthService.java:55 | the constant whose name is the string, and only that one; otherwise IllegalArgumentException |
| Auth.NewUser | src/main/java/com/cartwave/auth/service/AuthService.java:52-57 | a new user is live, ACTIVE, has the email, the encoded password and the role |
| Auth.Register | src/main/java/com/cartwave/auth/service/AuthService.java:48-59 | a live user with the email is EmailAlreadyInUse; an unknown role is InvalidArgument; both save nothing; otherwise exactly the new user is appended |
| Auth.RegisterTakesEmail | src/main/java/com/cartwave/auth/service/AuthService.java:49-58 | after a registration the email's lookup finds exactly the new user, so a second registration is refused |
| Startup.AddPlanIfMissing | src/main/java/com/cartwave/startup/StartupDataLoader.java:53-68 | an existing name leaves the table as it is; a missing one is appended; a duplicated name is an error |
| Startup.AddPlanCounts | src/main/java/com/cartwave/startup/StartupDataLoader.java:53-68 | after a passing step the plan's name is held by exactly one row; other names keep their counts |
| Startup.AddPlansCounts | src/main/java/com/cartwave/startup/StartupDataLoader.java:46-51 | after passing seeding each seeded name is held by exactly one row |
| Startup.AddPlansPresent | src/main/java/com/cartwave/startup/StartupDataLoader.java:54-55 | when every name is already held once, plan seeding changes nothing |
| Startup.SeedPlansOnEmpty | src/main/java/com/cartwave/startup/StartupDataLoader.java:46-51 | an empty plan table receives FREE, STARTER, PRO, ENTERPRISE in that order |
| Startup.AddToPlansWithout | src/main/java/com/cartwave/startup/StartupDataLoader.java:47-50 | each seeding step on an empty table appends its plan |
| Startup.SeedOnEmpty | src/main/java/com/cartwave/startup/StartupDataLoader.java:40-115 | on empty tables seeding creates the four plans, the default store, its FREE ACTIVE zero-amount auto-renewing subscription, the BUSINESS_OWNER user with the encoded default password, and a MANAGER row |
| Startup.SeedIdempotent | src/main/java/com/cartwave/startup/StartupDataLoader.java:40-44 | running the loader twice leaves the tables as running it once |
| Startup.SeededOwnerManagesFirstStore | src/main/java/com/cartwave/startup/StartupDataLoader.java:102-113 | when the user table was empty, the owner always gets a manager row in the first store, because the store step ran first |
| Startup.DefaultPlansResolve | src/main/java/com/cartwave/startup/StartupDataLoader.java:47-50 | the seeded names are unique and each resolves to its plan |
| Startup.SeededEntitlements | src/main/java/com/cartwave/startup/StartupDataLoader.java:47-50 | with the seeded plans: no subscription resolves to FREE; STARTER refuses the 101st product and allows payments but not custom domains; ENTERPRISE refuses no count; FREE refuses payments |
| Startup.DefaultStoreAtStaffLimit | src/main/java/com/cartwave/startup/StartupDataLoader.java:70-113 | the seeded store is already at its FREE staff limit (adding one is LimitExceeded(1, 1)) and may hold up to 20 products |
| Startup.StartupDataLoader.constructor | src/main/java/com/cartwave/startup/StartupDataLoader.java:32-37 | the loader holds the repositories and encoder it is given |
| Startup.StartupDataLoader.CreateIfMissing | src/main/java/com/cartwave/startup/StartupDataLoader.java:53-68 | the plan table after the call is what `AddPlanIfMissing` says, and so is the outcome |
| Startup.StartupDataLoader.SeedPlans | src/main/java/com/cartwave/startup/StartupDataLoader.java:46-51 | the four creations in order; a failing lookup ends the step with earlier plans saved |
| Startup.StartupDataLoader.SeedDefaultStoreAndSubscription | src/main/java/com/cartwave/startup/StartupDataLoader.java:70-89 | the store and subscription are appended only when the store table is empty |
| Startup.StartupDataLoader.SeedDefaultUserAndStaff | src/main/java/com/cartwave/startup/StartupDataLoader.java:91-115 | the user, and a manager row for the first store if any, are appended only when the user table is empty |
| Startup.StartupDataLoader.Run | src/main/java/com/cartwave/startup/StartupDataLoader.java:39-44 | the tables and outcome after a run are `Seed` of the tables before |

## Left out

- **Cryptography and serialisation.** JJWT signing, key derivation, and Base64/JSON compact serialisation are not modelled. They are the `sign`/`parse` pair, about which nothing is assumed. The parse oracle is the seam where the library's behaviour is given.
- **Token precision.** JWT dates are whole seconds, so a parsed expiry is issue time plus lifetime truncated to the second. The round-trip lemma assumes the parser returns the body as built.
- **Integer width.** `long` overflow of `now + lifetime` and of `currentCount + creating`, and the width of `Integer` limits, are not modelled; integers are unbounded.
- **Uuids.FromString.** Only the canonical 36-character form is accepted. `UUID.fromString` also accepts some non-canonical texts (shorter groups, groups with a leading sign), which no token built by this code contains.
- **Collaborators.** `JwtTokenProvider`, `CustomUserDetailsService`, `SecurityContextHolder`, `AuthenticationManager` and `PasswordEncoder` are not part of this model. The filter and registration take what these collaborators return or throw as inputs. `AuthService.login` only delegates to them and is left out.
- **Threads.** Concurrency across threads is not modelled, since a `ThreadLocal` cell is one object per thread. Thread reuse is modelled sequentially (`AuthFilter.ReusedThreadStartsEmpty`).
- **Transactions and paging.** `@Transactional`, paging (`Pageable`/`Page`), auditing timestamps, logging and exception messages are not modelled. Each operation is atomic, except seeding, whose saves stand individually. Lists are returned whole.
- **Mappers and enums.** MapStruct mappers are read as field copies of the fields the services touch. The order mapper's output is an input (`OrderDetails`). The builder it uses cannot set the inherited id, so a created order always gets a generated id. `UserRole` constants are the five role names the application uses. Statuses other than the ones the core sets are `Other(name)`.
- **Database constraints.** Column constraints (NOT NULL, UNIQUE on e-mail, slug and order number) are not enforced. A duplicate the database would reject is stored, and a later single-row lookup then reports IncorrectResultSize. The model shows that its own writers keep plan names unique (`Startup.AddPlansCounts`), but it does not show this for e-mail.
- **Products.GetProductById.** `findById` is the primary-key lookup. Tables do not enforce unique ids, so the first row with the id is used.
- **Products.UpdateProduct.** For the same reason, only the first row with the id is edited.
- **Stores.UpdateStore.** The save of the unchanged loaded store is modelled as a write-back of the same row. Dirty checking and auditing, which may touch `updatedAt`, are not modelled.
- **Orders.UpdateOrder.** The same applies to the save of the unchanged loaded order.
- **Tables.RemoveWhere.** States the length and the multiset of the rows kept, but not that they keep their relative order (the definition, a filter in table order, does keep it).
- **Registration input.** Bean-validation annotations on request bodies (e-mail format, not blank) are applied by controllers and are not modelled. Registration takes a non-null e-mail, password and role string.
