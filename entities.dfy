/**
 * The persisted entities, as records holding the fields the services read or
 * write. Every entity has the `id` and soft-delete `deleted` flag of its base
 * class; tenant-scoped entities carry the owning store's id. Prices and amounts
 * are exact decimals (`real`); no arithmetic is done on them.
 */
module Entities {
  import opened Base
  import opened Uuids

  type Money = real

  datatype Store = Store(id: Uuid, name: string, slug: string, deleted: bool)

  datatype SubscriptionStatus = Active | Other(name: string)

  /** A store's link to a plan, found by store id among the rows not soft-deleted. */
  datatype Subscription = Subscription(
    id: Uuid,
    storeId: Uuid,
    planName: string,
    status: SubscriptionStatus,
    amount: Money,
    autoRenewal: bool,
    deleted: bool)

  /**
   * Reference data looked up by its unique name. The limits are nullable
   * integers where zero (and, in the gate, any non-positive value) means
   * unlimited; the feature flags are nullable booleans.
   */
  datatype SubscriptionPlan = SubscriptionPlan(
    name: string,
    description: string,
    productLimit: Option<int>,
    staffLimit: Option<int>,
    paymentsEnabled: Option<bool>,
    customDomainEnabled: Option<bool>,
    price: Money)

  datatype ProductStatus = Active | Other(name: string)

  datatype Product = Product(
    id: Uuid,
    storeId: Uuid,
    name: Option<string>,
    description: Option<string>,
    price: Option<Money>,
    stock: int,
    status: ProductStatus,
    deleted: bool)

  datatype StaffRole = Manager | Other(name: string)

  datatype StaffStatus = Active | Other(name: string)

  datatype Staff = Staff(
    id: Uuid,
    userId: Uuid,
    storeId: Uuid,
    role: StaffRole,
    status: StaffStatus,
    deleted: bool)

  datatype OrderStatus = Pending | Confirmed | Processing | Shipped | Delivered | Cancelled | Refunded

  datatype PaymentStatus = Pending | Processing | Completed | Failed | Refunded | PartiallyRefunded

  /** The order fields the mapper copies from the request body. */
  datatype OrderDetails = OrderDetails(
    orderNumber: Option<string>,
    customerId: Option<Uuid>,
    totalAmount: Option<Money>,
    status: Option<OrderStatus>,
    paymentStatus: Option<PaymentStatus>)

  datatype Order = Order(id: Uuid, storeId: Uuid, details: OrderDetails, deleted: bool)

  datatype BillingTransaction = BillingTransaction(
    id: Uuid,
    storeId: Uuid,
    transactionId: string,
    amount: Money,
    deleted: bool)
}

/** The user account entity and its enums. */
module Users {
  import opened Base
  import opened Uuids

  datatype UserRole = SuperAdmin | Admin | BusinessOwner | Staff | Customer

  datatype UserStatus = Active | Other(name: string)

  datatype User = User(
    id: Uuid,
    email: string,
    password: string,
    role: UserRole,
    status: UserStatus,
    deleted: bool)

  /**
   * `UserRole.valueOf`: the constant with exactly that name, or `None` for the
   * IllegalArgumentException thrown on any other string.
   */
  function RoleNamed(name: string): (r: Option<UserRole>)
    ensures r.Some? ==> RoleName(r.value) == name
    ensures forall role :: RoleName(role) == name ==> r == Some(role)
  {
    if name == "SUPER_ADMIN" then Some(SuperAdmin)
    else if name == "ADMIN" then Some(Admin)
    else if name == "BUSINESS_OWNER" then Some(BusinessOwner)
    else if name == "STAFF" then Some(Staff)
    else if name == "CUSTOMER" then Some(Customer)
    else None
  }

  function RoleName(role: UserRole): string
  {
    match role
    case SuperAdmin => "SUPER_ADMIN"
    case Admin => "ADMIN"
    case BusinessOwner => "BUSINESS_OWNER"
    case Staff => "STAFF"
    case Customer => "CUSTOMER"
  }
}
