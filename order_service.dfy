/** The order service: every operation is scoped to the bound store. */
module Orders {
  import opened Base
  import opened Uuids
  import opened Tables
  import opened Entities
  import opened Tenancy

  /** The order fields the API exchanges; the owning store is not among them. */
  datatype OrderDto = OrderDto(id: Uuid, details: OrderDetails)

  function ToOrderDto(o: Order): (d: OrderDto)
    ensures d.id == o.id && d.details == o.details
  {
    OrderDto(o.id, o.details)
  }

  /** `findByStoreId`: rows of that store that are not soft-deleted. */
  function LiveOrderOf(storeId: Uuid): Order -> bool
  {
    (o: Order) => o.storeId == storeId && !o.deleted
  }

  /** `findByIdAndStoreId`: that id, that store, not soft-deleted. */
  function LiveOrderWithId(id: Uuid, storeId: Uuid): Order -> bool
  {
    (o: Order) => o.id == id && o.storeId == storeId && !o.deleted
  }

  /** The order of that id visible to that store: ResourceNotFound for a missing, foreign or deleted order. */
  function FindOrder(rows: seq<Order>, id: Uuid, storeId: Uuid): (r: Result<Order, Error>)
    ensures r.Success? ==> r.value in rows && r.value.id == id && r.value.storeId == storeId && !r.value.deleted
    ensures r == Failure(ResourceNotFound("Order")) <==>
      forall o :: o in rows ==> !(o.id == id && o.storeId == storeId && !o.deleted)
    ensures r.Failure? ==> r.error in {ResourceNotFound("Order"), IncorrectResultSize}
    ensures r == Failure(IncorrectResultSize) <==> Count(rows, LiveOrderWithId(id, storeId)) > 1
    ensures Count(rows, LiveOrderWithId(id, storeId)) == 1 ==>
      forall o :: o in rows && o.id == id && o.storeId == storeId && !o.deleted ==> r == Success(o)
  {
    var found :- FindUnique(rows, LiveOrderWithId(id, storeId));
    if found.None? then Failure(ResourceNotFound("Order")) else Success(found.value)
  }

  /** The orders of that store that are not soft-deleted, in table order. */
  function OrdersOf(rows: seq<Order>, storeId: Uuid): (r: seq<Order>)
    ensures forall o :: o in r <==> o in rows && o.storeId == storeId && !o.deleted
  {
    Filter(rows, LiveOrderOf(storeId))
  }

  function ToOrderDtos(orders: seq<Order>): (r: seq<OrderDto>)
    ensures |r| == |orders|
    ensures forall i :: 0 <= i < |orders| ==> r[i] == ToOrderDto(orders[i])
  {
    if orders == [] then [] else [ToOrderDto(orders[0])] + ToOrderDtos(orders[1..])
  }

  /** `getOrderById`: the bound store's order of that id, or an error; nothing changes. */
  method GetOrderById(ctx: TenantContext, orders: Table<Order>, id: Uuid) returns (r: Result<OrderDto, Error>)
    ensures ctx.tenant.None? ==> r == Failure(TenantAccessDenied)
    ensures ctx.tenant.Some? ==> match FindOrder(orders.rows, id, ctx.tenant.value)
      case Success(o) => r == Success(ToOrderDto(o))
      case Failure(e) => r == Failure(e)
    ensures r.Success? ==> exists o :: o in orders.rows && o.id == id && ctx.tenant == Some(o.storeId) && !o.deleted
  {
    var storeId :- ctx.GetTenantId();
    var order :- FindOrder(orders.rows, id, storeId);
    r := Success(ToOrderDto(order));
  }

  /** `getOrdersByStore`: the bound store's live orders, projected; nothing changes. */
  method GetOrdersByStore(ctx: TenantContext, orders: Table<Order>) returns (r: Result<seq<OrderDto>, Error>)
    ensures ctx.tenant.None? ==> r == Failure(TenantAccessDenied)
    ensures ctx.tenant.Some? ==> r == Success(ToOrderDtos(OrdersOf(orders.rows, ctx.tenant.value)))
    ensures r.Success? ==> forall d :: d in r.value ==>
      exists o :: o in orders.rows && ctx.tenant == Some(o.storeId) && !o.deleted && d == ToOrderDto(o)
  {
    var storeId :- ctx.GetTenantId();
    var visible := OrdersOf(orders.rows, storeId);
    r := Success(ToOrderDtos(visible));
    forall d | d in r.value
      ensures exists o :: o in orders.rows && o.storeId == storeId && !o.deleted && d == ToOrderDto(o)
    {
      var i :| 0 <= i < |r.value| && r.value[i] == d;
      assert visible[i] in visible;
    }
  }

  /**
   * `createOrder`: the mapped fields are saved under the bound store, whatever
   * the request said; `newId` is the id persistence generates.
   */
  method CreateOrder(ctx: TenantContext, orders: Table<Order>, details: OrderDetails, newId: Uuid)
    returns (r: Result<OrderDto, Error>)
    modifies orders
    ensures ctx.tenant.None? ==> r == Failure(TenantAccessDenied) && orders.rows == old(orders.rows)
    ensures ctx.tenant.Some? ==>
      && orders.rows == old(orders.rows) + [Order(newId, ctx.tenant.value, details, false)]
      && r == Success(OrderDto(newId, details))
  {
    var storeId :- ctx.GetTenantId();
    var order := Order(newId, storeId, details, false);
    orders.Insert(order);
    r := Success(ToOrderDto(order));
  }

  /**
   * `updateOrder`: the bound store's order is looked up and saved back as
   * loaded; the request's fields are not applied, so the rows stay as they were.
   */
  method UpdateOrder(ctx: TenantContext, orders: Table<Order>, id: Uuid, details: OrderDetails)
    returns (r: Result<OrderDto, Error>)
    modifies orders
    ensures ctx.tenant.None? ==> r == Failure(TenantAccessDenied)
    ensures ctx.tenant.Some? ==> match FindOrder(old(orders.rows), id, ctx.tenant.value)
      case Success(o) => r == Success(ToOrderDto(o))
      case Failure(e) => r == Failure(e)
    ensures orders.rows == old(orders.rows)
  {
    var storeId :- ctx.GetTenantId();
    var order :- FindOrder(orders.rows, id, storeId);
    var k := IndexOf(orders.rows, LiveOrderWithId(id, storeId));
    assert order in orders.rows;
    orders.Replace(k.value, orders.rows[k.value]);
    r := Success(ToOrderDto(order));
  }

  /** A created order is visible to its own store and to no other. */
  lemma {:induction false} CreatedOrderVisibility(rows: seq<Order>, storeId: Uuid, details: OrderDetails, newId: Uuid, other: Uuid)
    ensures Order(newId, storeId, details, false) in OrdersOf(rows + [Order(newId, storeId, details, false)], storeId)
    ensures other != storeId ==> OrdersOf(rows + [Order(newId, storeId, details, false)], other) == OrdersOf(rows, other)
  {
    var row := Order(newId, storeId, details, false);
    assert (rows + [row])[..|rows|] == rows;
  }
}
