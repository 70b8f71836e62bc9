/**
 * The product service: creation behind the product-limit gate, lookups and
 * updates by primary key, hard delete, and the entity-to-DTO projection.
 */
module Products {
  import opened Base
  import opened Uuids
  import opened Tables
  import opened Entities
  import opened Tenancy
  import opened Subscriptions

  /** The product fields the API exchanges. */
  datatype ProductDto = ProductDto(
    id: Option<Uuid>,
    name: Option<string>,
    description: Option<string>,
    price: Option<Money>)

  /** `toDto`: the id and the three editable fields. */
  function ToDto(p: Product): (d: ProductDto)
    ensures d.id == Some(p.id)
    ensures Edit(p, d) == p
  {
    ProductDto(Some(p.id), p.name, p.description, p.price)
  }

  /** The three setters `updateProduct` applies; the id of the DTO is ignored. */
  function Edit(p: Product, dto: ProductDto): (q: Product)
    ensures q.id == p.id && q.storeId == p.storeId && q.stock == p.stock
    ensures q.status == p.status && q.deleted == p.deleted
    ensures q.name == dto.name && q.description == dto.description && q.price == dto.price
  {
    p.(name := dto.name, description := dto.description, price := dto.price)
  }

  /** `countByStoreIdAndDeletedFalse`: the store's products that are not soft-deleted. */
  function LiveProductOf(storeId: Uuid): Product -> bool
  {
    (p: Product) => p.storeId == storeId && !p.deleted
  }

  /** The primary-key query. */
  function ProductWithId(id: Uuid): Product -> bool
  {
    (p: Product) => p.id == id
  }

  /** The row `createProduct` builds for the bound store. */
  function NewProduct(storeId: Uuid, dto: ProductDto, newId: Uuid): (p: Product)
    ensures LiveProductOf(storeId)(p) && p.status == ProductStatus.Active && p.stock == 0
    ensures ToDto(p) == ProductDto(Some(newId), dto.name, dto.description, dto.price)
  {
    Product(newId, storeId, dto.name, dto.description, dto.price, 0, ProductStatus.Active, false)
  }

  /**
   * `createProduct`: the bound store's live products are counted and the gate
   * is asked for one more before anything is saved; a refused or unbound call
   * leaves the table as it was. `newId` is the id persistence generates.
   */
  method CreateProduct(ctx: TenantContext, products: Table<Product>, subscriptions: Table<Subscription>,
                       plans: Table<SubscriptionPlan>, dto: ProductDto, newId: Uuid)
    returns (r: Result<ProductDto, Error>)
    modifies products
    ensures ctx.tenant.None? ==> r == Failure(TenantAccessDenied) && products.rows == old(products.rows)
    ensures ctx.tenant.Some? ==>
      var gate := AssertCanCreateProducts(subscriptions.rows, plans.rows, ctx.tenant.value,
                                          Count(old(products.rows), LiveProductOf(ctx.tenant.value)), 1);
      && (gate.Fail? ==> r == Failure(gate.error) && products.rows == old(products.rows))
      && (gate.Pass? ==> products.rows == old(products.rows) + [NewProduct(ctx.tenant.value, dto, newId)]
                         && r == Success(ToDto(NewProduct(ctx.tenant.value, dto, newId))))
  {
    var storeId :- ctx.GetTenantId();
    var currentCount := Count(products.rows, LiveProductOf(storeId));
    var gate := AssertCanCreateProducts(subscriptions.rows, plans.rows, storeId, currentCount, 1);
    if gate.Fail? {
      return Failure(gate.error);
    }
    var product := NewProduct(storeId, dto, newId);
    products.Insert(product);
    r := Success(ToDto(product));
  }

  /**
   * With a positive product limit, a creation that succeeds leaves the store
   * with at most that many live products.
   */
  lemma {:induction false} CreateStaysWithinLimit(rows: seq<Product>, subscriptions: seq<Subscription>,
                                                  plans: seq<SubscriptionPlan>, storeId: Uuid, dto: ProductDto, newId: Uuid)
    requires GetProductLimit(subscriptions, plans, storeId).Success?
    requires GetProductLimit(subscriptions, plans, storeId).value.Some?
    requires GetProductLimit(subscriptions, plans, storeId).value.value > 0
    requires AssertCanCreateProducts(subscriptions, plans, storeId, Count(rows, LiveProductOf(storeId)), 1) == Pass
    ensures Count(rows + [NewProduct(storeId, dto, newId)], LiveProductOf(storeId))
            <= GetProductLimit(subscriptions, plans, storeId).value.value
  {
    GatedInsertStaysWithinLimit(rows, LiveProductOf(storeId), GetProductLimit(subscriptions, plans, storeId).value.value,
                                NewProduct(storeId, dto, newId));
  }

  /** `getAllProducts`: every stored product, of every store and deleted or not, projected. */
  function GetAllProducts(rows: seq<Product>): (r: seq<ProductDto>)
    ensures |r| == |rows|
    ensures forall i :: 0 <= i < |rows| ==> r[i] == ToDto(rows[i])
  {
    if rows == [] then [] else [ToDto(rows[0])] + GetAllProducts(rows[1..])
  }

  /** `getProductById`: `findById` has no store or soft-delete filter; an unknown id is "Product not found". */
  function GetProductById(rows: seq<Product>, id: Uuid): (r: Result<ProductDto, Error>)
    ensures r.Success? <==> exists p :: p in rows && p.id == id
    ensures r.Success? ==> exists p :: p in rows && p.id == id && r.value == ToDto(p)
    ensures r.Failure? ==> r.error == ProductNotFound
  {
    match Find(rows, ProductWithId(id))
    case None => Failure(ProductNotFound)
    case Some(p) => Success(ToDto(p))
  }

  /**
   * `updateProduct`: the row with that id gets the DTO's name, description
   * and price and keeps everything else; an unknown id changes nothing.
   */
  method UpdateProduct(products: Table<Product>, id: Uuid, dto: ProductDto) returns (r: Result<ProductDto, Error>)
    modifies products
    ensures IndexOf(old(products.rows), ProductWithId(id)).None? ==>
      r == Failure(ProductNotFound) && products.rows == old(products.rows)
    ensures IndexOf(old(products.rows), ProductWithId(id)).Some? ==>
      var k := IndexOf(old(products.rows), ProductWithId(id)).value;
      && products.rows == old(products.rows)[k := Edit(old(products.rows)[k], dto)]
      && r == Success(ProductDto(Some(id), dto.name, dto.description, dto.price))
  {
    var k := IndexOf(products.rows, ProductWithId(id));
    if k.None? {
      return Failure(ProductNotFound);
    }
    var updated := Edit(products.rows[k.value], dto);
    products.Replace(k.value, updated);
    r := Success(ToDto(updated));
  }

  /** `deleteProduct`: a hard delete of the rows with that id; an unknown id is not an error. */
  method DeleteProduct(products: Table<Product>, id: Uuid)
    modifies products
    ensures products.rows == RemoveWhere(old(products.rows), ProductWithId(id))
    ensures |products.rows| == |old(products.rows)| - Count(old(products.rows), ProductWithId(id))
    ensures forall p :: p in products.rows ==> p in old(products.rows) && p.id != id
    ensures forall p :: p in old(products.rows) && p.id != id ==> p in products.rows
  {
    products.DeleteWhere(ProductWithId(id));
  }
}
