/** The product services: create, the filtered and paginated listing,
    lookup, the whitelisted update, soft delete and the stock update. Only
    active products are visible to the services; deleted ones stay in the
    store. */
module ProductService {
  import opened Seqs
  import opened Text
  import opened Model
  import opened Products
  import opened Paging

  /** `createProductService`: the new product is always active. */
  method CreateProductService(products: ProductRepository, id: string, name: string, description: string,
                              price: int, stock: int, now: int) returns (p: Product)
    modifies products
    ensures p.isActive && p.id == id && p.name == name && p.description == description
    ensures p.price == price && p.stock == stock
    ensures products.products == old(products.products) + [p]
  {
    p := products.CreateProduct(id, name, description, price, stock, Some(true), now);
  }

  // ----- listProductsService -----

  /** The listing's query parameters; None is an absent (or empty)
      parameter. */
  datatype ProductQuery = ProductQuery(search: Option<string>, minPrice: Option<int>, maxPrice: Option<int>)

  /** The listing filter: active, the search term in the name or the
      description ignoring case, and the price within inclusive bounds. */
  predicate MatchesQuery(q: ProductQuery, p: Product)
  {
    && p.isActive
    && (q.search.Some? ==>
          Contains(ToLower(p.name), ToLower(q.search.value))
          || Contains(ToLower(p.description), ToLower(q.search.value)))
    && (q.minPrice.Some? ==> p.price >= q.minPrice.value)
    && (q.maxPrice.Some? ==> p.price <= q.maxPrice.value)
  }

  function QueryFilter(q: ProductQuery): Product -> bool
  {
    (p: Product) => MatchesQuery(q, p)
  }

  /** The products the listing counts, in store order. */
  function Listed(ps: seq<Product>, q: ProductQuery): (r: seq<Product>)
    ensures forall i :: 0 <= i < |r| ==> r[i] in ps && r[i].isActive && MatchesQuery(q, r[i])
    ensures forall j :: 0 <= j < |ps| && MatchesQuery(q, ps[j]) ==> ps[j] in r
  {
    Filter(ps, QueryFilter(q))
  }

  /** `listProductsService`, once `getPagination` has produced `page`,
      `limit` and `skip`. */
  function ListProducts(ps: seq<Product>, q: ProductQuery, page: nat, limit: nat, skip: nat): (r: Page<Product>)
    requires limit > 0
    ensures r.meta == Meta(page, limit, |Listed(ps, q)|, TotalPages(|Listed(ps, q)|, limit))
    ensures var n := |Listed(ps, q)|;
            |r.items| == if skip >= n then 0 else if skip + limit <= n then limit else n - skip
    ensures forall i :: 0 <= i < |r.items| ==>
      && skip + i < |Listed(ps, q)|
      && r.items[i] == Listed(ps, q)[skip + i]
      && r.items[i] in ps && r.items[i].isActive && MatchesQuery(q, r.items[i])
  {
    Paginate(Listed(ps, q), page, limit, skip)
  }

  /** The search ignores case: searching for a term and for its lower-case
      form list the same products. */
  lemma SearchIgnoresCase(ps: seq<Product>, q: ProductQuery)
    requires q.search.Some?
    ensures Listed(ps, q.(search := Some(ToLower(q.search.value)))) == Listed(ps, q)
  {
    ToLowerIdempotent(q.search.value);
    FilterSamePredicate(ps, QueryFilter(q.(search := Some(ToLower(q.search.value)))), QueryFilter(q));
  }

  // ----- getProductByIdService -----

  /** `getProductByIdService`: only active products are found. */
  function GetProductById(ps: seq<Product>, id: string): (r: Result<Product>)
    ensures r.Err? <==> Find(ps, HasProductId(id)).None? || !Find(ps, HasProductId(id)).value.isActive
    ensures r.Err? ==> r.error == NotFound
    ensures r.Ok? ==> r.value in ps && r.value.id == id && r.value.isActive
    ensures r.Ok? ==> ProductIndex(ps, id).Some? && r.value == ps[ProductIndex(ps, id).value]
  {
    match Find(ps, HasProductId(id))
    case None => Err(NotFound)
    case Some(p) => if !p.isActive then Err(NotFound) else Ok(p)
  }

  // ----- updateProductService -----

  /** The keys `updateProductService` copies, in the order it copies them. */
  datatype Field = Name | Description | Price | Stock | IsActive

  const AllowedFields: seq<Field> := [Name, Description, Price, Stock, IsActive]

  /** One iteration of the whitelist loop: copy key `f` if it is present. */
  function CopyField(safe: ProductPatch, updates: ProductPatch, f: Field): ProductPatch
  {
    match f
    case Name => if updates.name.Some? then safe.(name := updates.name) else safe
    case Description => if updates.description.Some? then safe.(description := updates.description) else safe
    case Price => if updates.price.Some? then safe.(price := updates.price) else safe
    case Stock => if updates.stock.Some? then safe.(stock := updates.stock) else safe
    case IsActive => if updates.isActive.Some? then safe.(isActive := updates.isActive) else safe
  }

  /** The whitelist loop of `updateProductService`: `safeUpdates` holds
      exactly the allowed keys present in `updates`; `id` is never copied. */
  method SafeUpdates(updates: ProductPatch) returns (safe: ProductPatch)
    ensures safe.id.None?
    ensures safe.name == updates.name && safe.description == updates.description
    ensures safe.price == updates.price && safe.stock == updates.stock
    ensures safe.isActive == updates.isActive
  {
    safe := NoProductChange;
    var i := 0;
    while i < |AllowedFields|
      invariant 0 <= i <= |AllowedFields|
      invariant safe.id.None?
      // the keys copied so far are those before position i of the whitelist
      invariant safe.name == (if i > 0 then updates.name else None)
      invariant safe.description == (if i > 1 then updates.description else None)
      invariant safe.price == (if i > 2 then updates.price else None)
      invariant safe.stock == (if i > 3 then updates.stock else None)
      invariant safe.isActive == (if i > 4 then updates.isActive else None)
    {
      safe := CopyField(safe, updates, AllowedFields[i]);
      i := i + 1;
    }
  }

  /** `updates` with every key but the allowed ones removed. */
  function Whitelisted(updates: ProductPatch): ProductPatch
  {
    updates.(id := None)
  }

  /** `updateProductService`: the new store and the updated product. */
  function UpdateProduct(ps: seq<Product>, id: string, updates: ProductPatch, now: int)
    : (r: Result<(seq<Product>, Product)>)
    ensures r.Err? <==> Find(ps, HasProductId(id)).None? || !Find(ps, HasProductId(id)).value.isActive
    ensures r.Err? ==> r.error == NotFound
    ensures r.Ok? ==>
      var before := Find(ps, HasProductId(id)).value;
      && r.value.0 == UpdatedProducts(ps, id, Whitelisted(updates), now)
      && r.value.1 == MergeProduct(before, Whitelisted(updates), now)
      && r.value.1.id == id
  {
    match Find(ps, HasProductId(id))
    case None => Err(NotFound)
    case Some(p) =>
      if !p.isActive then Err(NotFound)
      else
        var k := ProductIndex(ps, id).value;
        var after := UpdatedProducts(ps, id, Whitelisted(updates), now);
        Ok((after, after[k]))
  }

  /** An update never moves a product to another id, whatever keys the
      request carries, so every lookup by id finds the same place
      afterwards. */
  lemma UpdateKeepsProductIds(ps: seq<Product>, id: string, updates: ProductPatch, now: int)
    requires UpdateProduct(ps, id, updates, now).Ok?
    ensures var after := UpdateProduct(ps, id, updates, now).value.0;
            && |after| == |ps|
            && (forall j :: 0 <= j < |ps| ==> after[j].id == ps[j].id)
            && forall x :: ProductIndex(after, x) == ProductIndex(ps, x)
  {
    var after := UpdateProduct(ps, id, updates, now).value.0;
    forall j | 0 <= j < |ps| ensures after[j].id == ps[j].id {
      if ProductIndex(ps, id) == Some(j) {
        assert after[j] == MergeProduct(ps[j], Whitelisted(updates), now);
      }
    }
    forall x ensures ProductIndex(after, x) == ProductIndex(ps, x) {
      FirstIndexSameKeys(after, HasProductId(x), ps, HasProductId(x));
    }
  }

  /** `updateProductService` against the store. */
  method UpdateProductService(products: ProductRepository, id: string, updates: ProductPatch, now: int)
    returns (r: Result<Product>)
    modifies products
    ensures var u := UpdateProduct(old(products.products), id, updates, now);
            && (u.Err? ==> r == Err(u.error) && products.products == old(products.products))
            && (u.Ok? ==> r == Ok(u.value.1) && products.products == u.value.0)
  {
    var existing := products.FindById(id);
    if existing.None? || !existing.value.isActive {
      return Err(NotFound);
    }
    var safe := SafeUpdates(updates);
    assert safe == Whitelisted(updates);
    var updated := products.UpdateProduct(id, safe, now);
    return Ok(updated.value);
  }

  // ----- deleteProductService -----

  /** `deleteProductService`: the new store and the deactivated product. */
  function DeleteProduct(ps: seq<Product>, id: string, now: int): (r: Result<(seq<Product>, Product)>)
    ensures r.Err? <==> Find(ps, HasProductId(id)).None? || !Find(ps, HasProductId(id)).value.isActive
    ensures r.Err? ==> r.error == NotFound
    ensures r.Ok? ==>
      && r.value.0 == UpdatedProducts(ps, id, NoProductChange.(isActive := Some(false)), now)
      && r.value.1 == Find(ps, HasProductId(id)).value.(isActive := false, updatedAt := now)
  {
    match Find(ps, HasProductId(id))
    case None => Err(NotFound)
    case Some(p) =>
      if !p.isActive then Err(NotFound)
      else
        var k := ProductIndex(ps, id).value;
        var after := UpdatedProducts(ps, id, NoProductChange.(isActive := Some(false)), now);
        Ok((after, after[k]))
  }

  /** A deleted product is gone for the services: looking it up, updating
      it, deleting it again and changing its stock all fail with NotFound,
      and no listing shows the deactivated record; it keeps its stock, price
      and name. */
  lemma DeletedProductIsGone(ps: seq<Product>, id: string, now: int, q: ProductQuery)
    requires DeleteProduct(ps, id, now).Ok?
    ensures var after := DeleteProduct(ps, id, now).value.0;
            && GetProductById(after, id) == Err(NotFound)
            && DeleteProduct(after, id, now) == Err(NotFound)
            && (forall s, t :: UpdateStock(after, id, s, t) == Err(NotFound))
            && (forall u, t :: UpdateProduct(after, id, u, t) == Err(NotFound))
            && DeleteProduct(ps, id, now).value.1 !in Listed(after, q)
            && Find(after, HasProductId(id)).Some?
            && var d := Find(after, HasProductId(id)).value;
               var p := Find(ps, HasProductId(id)).value;
               d.stock == p.stock && d.price == p.price && d.name == p.name
  {
    var after := DeleteProduct(ps, id, now).value.0;
    var k := ProductIndex(ps, id).value;
    var u := NoProductChange.(isActive := Some(false));
    forall j | 0 <= j < |ps| ensures after[j].id == ps[j].id {
      if j == k {
        assert after[j] == MergeProduct(ps[j], u, now);
      }
    }
    FirstIndexSameKeys(after, HasProductId(id), ps, HasProductId(id));
  }

  /** `deleteProductService` against the store. */
  method DeleteProductService(products: ProductRepository, id: string, now: int) returns (r: Result<Product>)
    modifies products
    ensures var d := DeleteProduct(old(products.products), id, now);
            && (d.Err? ==> r == Err(d.error) && products.products == old(products.products))
            && (d.Ok? ==> r == Ok(d.value.1) && products.products == d.value.0)
  {
    var existing := products.FindById(id);
    if existing.None? || !existing.value.isActive {
      return Err(NotFound);
    }
    var deleted := products.SoftDeleteProduct(id, now);
    return Ok(deleted.value);
  }

  // ----- updateStockService -----

  /** `updateStockService`: the new store and the product with its new
      stock. The stock is not checked here; the request validation admits
      only non-negative integers. */
  function UpdateStock(ps: seq<Product>, id: string, stock: int, now: int): (r: Result<(seq<Product>, Product)>)
    ensures r.Err? <==> Find(ps, HasProductId(id)).None? || !Find(ps, HasProductId(id)).value.isActive
    ensures r.Err? ==> r.error == NotFound
    ensures r.Ok? ==>
      && r.value.0 == UpdatedProducts(ps, id, NoProductChange.(stock := Some(stock)), now)
      && r.value.1 == Find(ps, HasProductId(id)).value.(stock := stock, updatedAt := now)
  {
    match Find(ps, HasProductId(id))
    case None => Err(NotFound)
    case Some(p) =>
      if !p.isActive then Err(NotFound)
      else
        var k := ProductIndex(ps, id).value;
        var after := UpdatedProducts(ps, id, NoProductChange.(stock := Some(stock)), now);
        Ok((after, after[k]))
  }

  /** Setting a stock the request validation admits (a non-negative
      integer) keeps every stock non-negative. */
  lemma UpdateStockKeepsNonNegative(ps: seq<Product>, id: string, stock: int, now: int)
    requires stock >= 0
    requires forall j :: 0 <= j < |ps| ==> ps[j].stock >= 0
    requires UpdateStock(ps, id, stock, now).Ok?
    ensures var after := UpdateStock(ps, id, stock, now).value.0;
            forall j :: 0 <= j < |after| ==> after[j].stock >= 0
  {
    var after := UpdateStock(ps, id, stock, now).value.0;
    var k := ProductIndex(ps, id).value;
    forall j | 0 <= j < |after| ensures after[j].stock >= 0 {
      if j == k {
        assert after[j] == MergeProduct(ps[j], NoProductChange.(stock := Some(stock)), now);
      }
    }
  }

  /** `updateStockService` against the store. */
  method UpdateStockService(products: ProductRepository, id: string, stock: int, now: int) returns (r: Result<Product>)
    modifies products
    ensures var u := UpdateStock(old(products.products), id, stock, now);
            && (u.Err? ==> r == Err(u.error) && products.products == old(products.products))
            && (u.Ok? ==> r == Ok(u.value.1) && products.products == u.value.0)
  {
    var existing := products.FindById(id);
    if existing.None? || !existing.value.isActive {
      return Err(NotFound);
    }
    var updated := products.UpdateProduct(id, NoProductChange.(stock := Some(stock)), now);
    return Ok(updated.value);
  }
}
