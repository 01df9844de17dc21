/** The product store: a module-level array of products, appended to on
    create, looked up by first match, replaced at one index on update, and
    deactivated in place on delete (products are never removed). */
module Products {
  import opened Seqs
  import opened Model

  function HasProductId(id: string): Product -> bool
  {
    (p: Product) => p.id == id
  }

  /** The index `products.findIndex(p => p.id === id)` yields. */
  function ProductIndex(ps: seq<Product>, id: string): Option<nat>
  {
    FirstIndex(ps, HasProductId(id))
  }

  /** The store after `updateProduct(id, updates)`: the first product with
      that id takes the keys present in `updates` and keeps every other field;
      no other product changes and the length is kept. */
  function UpdatedProducts(ps: seq<Product>, id: string, u: ProductPatch, now: int): (r: seq<Product>)
    ensures |r| == |ps|
    ensures ProductIndex(ps, id).None? ==> r == ps
    ensures ProductIndex(ps, id).Some? ==>
      var k := ProductIndex(ps, id).value;
      && r[k] == MergeProduct(ps[k], u, now)
      && forall j :: 0 <= j < |ps| && j != k ==> r[j] == ps[j]
  {
    match ProductIndex(ps, id)
    case None => ps
    case Some(k) => ps[k := MergeProduct(ps[k], u, now)]
  }

  /** Soft-deleting twice finds the same product again and leaves the store
      as deleting once did, but for update times: the product stays
      inactive. */
  lemma SoftDeleteTwice(ps: seq<Product>, id: string, t1: int, t2: int)
    ensures var u := NoProductChange.(isActive := Some(false));
            var once := UpdatedProducts(ps, id, u, t1);
            var twice := UpdatedProducts(once, id, u, t2);
            && ProductIndex(once, id) == ProductIndex(ps, id)
            && |twice| == |ps|
            && (forall k :: 0 <= k < |ps| ==> twice[k] == once[k].(updatedAt := twice[k].updatedAt))
            && (ProductIndex(ps, id).Some? ==> !twice[ProductIndex(ps, id).value].isActive)
  {
    var u := NoProductChange.(isActive := Some(false));
    var once := UpdatedProducts(ps, id, u, t1);
    forall j | 0 <= j < |ps| ensures once[j].id == ps[j].id {
      if ProductIndex(ps, id) == Some(j) {
        assert once[j] == MergeProduct(ps[j], u, t1);
      }
    }
    FirstIndexSameKeys(once, HasProductId(id), ps, HasProductId(id));
  }

  class ProductRepository {
    var products: seq<Product>

    constructor()
      ensures products == []
    {
      products := [];
    }

    /** `createProduct`: appends one product; `isActive` defaults to true. */
    method CreateProduct(id: string, name: string, description: string, price: int,
                         stock: int, isActive: Option<bool>, now: int) returns (p: Product)
      modifies this
      ensures p == Product(id, name, description, price, stock,
                           if isActive.Some? then isActive.value else true, now, now)
      ensures products == old(products) + [p]
    {
      p := Product(id, name, description, price, stock,
                   if isActive.Some? then isActive.value else true, now, now);
      products := products + [p];
    }

    /** `findById`: the first product with the id, active or not. */
    function FindById(id: string): (r: Option<Product>)
      reads this
      ensures r.None? <==> forall j :: 0 <= j < |products| ==> products[j].id != id
      ensures r.Some? ==> ProductIndex(products, id).Some?
                          && r.value == products[ProductIndex(products, id).value]
                          && r.value.id == id
    {
      Find(products, HasProductId(id))
    }

    /** `findAll(filterFn)`: the products satisfying the filter, in store order. */
    function FindAll(f: Product -> bool): (r: seq<Product>)
      reads this
      ensures forall i :: 0 <= i < |r| ==> r[i] in products && f(r[i])
      ensures forall j :: 0 <= j < |products| && f(products[j]) ==> products[j] in r
    {
      Filter(products, f)
    }

    /** `updateProduct`: null and no change for an unknown id; otherwise the
        merged record, written back at the matched index only. */
    method UpdateProduct(id: string, updates: ProductPatch, now: int) returns (r: Option<Product>)
      modifies this
      ensures products == UpdatedProducts(old(products), id, updates, now)
      ensures r.None? <==> ProductIndex(old(products), id).None?
      ensures r.Some? ==> r.value == products[ProductIndex(old(products), id).value]
    {
      var index := ProductIndex(products, id);
      if index.None? {
        return None;
      }
      products := products[index.value := MergeProduct(products[index.value], updates, now)];
      r := Some(products[index.value]);
    }

    /** `softDeleteProduct`: null for an unknown id; otherwise only `isActive`
        (false) and `updatedAt` of the matched product change. */
    method SoftDeleteProduct(id: string, now: int) returns (r: Option<Product>)
      modifies this
      ensures products == UpdatedProducts(old(products), id, NoProductChange.(isActive := Some(false)), now)
      ensures r.None? <==> ProductIndex(old(products), id).None?
      ensures r.Some? ==> var old_p := old(products)[ProductIndex(old(products), id).value];
                          r.value == old_p.(isActive := false, updatedAt := now)
    {
      var index := ProductIndex(products, id);
      if index.None? {
        return None;
      }
      var k := index.value;
      products := products[k := products[k].(isActive := false)];
      products := products[k := products[k].(updatedAt := now)];
      r := Some(products[k]);
    }
  }
}
