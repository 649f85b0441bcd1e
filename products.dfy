/**
 * The product collection behind `ProductDAO` (src/dao/models/productDAO.js):
 * product records keyed by id, in natural order, modelled as insertion order, with the
 * create / find-by-id / partial update / delete operations. The listing
 * operation `getAllProducts` is in module Pagination.
 */
module Products {
  import opened Wrappers
  import Seqs

  /** Product ids are totally ordered, as MongoDB object ids are; the listing sorts on that order. */
  type ProductId = nat

  datatype Product = Product(id: ProductId, title: string, category: string, price: int, stock: int)

  /** The fields a caller supplies to `createProduct`. */
  datatype ProductData = ProductData(title: string, category: string, price: int, stock: int)

  /** An update document for `updateProduct`: only the fields that are present are overwritten. */
  datatype ProductPatch = ProductPatch(title: Option<string>, category: Option<string>, price: Option<int>, stock: Option<int>)

  function Override<T>(old_: T, given: Option<T>): T {
    if given.Some? then given.value else old_
  }

  /** The record `findByIdAndUpdate(id, patch, {new: true})` yields for product p. */
  function Patched(p: Product, d: ProductPatch): (patched: Product) {
    Product(p.id, Override(p.title, d.title), Override(p.category, d.category),
            Override(p.price, d.price), Override(p.stock, d.stock))
  }

  /** The update document `{ stock: n }` that checkout writes. */
  function StockPatch(n: int): (patch: ProductPatch) {
    ProductPatch(None, None, None, Some(n))
  }

  /** Two successive updates; on a field both name, the later one wins. */
  function Merge(a: ProductPatch, b: ProductPatch): (merged: ProductPatch) {
    ProductPatch(Later(a.title, b.title), Later(a.category, b.category),
                 Later(a.price, b.price), Later(a.stock, b.stock))
  }

  function Later<T>(a: Option<T>, b: Option<T>): Option<T> {
    if b.Some? then b else a
  }

  /** Writing `{ stock: n }` changes the stock to n and nothing else. */
  lemma StockPatchOnlyStock(p: Product, n: int)
    ensures Patched(p, StockPatch(n)) == p.(stock := n)
  {
  }

  /** Applying a at then b is applying their merge once; in particular an update is idempotent. */
  lemma PatchesCompose(p: Product, a: ProductPatch, b: ProductPatch)
    ensures Patched(Patched(p, a), b) == Patched(p, Merge(a, b))
    ensures Patched(Patched(p, a), a) == Patched(p, a)
  {
  }

  ghost predicate NoDup(s: seq<ProductId>) {
    forall x :: multiset(s)[x] <= 1
  }

  function IdIsNot(id: ProductId): ProductId -> bool {
    x => x != id
  }

  class ProductDAO {
    /** The stored products, by id. */
    var products: map<ProductId, Product>
    /** The ids of the stored products in the collection's natural order, modelled as insertion order. */
    var order: seq<ProductId>

    ghost predicate Valid()
      reads this
    {
      && NoDup(order)
      && (forall id :: id in products <==> id in order)
      && (forall id :: id in products ==> products[id].id == id)
    }

    constructor ()
      ensures Valid() && products == map[] && order == []
    {
      products := map[];
      order := [];
    }

    /** The stored products in natural order; each stored product appears exactly once. */
    function Documents(): (docs: seq<Product>)
      reads this
      requires Valid()
      ensures |docs| == |order|
      ensures forall i :: 0 <= i < |docs| ==> docs[i] == products[order[i]] && docs[i].id == order[i]
    {
      var ps, ids := products, order;
      assert forall i :: 0 <= i < |ids| ==> ids[i] in ps;
      seq(|ids|, i requires 0 <= i < |ids| => ps[ids[i]])
    }

    /** `createProduct`: stores a product under a fresh id and returns it. */
    method CreateProduct(id: ProductId, data: ProductData) returns (p: Product)
      requires Valid() && id !in products
      modifies this
      ensures Valid()
      ensures p == Product(id, data.title, data.category, data.price, data.stock)
      ensures products == old(products)[id := p] && order == old(order) + [id]
    {
      p := Product(id, data.title, data.category, data.price, data.stock);
      products := products[id := p];
      order := order + [id];
    }

    /** `getProductById`: the product stored under id, or nothing. */
    function GetProductById(id: ProductId): (r: Option<Product>)
      reads this
      requires Valid()
      ensures r.Some? <==> id in products
      ensures r.Some? ==> r.value.id == id && r.value in products.Values
    {
      if id in products then Some(products[id]) else None
    }

    /** `updateProduct`: overwrites the fields present in d on the product with that id and returns it. */
    method UpdateProduct(id: ProductId, d: ProductPatch) returns (r: Option<Product>)
      requires Valid()
      modifies this
      ensures Valid() && order == old(order)
      ensures id in old(products) ==>
        r == Some(Patched(old(products)[id], d)) && products == old(products)[id := r.value]
      ensures id !in old(products) ==> r == None && products == old(products)
    {
      if id in products {
        var p := Patched(products[id], d);
        products := products[id := p];
        r := Some(p);
      } else {
        r := None;
      }
    }

    /** `deleteProduct`: removes the product with that id and returns it, or nothing if there is none. */
    method DeleteProduct(id: ProductId) returns (r: Option<Product>)
      requires Valid()
      modifies this
      ensures Valid()
      ensures r == (if id in old(products) then Some(old(products)[id]) else None)
      ensures products == old(products) - {id}
      ensures order == Seqs.Filter(old(order), IdIsNot(id))
    {
      r := if id in products then Some(products[id]) else None;
      products := products - {id};
      ghost var was := order;
      order := Seqs.Filter(order, IdIsNot(id));
      forall x
        ensures multiset(order)[x] <= 1
        ensures x in products <==> x in order
      {
        Seqs.FilterCounts(was, IdIsNot(id), x);
        assert x in was <==> multiset(was)[x] > 0;
        assert x in order <==> multiset(order)[x] > 0;
      }
    }
  }
}
