/** `app/lib/actions/products/delete.ts`. */
module ProductDelete {

  import opened Seqs
  import opened Schema
  import ProductCreate

  predicate Targets(p: Product, productId: Id, groupId: Id) {
    p.id == productId && p.groupId == groupId
  }

  /** `deleteProduct`: the product with that id in the caller's group goes. Line items name
      products by text, so no order changes. */
  function DeleteProduct(s: Store, productId: Id, groupId: Id): (r: Store)
    ensures forall p :: p in r.products <==> p in s.products && !Targets(p, productId, groupId)
    ensures forall p :: multiset(r.products)[p] ==
              if Targets(p, productId, groupId) then 0 else multiset(s.products)[p]
    ensures IsSubsequence(r.products, s.products)
    ensures r.(products := s.products) == s
  {
    var keep := (p: Product) => !Targets(p, productId, groupId);
    FilterIsSubsequence(s.products, keep);
    FilterMultiplicity(s.products, keep);
    s.(products := Filter(s.products, keep))
  }

  /** Deleting twice is deleting once. */
  lemma DeleteProductIdempotent(s: Store, productId: Id, groupId: Id)
    ensures DeleteProduct(DeleteProduct(s, productId, groupId), productId, groupId)
            == DeleteProduct(s, productId, groupId)
  {
    FilterIdempotent(s.products, (p: Product) => !Targets(p, productId, groupId));
  }

  /** Deleting a product just added under a fresh id gives the store back. */
  lemma CreateThenDeleteRestores(data: ProductCreate.ProductData, groupId: Id, s: Store,
                                 productId: Id)
    requires forall p :: p in s.products ==> p.id != productId
    ensures DeleteProduct(ProductCreate.AddProduct(data, groupId, s, productId), productId, groupId)
            == s
  {
    var r := ProductCreate.AddProduct(data, groupId, s, productId);
    var added := [r.products[|s.products|]];
    assert r.products == s.products + added;
    FilterDropsAppended(s.products, added, (p: Product) => !Targets(p, productId, groupId));
  }
}
