/** `app/lib/actions/products/update.ts`: the edit form (the same schema as the add form,
    without a duplicate check) and the update. */
module ProductUpdate {

  import opened Seqs
  import opened Forms
  import opened Schema
  import opened ProductCreate

  /** `validate`: `EditProductsFormSchema` alone; no name lookup. */
  function Validate(form: ProductForm): (r: Validation<ProductData>)
    ensures r.Valid? <==> Acceptable(form)
    ensures r.Valid? ==> var n := Normalise(form);
              r.data == ProductData(n.productName, n.description, n.category, n.status,
                                    form.stock.value, form.purchasePrice.value,
                                    form.sellingPrice.value)
    ensures r.Invalid? ==> r.errors == SchemaErrors(form) && WellFormed(r.errors)
  {
    SafeParse(form)
  }

  predicate Targets(p: Product, productId: Id, groupId: Id) {
    p.id == productId && p.groupId == groupId
  }

  /** The new values of an edited row; id and SKU stay, and the group is set to the one the
      row already has. */
  function Edit(p: Product, data: ProductData, groupId: Id): (q: Product)
    ensures q.id == p.id && q.sku == p.sku && q.groupId == groupId
    ensures q.productName == data.productName && q.description == data.description
            && q.category == data.category && q.status == data.status
    ensures q.stock == data.stock && q.purchasePrice == data.purchasePrice
            && q.sellingPrice == data.sellingPrice
  {
    p.(groupId := groupId, productName := data.productName, description := data.description,
       category := data.category, status := data.status, stock := data.stock,
       purchasePrice := data.purchasePrice, sellingPrice := data.sellingPrice)
  }

  /** `updateProduct`: the product with that id in the caller's group is rewritten. */
  function UpdateProduct(data: ProductData, productId: Id, groupId: Id, s: Store): (r: Store)
    ensures |r.products| == |s.products|
    ensures forall i :: 0 <= i < |s.products| && Targets(s.products[i], productId, groupId) ==>
              r.products[i] == Edit(s.products[i], data, groupId)
    ensures forall i :: 0 <= i < |s.products| && !Targets(s.products[i], productId, groupId) ==>
              r.products[i] == s.products[i]
    ensures r.(products := s.products) == s
  {
    s.(products := UpdateWhere(s.products, (p: Product) => Targets(p, productId, groupId),
                               (p: Product) => Edit(p, data, groupId)))
  }

  /** No row moves to another group and no id or SKU changes. */
  lemma UpdateKeepsGroupsIdsAndSkus(data: ProductData, productId: Id, groupId: Id, s: Store)
    ensures var r := UpdateProduct(data, productId, groupId, s);
            forall i :: 0 <= i < |s.products| ==>
              r.products[i].groupId == s.products[i].groupId && r.products[i].id == s.products[i].id
              && r.products[i].sku == s.products[i].sku
  {
  }

  /** Saving the same form twice is saving it once. */
  lemma UpdateProductIdempotent(data: ProductData, productId: Id, groupId: Id, s: Store)
    ensures var once := UpdateProduct(data, productId, groupId, s);
            UpdateProduct(data, productId, groupId, once) == once
  {
    var once := UpdateProduct(data, productId, groupId, s);
    assert UpdateProduct(data, productId, groupId, once).products == once.products;
  }

  /** Without a duplicate check, an edit can give a product the name of another product of
      the same group. */
  lemma EditCanDuplicateName(data: ProductData, s: Store, i: nat, j: nat)
    requires i < |s.products| && j < |s.products|
    requires s.products[i].id != s.products[j].id && s.products[i].groupId == s.products[j].groupId
    requires data.productName == s.products[i].productName
    ensures var r := UpdateProduct(data, s.products[j].id, s.products[j].groupId, s);
            r.products[i].productName == r.products[j].productName
            && r.products[i].groupId == r.products[j].groupId
  {
  }
}
