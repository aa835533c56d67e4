/** `app/lib/actions/products/create.ts`: the product form, its per-group duplicate check and
    the insert. The edit form of `products/update.ts` is the same schema. */
module ProductCreate {

  import opened Wrappers
  import opened Seqs
  import opened Text
  import opened Forms
  import opened Schema

  /** The fields of `AddProductsFormSchema` as submitted. */
  datatype ProductForm = ProductForm(productName: string, description: string, category: string,
                                     status: string, stock: NumberField,
                                     purchasePrice: NumberField, sellingPrice: NumberField)

  /** The parsed form `addProduct` receives. */
  datatype ProductData = ProductData(productName: string, description: string, category: string,
                                     status: string, stock: int, purchasePrice: int,
                                     sellingPrice: int)

  /** The `.trim().toLowerCase()` every text field goes through before its checks. */
  function Normalise(form: ProductForm): (n: ProductForm)
    ensures n.productName == Lower(Trim(form.productName)) && !HasUpper(n.productName)
    ensures n.description == Lower(Trim(form.description))
    ensures n.category == Lower(Trim(form.category)) && n.status == Lower(Trim(form.status))
    ensures n.stock == form.stock && n.purchasePrice == form.purchasePrice
            && n.sellingPrice == form.sellingPrice
  {
    LowerHasNoUpper(Trim(form.productName));
    form.(productName := Lower(Trim(form.productName)), description := Lower(Trim(form.description)),
          category := Lower(Trim(form.category)), status := Lower(Trim(form.status)))
  }

  /** The checks of `AddProductsFormSchema` on normalised text, messages in schema order. The
      description check is `.min(3)` although its message speaks of 10 characters. */
  function Checks(n: ProductForm): (errors: FieldErrors)
    ensures errors == [] <==>
              && |n.productName| >= 3 && |n.description| >= 3 && n.category != [] && n.status != []
              && n.stock.Parsed? && n.purchasePrice.Parsed? && n.sellingPrice.Parsed?
    ensures Reported(errors)
  {
    var errors := Field("productName", NameMessages(n.productName, "product name required",
                                                    "product name must be at least 3 character long"));
    var errors := Then(errors, "description", NameMessages(n.description, "description required",
                                                           "description must be at least 10 character long"));
    var errors := Then(errors, "category", MinLength(n.category, 1, "category required"));
    var errors := Then(errors, "status", MinLength(n.status, 1, "status required"));
    var errors := Then(errors, "stock", NumberMessages(n.stock, "required"));
    var errors := Then(errors, "purchasePrice", NumberMessages(n.purchasePrice, "required"));
    Then(errors, "sellingPrice", NumberMessages(n.sellingPrice, "required"))
  }

  /** Every check of the schema passes. */
  predicate Acceptable(form: ProductForm) {
    && |Trim(form.productName)| >= 3 && |Trim(form.description)| >= 3
    && Trim(form.category) != [] && Trim(form.status) != []
    && form.stock.Parsed? && form.purchasePrice.Parsed? && form.sellingPrice.Parsed?
  }

  /** The flattened errors of the schema: none exactly when every check passes. */
  function SchemaErrors(form: ProductForm): (errors: FieldErrors)
    ensures errors == [] <==> Acceptable(form)
    ensures Reported(errors)
  {
    Checks(Normalise(form))
  }

  /** `AddProductsFormSchema.safeParse`. */
  function SafeParse(form: ProductForm): (r: Validation<ProductData>)
    ensures r.Valid? <==> Acceptable(form)
    ensures r.Valid? ==> var n := Normalise(form);
              r.data == ProductData(n.productName, n.description, n.category, n.status,
                                    form.stock.value, form.purchasePrice.value,
                                    form.sellingPrice.value)
    ensures r.Invalid? ==> r.errors == SchemaErrors(form) && WellFormed(r.errors)
  {
    var errors := SchemaErrors(form);
    if errors != [] then Invalid(errors)
    else
      var n := Normalise(form);
      Valid(ProductData(n.productName, n.description, n.category, n.status, form.stock.value,
                        form.purchasePrice.value, form.sellingPrice.value))
  }

  /** The group already has a product of exactly this (normalised) name. */
  predicate NameTaken(products: seq<Product>, groupId: Id, name: string) {
    exists p :: p in products && p.groupId == groupId && p.productName == name
  }

  const ProductExists: FieldErrors := [FieldError("productName", ["product already exists"])]

  /** `validate`: the schema, then the name lookup among the caller's group's products. */
  function Validate(form: ProductForm, groupId: Id, products: seq<Product>): (r: Validation<ProductData>)
    ensures r.Valid? <==>
              Acceptable(form) && !NameTaken(products, groupId, Normalise(form).productName)
    ensures r.Valid? ==> r == SafeParse(form)
    ensures !Acceptable(form) ==> r == Invalid(SchemaErrors(form))
    ensures Acceptable(form) && NameTaken(products, groupId, Normalise(form).productName) ==>
              r == Invalid(ProductExists)
    ensures r.Invalid? ==> WellFormed(r.errors)
  {
    var parsed := SafeParse(form);
    if parsed.Invalid? then parsed
    else if NameTaken(products, groupId, parsed.data.productName) then Invalid(ProductExists)
    else parsed
  }

  /** The stock-keeping unit every insert writes. */
  const Sku: string := "HWMP-001"

  /** `addProduct`, with the generated id as a parameter. */
  function AddProduct(data: ProductData, groupId: Id, s: Store, productId: Id): (r: Store)
    ensures |r.products| == |s.products| + 1 && r.products[..|s.products|] == s.products
    ensures r.products[|s.products|] == Product(productId, groupId, data.productName,
                                                data.description, data.category, data.status,
                                                Sku, data.stock, data.purchasePrice,
                                                data.sellingPrice)
    ensures r.(products := s.products) == s
  {
    s.(products := s.products + [Product(productId, groupId, data.productName, data.description,
                                         data.category, data.status, Sku, data.stock,
                                         data.purchasePrice, data.sellingPrice)])
  }

  predicate Named(p: Product, groupId: Id, name: string) {
    p.groupId == groupId && p.productName == name
  }

  /** After a validated insert the group has exactly one product of that name. */
  lemma ValidatedAddKeepsNamesUnique(form: ProductForm, groupId: Id, s: Store, productId: Id)
    requires Validate(form, groupId, s.products).Valid?
    ensures var data := Validate(form, groupId, s.products).data;
            var r := AddProduct(data, groupId, s, productId);
            Count(r.products, (p: Product) => Named(p, groupId, data.productName)) == 1
  {
    var data := Validate(form, groupId, s.products).data;
    var r := AddProduct(data, groupId, s, productId);
    var hit := (p: Product) => Named(p, groupId, data.productName);
    var added := [r.products[|s.products|]];
    assert r.products == s.products + added;
    CountAppend(s.products, added, hit);
    FilterKeepsNone(s.products, hit);
    assert Filter(added, hit) == added;
  }

  /** Every product gets the same SKU, so two inserts never differ in it. */
  lemma SkuIsShared(d1: ProductData, d2: ProductData, groupId: Id, s: Store, id1: Id, id2: Id)
    ensures var r1 := AddProduct(d1, groupId, s, id1);
            var r2 := AddProduct(d2, groupId, r1, id2);
            r2.products[|s.products|].sku == r2.products[|s.products| + 1].sku == Sku
  {
  }

  /** A description shorter than the ten characters its message asks for is accepted and
      stored. */
  lemma ShortDescriptionPasses(form: ProductForm)
    requires Acceptable(form) && |Trim(form.description)| < 10
    ensures SafeParse(form).Valid? && |SafeParse(form).data.description| < 10
  {
  }
}
