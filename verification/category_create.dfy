/** `app/lib/actions/categories/create.ts`: the category form, its per-group duplicate check,
    and the insert. */
module CategoryCreate {

  import opened Wrappers
  import opened Seqs
  import opened Text
  import opened Forms
  import opened Schema

  /** `.trim().toLowerCase()` of the submitted name. */
  function CategoryName(raw: string): (name: string)
    ensures |name| == |Trim(raw)| && !HasUpper(name)
  {
    LowerHasNoUpper(Trim(raw));
    Lower(Trim(raw))
  }

  /** The flattened errors of `CreateCategoriesFormSchema`. */
  function SchemaErrors(raw: string): (errors: FieldErrors)
    ensures errors == [] <==> |Trim(raw)| >= 3
    ensures Reported(errors)
    ensures Trim(raw) == [] ==>
              errors == [FieldError("categoryName", ["categories name required",
                                                     "categories name must be at lease 3 character long"])]
    ensures 0 < |Trim(raw)| < 3 ==>
              errors == [FieldError("categoryName",
                                    ["categories name must be at lease 3 character long"])]
  {
    Field("categoryName", NameMessages(CategoryName(raw), "categories name required",
                                       "categories name must be at lease 3 character long"))
  }

  /** The group already has a category of exactly this name. */
  predicate NameTaken(categories: seq<Category>, groupId: Id, name: string) {
    exists c :: c in categories && c.groupId == groupId && c.categoryName == name
  }

  /** `validate`: the schema, then the lookup among the caller's group's categories. */
  function Validate(raw: string, groupId: Id, categories: seq<Category>): (r: Validation<string>)
    ensures r.Valid? <==> |Trim(raw)| >= 3 && !NameTaken(categories, groupId, CategoryName(raw))
    ensures r.Valid? ==> r.data == CategoryName(raw)
    ensures |Trim(raw)| < 3 ==> r == Invalid(SchemaErrors(raw))
    ensures |Trim(raw)| >= 3 && NameTaken(categories, groupId, CategoryName(raw)) ==>
              r == Invalid([FieldError("categoryName", ["category name already exists"])])
    ensures r.Invalid? ==> WellFormed(r.errors)
  {
    var errors := SchemaErrors(raw);
    if errors != [] then Invalid(errors)
    else if NameTaken(categories, groupId, CategoryName(raw))
    then Invalid([FieldError("categoryName", ["category name already exists"])])
    else Valid(CategoryName(raw))
  }

  /** `createCategories`, with the generated id as a parameter. */
  function CreateCategory(name: string, groupId: Id, s: Store, categoryId: Id): (r: Store)
    ensures |r.categories| == |s.categories| + 1 && r.categories[..|s.categories|] == s.categories
    ensures r.categories[|s.categories|] == Category(categoryId, groupId, name)
    ensures r.(categories := s.categories) == s
  {
    s.(categories := s.categories + [Category(categoryId, groupId, name)])
  }

  predicate Named(c: Category, groupId: Id, name: string) {
    c.groupId == groupId && c.categoryName == name
  }

  /** After a validated creation the group has exactly one category of that name. */
  lemma ValidatedCreateKeepsNamesUnique(raw: string, groupId: Id, s: Store, categoryId: Id)
    requires Validate(raw, groupId, s.categories).Valid?
    ensures var name := CategoryName(raw);
            var r := CreateCategory(name, groupId, s, categoryId);
            Count(r.categories, (c: Category) => Named(c, groupId, name)) == 1
  {
    var name := CategoryName(raw);
    var r := CreateCategory(name, groupId, s, categoryId);
    var hit := (c: Category) => Named(c, groupId, name);
    var added := [r.categories[|s.categories|]];
    assert r.categories == s.categories + added;
    CountAppend(s.categories, added, hit);
    FilterKeepsNone(s.categories, hit);
    assert Filter(added, hit) == added;
  }

  /** Names differing only in case or surrounding blanks are the same name. */
  lemma CaseVariantIsRefused(raw: string, groupId: Id, c: Category, categories: seq<Category>)
    requires c in categories && c.groupId == groupId && |Trim(raw)| >= 3
    requires c.categoryName == CategoryName(raw)
    ensures Validate(raw, groupId, categories).Invalid?
  {
  }

  /** The same name is free in another group. */
  lemma OtherGroupDoesNotBlock(raw: string, groupId: Id, categories: seq<Category>)
    requires |Trim(raw)| >= 3
    requires forall c :: c in categories ==> c.groupId != groupId
    ensures Validate(raw, groupId, categories) == Valid(CategoryName(raw))
  {
  }
}
