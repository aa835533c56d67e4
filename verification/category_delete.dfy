/** `app/lib/actions/categories/delete.ts`. */
module CategoryDelete {

  import opened Seqs
  import opened Schema
  import CategoryCreate

  predicate Targets(c: Category, categoryId: Id, groupId: Id) {
    c.id == categoryId && c.groupId == groupId
  }

  /** `deleteCategory`: the category with that id in the caller's group goes; products that
      name it keep their (free-text) category. */
  function DeleteCategory(s: Store, categoryId: Id, groupId: Id): (r: Store)
    ensures forall c :: c in r.categories <==> c in s.categories && !Targets(c, categoryId, groupId)
    ensures forall c :: multiset(r.categories)[c] ==
              if Targets(c, categoryId, groupId) then 0 else multiset(s.categories)[c]
    ensures IsSubsequence(r.categories, s.categories)
    ensures r.(categories := s.categories) == s
  {
    var keep := (c: Category) => !Targets(c, categoryId, groupId);
    FilterIsSubsequence(s.categories, keep);
    FilterMultiplicity(s.categories, keep);
    s.(categories := Filter(s.categories, keep))
  }

  /** Deleting twice is deleting once. */
  lemma DeleteCategoryIdempotent(s: Store, categoryId: Id, groupId: Id)
    ensures DeleteCategory(DeleteCategory(s, categoryId, groupId), categoryId, groupId)
            == DeleteCategory(s, categoryId, groupId)
  {
    FilterIdempotent(s.categories, (c: Category) => !Targets(c, categoryId, groupId));
  }

  /** Deleting a category just created under a fresh id gives the store back. */
  lemma CreateThenDeleteRestores(name: string, groupId: Id, s: Store, categoryId: Id)
    requires forall c :: c in s.categories ==> c.id != categoryId
    ensures DeleteCategory(CategoryCreate.CreateCategory(name, groupId, s, categoryId),
                           categoryId, groupId) == s
  {
    var r := CategoryCreate.CreateCategory(name, groupId, s, categoryId);
    var added := [r.categories[|s.categories|]];
    assert r.categories == s.categories + added;
    FilterDropsAppended(s.categories, added, (c: Category) => !Targets(c, categoryId, groupId));
  }
}
