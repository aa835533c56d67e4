/** `app/lib/actions/users/delete.ts`: removing a member of the group, unless it is an admin. */
module UserDelete {

  import opened Wrappers
  import opened Seqs
  import opened Schema
  import UserCreate

  /** The `WHERE id = ... AND group_id = ...` of both statements. */
  predicate Targets(u: User, userId: Id, groupId: Id) { u.id == userId && u.groupId == groupId }

  /** What `deleteUser` hands back (`isAdmin` is `{ isAdmin: true }`; otherwise `undefined`)
      and the tables afterwards. */
  datatype Deletion = Deletion(isAdmin: bool, store: Store)

  /** The row `const [user]` reads: the first with that id in the caller's group. */
  function Found(users: seq<User>, userId: Id, groupId: Id): Option<User> {
    First(users, (u: User) => Targets(u, userId, groupId))
  }

  /** The delete statement runs: a row was found and it is not an admin. */
  predicate Removes(users: seq<User>, userId: Id, groupId: Id) {
    Found(users, userId, groupId).Some? && Found(users, userId, groupId).value.roles != ADMIN
  }

  /** `deleteUser`. With no matching row, `user.roles` throws inside the `try` and nothing is
      deleted; an admin row is reported and kept; otherwise every matching row is deleted. */
  function DeleteUser(s: Store, userId: Id, groupId: Id): (r: Deletion)
    ensures r.isAdmin ==> r.store == s
    ensures r.isAdmin <==> exists u :: u in s.users && Targets(u, userId, groupId)
                                       && u.roles == ADMIN && Found(s.users, userId, groupId) == Some(u)
    ensures !Removes(s.users, userId, groupId) ==> r.store == s
    ensures forall u :: u in r.store.users <==>
              u in s.users && !(Removes(s.users, userId, groupId) && Targets(u, userId, groupId))
    ensures forall u :: multiset(r.store.users)[u] ==
              if Removes(s.users, userId, groupId) && Targets(u, userId, groupId) then 0
              else multiset(s.users)[u]
    ensures IsSubsequence(r.store.users, s.users)
    ensures r.store.(users := s.users) == s
  {
    var keep := (u: User) => !Targets(u, userId, groupId);
    SubsequenceReflexive(s.users);
    match Found(s.users, userId, groupId)
    case None => Deletion(false, s)
    case Some(u) =>
      if u.roles == ADMIN then Deletion(true, s)
      else
        FilterIsSubsequence(s.users, keep);
        FilterMultiplicity(s.users, keep);
        Deletion(false, s.(users := Filter(s.users, keep)))
  }

  /** Ids are a primary key. */
  predicate UniqueIds(users: seq<User>) {
    Unique(users, (u: User) => u.id)
  }

  /** With unique ids, an admin is never deleted, whoever asks. */
  lemma AdminIsNeverDeleted(s: Store, userId: Id, groupId: Id, admin: User)
    requires UniqueIds(s.users) && admin in s.users && admin.roles == ADMIN
    ensures admin in DeleteUser(s, userId, groupId).store.users
  {
    if Removes(s.users, userId, groupId) && Targets(admin, userId, groupId) {
      var found := Found(s.users, userId, groupId).value;
      UniqueKeyDetermines(s.users, (u: User) => u.id, found, admin);
      assert false;
    }
  }

  /** Without unique ids, the admin check sees only the first matching row: a non-admin
      duplicate in front of an admin takes the admin with it. */
  lemma DuplicateIdHidesAdmin(s: Store, first: User, admin: User)
    requires s.users == [first, admin]
    requires first.id == admin.id && first.groupId == admin.groupId
    requires first.roles != ADMIN && admin.roles == ADMIN
    ensures admin !in DeleteUser(s, admin.id, admin.groupId).store.users
  {
    assert Found(s.users, admin.id, admin.groupId) == Some(first);
  }

  /** A member of another group is never deleted. */
  lemma OtherGroupsAreKept(s: Store, userId: Id, groupId: Id)
    ensures forall u :: u in s.users && u.groupId != groupId ==>
              u in DeleteUser(s, userId, groupId).store.users
  {
  }

  /** Deleting a non-admin member just created under a fresh id gives the store back. */
  lemma {:induction false} CreateThenDeleteRestores(data: UserCreate.UserData, groupId: Id,
                                                    s: Store, userId: Id, hash: string -> string)
    requires data.roles != ADMIN
    requires forall u :: u in s.users ==> u.id != userId
    ensures var c := UserCreate.CreateUser(data, groupId, s, userId, hash);
            DeleteUser(c, userId, groupId) == Deletion(false, s)
  {
    var c := UserCreate.CreateUser(data, groupId, s, userId, hash);
    var hit := (u: User) => Targets(u, userId, groupId);
    var added := [c.users[|s.users|]];
    assert c.users == s.users + added;
    FirstAppend(s.users, added, hit);
    assert First(s.users, hit).None?;
    assert Found(c.users, userId, groupId) == Some(c.users[|s.users|]);
    FilterDropsAppended(s.users, added, (u: User) => !Targets(u, userId, groupId));
  }
}
