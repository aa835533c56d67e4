/** `app/lib/actions/users/update.ts`: editing a member of the group. */
module UserUpdate {

  import opened Wrappers
  import opened Seqs
  import opened Text
  import opened Forms
  import opened Schema
  import UserCreate

  /** The fields of `UpdateUserFormSchema` as submitted; there is no password field. */
  datatype UpdateUserForm = UpdateUserForm(firstName: string, lastName: string, email: string,
                                           roles: string)

  /** The parsed form `updateUser` receives. */
  datatype UpdateUserData = UpdateUserData(firstName: string, lastName: string, email: string,
                                           roles: string)

  /** Every check of `UpdateUserFormSchema` passes. */
  predicate Acceptable(form: UpdateUserForm) {
    && |Trim(form.firstName)| >= 3 && |Trim(form.lastName)| >= 3
    && IsEmail(Trim(form.email)) && Trim(form.roles) != []
  }

  /** The parsed form: names trimmed and lower-cased, e-mail and role trimmed. */
  function Parse(form: UpdateUserForm): (data: UpdateUserData)
    ensures data.firstName == Lower(Trim(form.firstName)) && !HasUpper(data.firstName)
    ensures data.lastName == Lower(Trim(form.lastName)) && !HasUpper(data.lastName)
    ensures data.email == Trim(form.email) && data.roles == Trim(form.roles)
  {
    LowerHasNoUpper(Trim(form.firstName));
    LowerHasNoUpper(Trim(form.lastName));
    UpdateUserData(Lower(Trim(form.firstName)), Lower(Trim(form.lastName)), Trim(form.email),
                   Trim(form.roles))
  }

  /** The checks of `UpdateUserFormSchema`, run on the normalised values, with their
      messages in schema order. */
  function Checks(d: UpdateUserData): (errors: FieldErrors)
    ensures errors == [] <==> |d.firstName| >= 3 && |d.lastName| >= 3 && IsEmail(d.email) && d.roles != []
    ensures Reported(errors)
  {
    var errors := Field("firstName", NameMessages(d.firstName, "first name required",
                                                  "first name must be at lease 3 character long"));
    var errors := Then(errors, "lastName", NameMessages(d.lastName, "last name required",
                                                        "last name must be at lease 3 character long"));
    var errors := Then(errors, "email", EmailMessages(d.email, "email required", "invalid email"));
    Then(errors, "roles", MinLength(d.roles, 1, "roles required"))
  }

  /** The flattened errors of `UpdateUserFormSchema`: none exactly when every check passes. */
  function SchemaErrors(form: UpdateUserForm): (errors: FieldErrors)
    ensures errors == [] <==> Acceptable(form)
    ensures Reported(errors)
  {
    Checks(Parse(form))
  }

  /** `UpdateUserFormSchema.safeParse`. */
  function SafeParse(form: UpdateUserForm): (r: Validation<UpdateUserData>)
    ensures r.Valid? <==> SchemaErrors(form) == []
    ensures r.Valid? ==> r.data == Parse(form)
    ensures r.Invalid? ==> r.errors == SchemaErrors(form) && WellFormed(r.errors)
  {
    var errors := SchemaErrors(form);
    if errors == [] then Valid(Parse(form)) else Invalid(errors)
  }

  /** `validate`: the same e-mail lookup as on creation. It does not leave out the user being
      edited, so a form that keeps the current e-mail is refused. */
  function Validate(form: UpdateUserForm, users: seq<User>): (r: Validation<UpdateUserData>)
    ensures r.Valid? <==> Acceptable(form) && !UserCreate.EmailTaken(users, Parse(form).email)
    ensures r.Valid? ==> r.data == Parse(form)
    ensures !Acceptable(form) ==> r == Invalid(SchemaErrors(form))
    ensures Acceptable(form) && UserCreate.EmailTaken(users, Parse(form).email) ==>
              r == Invalid(UserCreate.UserExists)
    ensures r.Invalid? ==> WellFormed(r.errors)
  {
    var parsed := SafeParse(form);
    if parsed.Invalid? then parsed
    else if UserCreate.EmailTaken(users, parsed.data.email) then Invalid(UserCreate.UserExists)
    else parsed
  }

  /** The `WHERE group_id = ... AND id = ...` of the update. */
  predicate Targets(u: User, groupId: Id, userId: Id) { u.groupId == groupId && u.id == userId }

  /** The new values of an edited row: id, group and password hash stay. */
  function Edit(u: User, data: UpdateUserData): (v: User)
    ensures v.id == u.id && v.groupId == u.groupId && v.password == u.password
    ensures v.firstName == data.firstName && v.lastName == data.lastName
            && v.email == data.email && v.roles == data.roles
  {
    u.(firstName := data.firstName, lastName := data.lastName, email := data.email,
       roles := data.roles)
  }

  /** `updateUser`: the user with that id in the caller's group is rewritten. */
  function UpdateUser(data: UpdateUserData, groupId: Id, userId: Id, s: Store): (r: Store)
    ensures |r.users| == |s.users|
    ensures forall i :: 0 <= i < |s.users| && Targets(s.users[i], groupId, userId) ==>
              r.users[i] == Edit(s.users[i], data)
    ensures forall i :: 0 <= i < |s.users| && !Targets(s.users[i], groupId, userId) ==>
              r.users[i] == s.users[i]
    ensures r.(users := s.users) == s
  {
    s.(users := UpdateWhere(s.users, (u: User) => Targets(u, groupId, userId),
                            (u: User) => Edit(u, data)))
  }

  /** Resubmitting the current e-mail of any user is refused, the edited user's own included. */
  lemma KeepingOwnEmailIsRefused(form: UpdateUserForm, s: Store, u: User)
    requires u in s.users && Trim(form.email) == u.email
    ensures Validate(form, s.users).Invalid?
  {
  }

  /** No update changes anyone's password, id or group. */
  lemma UpdateUserKeepsCredentials(data: UpdateUserData, groupId: Id, userId: Id, s: Store)
    ensures var r := UpdateUser(data, groupId, userId, s);
            forall i :: 0 <= i < |s.users| ==>
              r.users[i].password == s.users[i].password && r.users[i].id == s.users[i].id
              && r.users[i].groupId == s.users[i].groupId
  {
  }

  /** Saving the same form twice is saving it once. */
  lemma UpdateUserIdempotent(data: UpdateUserData, groupId: Id, userId: Id, s: Store)
    ensures var once := UpdateUser(data, groupId, userId, s);
            UpdateUser(data, groupId, userId, once) == once
  {
    var once := UpdateUser(data, groupId, userId, s);
    assert UpdateUser(data, groupId, userId, once).users == once.users;
  }

  /** A user of another group is never edited, even when the ids agree. */
  lemma OtherGroupsUntouched(data: UpdateUserData, groupId: Id, userId: Id, s: Store)
    ensures forall u :: u in s.users && u.groupId != groupId ==>
              u in UpdateUser(data, groupId, userId, s).users
  {
    var r := UpdateUser(data, groupId, userId, s);
    forall u | u in s.users && u.groupId != groupId
      ensures u in r.users
    {
      var i :| 0 <= i < |s.users| && s.users[i] == u;
      assert r.users[i] == u;
    }
  }
}
