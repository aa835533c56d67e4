/** `app/lib/actions/auth/signup.ts`: registering a business and its first user. */
module Signup {

  import opened Wrappers
  import opened Seqs
  import opened Text
  import opened Forms
  import opened Schema

  /** The fields of `SignupFormSchema`, as submitted and as parsed: every field is trimmed and
      none is lower-cased. */
  datatype SignupForm = SignupForm(firstName: string, lastName: string, businessName: string,
                                   email: string, password: string)

  function Parse(form: SignupForm): (data: SignupForm)
    ensures data.firstName == Trim(form.firstName) && data.lastName == Trim(form.lastName)
    ensures data.businessName == Trim(form.businessName)
    ensures data.email == Trim(form.email) && data.password == Trim(form.password)
  {
    SignupForm(Trim(form.firstName), Trim(form.lastName), Trim(form.businessName),
               Trim(form.email), Trim(form.password))
  }

  /** The checks of `SignupFormSchema` on trimmed text, messages in schema order. */
  function Checks(d: SignupForm): (errors: FieldErrors)
    ensures errors == [] <==>
              && |d.firstName| >= 3 && |d.lastName| >= 3 && |d.businessName| >= 3
              && IsEmail(d.email) && 8 <= |d.password| <= 64
    ensures Reported(errors)
  {
    var errors := Field("firstName", NameMessages(d.firstName, "first name required",
                                                  "first name must be at lease 3 character long"));
    var errors := Then(errors, "lastName", NameMessages(d.lastName, "last name required",
                                                        "last name must be at lease 3 character long"));
    var errors := Then(errors, "businessName",
                       NameMessages(d.businessName, "business name required",
                                    "business name must be at lease 3 character long"));
    var errors := Then(errors, "email", EmailMessages(d.email, "email required", "invalid email"));
    Then(errors, "password", PasswordMessages(d.password))
  }

  /** Every check of the schema passes. */
  predicate Acceptable(form: SignupForm) {
    && |Trim(form.firstName)| >= 3 && |Trim(form.lastName)| >= 3
    && |Trim(form.businessName)| >= 3 && IsEmail(Trim(form.email))
    && 8 <= |Trim(form.password)| <= 64
  }

  /** The flattened errors of the schema: none exactly when every check passes. */
  function SchemaErrors(form: SignupForm): (errors: FieldErrors)
    ensures errors == [] <==> Acceptable(form)
    ensures Reported(errors)
  {
    Checks(Parse(form))
  }

  /** The group a user row points at, if it exists. */
  function GroupOf(groups: seq<Group>, groupId: Id): (r: Option<Group>)
    ensures r.Some? ==> r.value in groups && r.value.id == groupId
    ensures r.None? <==> forall g :: g in groups ==> g.id != groupId
  {
    First(groups, (g: Group) => g.id == groupId)
  }

  /** One row of `users INNER JOIN groups ON users.group_id = groups.id`. */
  datatype Member = Member(user: User, group: Group)

  /** The first row of the join `WHERE email = ...`: a user with that e-mail whose group exists,
      with that group. Both `signup.ts` and `login.ts` read it. */
  function MemberByEmail(s: Store, email: string): (r: Option<Member>)
    ensures r.Some? ==> && r.value.user in s.users && r.value.user.email == email
                        && r.value.group in s.groups && r.value.group.id == r.value.user.groupId
    ensures r.None? <==>
              forall u :: u in s.users && u.email == email ==> GroupOf(s.groups, u.groupId).None?
  {
    match First(s.users, (u: User) => u.email == email && GroupOf(s.groups, u.groupId).Some?)
    case None => None
    case Some(u) => Some(Member(u, GroupOf(s.groups, u.groupId).value))
  }

  /** The first user row `WHERE email = ...`. */
  function UserByEmail(users: seq<User>, email: string): (r: Option<User>)
    ensures r.Some? ==> r.value in users && r.value.email == email
    ensures r.None? <==> forall u :: u in users ==> u.email != email
  {
    First(users, (u: User) => u.email == email)
  }

  const UserExists: FieldErrors := [FieldError("email", ["user already exists"])]

  const BusinessNameExists: FieldErrors :=
    [FieldError("businessName", ["business name already exists"])]

  /** The two lookups of `validate` once the schema has passed: the e-mail among all users,
      then the business name of the group of a user with that e-mail. Such a user has already
      been reported by the first lookup, so the second never fires. */
  function Lookups(data: SignupForm, s: Store): (r: Option<FieldErrors>)
    ensures r.None? <==> UserByEmail(s.users, data.email).None?
    ensures r.Some? ==> r == Some(UserExists)
  {
    var user := UserByEmail(s.users, data.email);
    if user.Some? && data.email == user.value.email then Some(UserExists)
    else match MemberByEmail(s, data.email)
      case Some(Member(_, group)) =>
        if data.businessName == group.businessName then Some(BusinessNameExists) else None
      case None => None
  }

  /** `validate`: `Some(errors)` for `{ errors }` and `None` for the `undefined` it returns when
      every check passes. */
  function Validate(form: SignupForm, s: Store): (r: Option<FieldErrors>)
    ensures r.None? <==> Acceptable(form) && UserByEmail(s.users, Trim(form.email)).None?
    ensures !Acceptable(form) ==> r == Some(SchemaErrors(form))
    ensures Acceptable(form) && r.Some? ==> r == Some(UserExists)
    ensures r.Some? ==> WellFormed(r.value)
  {
    var errors := SchemaErrors(form);
    if errors != [] then Some(errors) else Lookups(Parse(form), s)
  }

  /** `signup`, with argon2's hash as a function. The id the group insert returns is a
      parameter; `None` is an insert that threw, after which the `try` writes nothing more.
      The user row takes the column default role, `admin`. */
  function SignUp(data: SignupForm, s: Store, groupInsert: Option<Id>, userId: Id,
                  hash: string -> string): (r: Store)
    ensures groupInsert.None? ==> r == s
    ensures groupInsert.Some? ==>
              && r.groups == s.groups + [Group(groupInsert.value, data.businessName)]
              && r.users == s.users + [User(userId, groupInsert.value, data.firstName,
                                            data.lastName, data.email, hash(data.password), ADMIN)]
    ensures r.(groups := s.groups, users := s.users) == s
  {
    match groupInsert
    case None => s
    case Some(groupId) =>
      s.(groups := s.groups + [Group(groupId, data.businessName)],
         users := s.users + [User(userId, groupId, data.firstName, data.lastName, data.email,
                                  hash(data.password), ADMIN)])
  }

  /** The business-name check never reports anything, whatever the tables hold. */
  lemma BusinessNameNeverReported(form: SignupForm, s: Store)
    ensures Validate(form, s) != Some(BusinessNameExists)
  {
  }

  /** Nothing in `validate` or `signup` compares business names: a second business under a name
      already registered passes validation with a fresh e-mail and gets a group of its own. */
  lemma TakenBusinessNameIsRegisteredAgain(form: SignupForm, s: Store, groupId: Id, userId: Id,
                                           hash: string -> string, g: Group)
    requires Acceptable(form) && UserByEmail(s.users, Trim(form.email)).None?
    requires g in s.groups && g.businessName == Trim(form.businessName)
    ensures Validate(form, s).None?
    ensures var r := SignUp(Parse(form), s, Some(groupId), userId, hash);
            g in r.groups && Group(groupId, g.businessName) in r.groups
  {
  }

  /** A signup with an e-mail no user has leaves exactly one user with that e-mail, an admin
      of the new group. */
  lemma {:induction false} SignUpCreatesSoleAdmin(data: SignupForm, s: Store, groupId: Id,
                                                  userId: Id, hash: string -> string)
    requires forall u :: u in s.users ==> u.email != data.email
    ensures var r := SignUp(data, s, Some(groupId), userId, hash);
            && Count(r.users, (u: User) => u.email == data.email) == 1
            && UserByEmail(r.users, data.email) == Some(r.users[|s.users|])
            && r.users[|s.users|].roles == ADMIN && r.users[|s.users|].groupId == groupId
  {
    var r := SignUp(data, s, Some(groupId), userId, hash);
    var hit := (u: User) => u.email == data.email;
    var added := [r.users[|s.users|]];
    assert r.users == s.users + added;
    CountAppend(s.users, added, hit);
    FilterKeepsNone(s.users, hit);
    assert Filter(added, hit) == added;
    FirstAppend(s.users, added, hit);
  }

  /** The data of a validated signup meets the requirements of `SignUpCreatesSoleAdmin` on its
      e-mail. */
  lemma ValidatedEmailIsFresh(form: SignupForm, s: Store)
    requires Validate(form, s).None?
    ensures forall u :: u in s.users ==> u.email != Parse(form).email
  {
  }
}
