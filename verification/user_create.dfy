/** `app/lib/actions/users/create.ts`: the form that adds a member to a group, its validator
    with the e-mail check, and the insert. */
module UserCreate {

  import opened Wrappers
  import opened Seqs
  import opened Text
  import opened Forms
  import opened Schema

  /** The fields of `CreateUserFormSchema` as submitted. */
  datatype UserForm = UserForm(firstName: string, lastName: string, email: string,
                               password: string, roles: string)

  /** The parsed form `createUser` receives. */
  datatype UserData = UserData(firstName: string, lastName: string, email: string,
                               password: string, roles: string)

  /** Every check of `CreateUserFormSchema` passes. */
  predicate Acceptable(form: UserForm) {
    && |Trim(form.firstName)| >= 3 && |Trim(form.lastName)| >= 3
    && IsEmail(Trim(form.email)) && 8 <= |Trim(form.password)| <= 64
    && Trim(form.roles) != []
  }

  /** The parsed form: names trimmed and lower-cased, the other fields trimmed. */
  function Parse(form: UserForm): (data: UserData)
    ensures data.firstName == Lower(Trim(form.firstName)) && !HasUpper(data.firstName)
    ensures data.lastName == Lower(Trim(form.lastName)) && !HasUpper(data.lastName)
    ensures data.email == Trim(form.email) && data.password == Trim(form.password)
    ensures data.roles == Trim(form.roles)
  {
    LowerHasNoUpper(Trim(form.firstName));
    LowerHasNoUpper(Trim(form.lastName));
    UserData(Lower(Trim(form.firstName)), Lower(Trim(form.lastName)), Trim(form.email),
             Trim(form.password), Trim(form.roles))
  }

  /** The checks of `CreateUserFormSchema`, run on the trimmed and lower-cased values, with
      their messages in schema order. */
  function Checks(d: UserData): (errors: FieldErrors)
    ensures errors == [] <==>
              |d.firstName| >= 3 && |d.lastName| >= 3 && IsEmail(d.email)
              && 8 <= |d.password| <= 64 && d.roles != []
    ensures Reported(errors)
  {
    var errors := Field("firstName", NameMessages(d.firstName, "first name required",
                                                  "first name must be at lease 3 character long"));
    var errors := Then(errors, "lastName", NameMessages(d.lastName, "last name required",
                                                        "last name must be at lease 3 character long"));
    var errors := Then(errors, "email", EmailMessages(d.email, "email required", "invalid email"));
    var errors := Then(errors, "password", PasswordMessages(d.password));
    Then(errors, "roles", MinLength(d.roles, 1, "roles required"))
  }

  /** The flattened errors of `CreateUserFormSchema`: none exactly when every check passes. */
  function SchemaErrors(form: UserForm): (errors: FieldErrors)
    ensures errors == [] <==> Acceptable(form)
    ensures Reported(errors)
  {
    Checks(Parse(form))
  }

  /** A blank first name reports both of its messages, ahead of every other field. */
  lemma BlankFirstNameReportsBoth(form: UserForm)
    requires Trim(form.firstName) == []
    ensures SchemaErrors(form)[0] == FieldError("firstName", ["first name required",
                                                              "first name must be at lease 3 character long"])
  {
  }

  /** A blank role is reported last, with its one message. */
  lemma BlankRoleReportedLast(form: UserForm)
    requires Trim(form.roles) == []
    ensures var errors := SchemaErrors(form);
            errors[|errors| - 1] == FieldError("roles", ["roles required"])
  {
  }

  /** `CreateUserFormSchema.safeParse`: the parsed form, or the flattened errors. */
  function SafeParse(form: UserForm): (r: Validation<UserData>)
    ensures r.Valid? <==> SchemaErrors(form) == []
    ensures r.Valid? ==> r.data == Parse(form)
    ensures r.Invalid? ==> r.errors == SchemaErrors(form) && WellFormed(r.errors)
  {
    var errors := SchemaErrors(form);
    if errors == [] then Valid(Parse(form)) else Invalid(errors)
  }

  /** Some user, of any group, already has exactly this e-mail. */
  predicate EmailTaken(users: seq<User>, email: string) {
    exists u :: u in users && u.email == email
  }

  /** The error the e-mail check reports. */
  const UserExists: FieldErrors := [FieldError("email", ["user already exists"])]

  /** The e-mail lookup of `validate`: it spans every group and compares exactly. */
  function CheckEmail(parsed: Validation<UserData>, users: seq<User>): (r: Validation<UserData>)
    requires parsed.Invalid? ==> WellFormed(parsed.errors)
    ensures parsed.Invalid? ==> r == parsed
    ensures parsed.Valid? ==> (r.Valid? <==> !EmailTaken(users, parsed.data.email))
    ensures r.Valid? ==> r == parsed
    ensures r.Invalid? ==> WellFormed(r.errors)
    ensures parsed.Valid? && r.Invalid? ==> r.errors == UserExists
  {
    if parsed.Invalid? then parsed
    else if EmailTaken(users, parsed.data.email) then Invalid(UserExists)
    else parsed
  }

  /** `validate`: the schema first; only a well-formed form reaches the e-mail lookup. */
  function Validate(form: UserForm, users: seq<User>): (r: Validation<UserData>)
    ensures r.Valid? <==> Acceptable(form) && !EmailTaken(users, Parse(form).email)
    ensures r.Valid? ==> r.data == Parse(form)
    ensures !Acceptable(form) ==> r == Invalid(SchemaErrors(form))
    ensures Acceptable(form) && EmailTaken(users, Parse(form).email) ==> r == Invalid(UserExists)
    ensures r.Invalid? ==> WellFormed(r.errors)
  {
    CheckEmail(SafeParse(form), users)
  }

  /** `createUser`, with the generated id as a parameter and argon2's hash as a function. */
  function CreateUser(data: UserData, groupId: Id, s: Store, userId: Id, hash: string -> string)
    : (r: Store)
    ensures |r.users| == |s.users| + 1 && r.users[..|s.users|] == s.users
    ensures r.users[|s.users|] == User(userId, groupId, data.firstName, data.lastName, data.email,
                                       hash(data.password), data.roles)
    ensures r.(users := s.users) == s
  {
    s.(users := s.users + [User(userId, groupId, data.firstName, data.lastName, data.email,
                                hash(data.password), data.roles)])
  }

  predicate HasEmail(u: User, email: string) { u.email == email }

  /** A user created after a successful validation is the only one with its e-mail. */
  lemma ValidatedCreateKeepsEmailUnique(form: UserForm, groupId: Id, s: Store, userId: Id,
                                        hash: string -> string)
    requires Validate(form, s.users).Valid?
    ensures var email := Trim(form.email);
            var r := CreateUser(Validate(form, s.users).data, groupId, s, userId, hash);
            Count(r.users, (u: User) => HasEmail(u, email)) == 1
  {
    var email := Trim(form.email);
    var data := Validate(form, s.users).data;
    var r := CreateUser(data, groupId, s, userId, hash);
    var hit := (u: User) => HasEmail(u, email);
    var added := [r.users[|s.users|]];
    assert r.users == s.users + added;
    CountAppend(s.users, added, hit);
    FilterKeepsNone(s.users, hit);
    assert Filter(added, hit) == added;
  }

  /** The role is free text: any non-blank value, "admin" included, is stored as typed. */
  lemma AnyRoleIsStored(form: UserForm, groupId: Id, s: Store, userId: Id, hash: string -> string)
    requires Validate(form, s.users).Valid?
    ensures var r := CreateUser(Validate(form, s.users).data, groupId, s, userId, hash);
            r.users[|s.users|].roles == Trim(form.roles) != []
  {
  }
}
