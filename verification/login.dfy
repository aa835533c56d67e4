/** `app/lib/actions/auth/login.ts`: checking a login form and reading the session it opens. */
module Login {

  import opened Wrappers
  import opened Seqs
  import opened Text
  import opened Forms
  import opened Schema
  import Signup

  /** The fields of `LoginFormSchema`, as submitted and as parsed. */
  datatype LoginForm = LoginForm(businessName: string, email: string, password: string)

  /** The business name is trimmed and lower-cased, the e-mail and password trimmed. */
  function Parse(form: LoginForm): (data: LoginForm)
    ensures data.businessName == Lower(Trim(form.businessName)) && !HasUpper(data.businessName)
    ensures data.email == Trim(form.email) && data.password == Trim(form.password)
  {
    LowerHasNoUpper(Trim(form.businessName));
    LoginForm(Lower(Trim(form.businessName)), Trim(form.email), Trim(form.password))
  }

  /** The checks of `LoginFormSchema` on the parsed text, messages in schema order. */
  function Checks(d: LoginForm): (errors: FieldErrors)
    ensures errors == [] <==> |d.businessName| >= 3 && IsEmail(d.email) && 8 <= |d.password| <= 64
    ensures Reported(errors)
  {
    var errors := Field("businessName",
                        NameMessages(d.businessName, "business name required",
                                     "business name must be at lease 3 character long"));
    var errors := Then(errors, "email", EmailMessages(d.email, "email required", "invalid email"));
    Then(errors, "password", PasswordMessages(d.password))
  }

  /** Every check of the schema passes. */
  predicate Acceptable(form: LoginForm) {
    |Trim(form.businessName)| >= 3 && IsEmail(Trim(form.email)) && 8 <= |Trim(form.password)| <= 64
  }

  /** The flattened errors of the schema: none exactly when every check passes. */
  function SchemaErrors(form: LoginForm): (errors: FieldErrors)
    ensures errors == [] <==> Acceptable(form)
    ensures Reported(errors)
  {
    Checks(Parse(form))
  }

  /** The answer to an unknown e-mail or a wrong password: the same message on both fields. */
  const WrongCredentials: FieldErrors :=
    [FieldError("email", ["email or password is wrong"]),
     FieldError("password", ["email or password is wrong"])]

  const BusinessMismatch: FieldErrors := [FieldError("businessName", ["business name do not match"])]

  /** The stored account matches the parsed form: same business name, and argon2's `verify`
      accepts the password against the stored hash. */
  predicate Matches(m: Signup.Member, data: LoginForm, verify: (string, string) -> bool) {
    m.group.businessName == data.businessName && verify(m.user.password, data.password)
  }

  /** The lookups of `validate` once the schema has passed, given the join row it read (`None`
      when `result` is undefined): an unknown e-mail, then the business name, then the
      password. */
  function Answer(data: LoginForm, found: Option<Signup.Member>, verify: (string, string) -> bool)
    : (r: Validation<LoginForm>)
    ensures r.Valid? <==> found.Some? && Matches(found.value, data, verify)
    ensures r.Valid? ==> r.data == data
    ensures found.None? ==> r == Invalid(WrongCredentials)
    ensures found.Some? && found.value.group.businessName != data.businessName ==>
              r == Invalid(BusinessMismatch)
    ensures r.Invalid? ==> r.errors == WrongCredentials || r.errors == BusinessMismatch
  {
    match found
    case None => Invalid(WrongCredentials)
    case Some(m) =>
      if data.businessName != m.group.businessName then Invalid(BusinessMismatch)
      else if !verify(m.user.password, data.password) then Invalid(WrongCredentials)
      else Valid(data)
  }

  /** `validate`, with argon2's `verify(hash, password)` as a function: the schema, then the
      first row of the users–groups join with the submitted e-mail. */
  function Validate(form: LoginForm, s: Store, verify: (string, string) -> bool)
    : (r: Validation<LoginForm>)
    ensures r.Valid? <==>
              && Acceptable(form) && Signup.MemberByEmail(s, Trim(form.email)).Some?
              && Matches(Signup.MemberByEmail(s, Trim(form.email)).value, Parse(form), verify)
    ensures r.Valid? ==> r.data == Parse(form)
    ensures !Acceptable(form) ==> r == Invalid(SchemaErrors(form))
    ensures Acceptable(form) ==> r == Answer(Parse(form), Signup.MemberByEmail(s, Trim(form.email)), verify)
    ensures r.Invalid? ==> WellFormed(r.errors)
  {
    if !Acceptable(form) then Invalid(SchemaErrors(form))
    else Answer(Parse(form), Signup.MemberByEmail(s, Trim(form.email)), verify)
  }

  /** The cookie `authentication` returns. */
  datatype Session = Session(userId: Id, groupId: Id, roles: string)

  /** `authentication`: the first user with that e-mail, read without the join. With no such
      user, `user.id` throws; that is `None`. */
  function Authentication(data: LoginForm, users: seq<User>): (r: Option<Session>)
    ensures r.None? <==> forall u :: u in users ==> u.email != data.email
    ensures r.Some? ==> exists u :: u in users && u.email == data.email
                                    && r.value == Session(u.id, u.groupId, u.roles)
  {
    match Signup.UserByEmail(users, data.email)
    case None => None
    case Some(u) => Some(Session(u.id, u.groupId, u.roles))
  }

  /** E-mails are unique in `users`. */
  predicate UniqueEmails(users: seq<User>) {
    Unique(users, (u: User) => u.email)
  }

  /** With unique e-mails, the session opened after a successful validation is that of the
      user whose password was checked. */
  lemma SessionIsCheckedUser(form: LoginForm, s: Store, verify: (string, string) -> bool)
    requires UniqueEmails(s.users) && Validate(form, s, verify).Valid?
    ensures var m := Signup.MemberByEmail(s, Trim(form.email)).value;
            Authentication(Validate(form, s, verify).data, s.users)
            == Some(Session(m.user.id, m.user.groupId, m.user.roles))
  {
    var m := Signup.MemberByEmail(s, Trim(form.email)).value;
    var u := Signup.UserByEmail(s.users, Trim(form.email)).value;
    UniqueKeyDetermines(s.users, (u: User) => u.email, u, m.user);
  }

  /** The stored business name is compared with a lower-cased one: an account whose business
      name has a capital letter never logs in. */
  lemma CapitalisedBusinessNeverLogsIn(form: LoginForm, s: Store, verify: (string, string) -> bool)
    requires Signup.MemberByEmail(s, Trim(form.email)).Some?
    requires HasUpper(Signup.MemberByEmail(s, Trim(form.email)).value.group.businessName)
    ensures Validate(form, s, verify).Invalid?
  {
  }

  /** The join row of a user just signed up under fresh ids is that user and its group. */
  lemma {:induction false} SignedUpMember(data: Signup.SignupForm, s: Store, groupId: Id,
                                          userId: Id, hash: string -> string)
    requires forall u :: u in s.users ==> u.email != data.email
    requires forall g :: g in s.groups ==> g.id != groupId
    ensures var r := Signup.SignUp(data, s, Some(groupId), userId, hash);
            Signup.MemberByEmail(r, data.email)
            == Some(Signup.Member(r.users[|s.users|], Group(groupId, data.businessName)))
  {
    var r := Signup.SignUp(data, s, Some(groupId), userId, hash);
    var g := Group(groupId, data.businessName);
    assert r.groups == s.groups + [g];
    FirstAppend(s.groups, [g], (h: Group) => h.id == groupId);
    assert Signup.GroupOf(r.groups, groupId) == Some(g);
    var hit := (u: User) => u.email == data.email && Signup.GroupOf(r.groups, u.groupId).Some?;
    var added := [r.users[|s.users|]];
    assert r.users == s.users + added;
    FirstAppend(s.users, added, hit);
  }

  /** Signing up and then logging in with the same details opens an admin session in the new
      group, provided the business name was typed in lower case. */
  lemma SignUpThenLogIn(data: Signup.SignupForm, s: Store, groupId: Id, userId: Id,
                        hash: string -> string, verify: (string, string) -> bool, form: LoginForm)
    requires forall u :: u in s.users ==> u.email != data.email
    requires forall g :: g in s.groups ==> g.id != groupId
    requires Acceptable(form) && Trim(form.email) == data.email
    requires Lower(Trim(form.businessName)) == data.businessName
    requires verify(hash(data.password), Trim(form.password))
    ensures var r := Signup.SignUp(data, s, Some(groupId), userId, hash);
            && Validate(form, r, verify) == Valid(Parse(form))
            && Authentication(Parse(form), r.users) == Some(Session(userId, groupId, ADMIN))
  {
    var r := Signup.SignUp(data, s, Some(groupId), userId, hash);
    SignedUpMember(data, s, groupId, userId, hash);
    Signup.SignUpCreatesSoleAdmin(data, s, groupId, userId, hash);
  }

  /** The same sign-up with a capital letter in the business name locks its owner out. */
  lemma CapitalisedSignUpLocksOut(data: Signup.SignupForm, s: Store, groupId: Id, userId: Id,
                                  hash: string -> string, verify: (string, string) -> bool,
                                  form: LoginForm)
    requires forall u :: u in s.users ==> u.email != data.email
    requires forall g :: g in s.groups ==> g.id != groupId
    requires HasUpper(data.businessName) && Trim(form.email) == data.email
    ensures Validate(form, Signup.SignUp(data, s, Some(groupId), userId, hash), verify).Invalid?
  {
    SignedUpMember(data, s, groupId, userId, hash);
    CapitalisedBusinessNeverLogsIn(form, Signup.SignUp(data, s, Some(groupId), userId, hash), verify);
  }
}
