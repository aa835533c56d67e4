/** `app/lib/actions/customers/create.ts`: the customer form, its per-group e-mail check and
    the two inserts (the customer, then its address). */
module CustomerCreate {

  import opened Wrappers
  import opened Seqs
  import opened Text
  import opened Forms
  import opened Schema

  /** The fields of `AddCustomersFormSchema` as submitted. */
  datatype CustomerForm = CustomerForm(firstName: string, lastName: string, email: string,
                                       phoneNumber: NumberField, streetAddress: string,
                                       city: string, provience: string, postalCode: NumberField)

  /** The parsed form `createCustomers` receives. */
  datatype CustomerData = CustomerData(firstName: string, lastName: string, email: string,
                                       phoneNumber: int, streetAddress: string, city: string,
                                       provience: string, postalCode: int)

  /** The text fields after `.trim()`, and `.toLowerCase()` for all but the e-mail. */
  function Normalise(form: CustomerForm): (n: CustomerForm)
    ensures n.firstName == Lower(Trim(form.firstName)) && !HasUpper(n.firstName)
    ensures n.lastName == Lower(Trim(form.lastName)) && !HasUpper(n.lastName)
    ensures n.email == Trim(form.email)
    ensures n.streetAddress == Lower(Trim(form.streetAddress))
            && n.city == Lower(Trim(form.city)) && n.provience == Lower(Trim(form.provience))
    ensures n.phoneNumber == form.phoneNumber && n.postalCode == form.postalCode
  {
    LowerHasNoUpper(Trim(form.firstName));
    LowerHasNoUpper(Trim(form.lastName));
    form.(firstName := Lower(Trim(form.firstName)), lastName := Lower(Trim(form.lastName)),
          email := Trim(form.email), streetAddress := Lower(Trim(form.streetAddress)),
          city := Lower(Trim(form.city)), provience := Lower(Trim(form.provience)))
  }

  /** The checks of `AddCustomersFormSchema` on normalised text, messages in schema order. */
  function Checks(n: CustomerForm): (errors: FieldErrors)
    ensures errors == [] <==>
              && |n.firstName| >= 3 && |n.lastName| >= 3 && IsEmail(n.email)
              && n.phoneNumber.Parsed? && n.streetAddress != [] && n.city != []
              && n.provience != [] && n.postalCode.Parsed?
    ensures Reported(errors)
  {
    var errors := Field("firstName", NameMessages(n.firstName, "first name required",
                                                  "first name must be at lease 3 character long"));
    var errors := Then(errors, "lastName", NameMessages(n.lastName, "last name required",
                                                        "last name must be at lease 3 character long"));
    var errors := Then(errors, "email", EmailMessages(n.email, "email required", "invalid email"));
    var errors := Then(errors, "phoneNumber", NumberMessages(n.phoneNumber, "phone number required"));
    var errors := Then(errors, "streetAddress", MinLength(n.streetAddress, 1, "street address required"));
    var errors := Then(errors, "city", MinLength(n.city, 1, "city name required"));
    var errors := Then(errors, "provience", MinLength(n.provience, 1, "provience name required"));
    Then(errors, "postalCode", NumberMessages(n.postalCode, "postal code required"))
  }

  /** Every check of the schema passes. */
  predicate Acceptable(form: CustomerForm) {
    && |Trim(form.firstName)| >= 3 && |Trim(form.lastName)| >= 3 && IsEmail(Trim(form.email))
    && form.phoneNumber.Parsed? && Trim(form.streetAddress) != [] && Trim(form.city) != []
    && Trim(form.provience) != [] && form.postalCode.Parsed?
  }

  /** The flattened errors of the schema: none exactly when every check passes. */
  function SchemaErrors(form: CustomerForm): (errors: FieldErrors)
    ensures errors == [] <==> Acceptable(form)
    ensures Reported(errors)
  {
    Checks(Normalise(form))
  }

  /** `AddCustomersFormSchema.safeParse`. */
  function SafeParse(form: CustomerForm): (r: Validation<CustomerData>)
    ensures r.Valid? <==> Acceptable(form)
    ensures r.Valid? ==> var n := Normalise(form);
              r.data == CustomerData(n.firstName, n.lastName, n.email, form.phoneNumber.value,
                                     n.streetAddress, n.city, n.provience, form.postalCode.value)
    ensures r.Invalid? ==> r.errors == SchemaErrors(form) && WellFormed(r.errors)
  {
    var errors := SchemaErrors(form);
    if errors != [] then Invalid(errors)
    else
      var n := Normalise(form);
      Valid(CustomerData(n.firstName, n.lastName, n.email, form.phoneNumber.value,
                         n.streetAddress, n.city, n.provience, form.postalCode.value))
  }

  /** The group already has a customer with exactly this e-mail. */
  predicate EmailTaken(customers: seq<Customer>, groupId: Id, email: string) {
    exists c :: c in customers && c.groupId == groupId && c.email == email
  }

  const CustomerExists: FieldErrors := [FieldError("email", ["customer already exists"])]

  /** `validate`: the schema, then the e-mail lookup among the caller's group's customers. */
  function Validate(form: CustomerForm, groupId: Id, customers: seq<Customer>)
    : (r: Validation<CustomerData>)
    ensures r.Valid? <==> Acceptable(form) && !EmailTaken(customers, groupId, Normalise(form).email)
    ensures r.Valid? ==> r == SafeParse(form)
    ensures !Acceptable(form) ==> r == Invalid(SchemaErrors(form))
    ensures Acceptable(form) && EmailTaken(customers, groupId, Normalise(form).email) ==>
              r == Invalid(CustomerExists)
    ensures r.Invalid? ==> WellFormed(r.errors)
  {
    var parsed := SafeParse(form);
    if parsed.Invalid? then parsed
    else if EmailTaken(customers, groupId, parsed.data.email) then Invalid(CustomerExists)
    else parsed
  }

  /** `createCustomers`: the customer row, then an address row pointing at it. The id the
      customer insert returns is a parameter; `None` is an insert that threw, after which the
      `try` writes nothing more. */
  function CreateCustomer(data: CustomerData, groupId: Id, s: Store, customerInsert: Option<Id>,
                          addressId: Id): (r: Store)
    ensures customerInsert.None? ==> r == s
    ensures customerInsert.Some? ==>
              && |r.customers| == |s.customers| + 1 && r.customers[..|s.customers|] == s.customers
              && r.customers[|s.customers|]
                 == Customer(customerInsert.value, groupId, data.firstName, data.lastName,
                             data.email, data.phoneNumber)
              && |r.customerAddress| == |s.customerAddress| + 1
              && r.customerAddress[..|s.customerAddress|] == s.customerAddress
              && r.customerAddress[|s.customerAddress|]
                 == CustomerAddress(addressId, customerInsert.value, data.streetAddress, data.city,
                                    data.provience, data.postalCode)
    ensures r.(customers := s.customers, customerAddress := s.customerAddress) == s
  {
    match customerInsert
    case None => s
    case Some(customerId) =>
      s.(customers := s.customers + [Customer(customerId, groupId, data.firstName, data.lastName,
                                              data.email, data.phoneNumber)],
         customerAddress := s.customerAddress + [CustomerAddress(addressId, customerId,
                                                                 data.streetAddress, data.city,
                                                                 data.provience, data.postalCode)])
  }

  predicate HasEmail(c: Customer, groupId: Id, email: string) {
    c.groupId == groupId && c.email == email
  }

  /** After a validated creation the group has exactly one customer with that e-mail. */
  lemma ValidatedCreateKeepsEmailsUnique(form: CustomerForm, groupId: Id, s: Store,
                                         customerId: Id, addressId: Id)
    requires Validate(form, groupId, s.customers).Valid?
    ensures var data := Validate(form, groupId, s.customers).data;
            var r := CreateCustomer(data, groupId, s, Some(customerId), addressId);
            Count(r.customers, (c: Customer) => HasEmail(c, groupId, data.email)) == 1
  {
    var data := Validate(form, groupId, s.customers).data;
    var r := CreateCustomer(data, groupId, s, Some(customerId), addressId);
    var hit := (c: Customer) => HasEmail(c, groupId, data.email);
    var added := [r.customers[|s.customers|]];
    assert r.customers == s.customers + added;
    CountAppend(s.customers, added, hit);
    FilterKeepsNone(s.customers, hit);
    assert Filter(added, hit) == added;
  }

  /** The address row of a new customer points at it. */
  lemma AddressBelongsToNewCustomer(data: CustomerData, groupId: Id, s: Store, customerId: Id,
                                    addressId: Id)
    ensures var r := CreateCustomer(data, groupId, s, Some(customerId), addressId);
            r.customerAddress[|s.customerAddress|].customerId == r.customers[|s.customers|].id
  {
  }

  /** The e-mail is not lower-cased: when the group's only customer holds the lower-case form
      of an e-mail typed with capitals, the capitalised form is accepted as a new customer. */
  lemma CaseVariantEmailIsAccepted(form: CustomerForm, groupId: Id, existing: Customer)
    requires Acceptable(form) && HasUpper(Trim(form.email))
    requires existing.email == Lower(Trim(form.email))
    ensures Validate(form, groupId, [existing]).Valid?
  {
    LowerHasNoUpper(Trim(form.email));
    assert existing.email != Normalise(form).email;
    assert !EmailTaken([existing], groupId, Normalise(form).email);
  }
}
