/** `app/lib/actions/customers/update.ts`: editing a customer and its address. */
module CustomerUpdate {

  import opened Wrappers
  import opened Seqs
  import opened Text
  import opened Forms
  import opened Schema

  /** The fields of `UpdateCustomersFormSchema` as submitted. The address fields are optional:
      `None` is a field the form did not send. */
  datatype UpdateCustomerForm = UpdateCustomerForm(firstName: string, lastName: string,
                                                   email: string, phoneNumber: NumberField,
                                                   streetAddress: Option<string>,
                                                   city: Option<string>,
                                                   provience: Option<string>,
                                                   postalCode: Option<int>)

  /** The parsed form `updateCustomer` receives. */
  datatype UpdateCustomerData = UpdateCustomerData(firstName: string, lastName: string,
                                                   email: string, phoneNumber: int,
                                                   streetAddress: Option<string>,
                                                   city: Option<string>,
                                                   provience: Option<string>,
                                                   postalCode: Option<int>)

  /** `.trim().toLowerCase()` of an optional field that was sent. */
  function NormaliseOptional(field: Option<string>): (r: Option<string>)
    ensures r.None? <==> field.None?
    ensures field.Some? ==> r.value == Lower(Trim(field.value)) && !HasUpper(r.value)
  {
    match field
    case None => None
    case Some(v) => LowerHasNoUpper(Trim(v)); Some(Lower(Trim(v)))
  }

  /** The text fields after `.trim()`, and `.toLowerCase()` for all but the e-mail. */
  function Normalise(form: UpdateCustomerForm): (n: UpdateCustomerForm)
    ensures n.firstName == Lower(Trim(form.firstName)) && !HasUpper(n.firstName)
    ensures n.lastName == Lower(Trim(form.lastName)) && !HasUpper(n.lastName)
    ensures n.email == Trim(form.email)
    ensures n.streetAddress == NormaliseOptional(form.streetAddress)
            && n.city == NormaliseOptional(form.city)
            && n.provience == NormaliseOptional(form.provience)
    ensures n.phoneNumber == form.phoneNumber && n.postalCode == form.postalCode
  {
    LowerHasNoUpper(Trim(form.firstName));
    LowerHasNoUpper(Trim(form.lastName));
    form.(firstName := Lower(Trim(form.firstName)), lastName := Lower(Trim(form.lastName)),
          email := Trim(form.email), streetAddress := NormaliseOptional(form.streetAddress),
          city := NormaliseOptional(form.city), provience := NormaliseOptional(form.provience))
  }

  /** The checks of `UpdateCustomersFormSchema`; the optional address fields have none. */
  function Checks(n: UpdateCustomerForm): (errors: FieldErrors)
    ensures errors == [] <==>
              |n.firstName| >= 3 && |n.lastName| >= 3 && IsEmail(n.email) && n.phoneNumber.Parsed?
    ensures Reported(errors)
  {
    var errors := Field("firstName", NameMessages(n.firstName, "first name required",
                                                  "first name must be at lease 3 character long"));
    var errors := Then(errors, "lastName", NameMessages(n.lastName, "last name required",
                                                        "last name must be at lease 3 character long"));
    var errors := Then(errors, "email", EmailMessages(n.email, "email required", "invalid email"));
    Then(errors, "phoneNumber", NumberMessages(n.phoneNumber, "phone number required"))
  }

  /** Every check of the schema passes. */
  predicate Acceptable(form: UpdateCustomerForm) {
    && |Trim(form.firstName)| >= 3 && |Trim(form.lastName)| >= 3 && IsEmail(Trim(form.email))
    && form.phoneNumber.Parsed?
  }

  /** `validate`: the schema alone; there is no e-mail lookup on update. */
  function Validate(form: UpdateCustomerForm): (r: Validation<UpdateCustomerData>)
    ensures r.Valid? <==> Acceptable(form)
    ensures r.Valid? ==> var n := Normalise(form);
              r.data == UpdateCustomerData(n.firstName, n.lastName, n.email,
                                           form.phoneNumber.value, n.streetAddress, n.city,
                                           n.provience, form.postalCode)
    ensures r.Invalid? ==> r.errors == Checks(Normalise(form)) && WellFormed(r.errors)
  {
    var n := Normalise(form);
    var errors := Checks(n);
    if errors != [] then Invalid(errors)
    else
      Valid(UpdateCustomerData(n.firstName, n.lastName, n.email, form.phoneNumber.value,
                               n.streetAddress, n.city, n.provience, form.postalCode))
  }

  /** The `WHERE id = ... AND group_id = ...` of the customer update. */
  predicate Targets(c: Customer, groupId: Id, customerId: Id) {
    c.id == customerId && c.groupId == groupId
  }

  function EditCustomer(c: Customer, data: UpdateCustomerData): (v: Customer)
    ensures v.id == c.id && v.groupId == c.groupId
    ensures v.firstName == data.firstName && v.lastName == data.lastName
            && v.email == data.email && v.phoneNumber == data.phoneNumber
  {
    c.(firstName := data.firstName, lastName := data.lastName, email := data.email,
       phoneNumber := data.phoneNumber)
  }

  /** The address columns are all written; a field the form left out becomes `""` or `0`. */
  function EditAddress(a: CustomerAddress, data: UpdateCustomerData): (v: CustomerAddress)
    ensures v.id == a.id && v.customerId == a.customerId
    ensures v.streetAddress == (if data.streetAddress.Some? then data.streetAddress.value else "")
    ensures v.city == (if data.city.Some? then data.city.value else "")
    ensures v.provience == (if data.provience.Some? then data.provience.value else "")
    ensures v.postalCode == (if data.postalCode.Some? then data.postalCode.value else 0)
  {
    a.(streetAddress := data.streetAddress.GetOr(""), city := data.city.GetOr(""),
       provience := data.provience.GetOr(""), postalCode := data.postalCode.GetOr(0))
  }

  /** `updateCustomer`: the customer with that id in the caller's group, then every address
      row of that customer id, whatever group the customer is in. */
  function UpdateCustomer(data: UpdateCustomerData, groupId: Id, customerId: Id, s: Store)
    : (r: Store)
    ensures |r.customers| == |s.customers|
    ensures forall i :: 0 <= i < |s.customers| ==>
              r.customers[i] == if Targets(s.customers[i], groupId, customerId)
                                then EditCustomer(s.customers[i], data) else s.customers[i]
    ensures |r.customerAddress| == |s.customerAddress|
    ensures forall i :: 0 <= i < |s.customerAddress| ==>
              r.customerAddress[i] == if s.customerAddress[i].customerId == customerId
                                      then EditAddress(s.customerAddress[i], data)
                                      else s.customerAddress[i]
    ensures r.(customers := s.customers, customerAddress := s.customerAddress) == s
  {
    s.(customers := UpdateWhere(s.customers, (c: Customer) => Targets(c, groupId, customerId),
                                (c: Customer) => EditCustomer(c, data)),
       customerAddress := UpdateWhere(s.customerAddress,
                                      (a: CustomerAddress) => a.customerId == customerId,
                                      (a: CustomerAddress) => EditAddress(a, data)))
  }

  /** Saving the same form twice is saving it once. */
  lemma UpdateCustomerIdempotent(data: UpdateCustomerData, groupId: Id, customerId: Id, s: Store)
    ensures var once := UpdateCustomer(data, groupId, customerId, s);
            UpdateCustomer(data, groupId, customerId, once) == once
  {
    var once := UpdateCustomer(data, groupId, customerId, s);
    var twice := UpdateCustomer(data, groupId, customerId, once);
    assert twice.customers == once.customers;
    assert twice.customerAddress == once.customerAddress;
  }

  /** A form without address fields blanks the customer's address. */
  lemma OmittedAddressIsBlanked(data: UpdateCustomerData, groupId: Id, customerId: Id, s: Store,
                                i: int)
    requires data.streetAddress.None? && data.city.None? && data.provience.None?
    requires data.postalCode.None?
    requires 0 <= i < |s.customerAddress| && s.customerAddress[i].customerId == customerId
    ensures var a := UpdateCustomer(data, groupId, customerId, s).customerAddress[i];
            a.streetAddress == a.city == a.provience == "" && a.postalCode == 0
  {
  }

  /** The address update is not scoped to the group: naming another group's customer leaves
      that customer as it is but rewrites its address. */
  lemma ForeignUpdateRewritesAddress(data: UpdateCustomerData, groupId: Id, s: Store, i: int,
                                     j: int)
    requires 0 <= i < |s.customers| && s.customers[i].groupId != groupId
    requires 0 <= j < |s.customerAddress| && s.customerAddress[j].customerId == s.customers[i].id
    ensures var r := UpdateCustomer(data, groupId, s.customers[i].id, s);
            r.customers[i] == s.customers[i]
            && r.customerAddress[j] == EditAddress(s.customerAddress[j], data)
  {
  }
}
