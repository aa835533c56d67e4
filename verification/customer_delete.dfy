/** `app/lib/actions/customers/delete.ts`: the customer's addresses, then the customer. */
module CustomerDelete {

  import opened Wrappers
  import opened Seqs
  import opened Schema
  import CustomerCreate

  /** The `WHERE id = ... AND group_id = ...` of the customer delete. */
  predicate Targets(c: Customer, customerId: Id, groupId: Id) {
    c.id == customerId && c.groupId == groupId
  }

  /** `deleteCustomer`: every address row of that customer id, whatever group the customer is
      in, then the customer with that id in the caller's group. */
  function DeleteCustomer(s: Store, customerId: Id, groupId: Id): (r: Store)
    ensures forall a :: a in r.customerAddress <==>
              a in s.customerAddress && a.customerId != customerId
    ensures forall c :: c in r.customers <==> c in s.customers && !Targets(c, customerId, groupId)
    ensures forall a :: multiset(r.customerAddress)[a] ==
              if a.customerId == customerId then 0 else multiset(s.customerAddress)[a]
    ensures forall c :: multiset(r.customers)[c] ==
              if Targets(c, customerId, groupId) then 0 else multiset(s.customers)[c]
    ensures IsSubsequence(r.customers, s.customers)
    ensures IsSubsequence(r.customerAddress, s.customerAddress)
    ensures r.(customers := s.customers, customerAddress := s.customerAddress) == s
  {
    var keepAddress := (a: CustomerAddress) => a.customerId != customerId;
    var keepCustomer := (c: Customer) => !Targets(c, customerId, groupId);
    FilterIsSubsequence(s.customerAddress, keepAddress);
    FilterIsSubsequence(s.customers, keepCustomer);
    FilterMultiplicity(s.customerAddress, keepAddress);
    FilterMultiplicity(s.customers, keepCustomer);
    s.(customerAddress := Filter(s.customerAddress, keepAddress),
       customers := Filter(s.customers, keepCustomer))
  }

  /** Deleting twice is deleting once. */
  lemma DeleteCustomerIdempotent(s: Store, customerId: Id, groupId: Id)
    ensures DeleteCustomer(DeleteCustomer(s, customerId, groupId), customerId, groupId)
            == DeleteCustomer(s, customerId, groupId)
  {
    FilterIdempotent(s.customerAddress, (a: CustomerAddress) => a.customerId != customerId);
    FilterIdempotent(s.customers, (c: Customer) => !Targets(c, customerId, groupId));
  }

  /** Naming another group's customer keeps that customer but deletes its addresses. */
  lemma ForeignDeleteStripsAddresses(s: Store, groupId: Id, c: Customer, a: CustomerAddress)
    requires c in s.customers && c.groupId != groupId
    requires a in s.customerAddress && a.customerId == c.id
    ensures var r := DeleteCustomer(s, c.id, groupId);
            c in r.customers && a !in r.customerAddress
  {
  }

  /** Deleting a customer just created under fresh ids gives the store back. */
  lemma CreateThenDeleteRestores(data: CustomerCreate.CustomerData, groupId: Id, s: Store,
                                 customerId: Id, addressId: Id)
    requires forall c :: c in s.customers ==> c.id != customerId
    requires forall a :: a in s.customerAddress ==> a.customerId != customerId
    ensures DeleteCustomer(CustomerCreate.CreateCustomer(data, groupId, s, Some(customerId), addressId),
                           customerId, groupId) == s
  {
    var r := CustomerCreate.CreateCustomer(data, groupId, s, Some(customerId), addressId);
    var addedCustomer := [r.customers[|s.customers|]];
    var addedAddress := [r.customerAddress[|s.customerAddress|]];
    assert r.customers == s.customers + addedCustomer;
    assert r.customerAddress == s.customerAddress + addedAddress;
    FilterDropsAppended(s.customers, addedCustomer, (c: Customer) => !Targets(c, customerId, groupId));
    FilterDropsAppended(s.customerAddress, addedAddress,
                        (a: CustomerAddress) => a.customerId != customerId);
  }
}
