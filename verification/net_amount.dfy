/** `calculateNetAmount` of the order-creation page: sub-total, less a percentage discount,
    plus a delivery charge, in exact arithmetic. */
module NetAmount {

  import opened Wrappers

  /** JavaScript truthiness of an optional number: an absent value and zero are falsy. */
  predicate Falsy(x: Option<real>) {
    x.None? || x.value == 0.0
  }

  /** `if (!x) { x = 0; }` */
  function OrZero(x: Option<real>): (r: real)
    ensures Falsy(x) ==> r == 0.0
    ensures !Falsy(x) ==> r == x.value
    ensures x.Some? ==> r == x.value
  {
    if Falsy(x) then 0.0 else x.value
  }

  function CalculateNetAmount(subTotal: real, discountInPercentage: Option<real>,
                              deliveryCharge: Option<real>): (total: real)
    // a falsy discount leaves the sub-total whole
    ensures Falsy(discountInPercentage) ==> total == subTotal + OrZero(deliveryCharge)
    // a falsy delivery charge adds nothing
    ensures Falsy(deliveryCharge) ==> total == subTotal - OrZero(discountInPercentage) / 100.0 * subTotal
  {
    var discount := OrZero(discountInPercentage);
    var delivery := OrZero(deliveryCharge);
    subTotal - (discount / 100.0) * subTotal + delivery
  }

  /** A discount takes exactly its percentage of the sub-total off the undiscounted amount. */
  lemma DiscountTakesItsShare(subTotal: real, discount: real, deliveryCharge: Option<real>)
    ensures CalculateNetAmount(subTotal, Some(discount), deliveryCharge)
         == CalculateNetAmount(subTotal, None, deliveryCharge) - discount * subTotal / 100.0
  {
  }

  /** A 100% discount leaves exactly the delivery charge. */
  lemma FullDiscountLeavesDelivery(subTotal: real, deliveryCharge: Option<real>)
    ensures CalculateNetAmount(subTotal, Some(100.0), deliveryCharge) == OrZero(deliveryCharge)
  {
  }

  /** Raising the delivery charge by `d` raises the total by exactly `d`, also when either
      charge is zero and so taken as falsy. */
  lemma DeliveryIsAdditive(subTotal: real, discount: Option<real>, charge: real, d: real)
    ensures CalculateNetAmount(subTotal, discount, Some(charge + d))
         == CalculateNetAmount(subTotal, discount, Some(charge)) + d
  {
  }

  /** With a non-negative sub-total and a discount between 0 and 100 percent, the total lies
      between the delivery charge and the undiscounted amount. */
  lemma TotalIsBounded(subTotal: real, discount: real, deliveryCharge: Option<real>)
    requires subTotal >= 0.0
    requires 0.0 <= discount <= 100.0
    ensures OrZero(deliveryCharge) <= CalculateNetAmount(subTotal, Some(discount), deliveryCharge)
    ensures CalculateNetAmount(subTotal, Some(discount), deliveryCharge) <= subTotal + OrZero(deliveryCharge)
  {
    var off := discount / 100.0 * subTotal;
    assert 0.0 <= discount / 100.0 <= 1.0;
    assert off <= subTotal by {
      assert subTotal - off == (1.0 - discount / 100.0) * subTotal;
    }
  }
}
