/** `app/lib/actions/orders/delete.ts`: removing an order with its line items and tracking. */
module OrderDelete {

  import opened Wrappers
  import opened Seqs
  import opened Schema
  import OrderCreate

  predicate OfOrder(d: OrderDetail, orderId: Id) { d.orderId == orderId }

  predicate TracksOrder(t: OrderTracking, orderId: Id, groupId: Id) {
    t.orderId == orderId && t.groupId == groupId
  }

  predicate IsOrder(o: Order, orderId: Id, groupId: Id) { o.id == orderId && o.groupId == groupId }

  /** `deleteOrder`. The line items are deleted by order id alone; the tracking rows and the
      order row only inside the caller's group. */
  function DeleteOrder(s: Store, orderId: Id, groupId: Id): (r: Store)
    ensures forall d :: d in r.orderDetails <==> d in s.orderDetails && !OfOrder(d, orderId)
    ensures forall t :: t in r.orderTracking <==>
              t in s.orderTracking && !TracksOrder(t, orderId, groupId)
    ensures forall o :: o in r.orders <==> o in s.orders && !IsOrder(o, orderId, groupId)
    ensures forall d :: multiset(r.orderDetails)[d] ==
              if OfOrder(d, orderId) then 0 else multiset(s.orderDetails)[d]
    ensures forall t :: multiset(r.orderTracking)[t] ==
              if TracksOrder(t, orderId, groupId) then 0 else multiset(s.orderTracking)[t]
    ensures forall o :: multiset(r.orders)[o] ==
              if IsOrder(o, orderId, groupId) then 0 else multiset(s.orders)[o]
    ensures IsSubsequence(r.orderDetails, s.orderDetails)
    ensures IsSubsequence(r.orderTracking, s.orderTracking)
    ensures IsSubsequence(r.orders, s.orders)
    ensures r.(orders := s.orders, orderDetails := s.orderDetails,
               orderTracking := s.orderTracking) == s
  {
    var details := (d: OrderDetail) => !OfOrder(d, orderId);
    var tracking := (t: OrderTracking) => !TracksOrder(t, orderId, groupId);
    var orders := (o: Order) => !IsOrder(o, orderId, groupId);
    FilterIsSubsequence(s.orderDetails, details);
    FilterIsSubsequence(s.orderTracking, tracking);
    FilterIsSubsequence(s.orders, orders);
    FilterMultiplicity(s.orderDetails, details);
    FilterMultiplicity(s.orderTracking, tracking);
    FilterMultiplicity(s.orders, orders);
    s.(orderDetails := Filter(s.orderDetails, details),
       orderTracking := Filter(s.orderTracking, tracking),
       orders := Filter(s.orders, orders))
  }

  /** Deleting the same order twice is deleting it once. */
  lemma DeleteOrderIdempotent(s: Store, orderId: Id, groupId: Id)
    ensures DeleteOrder(DeleteOrder(s, orderId, groupId), orderId, groupId)
            == DeleteOrder(s, orderId, groupId)
  {
    FilterIdempotent(s.orderDetails, (d: OrderDetail) => !OfOrder(d, orderId));
    FilterIdempotent(s.orderTracking, (t: OrderTracking) => !TracksOrder(t, orderId, groupId));
    FilterIdempotent(s.orders, (o: Order) => !IsOrder(o, orderId, groupId));
  }

  /** A caller from another group cannot remove the order, but still wipes its line items. */
  lemma ForeignDeleteStripsLineItems(s: Store, o: Order, groupId: Id)
    requires o in s.orders && o.groupId != groupId
    ensures var r := DeleteOrder(s, o.id, groupId);
            o in r.orders && forall d :: d in r.orderDetails ==> d.orderId != o.id
  {
  }

  /** The order id is not used by any row the delete would touch. */
  predicate Fresh(s: Store, orderId: Id) {
    && (forall d :: d in s.orderDetails ==> d.orderId != orderId)
    && (forall t :: t in s.orderTracking ==> t.orderId != orderId)
    && (forall o :: o in s.orders ==> o.id != orderId)
  }

  /** Deleting an order just created under a fresh id gives the store back. */
  lemma {:induction false} CreateThenDeleteRestores(data: OrderCreate.OrderData, groupId: Id,
                                                    s: Store, orderId: Id, trackingId: Id,
                                                    date: Date)
    requires Fresh(s, orderId)
    ensures DeleteOrder(OrderCreate.CreateOrder(data, groupId, s, orderId, trackingId, date),
                        orderId, groupId) == s
  {
    var c := OrderCreate.CreateOrder(data, groupId, s, orderId, trackingId, date);
    if c == s {
      FilterKeepsAll(s.orderDetails, (d: OrderDetail) => !OfOrder(d, orderId));
      FilterKeepsAll(s.orderTracking, (t: OrderTracking) => !TracksOrder(t, orderId, groupId));
      FilterKeepsAll(s.orders, (o: Order) => !IsOrder(o, orderId, groupId));
    } else {
      var addedDetails := c.orderDetails[|s.orderDetails|..];
      assert c.orderDetails == s.orderDetails + addedDetails;
      FilterDropsAppended(s.orderDetails, addedDetails, (d: OrderDetail) => !OfOrder(d, orderId));
      var addedTracking := c.orderTracking[|s.orderTracking|..];
      assert c.orderTracking == s.orderTracking + addedTracking;
      FilterDropsAppended(s.orderTracking, addedTracking,
                          (t: OrderTracking) => !TracksOrder(t, orderId, groupId));
      var addedOrders := c.orders[|s.orders|..];
      assert c.orders == s.orders + addedOrders;
      FilterDropsAppended(s.orders, addedOrders, (o: Order) => !IsOrder(o, orderId, groupId));
    }
  }
}
