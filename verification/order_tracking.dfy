/** `app/lib/actions/orders/update-tracking.ts`: moving an order along its tracking states. */
module OrderTracking {

  import opened Wrappers
  import opened Seqs
  import opened Schema

  /** The `WHERE order_id = ... AND group_id = ...` of the update. */
  predicate Targets(t: OrderTracking, orderId: Id, groupId: Id) {
    t.orderId == orderId && t.groupId == groupId
  }

  /** A tracking row with one timestamp column set to `date`. */
  function WithStamp(t: OrderTracking, column: TrackingColumn, date: Date): (u: OrderTracking)
    ensures Stamp(u, column) == Some(date)
    ensures forall c :: c != column ==> Stamp(u, c) == Stamp(t, c)
    ensures u == t.(createdAt := u.createdAt, processedAt := u.processedAt,
                    shippedAt := u.shippedAt, deliveredAt := u.deliveredAt)
  {
    match column
    case CreatedAt => t.(createdAt := Some(date))
    case ProcessedAt => t.(processedAt := Some(date))
    case ShippedAt => t.(shippedAt := Some(date))
    case DeliveredAt => t.(deliveredAt := Some(date))
  }

  /** The `SET status = ..., <column> = date` of one targeted row. */
  function Advance(t: OrderTracking, status: TrackingStatus, column: TrackingColumn, date: Date)
    : (u: OrderTracking)
    ensures u.status == status && Stamp(u, column) == Some(date)
    ensures forall c :: c != column ==> Stamp(u, c) == Stamp(t, c)
    ensures u.id == t.id && u.groupId == t.groupId && u.orderId == t.orderId
            && u.customerId == t.customerId
  {
    WithStamp(t, column, date).(status := status)
  }

  /** `updateOrderTracking`, with the clock reading `date` as a parameter. Every row of the
      order in the caller's group takes the new status and the timestamp; nothing checks that
      the status moves forward or that it matches the column. */
  function UpdateOrderTracking(s: Store, orderId: Id, groupId: Id, status: TrackingStatus,
                               column: TrackingColumn, date: Date): (r: Store)
    ensures |r.orderTracking| == |s.orderTracking|
    ensures forall i :: 0 <= i < |s.orderTracking| && Targets(s.orderTracking[i], orderId, groupId) ==>
              r.orderTracking[i] == Advance(s.orderTracking[i], status, column, date)
    ensures forall i :: 0 <= i < |s.orderTracking| && !Targets(s.orderTracking[i], orderId, groupId) ==>
              r.orderTracking[i] == s.orderTracking[i]
    ensures r.(orderTracking := s.orderTracking) == s
  {
    var hit := (t: OrderTracking) => Targets(t, orderId, groupId);
    var set_ := (t: OrderTracking) => Advance(t, status, column, date);
    s.(orderTracking := UpdateWhere(s.orderTracking, hit, set_))
  }

  /** Repeating an update changes nothing more. */
  lemma UpdateTrackingIdempotent(s: Store, orderId: Id, groupId: Id, status: TrackingStatus,
                                 column: TrackingColumn, date: Date)
    ensures var once := UpdateOrderTracking(s, orderId, groupId, status, column, date);
            UpdateOrderTracking(once, orderId, groupId, status, column, date) == once
  {
    var once := UpdateOrderTracking(s, orderId, groupId, status, column, date);
    var twice := UpdateOrderTracking(once, orderId, groupId, status, column, date);
    forall i | 0 <= i < |once.orderTracking|
      ensures twice.orderTracking[i] == once.orderTracking[i]
    {
      var t := s.orderTracking[i];
      if Targets(t, orderId, groupId) {
        assert Targets(once.orderTracking[i], orderId, groupId);
        var u := once.orderTracking[i];
        var v := twice.orderTracking[i];
        assert v.status == u.status;
        forall c ensures Stamp(v, c) == Stamp(u, c) {
        }
        assert v.createdAt == u.createdAt by { assert Stamp(v, CreatedAt) == Stamp(u, CreatedAt); }
        assert v.processedAt == u.processedAt by { assert Stamp(v, ProcessedAt) == Stamp(u, ProcessedAt); }
        assert v.shippedAt == u.shippedAt by { assert Stamp(v, ShippedAt) == Stamp(u, ShippedAt); }
        assert v.deliveredAt == u.deliveredAt by { assert Stamp(v, DeliveredAt) == Stamp(u, DeliveredAt); }
      }
    }
  }

  /** An order of another group (or no order at all) is left alone. */
  lemma UpdateWithoutTargetChangesNothing(s: Store, orderId: Id, groupId: Id,
                                          status: TrackingStatus, column: TrackingColumn,
                                          date: Date)
    requires forall t :: t in s.orderTracking ==> !Targets(t, orderId, groupId)
    ensures UpdateOrderTracking(s, orderId, groupId, status, column, date) == s
  {
    var r := UpdateOrderTracking(s, orderId, groupId, status, column, date);
    forall i | 0 <= i < |s.orderTracking|
      ensures r.orderTracking[i] == s.orderTracking[i]
    {
      assert s.orderTracking[i] in s.orderTracking;
    }
  }

  /** Two updates of different columns keep both timestamps; the later status wins. */
  lemma LaterStatusWinsAndStampsAccumulate(s: Store, orderId: Id, groupId: Id,
                                           first: TrackingStatus, c1: TrackingColumn, d1: Date,
                                           second: TrackingStatus, c2: TrackingColumn, d2: Date,
                                           i: nat)
    requires c1 != c2
    requires i < |s.orderTracking| && Targets(s.orderTracking[i], orderId, groupId)
    ensures var r := UpdateOrderTracking(UpdateOrderTracking(s, orderId, groupId, first, c1, d1),
                                         orderId, groupId, second, c2, d2);
            && r.orderTracking[i].status == second
            && Stamp(r.orderTracking[i], c1) == Some(d1)
            && Stamp(r.orderTracking[i], c2) == Some(d2)
  {
    var mid := UpdateOrderTracking(s, orderId, groupId, first, c1, d1);
    assert Targets(mid.orderTracking[i], orderId, groupId);
  }

  /** Nothing orders the states: an order already delivered can be sent back to "processing",
      and its delivery time stays recorded. */
  lemma BackwardMoveIsAccepted(s: Store, orderId: Id, groupId: Id, date: Date, i: nat)
    requires i < |s.orderTracking| && Targets(s.orderTracking[i], orderId, groupId)
    requires s.orderTracking[i].status == Delivered && s.orderTracking[i].deliveredAt.Some?
    ensures var r := UpdateOrderTracking(s, orderId, groupId, Processing, ProcessedAt, date);
            r.orderTracking[i].status == Processing
            && r.orderTracking[i].deliveredAt == s.orderTracking[i].deliveredAt
  {
    assert Stamp(s.orderTracking[i], DeliveredAt) == s.orderTracking[i].deliveredAt;
  }
}
