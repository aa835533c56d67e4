/** `getTotalRevenue`: the orders of one group, selected by `group_id`, and their totals summed. */
module Dashboard {

  import opened Seqs
  import opened Schema

  /** The `WHERE group_id = groupId` clause of the revenue query. */
  function InGroup(groupId: Id): Order -> bool {
    (o: Order) => o.groupId == groupId
  }

  function OrderTotal(o: Order): int { o.total }

  /** The revenue of a group: the totals of its orders, and of no other group's. */
  function Revenue(orders: seq<Order>, groupId: Id): int {
    SumBy(Filter(orders, InGroup(groupId)), OrderTotal)
  }

  /** The source's query followed by its indexed summing loop. */
  method GetTotalRevenue(orders: seq<Order>, groupId: Id) returns (totalRevenue: int)
    ensures totalRevenue == Revenue(orders, groupId)
  {
    var order := Filter(orders, InGroup(groupId));
    totalRevenue := 0;
    var i := 0;
    while i < |order|
      invariant 0 <= i <= |order|
      invariant totalRevenue == SumBy(order[..i], OrderTotal)
    {
      SumByAppend(order[..i], [order[i]], OrderTotal);
      assert order[..i + 1] == order[..i] + [order[i]];
      totalRevenue := totalRevenue + order[i].total;
      i := i + 1;
    }
    assert order[..|order|] == order;
  }

  /** A group with no orders has revenue 0. */
  lemma NoOrdersNoRevenue(orders: seq<Order>, groupId: Id)
    requires forall o :: o in orders ==> o.groupId != groupId
    ensures Revenue(orders, groupId) == 0
  {
    FilterKeepsNone(orders, InGroup(groupId));
  }

  /** Appending an order of the group raises its revenue by that order's total; appending an
      order of another group leaves it unchanged. */
  lemma AddingAnOrder(orders: seq<Order>, o: Order, groupId: Id)
    ensures o.groupId == groupId ==> Revenue(orders + [o], groupId) == Revenue(orders, groupId) + o.total
    ensures o.groupId != groupId ==> Revenue(orders + [o], groupId) == Revenue(orders, groupId)
  {
    var keep := InGroup(groupId);
    FilterAppend(orders, [o], keep);
    SumByAppend(Filter(orders, keep), Filter([o], keep), OrderTotal);
    assert [o][1..] == [];
  }

  /** Orders of other groups contribute nothing: the revenue is that of the group's own orders. */
  lemma OtherGroupsContributeNothing(orders: seq<Order>, others: seq<Order>, groupId: Id)
    requires forall o :: o in others ==> o.groupId != groupId
    ensures Revenue(orders + others, groupId) == Revenue(orders, groupId)
    ensures Revenue(others + orders, groupId) == Revenue(orders, groupId)
  {
    var keep := InGroup(groupId);
    FilterAppend(orders, others, keep);
    FilterAppend(others, orders, keep);
    FilterKeepsNone(others, keep);
    assert Filter(orders, keep) + [] == Filter(orders, keep);
    assert [] + Filter(orders, keep) == Filter(orders, keep);
  }
}
