/** The project page: its requisitions, what they have spent, what is
    still committed, and the balance left of the budget. */
module ProjectDetail {
  import opened Types
  import OrdersManager
  import Dashboard

  /** `orders.filter(o => o.projectId === selectedProjectId)`, the list
      the page receives. */
  function ProjectOrders(orders: seq<MaterialOrder>, projectId: string): (r: seq<MaterialOrder>)
    ensures forall o :: o in r <==> o in orders && o.projectId == projectId
  {
    if |orders| == 0 then []
    else
      var front := ProjectOrders(orders[..|orders| - 1], projectId);
      var o := orders[|orders| - 1];
      assert forall x :: x in orders <==> x in orders[..|orders| - 1] || x == o;
      if o.projectId == projectId then front + [o] else front
  }

  /** A requisition whose cost is still committed: neither APPROVED,
      DELIVERED nor REJECTED. */
  predicate IsPending(s: OrderStatus) {
    s != Approved && s != Delivered && s != Rejected
  }

  function PendingCost(o: MaterialOrder): real {
    if IsPending(o.status) then OrdersManager.TotalOrderCost(o) else 0.0
  }

  /** `pendingSpent`. */
  function PendingSpent(orders: seq<MaterialOrder>): real {
    if |orders| == 0 then 0.0 else PendingSpent(orders[..|orders| - 1]) + PendingCost(orders[|orders| - 1])
  }

  /** The "available balance" card. */
  function AvailableBalance(project: Project, orders: seq<MaterialOrder>): real {
    project.budget - Dashboard.ActualSpend(orders) - PendingSpent(orders)
  }

  function LiveCost(o: MaterialOrder): real {
    if o.status == Rejected then 0.0 else OrdersManager.TotalOrderCost(o)
  }

  /** The cost of every requisition that is not rejected. */
  function LiveCommitment(orders: seq<MaterialOrder>): real {
    if |orders| == 0 then 0.0 else LiveCommitment(orders[..|orders| - 1]) + LiveCost(orders[|orders| - 1])
  }

  /** Each requisition counts in exactly one of the spent and pending
      totals unless it is rejected, when it counts in neither; so the
      balance is the budget less the cost of every live requisition. */
  lemma {:induction false} SpentAndPendingPartition(project: Project, orders: seq<MaterialOrder>)
    ensures Dashboard.ActualSpend(orders) + PendingSpent(orders) == LiveCommitment(orders)
    ensures AvailableBalance(project, orders) == project.budget - LiveCommitment(orders)
  {
    if |orders| > 0 {
      SpentAndPendingPartition(project, orders[..|orders| - 1]);
    }
  }

  /** Appending a rejected requisition changes neither total. */
  lemma RejectedCountsNowhere(orders: seq<MaterialOrder>, o: MaterialOrder)
    requires o.status == Rejected
    ensures Dashboard.ActualSpend(orders + [o]) == Dashboard.ActualSpend(orders)
    ensures PendingSpent(orders + [o]) == PendingSpent(orders)
  {
    assert (orders + [o])[..|orders|] == orders;
  }

  /** The page's spent total for a project is the dashboard's bar for it. */
  lemma {:induction false} PageSpendIsChartSpend(orders: seq<MaterialOrder>, projectId: string)
    ensures Dashboard.ActualSpend(ProjectOrders(orders, projectId)) == Dashboard.ProjectSpend(orders, projectId)
  {
    if |orders| > 0 {
      var front := orders[..|orders| - 1];
      var o := orders[|orders| - 1];
      PageSpendIsChartSpend(front, projectId);
      if o.projectId == projectId {
        var p := ProjectOrders(front, projectId);
        assert (p + [o])[..|p|] == p;
      }
    }
  }

  /** The value shown next to each requisition does not depend on its
      status. */
  lemma ListedValueIgnoresStatus(o: MaterialOrder, s: OrderStatus)
    ensures OrdersManager.TotalOrderCost(o.(status := s)) == OrdersManager.TotalOrderCost(o)
  {
  }
}
