/** The dashboard's figures: the total budget, what approved or delivered
    requisitions cost, the budget-against-spend chart per project and the
    requisition counts by status. */
module Dashboard {
  import opened Types
  import Text
  import OrdersManager

  /** `projects.reduce((acc, p) => acc + p.budget, 0)`. */
  function TotalBudget(projects: seq<Project>): real {
    if |projects| == 0 then 0.0 else TotalBudget(projects[..|projects| - 1]) + projects[|projects| - 1].budget
  }

  /** An order whose cost counts as spent: APPROVED or DELIVERED. */
  predicate IsSpent(s: OrderStatus) {
    s == Approved || s == Delivered
  }

  /** What an order adds to the spend: its cost if it is spent. */
  function SpentCost(o: MaterialOrder): real {
    if IsSpent(o.status) then OrdersManager.TotalOrderCost(o) else 0.0
  }

  /** `actualSpend`: the summed cost of the spent orders. */
  function ActualSpend(orders: seq<MaterialOrder>): real {
    if |orders| == 0 then 0.0 else ActualSpend(orders[..|orders| - 1]) + SpentCost(orders[|orders| - 1])
  }

  /** What an order adds to one project's spend. */
  function ProjectContribution(o: MaterialOrder, projectId: string): real {
    if o.projectId == projectId then SpentCost(o) else 0.0
  }

  /** `projectSpend`: the summed cost of one project's spent orders. */
  function ProjectSpend(orders: seq<MaterialOrder>, projectId: string): real {
    if |orders| == 0 then 0.0
    else ProjectSpend(orders[..|orders| - 1], projectId) + ProjectContribution(orders[|orders| - 1], projectId)
  }

  datatype ChartEntry = ChartEntry(name: string, orcado: real, gasto: real)

  function ChartEntryOf(p: Project, orders: seq<MaterialOrder>, upper: char -> char): ChartEntry {
    ChartEntry(Text.MapChars(upper, Text.FirstWord(p.name)), p.budget, ProjectSpend(orders, p.id))
  }

  /** `chartData`: one bar pair per project, in project order, labelled with
      the first word of the project's name in upper case. */
  function ChartData(projects: seq<Project>, orders: seq<MaterialOrder>, upper: char -> char): (r: seq<ChartEntry>)
    ensures |r| == |projects|
    ensures forall i :: 0 <= i < |projects| ==>
      r[i].orcado == projects[i].budget && r[i].gasto == ProjectSpend(orders, projects[i].id)
      && r[i].name == Text.MapChars(upper, Text.FirstWord(projects[i].name))
  {
    seq(|projects|, i requires 0 <= i < |projects| => ChartEntryOf(projects[i], orders, upper))
  }

  function SumOrcado(chart: seq<ChartEntry>): real {
    if |chart| == 0 then 0.0 else SumOrcado(chart[..|chart| - 1]) + chart[|chart| - 1].orcado
  }

  function SumGasto(chart: seq<ChartEntry>): real {
    if |chart| == 0 then 0.0 else SumGasto(chart[..|chart| - 1]) + chart[|chart| - 1].gasto
  }

  /** The budget bars add up to the total budget. */
  lemma {:induction false} ChartBudgetsAddUp(projects: seq<Project>, orders: seq<MaterialOrder>, upper: char -> char)
    ensures SumOrcado(ChartData(projects, orders, upper)) == TotalBudget(projects)
  {
    if |projects| > 0 {
      var n := |projects| - 1;
      ChartBudgetsAddUp(projects[..n], orders, upper);
      assert ChartData(projects, orders, upper)[..n] == ChartData(projects[..n], orders, upper);
    }
  }

  /** Every project's chart spend, summed over all projects. */
  function SpendOverProjects(projects: seq<Project>, orders: seq<MaterialOrder>): real {
    if |projects| == 0 then 0.0
    else SpendOverProjects(projects[..|projects| - 1], orders) + ProjectSpend(orders, projects[|projects| - 1].id)
  }

  /** What one order adds to the chart, over all projects. */
  function Hits(projects: seq<Project>, o: MaterialOrder): real {
    if |projects| == 0 then 0.0
    else Hits(projects[..|projects| - 1], o) + ProjectContribution(o, projects[|projects| - 1].id)
  }

  lemma {:induction false} SpendOverProjectsStep(projects: seq<Project>, orders: seq<MaterialOrder>, o: MaterialOrder)
    ensures SpendOverProjects(projects, orders + [o]) == SpendOverProjects(projects, orders) + Hits(projects, o)
  {
    if |projects| > 0 {
      SpendOverProjectsStep(projects[..|projects| - 1], orders, o);
      assert (orders + [o])[..|orders|] == orders;
    }
  }

  lemma {:induction false} HitsNone(projects: seq<Project>, o: MaterialOrder)
    requires forall i :: 0 <= i < |projects| ==> projects[i].id != o.projectId
    ensures Hits(projects, o) == 0.0
  {
    if |projects| > 0 {
      HitsNone(projects[..|projects| - 1], o);
    }
  }

  lemma {:induction false} HitsOnce(projects: seq<Project>, o: MaterialOrder, k: int)
    requires 0 <= k < |projects| && projects[k].id == o.projectId
    requires forall i :: 0 <= i < |projects| && i != k ==> projects[i].id != o.projectId
    ensures Hits(projects, o) == SpentCost(o)
  {
    var n := |projects| - 1;
    if k == n {
      HitsNone(projects[..n], o);
    } else {
      HitsOnce(projects[..n], o, k);
    }
  }

  /** When the project ids are distinct and every spent order belongs to a
      listed project, the chart's spend bars add up to `actualSpend`. */
  lemma {:induction false} ChartSpendAddsUp(projects: seq<Project>, orders: seq<MaterialOrder>, upper: char -> char)
    requires forall i, j :: 0 <= i < j < |projects| ==> projects[i].id != projects[j].id
    requires forall o :: o in orders && IsSpent(o.status) ==> exists i :: 0 <= i < |projects| && projects[i].id == o.projectId
    ensures SumGasto(ChartData(projects, orders, upper)) == ActualSpend(orders)
  {
    SpendMatchesChart(projects, orders, upper);
    SpendOverProjectsIsActual(projects, orders);
  }

  lemma {:induction false} SpendMatchesChart(projects: seq<Project>, orders: seq<MaterialOrder>, upper: char -> char)
    ensures SumGasto(ChartData(projects, orders, upper)) == SpendOverProjects(projects, orders)
  {
    if |projects| > 0 {
      var n := |projects| - 1;
      SpendMatchesChart(projects[..n], orders, upper);
      assert ChartData(projects, orders, upper)[..n] == ChartData(projects[..n], orders, upper);
    }
  }

  lemma {:induction false} SpendOverProjectsIsActual(projects: seq<Project>, orders: seq<MaterialOrder>)
    requires forall i, j :: 0 <= i < j < |projects| ==> projects[i].id != projects[j].id
    requires forall o :: o in orders && IsSpent(o.status) ==> exists i :: 0 <= i < |projects| && projects[i].id == o.projectId
    ensures SpendOverProjects(projects, orders) == ActualSpend(orders)
  {
    if |orders| == 0 {
      SpendOverNoOrders(projects);
    } else {
      var front := orders[..|orders| - 1];
      var o := orders[|orders| - 1];
      assert forall x :: x in front ==> x in orders;
      SpendOverProjectsIsActual(projects, front);
      assert front + [o] == orders;
      SpendOverProjectsStep(projects, front, o);
      if IsSpent(o.status) {
        var k :| 0 <= k < |projects| && projects[k].id == o.projectId;
        HitsOnce(projects, o, k);
      } else {
        HitsUnspent(projects, o);
      }
    }
  }

  lemma {:induction false} SpendOverNoOrders(projects: seq<Project>)
    ensures SpendOverProjects(projects, []) == 0.0
  {
    if |projects| > 0 {
      SpendOverNoOrders(projects[..|projects| - 1]);
    }
  }

  lemma {:induction false} HitsUnspent(projects: seq<Project>, o: MaterialOrder)
    requires !IsSpent(o.status)
    ensures Hits(projects, o) == 0.0
  {
    if |projects| > 0 {
      HitsUnspent(projects[..|projects| - 1], o);
    }
  }

  /** `orders.filter(o => o.status === s).length`. */
  function CountStatus(orders: seq<MaterialOrder>, s: OrderStatus): (n: nat)
    ensures n <= |orders|
  {
    if |orders| == 0 then 0
    else CountStatus(orders[..|orders| - 1], s) + (if orders[|orders| - 1].status == s then 1 else 0)
  }

  datatype OrderStats = OrderStats(pending: nat, ready: nat, approved: nat)

  /** `orderStats`: the PENDING_QUOTES, READY_FOR_APPROVAL and APPROVED
      counts. */
  function Stats(orders: seq<MaterialOrder>): OrderStats {
    OrderStats(CountStatus(orders, PendingQuotes), CountStatus(orders, ReadyForApproval), CountStatus(orders, Approved))
  }

  /** Rejected and delivered requisitions appear in no slice, so the three
      counts never exceed the number of requisitions, and reach it exactly
      when every requisition is in one of the three statuses. */
  lemma {:induction false} StatsCoverAtMostAll(orders: seq<MaterialOrder>)
    ensures var r := Stats(orders); r.pending + r.ready + r.approved <= |orders|
    ensures var r := Stats(orders);
            r.pending + r.ready + r.approved == |orders|
            <==> forall i :: 0 <= i < |orders| ==> orders[i].status in {PendingQuotes, ReadyForApproval, Approved}
  {
    if |orders| > 0 {
      var front := orders[..|orders| - 1];
      StatsCoverAtMostAll(front);
      assert forall i :: 0 <= i < |front| ==> front[i] == orders[i];
    }
  }
}
