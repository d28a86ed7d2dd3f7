/** The financial reports screen: the income statement (DRE), the paid
    expense per category, the paid revenue per project, budget against
    actual per project and the conversion rate. */
module FinancialReports {
  import opened Types
  import Text
  import Seqs
  import Sorting
  import Ledger
  import Grouping
  import App
  import AccountsPayable
  import AccountsReceivable
  import CashFlow

  // ---------------------------------------------------------------------
  // Income statement

  datatype Dre = Dre(revenue: real, expenses: real, grossProfit: real, profitMargin: real)

  /** `profitMargin`: gross profit as a percentage of revenue, 0 when there
      is no positive revenue. */
  function Margin(grossProfit: real, revenue: real): real {
    if revenue > 0.0 then grossProfit / revenue * 100.0 else 0.0
  }

  /** `dre`, from the receivables `ar` and payables `ap`. */
  function DreOf(ar: seq<Ledger.Entry>, ap: seq<Ledger.Entry>): Dre {
    var revenue := Ledger.Total(ar, Paid);
    var expenses := Ledger.Total(ap, Paid);
    Dre(revenue, expenses, revenue - expenses, Margin(revenue - expenses, revenue))
  }

  /** The statement's gross profit is the cash-flow screen's current
      balance, and revenue and expenses are the paid totals. */
  lemma GrossProfitIsCurrentBalance(ar: seq<Ledger.Entry>, ap: seq<Ledger.Entry>)
    ensures DreOf(ar, ap).revenue == Ledger.Total(ar, Paid)
    ensures DreOf(ar, ap).expenses == Ledger.Total(ap, Paid)
    ensures DreOf(ar, ap).grossProfit == CashFlow.CurrentBalance(ar, ap)
  {
  }

  lemma {:induction false} TotalNonNegative(s: seq<Ledger.Entry>, st: PaymentStatus)
    requires forall i :: 0 <= i < |s| ==> s[i].amount >= 0.0
    ensures Ledger.Total(s, st) >= 0.0
  {
    if |s| > 0 {
      TotalNonNegative(s[..|s| - 1], st);
    }
  }

  lemma QuotientAtMostOne(a: real, b: real)
    requires b > 0.0 && a <= b
    ensures a / b <= 1.0
  {
    assert a / b * b == a;
  }

  /** Without positive revenue the margin is 0. With positive revenue its
      sign is the gross profit's, and when no paid amount is negative it is
      at most 100. */
  lemma MarginBounds(ar: seq<Ledger.Entry>, ap: seq<Ledger.Entry>)
    requires forall i :: 0 <= i < |ap| ==> ap[i].amount >= 0.0
    ensures var d := DreOf(ar, ap);
      (d.revenue <= 0.0 ==> d.profitMargin == 0.0)
      && (d.revenue > 0.0 ==> (d.profitMargin >= 0.0 <==> d.grossProfit >= 0.0) && d.profitMargin <= 100.0)
  {
    var d := DreOf(ar, ap);
    TotalNonNegative(ap, Paid);
    if d.revenue > 0.0 {
      QuotientAtMostOne(d.grossProfit, d.revenue);
      if d.grossProfit < 0.0 {
        assert d.grossProfit / d.revenue < 0.0;
      } else {
        assert d.grossProfit / d.revenue >= 0.0;
      }
    }
  }

  // ---------------------------------------------------------------------
  // Paid expense per category

  /** The six categories' totals in their declared order, as
      `Object.entries` lists the record that starts with all six. */
  function CategoryTotals(payables: seq<AccountPayable>): seq<Grouping.Group<TransactionCategory>> {
    Grouping.GroupsFor(CashFlow.PaidCategoryItems(payables), AllCategories)
  }

  /** `.filter(([_, value]) => value > 0)`. */
  function Positive(gs: seq<Grouping.Group<TransactionCategory>>): (r: seq<Grouping.Group<TransactionCategory>>)
    ensures |r| <= |gs|
    ensures forall g :: g in r <==> g in gs && g.total > 0.0
  {
    if |gs| == 0 then []
    else
      var g := gs[|gs| - 1];
      var front := Positive(gs[..|gs| - 1]);
      assert gs == gs[..|gs| - 1] + [g];
      if g.total > 0.0 then front + [g] else front
  }

  /** `expensesByCategory`: the record starts with every category at 0,
      the paid payables are added to their category, the categories whose
      total is not positive are dropped and the rest are sorted largest
      first. */
  method ExpensesByCategory(payables: seq<AccountPayable>) returns (r: seq<Grouping.Group<TransactionCategory>>)
    ensures multiset(r) == multiset(Positive(CategoryTotals(payables)))
    ensures forall i, j :: 0 <= i < j < |r| ==> r[i].total >= r[j].total
  {
    var items := CashFlow.PaidCategoryItems(payables);
    var acc: map<TransactionCategory, real> :=
      map[Materiais := 0.0, Servicos := 0.0, Administrativo := 0.0, MaoDeObra := 0.0, Equipamentos := 0.0, Outros := 0.0];
    var i := 0;
    assert items[..0] == [];
    forall c: TransactionCategory
      ensures c in acc && acc[c] == 0.0
    {
      EveryCategoryListed(c);
    }
    while i < |items|
      invariant 0 <= i <= |items|
      invariant forall c: TransactionCategory :: c in acc && acc[c] == Grouping.TotalFor(items[..i], c)
    {
      EveryCategoryListed(items[i].key);
      assert items[..i + 1][..i] == items[..i];
      acc := acc[items[i].key := acc[items[i].key] + items[i].amount];
      i := i + 1;
    }
    assert items[..i] == items;
    var entries := seq(|AllCategories|, j requires 0 <= j < |AllCategories| => Grouping.Group(AllCategories[j], acc[AllCategories[j]]));
    assert entries == CategoryTotals(payables);
    var kept := Positive(entries);
    r := Grouping.SortByTotalDesc(kept);
  }

  lemma {:induction false} PositiveSum(gs: seq<Grouping.Group<TransactionCategory>>)
    requires forall i :: 0 <= i < |gs| ==> gs[i].total >= 0.0
    ensures Grouping.SumGroups(Positive(gs)) == Grouping.SumGroups(gs)
  {
    if |gs| > 0 {
      var n := |gs| - 1;
      PositiveSum(gs[..n]);
      var front := Positive(gs[..n]);
      if gs[n].total > 0.0 {
        assert (front + [gs[n]])[..|front|] == front;
      }
    }
  }

  lemma {:induction false} PaidCategoryItemsNonNegative(payables: seq<AccountPayable>)
    requires forall i :: 0 <= i < |payables| ==> payables[i].amount >= 0.0
    ensures forall i :: 0 <= i < |CashFlow.PaidCategoryItems(payables)| ==> CashFlow.PaidCategoryItems(payables)[i].amount >= 0.0
  {
    if |payables| > 0 {
      PaidCategoryItemsNonNegative(payables[..|payables| - 1]);
    }
  }

  lemma {:induction false} TotalForNonNegative<K>(items: seq<Grouping.Item<K>>, k: K)
    requires forall i :: 0 <= i < |items| ==> items[i].amount >= 0.0
    ensures Grouping.TotalFor(items, k) >= 0.0
  {
    if |items| > 0 {
      TotalForNonNegative(items[..|items| - 1], k);
    }
  }

  /** The six categories are all there are. */
  lemma EveryCategoryListed(c: TransactionCategory)
    ensures c in AllCategories
  {
    match c
    case Materiais => assert AllCategories[0] == c;
    case Servicos => assert AllCategories[1] == c;
    case Administrativo => assert AllCategories[2] == c;
    case MaoDeObra => assert AllCategories[3] == c;
    case Equipamentos => assert AllCategories[4] == c;
    case Outros => assert AllCategories[5] == c;
  }

  /** A category is listed exactly when its paid total is positive. */
  lemma {:induction false} CategoryListedIffPositive(payables: seq<AccountPayable>, c: TransactionCategory)
    ensures Grouping.Group(c, Grouping.TotalFor(CashFlow.PaidCategoryItems(payables), c)) in Positive(CategoryTotals(payables))
            <==> Grouping.TotalFor(CashFlow.PaidCategoryItems(payables), c) > 0.0
  {
    var items := CashFlow.PaidCategoryItems(payables);
    var gs := CategoryTotals(payables);
    EveryCategoryListed(c);
    var j :| 0 <= j < |AllCategories| && AllCategories[j] == c;
    assert gs[j] == Grouping.Group(c, Grouping.TotalFor(items, c));
  }

  /** When no amount is negative, the listed totals add up to the paid
      expense: every category is one of the six, so no payment is left
      out, and only zero totals are dropped. */
  lemma {:induction false} CategoriesAddUp(payables: seq<AccountPayable>)
    requires forall i :: 0 <= i < |payables| ==> payables[i].amount >= 0.0
    ensures Grouping.SumGroups(Positive(CategoryTotals(payables))) == Ledger.Total(AccountsPayable.Entries(payables), Paid)
  {
    var items := CashFlow.PaidCategoryItems(payables);
    var gs := CategoryTotals(payables);
    PaidCategoryItemsNonNegative(payables);
    forall i | 0 <= i < |gs|
      ensures gs[i].total >= 0.0
    {
      TotalForNonNegative(items, AllCategories[i]);
    }
    PositiveSum(gs);
    CategoryTotalsAddUp(payables);
  }

  /** The six categories' totals add up to the paid expense. */
  lemma CategoryTotalsAddUp(payables: seq<AccountPayable>)
    ensures Grouping.SumGroups(CategoryTotals(payables)) == Ledger.Total(AccountsPayable.Entries(payables), Paid)
  {
    var items := CashFlow.PaidCategoryItems(payables);
    Grouping.SumGroupsForKeys(items, AllCategories);
    forall i | 0 <= i < |items|
      ensures items[i].key in AllCategories
    {
      EveryCategoryListed(items[i].key);
    }
    Grouping.KeysCoverItems(items, AllCategories);
    CashFlow.PaidCategoryItemsTotal(payables);
  }

  // ---------------------------------------------------------------------
  // Paid revenue per project

  /** The paid receivables as project-amount pairs, in list order. */
  function PaidReceivableItems(receivables: seq<AccountReceivable>): seq<Grouping.Item<string>> {
    if |receivables| == 0 then []
    else
      var a := receivables[|receivables| - 1];
      PaidReceivableItems(receivables[..|receivables| - 1]) + (if a.status == Paid then [Grouping.Item(a.projectId, a.amount)] else [])
  }

  /** The paid payables as project-amount pairs, in list order. */
  function PaidPayableItems(payables: seq<AccountPayable>): seq<Grouping.Item<string>> {
    if |payables| == 0 then []
    else
      var a := payables[|payables| - 1];
      PaidPayableItems(payables[..|payables| - 1]) + (if a.status == Paid then [Grouping.Item(a.projectId, a.amount)] else [])
  }

  lemma {:induction false} PaidReceivableItemsTotal(receivables: seq<AccountReceivable>)
    ensures Grouping.SumItems(PaidReceivableItems(receivables)) == Ledger.Total(AccountsReceivable.Entries(receivables), Paid)
  {
    if |receivables| > 0 {
      var front := receivables[..|receivables| - 1];
      PaidReceivableItemsTotal(front);
      assert AccountsReceivable.Entries(receivables)[..|receivables| - 1] == AccountsReceivable.Entries(front);
      var items := PaidReceivableItems(front);
      var a := receivables[|receivables| - 1];
      if a.status == Paid {
        assert (items + [Grouping.Item(a.projectId, a.amount)])[..|items|] == items;
      } else {
        assert items + [] == items;
      }
    }
  }

  datatype RevenueRow = RevenueRow(name: string, revenue: real, budget: real, usage: real)

  /** One entry of `revenueByProject` before sorting: the project is looked
      up by id; a missing project, or one with an empty name, is shown as
      'N/A'; a missing project has budget 0; usage is the revenue as a
      percentage of a non-zero budget, and 0 otherwise. */
  function RevenueRowOf(g: Grouping.Group<string>, projects: seq<Project>): RevenueRow {
    var k := Seqs.FindById(projects, g.key, App.ProjectId);
    var name := if k >= 0 && projects[k].name != "" then projects[k].name else "N/A";
    var budget := if k >= 0 then projects[k].budget else 0.0;
    var usage := if k >= 0 && projects[k].budget != 0.0 then g.total / projects[k].budget * 100.0 else 0.0;
    RevenueRow(name, g.total, budget, usage)
  }

  function RevenueRows(gs: seq<Grouping.Group<string>>, projects: seq<Project>): (r: seq<RevenueRow>)
    ensures |r| == |gs| && forall j :: 0 <= j < |gs| ==> r[j] == RevenueRowOf(gs[j], projects)
  {
    seq(|gs|, j requires 0 <= j < |gs| => RevenueRowOf(gs[j], projects))
  }

  function RevenueValue(row: RevenueRow): Sorting.SortValue {
    Sorting.Num(row.revenue)
  }

  /** `revenueByProject`: paid receivables are added up per project id, each
      total becomes a row and the rows are sorted largest revenue first. */
  method RevenueByProject(receivables: seq<AccountReceivable>, projects: seq<Project>) returns (r: seq<RevenueRow>)
    ensures multiset(r) == multiset(RevenueRows(Grouping.Grouped(PaidReceivableItems(receivables)), projects))
    ensures forall i, j :: 0 <= i < j < |r| ==> r[i].revenue >= r[j].revenue
  {
    var groups := Grouping.GroupTotals(PaidReceivableItems(receivables));
    var rows := RevenueRows(groups, projects);
    r := Sorting.SortedCopy(rows, RevenueValue, Sorting.Desc);
    forall i, j | 0 <= i < j < |r|
      ensures r[i].revenue >= r[j].revenue
    {
      assert Sorting.Before(Sorting.Desc, RevenueValue(r[i]), RevenueValue(r[j]));
    }
  }

  /** A row for an id that names no project reads 'N/A' with budget and
      usage 0. */
  lemma UnknownProjectRow(g: Grouping.Group<string>, projects: seq<Project>)
    requires forall i :: 0 <= i < |projects| ==> projects[i].id != g.key
    ensures RevenueRowOf(g, projects) == RevenueRow("N/A", g.total, 0.0, 0.0)
  {
  }

  /** A project found by id lends its name (when not empty) and budget to
      the row. */
  lemma KnownProjectRow(g: Grouping.Group<string>, projects: seq<Project>, k: int)
    requires 0 <= k < |projects| && projects[k].id == g.key
    requires forall i :: 0 <= i < k ==> projects[i].id != g.key
    requires projects[k].name != ""
    ensures RevenueRowOf(g, projects).name == projects[k].name
    ensures RevenueRowOf(g, projects).budget == projects[k].budget
    ensures RevenueRowOf(g, projects).revenue == g.total
  {
    Seqs.FindByIdAt(projects, g.key, App.ProjectId, k);
  }

  function SumRevenue(rows: seq<RevenueRow>): real {
    if |rows| == 0 then 0.0 else SumRevenue(rows[..|rows| - 1]) + rows[|rows| - 1].revenue
  }

  lemma {:induction false} SumRevenueOfRows(gs: seq<Grouping.Group<string>>, projects: seq<Project>)
    ensures SumRevenue(RevenueRows(gs, projects)) == Grouping.SumGroups(gs)
  {
    if |gs| > 0 {
      var n := |gs| - 1;
      SumRevenueOfRows(gs[..n], projects);
      assert RevenueRows(gs, projects)[..n] == RevenueRows(gs[..n], projects);
    }
  }

  /** There is one row per project id that has a paid receivable, and the
      rows' revenue adds up to the statement's revenue. */
  lemma RevenueRowsAddUp(receivables: seq<AccountReceivable>, projects: seq<Project>)
    ensures var items := PaidReceivableItems(receivables);
      |RevenueRows(Grouping.Grouped(items), projects)| == |Grouping.Keys(items)|
      && SumRevenue(RevenueRows(Grouping.Grouped(items), projects))
         == DreOf(AccountsReceivable.Entries(receivables), []).revenue
  {
    var items := PaidReceivableItems(receivables);
    SumRevenueOfRows(Grouping.Grouped(items), projects);
    Grouping.GroupedAddsUp(items);
    PaidReceivableItemsTotal(receivables);
  }

  // ---------------------------------------------------------------------
  // Budget against actual

  datatype BudgetRow = BudgetRow(name: string, budget: real, actual: real, expenses: real, variance: real)

  /** One entry of `budgetVsActual`: the first word of the project's name in
      upper case, its budget, the paid receivables and paid payables of the
      project, and the revenue less the budget. `upper` is the character
      case mapping. */
  function BudgetRowOf(p: Project, receivables: seq<AccountReceivable>, payables: seq<AccountPayable>, upper: char -> char)
    : BudgetRow
  {
    var actual := Grouping.TotalFor(PaidReceivableItems(receivables), p.id);
    var expenses := Grouping.TotalFor(PaidPayableItems(payables), p.id);
    BudgetRow(Text.MapChars(upper, Text.FirstWord(p.name)), p.budget, actual, expenses, actual - p.budget)
  }

  function BudgetVsActual(projects: seq<Project>, receivables: seq<AccountReceivable>, payables: seq<AccountPayable>,
                          upper: char -> char): (r: seq<BudgetRow>)
    ensures |r| == |projects| && forall i :: 0 <= i < |projects| ==> r[i] == BudgetRowOf(projects[i], receivables, payables, upper)
  {
    seq(|projects|, i requires 0 <= i < |projects| => BudgetRowOf(projects[i], receivables, payables, upper))
  }

  function SumActual(rows: seq<BudgetRow>): real {
    if |rows| == 0 then 0.0 else SumActual(rows[..|rows| - 1]) + rows[|rows| - 1].actual
  }

  lemma {:induction false} SumActualOverProjects(projects: seq<Project>, receivables: seq<AccountReceivable>,
                                                payables: seq<AccountPayable>, upper: char -> char)
    ensures SumActual(BudgetVsActual(projects, receivables, payables, upper))
            == Grouping.SumOverKeys(PaidReceivableItems(receivables), Seqs.Ids(projects, App.ProjectId))
  {
    var rows := BudgetVsActual(projects, receivables, payables, upper);
    var ids := Seqs.Ids(projects, App.ProjectId);
    if |projects| > 0 {
      var n := |projects| - 1;
      var front := BudgetVsActual(projects[..n], receivables, payables, upper);
      var frontIds := Seqs.Ids(projects[..n], App.ProjectId);
      SumActualOverProjects(projects[..n], receivables, payables, upper);
      forall i | 0 <= i < n
        ensures rows[i] == front[i] && ids[i] == frontIds[i]
      {
        assert projects[..n][i] == projects[i];
      }
      assert rows[..n] == front;
      assert ids[..n] == frontIds;
      assert rows[n].actual == Grouping.TotalFor(PaidReceivableItems(receivables), ids[n]);
    } else {
      assert rows == [] && ids == [];
    }
  }

  /** Each row's variance is its paid revenue less its budget, and when the
      project ids are distinct and every paid receivable belongs to a listed
      project, the rows' revenue adds up to the statement's revenue. */
  lemma BudgetRowsAddUp(projects: seq<Project>, receivables: seq<AccountReceivable>, payables: seq<AccountPayable>,
                        upper: char -> char)
    requires Seqs.DistinctIds(projects, App.ProjectId)
    requires forall i :: 0 <= i < |receivables| && receivables[i].status == Paid ==>
      exists k :: 0 <= k < |projects| && projects[k].id == receivables[i].projectId
    ensures forall i :: 0 <= i < |projects| ==>
      BudgetVsActual(projects, receivables, payables, upper)[i].variance
        == BudgetVsActual(projects, receivables, payables, upper)[i].actual - projects[i].budget
    ensures SumActual(BudgetVsActual(projects, receivables, payables, upper))
            == DreOf(AccountsReceivable.Entries(receivables), []).revenue
  {
    var items := PaidReceivableItems(receivables);
    var ids := Seqs.Ids(projects, App.ProjectId);
    SumActualOverProjects(projects, receivables, payables, upper);
    PaidReceivableItemsBelong(receivables, projects);
    Grouping.KeysCoverItems(items, ids);
    PaidReceivableItemsTotal(receivables);
  }

  lemma {:induction false} PaidReceivableItemsBelong(receivables: seq<AccountReceivable>, projects: seq<Project>)
    requires Seqs.DistinctIds(projects, App.ProjectId)
    requires forall i :: 0 <= i < |receivables| && receivables[i].status == Paid ==>
      exists k :: 0 <= k < |projects| && projects[k].id == receivables[i].projectId
    ensures Grouping.Distinct(Seqs.Ids(projects, App.ProjectId))
    ensures forall j :: 0 <= j < |PaidReceivableItems(receivables)| ==>
      PaidReceivableItems(receivables)[j].key in Seqs.Ids(projects, App.ProjectId)
  {
    var ids := Seqs.Ids(projects, App.ProjectId);
    if |receivables| > 0 {
      var n := |receivables| - 1;
      PaidReceivableItemsBelong(receivables[..n], projects);
      var a := receivables[n];
      if a.status == Paid {
        var k :| 0 <= k < |projects| && projects[k].id == a.projectId;
        assert ids[k] == a.projectId;
      }
    }
  }

  // ---------------------------------------------------------------------
  // Conversion rate

  /** The conversion card: paid receivables per project, as a percentage,
      and 0 when there are no projects. */
  function ConversionRate(receivables: seq<AccountReceivable>, projects: seq<Project>): (rate: real)
    ensures rate >= 0.0
    ensures |projects| == 0 ==> rate == 0.0
    ensures |projects| > 0 && Ledger.Count(AccountsReceivable.Entries(receivables), Paid) == 0 ==> rate == 0.0
  {
    if |projects| > 0 then Ledger.Count(AccountsReceivable.Entries(receivables), Paid) as real / |projects| as real * 100.0
    else 0.0
  }
}
