/** The cash-flow screen: paid income and expense per month over a window
    of recent months with a running balance, the pending amounts of the
    next three months, the summary cards and the paid expense per
    category. */
module CashFlow {
  import opened Types
  import Ledger
  import Grouping
  import App
  import AccountsPayable
  import AccountsReceivable

  /** The period selector. */
  datatype Period = MonthView | QuarterView | YearView

  /** `monthsToShow`. */
  function MonthsToShow(p: Period): nat {
    match p
    case MonthView => 6
    case QuarterView => 4
    case YearView => 2
  }

  /** Which date places an account in a month: the payment date of a PAID
      account that has one (history), or the due date of a PENDING one
      (projection). */
  datatype Basis = ByPayment | ByDue

  /** The month an account is added to, if any. `monthOf` is the calendar:
      the year and month the application reads from the parsed date. */
  function BucketOf(e: Ledger.Entry, basis: Basis, monthOf: Day -> MonthKey): Option<MonthKey> {
    match basis
    case ByPayment => if e.status == Paid && e.paymentDate.Some? then Some(monthOf(e.paymentDate.value)) else None
    case ByDue => if e.status == Pending then Some(monthOf(e.dueDate)) else None
  }

  /** The accounts that are added to some month, as month-amount pairs in
      list order. */
  function MonthItems(s: seq<Ledger.Entry>, basis: Basis, monthOf: Day -> MonthKey): (r: seq<Grouping.Item<MonthKey>>)
    ensures |r| <= |s|
    ensures forall j :: 0 <= j < |r| ==> exists i :: 0 <= i < |s| && BucketOf(s[i], basis, monthOf) == Some(r[j].key)
  {
    if |s| == 0 then []
    else
      var front := MonthItems(s[..|s| - 1], basis, monthOf);
      var e := s[|s| - 1];
      assert forall i :: 0 <= i < |s| - 1 ==> s[..|s| - 1][i] == s[i];
      var b := BucketOf(e, basis, monthOf);
      if b.Some? then front + [Grouping.Item(b.value, e.amount)] else front
  }

  /** What the accounts add to month `m`. */
  function SumIn(s: seq<Ledger.Entry>, m: MonthKey, basis: Basis, monthOf: Day -> MonthKey): real {
    Grouping.TotalFor(MonthItems(s, basis, monthOf), m)
  }

  lemma SumInStep(s: seq<Ledger.Entry>, i: int, m: MonthKey, basis: Basis, monthOf: Day -> MonthKey)
    requires 0 <= i < |s|
    ensures var b := BucketOf(s[i], basis, monthOf);
            SumIn(s[..i + 1], m, basis, monthOf) == SumIn(s[..i], m, basis, monthOf) + (if b == Some(m) then s[i].amount else 0.0)
  {
    assert s[..i + 1][..i] == s[..i];
    var items := MonthItems(s[..i], basis, monthOf);
    var b := BucketOf(s[i], basis, monthOf);
    if b.Some? {
      assert (items + [Grouping.Item(b.value, s[i].amount)])[..|items|] == items;
    }
  }

  datatype Bucket = Bucket(income: real, expense: real)

  datatype Side = Income | Expense

  function Added(b: Bucket, side: Side, x: real): Bucket {
    if side == Income then b.(income := b.income + x) else b.(expense := b.expense + x)
  }

  /** The `forEach` that adds each account's amount to its month's bucket
      when that month is in the record, and ignores it otherwise. */
  method AddToBuckets(data: map<MonthKey, Bucket>, s: seq<Ledger.Entry>, side: Side, basis: Basis, monthOf: Day -> MonthKey)
    returns (r: map<MonthKey, Bucket>)
    ensures r.Keys == data.Keys
    ensures forall m :: m in data ==> r[m] == Added(data[m], side, SumIn(s, m, basis, monthOf))
  {
    r := data;
    var i := 0;
    while i < |s|
      invariant 0 <= i <= |s|
      invariant r.Keys == data.Keys
      invariant forall m :: m in data ==> r[m] == Added(data[m], side, SumIn(s[..i], m, basis, monthOf))
    {
      forall m | m in data
        ensures SumIn(s[..i + 1], m, basis, monthOf)
                == SumIn(s[..i], m, basis, monthOf) + (if BucketOf(s[i], basis, monthOf) == Some(m) then s[i].amount else 0.0)
      {
        SumInStep(s, i, m, basis, monthOf);
      }
      var b := BucketOf(s[i], basis, monthOf);
      if b.Some? && b.value in r {
        r := r[b.value := Added(r[b.value], side, s[i].amount)];
      }
      i := i + 1;
    }
    assert s[..i] == s;
  }

  // ---------------------------------------------------------------------
  // History

  /** The window's months in ascending order, ending with `thisMonth`. */
  function Window(n: nat, thisMonth: MonthKey): (r: seq<MonthKey>)
    ensures |r| == n
    ensures forall j :: 0 <= j < n ==> r[j] == thisMonth - (n - 1) + j
  {
    seq(n, j requires 0 <= j < n => thisMonth - (n - 1) + j)
  }

  datatype FlowRow = FlowRow(month: MonthKey, income: real, expense: real, balance: real)

  /** Paid income less paid expense over a list of months. */
  function CumulativeNet(ar: seq<Ledger.Entry>, ap: seq<Ledger.Entry>, months: seq<MonthKey>, monthOf: Day -> MonthKey): real {
    if |months| == 0 then 0.0
    else
      var m := months[|months| - 1];
      CumulativeNet(ar, ap, months[..|months| - 1], monthOf) + (SumIn(ar, m, ByPayment, monthOf) - SumIn(ap, m, ByPayment, monthOf))
  }

  function RowAt(ar: seq<Ledger.Entry>, ap: seq<Ledger.Entry>, months: seq<MonthKey>, t: int, monthOf: Day -> MonthKey): FlowRow
    requires 0 <= t < |months|
  {
    var m := months[t];
    FlowRow(m, SumIn(ar, m, ByPayment, monthOf), SumIn(ap, m, ByPayment, monthOf), CumulativeNet(ar, ap, months[..t + 1], monthOf))
  }

  /** The rows in key order, before the final `reverse()`. */
  function AscendingFlow(ar: seq<Ledger.Entry>, ap: seq<Ledger.Entry>, months: seq<MonthKey>, monthOf: Day -> MonthKey)
    : (r: seq<FlowRow>)
    ensures |r| == |months|
  {
    seq(|months|, t requires 0 <= t < |months| => RowAt(ar, ap, months, t, monthOf))
  }

  /** `cashFlowData`: the window's buckets start at zero, paid receivables
      fill the income side and paid payables the expense side by payment
      month, the balance accumulates in ascending month order and the rows
      are listed newest first. */
  method CashFlowData(payables: seq<AccountPayable>, receivables: seq<AccountReceivable>, period: Period,
                      thisMonth: MonthKey, monthOf: Day -> MonthKey)
    returns (rows: seq<FlowRow>)
    ensures rows == App.Reversed(AscendingFlow(AccountsReceivable.Entries(receivables), AccountsPayable.Entries(payables),
                                               Window(MonthsToShow(period), thisMonth), monthOf))
  {
    var ar := AccountsReceivable.Entries(receivables);
    var ap := AccountsPayable.Entries(payables);
    var n := MonthsToShow(period);
    var data := ZeroWindow(thisMonth, n);
    data := AddToBuckets(data, ar, Income, ByPayment, monthOf);
    data := AddToBuckets(data, ap, Expense, ByPayment, monthOf);
    var asc := RunningBalance(data, ar, ap, Window(n, thisMonth), monthOf);
    rows := App.Reversed(asc);
  }

  /** The initialisation loop: a zero bucket for this month and each of
      the `n - 1` months before it. */
  method ZeroWindow(thisMonth: MonthKey, n: nat) returns (data: map<MonthKey, Bucket>)
    ensures forall m :: m in data <==> thisMonth - n < m <= thisMonth
    ensures forall m :: m in data ==> data[m] == Bucket(0.0, 0.0)
  {
    data := map[];
    var i := 0;
    while i < n
      invariant 0 <= i <= n
      invariant forall m :: m in data <==> thisMonth - i < m <= thisMonth
      invariant forall m :: m in data ==> data[m] == Bucket(0.0, 0.0)
    {
      data := data[thisMonth - i := Bucket(0.0, 0.0)];
      i := i + 1;
    }
  }

  /** The `map` over the sorted keys that accumulates the balance. */
  method RunningBalance(data: map<MonthKey, Bucket>, ar: seq<Ledger.Entry>, ap: seq<Ledger.Entry>, months: seq<MonthKey>,
                        monthOf: Day -> MonthKey)
    returns (asc: seq<FlowRow>)
    requires forall j :: 0 <= j < |months| ==> months[j] in data
    requires forall j :: 0 <= j < |months| ==>
      data[months[j]] == Bucket(SumIn(ar, months[j], ByPayment, monthOf), SumIn(ap, months[j], ByPayment, monthOf))
    ensures asc == AscendingFlow(ar, ap, months, monthOf)
  {
    var running := 0.0;
    asc := [];
    var j := 0;
    while j < |months|
      invariant 0 <= j <= |months|
      invariant |asc| == j && forall t :: 0 <= t < j ==> asc[t] == RowAt(ar, ap, months, t, monthOf)
      invariant running == CumulativeNet(ar, ap, months[..j], monthOf)
    {
      var m := months[j];
      assert months[..j + 1][..j] == months[..j];
      running := running + (data[m].income - data[m].expense);
      asc := asc + [FlowRow(m, data[m].income, data[m].expense, running)];
      j := j + 1;
    }
  }

  /** The rows run from this month back, one per month of the window, each
      with the paid income and expense of its month; each balance is the
      next older row's balance plus its own month's net, and the newest
      balance is the net of the whole window. */
  lemma FlowRows(ar: seq<Ledger.Entry>, ap: seq<Ledger.Entry>, n: nat, thisMonth: MonthKey, monthOf: Day -> MonthKey)
    requires n >= 1
    ensures var rows := App.Reversed(AscendingFlow(ar, ap, Window(n, thisMonth), monthOf));
      |rows| == n
      && (forall t :: 0 <= t < n ==>
            rows[t].month == thisMonth - t
            && rows[t].income == SumIn(ar, thisMonth - t, ByPayment, monthOf)
            && rows[t].expense == SumIn(ap, thisMonth - t, ByPayment, monthOf))
      && (forall t :: 0 <= t < n - 1 ==> rows[t].balance == rows[t + 1].balance + (rows[t].income - rows[t].expense))
      && rows[n - 1].balance == rows[n - 1].income - rows[n - 1].expense
      && rows[0].balance == CumulativeNet(ar, ap, Window(n, thisMonth), monthOf)
  {
    var months := Window(n, thisMonth);
    var asc := AscendingFlow(ar, ap, months, monthOf);
    var rows := App.Reversed(asc);
    AscendingBalances(ar, ap, months, monthOf);
    forall t | 0 <= t < n
      ensures rows[t] == asc[n - 1 - t] && asc[n - 1 - t] == RowAt(ar, ap, months, n - 1 - t, monthOf)
      ensures months[n - 1 - t] == thisMonth - t
    {
    }
    forall t | 0 <= t < n - 1
      ensures rows[t].balance == rows[t + 1].balance + (rows[t].income - rows[t].expense)
    {
      assert rows[t + 1] == asc[n - 1 - t - 1];
    }
    assert rows[n - 1] == asc[0];
  }

  /** In ascending order each balance is the previous one plus the month's
      net, the oldest is its own net, and the newest is the window's net. */
  lemma AscendingBalances(ar: seq<Ledger.Entry>, ap: seq<Ledger.Entry>, months: seq<MonthKey>, monthOf: Day -> MonthKey)
    requires |months| >= 1
    ensures var asc := AscendingFlow(ar, ap, months, monthOf);
      (forall u :: 0 < u < |months| ==> asc[u].balance == asc[u - 1].balance + (asc[u].income - asc[u].expense))
      && asc[0].balance == asc[0].income - asc[0].expense
      && asc[|months| - 1].balance == CumulativeNet(ar, ap, months, monthOf)
  {
    var asc := AscendingFlow(ar, ap, months, monthOf);
    forall u | 0 < u < |months|
      ensures asc[u].balance == asc[u - 1].balance + (asc[u].income - asc[u].expense)
    {
      assert asc[u] == RowAt(ar, ap, months, u, monthOf);
      assert asc[u - 1] == RowAt(ar, ap, months, u - 1, monthOf);
      assert months[..u + 1][..u] == months[..u];
    }
    assert asc[0] == RowAt(ar, ap, months, 0, monthOf);
    var first := months[..1];
    assert first[..0] == [] && first[0] == months[0];
    assert CumulativeNet(ar, ap, first, monthOf)
        == 0.0 + (SumIn(ar, months[0], ByPayment, monthOf) - SumIn(ap, months[0], ByPayment, monthOf));
    assert asc[|months| - 1] == RowAt(ar, ap, months, |months| - 1, monthOf);
    assert months[..|months|] == months;
  }

  // ---------------------------------------------------------------------
  // Projection

  datatype ProjectedRow = ProjectedRow(month: MonthKey, projectedIncome: real, projectedExpense: real)

  /** The next three months with what falls due in each, ascending. */
  function ProjectedRows(ar: seq<Ledger.Entry>, ap: seq<Ledger.Entry>, thisMonth: MonthKey, monthOf: Day -> MonthKey)
    : (r: seq<ProjectedRow>)
    ensures |r| == 3
    ensures forall j :: 0 <= j < 3 ==>
      r[j].month == thisMonth + 1 + j
      && r[j].projectedIncome == SumIn(ar, thisMonth + 1 + j, ByDue, monthOf)
      && r[j].projectedExpense == SumIn(ap, thisMonth + 1 + j, ByDue, monthOf)
  {
    seq(3, j requires 0 <= j < 3 => ProjectedRow(thisMonth + 1 + j, SumIn(ar, thisMonth + 1 + j, ByDue, monthOf),
                                                 SumIn(ap, thisMonth + 1 + j, ByDue, monthOf)))
  }

  /** The initialisation loop of the projection: a zero bucket for each of
      the next three months. */
  method ZeroProjection(thisMonth: MonthKey) returns (data: map<MonthKey, Bucket>)
    ensures forall m :: m in data <==> thisMonth < m <= thisMonth + 3
    ensures forall m :: m in data ==> data[m] == Bucket(0.0, 0.0)
  {
    data := map[];
    var i := 1;
    while i <= 3
      invariant 1 <= i <= 4
      invariant forall m :: m in data <==> thisMonth < m < thisMonth + i
      invariant forall m :: m in data ==> data[m] == Bucket(0.0, 0.0)
    {
      data := data[thisMonth + i := Bucket(0.0, 0.0)];
      i := i + 1;
    }
  }

  /** `projectedData`: buckets for the next three months, filled with the
      pending receivables and payables by due month. */
  method ProjectedData(payables: seq<AccountPayable>, receivables: seq<AccountReceivable>,
                       thisMonth: MonthKey, monthOf: Day -> MonthKey)
    returns (rows: seq<ProjectedRow>)
    ensures rows == ProjectedRows(AccountsReceivable.Entries(receivables), AccountsPayable.Entries(payables), thisMonth, monthOf)
  {
    var ar := AccountsReceivable.Entries(receivables);
    var ap := AccountsPayable.Entries(payables);
    var data := ZeroProjection(thisMonth);
    var withIncome := AddToBuckets(data, ar, Income, ByDue, monthOf);
    var full := AddToBuckets(withIncome, ap, Expense, ByDue, monthOf);
    forall m | thisMonth < m <= thisMonth + 3
      ensures m in full && full[m] == Bucket(SumIn(ar, m, ByDue, monthOf), SumIn(ap, m, ByDue, monthOf))
    {
      assert m in data && data[m] == Bucket(0.0, 0.0);
      assert withIncome[m] == Bucket(SumIn(ar, m, ByDue, monthOf), 0.0);
    }
    data := full;
    rows := [];
    var j := 0;
    while j < 3
      invariant 0 <= j <= 3
      invariant |rows| == j
      invariant forall t :: 0 <= t < j ==> rows[t] == ProjectedRow(thisMonth + 1 + t, SumIn(ar, thisMonth + 1 + t, ByDue, monthOf),
                                                                   SumIn(ap, thisMonth + 1 + t, ByDue, monthOf))
    {
      var m := thisMonth + 1 + j;
      rows := rows + [ProjectedRow(m, data[m].income, data[m].expense)];
      j := j + 1;
    }
  }

  // ---------------------------------------------------------------------
  // Summary cards

  /** `currentBalance`: every paid receivable less every paid payable. */
  function CurrentBalance(ar: seq<Ledger.Entry>, ap: seq<Ledger.Entry>): real {
    Ledger.Total(ar, Paid) - Ledger.Total(ap, Paid)
  }

  /** The "projected balance" card. */
  function ProjectedBalance(ar: seq<Ledger.Entry>, ap: seq<Ledger.Entry>): real {
    CurrentBalance(ar, ap) + Ledger.Total(ar, Pending) - Ledger.Total(ap, Pending)
  }

  /** Summing over a list of months what the accounts add to each. */
  function SumOverMonths(s: seq<Ledger.Entry>, months: seq<MonthKey>, basis: Basis, monthOf: Day -> MonthKey): real {
    Grouping.SumOverKeys(MonthItems(s, basis, monthOf), months)
  }

  lemma {:induction false} PaymentItemsArePaidTotal(s: seq<Ledger.Entry>, monthOf: Day -> MonthKey)
    requires forall i :: 0 <= i < |s| && s[i].status == Paid ==> s[i].paymentDate.Some?
    ensures Grouping.SumItems(MonthItems(s, ByPayment, monthOf)) == Ledger.Total(s, Paid)
  {
    if |s| > 0 {
      var front := s[..|s| - 1];
      PaymentItemsArePaidTotal(front, monthOf);
      var items := MonthItems(front, ByPayment, monthOf);
      var b := BucketOf(s[|s| - 1], ByPayment, monthOf);
      if b.Some? {
        assert (items + [Grouping.Item(b.value, s[|s| - 1].amount)])[..|items|] == items;
      }
    }
  }

  lemma {:induction false} DueItemsArePendingTotal(s: seq<Ledger.Entry>, monthOf: Day -> MonthKey)
    ensures Grouping.SumItems(MonthItems(s, ByDue, monthOf)) == Ledger.Total(s, Pending)
  {
    if |s| > 0 {
      var front := s[..|s| - 1];
      DueItemsArePendingTotal(front, monthOf);
      var items := MonthItems(front, ByDue, monthOf);
      var b := BucketOf(s[|s| - 1], ByDue, monthOf);
      if b.Some? {
        assert (items + [Grouping.Item(b.value, s[|s| - 1].amount)])[..|items|] == items;
      }
    }
  }

  /** Every account the basis places falls in one of the months. */
  predicate Covered(s: seq<Ledger.Entry>, months: seq<MonthKey>, basis: Basis, monthOf: Day -> MonthKey) {
    forall i :: 0 <= i < |s| && BucketOf(s[i], basis, monthOf).Some? ==> BucketOf(s[i], basis, monthOf).value in months
  }

  lemma {:induction false} NetIsDifferenceOfSums(ar: seq<Ledger.Entry>, ap: seq<Ledger.Entry>, months: seq<MonthKey>,
                                                monthOf: Day -> MonthKey)
    ensures CumulativeNet(ar, ap, months, monthOf)
            == SumOverMonths(ar, months, ByPayment, monthOf) - SumOverMonths(ap, months, ByPayment, monthOf)
  {
    if |months| > 0 {
      NetIsDifferenceOfSums(ar, ap, months[..|months| - 1], monthOf);
    }
  }

  lemma CoveredSum(s: seq<Ledger.Entry>, months: seq<MonthKey>, basis: Basis, monthOf: Day -> MonthKey)
    requires Grouping.Distinct(months) && Covered(s, months, basis, monthOf)
    ensures SumOverMonths(s, months, basis, monthOf) == Grouping.SumItems(MonthItems(s, basis, monthOf))
  {
    Grouping.KeysCoverItems(MonthItems(s, basis, monthOf), months);
  }

  /** When every paid account has a payment date inside the window, the
      newest row's balance is the current-balance card: the window then
      misses no payment. */
  lemma WindowBalanceIsCurrentBalance(ar: seq<Ledger.Entry>, ap: seq<Ledger.Entry>, n: nat, thisMonth: MonthKey,
                                      monthOf: Day -> MonthKey)
    requires forall i :: 0 <= i < |ar| && ar[i].status == Paid ==> ar[i].paymentDate.Some?
    requires forall i :: 0 <= i < |ap| && ap[i].status == Paid ==> ap[i].paymentDate.Some?
    requires Covered(ar, Window(n, thisMonth), ByPayment, monthOf) && Covered(ap, Window(n, thisMonth), ByPayment, monthOf)
    ensures CumulativeNet(ar, ap, Window(n, thisMonth), monthOf) == CurrentBalance(ar, ap)
  {
    var w := Window(n, thisMonth);
    NetIsDifferenceOfSums(ar, ap, w, monthOf);
    CoveredSum(ar, w, ByPayment, monthOf);
    CoveredSum(ap, w, ByPayment, monthOf);
    PaymentItemsArePaidTotal(ar, monthOf);
    PaymentItemsArePaidTotal(ap, monthOf);
  }

  function ProjectedMonths(thisMonth: MonthKey): seq<MonthKey> {
    [thisMonth + 1, thisMonth + 2, thisMonth + 3]
  }

  /** When everything pending falls due in the next three months, the
      projection's columns add up to the pending cards, and the projected
      balance is the current balance plus the projected income less the
      projected expense. */
  lemma ProjectionCoversPending(ar: seq<Ledger.Entry>, ap: seq<Ledger.Entry>, thisMonth: MonthKey, monthOf: Day -> MonthKey)
    requires Covered(ar, ProjectedMonths(thisMonth), ByDue, monthOf) && Covered(ap, ProjectedMonths(thisMonth), ByDue, monthOf)
    ensures var rows := ProjectedRows(ar, ap, thisMonth, monthOf);
      rows[0].projectedIncome + rows[1].projectedIncome + rows[2].projectedIncome == Ledger.Total(ar, Pending)
      && rows[0].projectedExpense + rows[1].projectedExpense + rows[2].projectedExpense == Ledger.Total(ap, Pending)
      && ProjectedBalance(ar, ap) == CurrentBalance(ar, ap)
           + (rows[0].projectedIncome + rows[1].projectedIncome + rows[2].projectedIncome)
           - (rows[0].projectedExpense + rows[1].projectedExpense + rows[2].projectedExpense)
  {
    var ms := ProjectedMonths(thisMonth);
    CoveredSum(ar, ms, ByDue, monthOf);
    CoveredSum(ap, ms, ByDue, monthOf);
    DueItemsArePendingTotal(ar, monthOf);
    DueItemsArePendingTotal(ap, monthOf);
    SumOverThree(ar, thisMonth, monthOf);
    SumOverThree(ap, thisMonth, monthOf);
  }

  lemma SumOverThree(s: seq<Ledger.Entry>, thisMonth: MonthKey, monthOf: Day -> MonthKey)
    ensures SumOverMonths(s, ProjectedMonths(thisMonth), ByDue, monthOf)
            == SumIn(s, thisMonth + 1, ByDue, monthOf) + SumIn(s, thisMonth + 2, ByDue, monthOf) + SumIn(s, thisMonth + 3, ByDue, monthOf)
  {
    var ms := ProjectedMonths(thisMonth);
    var items := MonthItems(s, ByDue, monthOf);
    assert ms[..2][..1][..0] == [];
    assert ms[..2][..1] == [ms[0]];
    assert ms[..2] == [ms[0], ms[1]];
    assert Grouping.SumOverKeys(items, [ms[0]]) == Grouping.TotalFor(items, ms[0]);
    assert Grouping.SumOverKeys(items, [ms[0], ms[1]]) == Grouping.TotalFor(items, ms[0]) + Grouping.TotalFor(items, ms[1]);
  }

  // ---------------------------------------------------------------------
  // Paid expense per category

  /** The paid payables as category-amount pairs, in list order. */
  function PaidCategoryItems(payables: seq<AccountPayable>): seq<Grouping.Item<TransactionCategory>> {
    if |payables| == 0 then []
    else
      var a := payables[|payables| - 1];
      PaidCategoryItems(payables[..|payables| - 1]) + (if a.status == Paid then [Grouping.Item(a.category, a.amount)] else [])
  }

  lemma {:induction false} PaidCategoryItemsTotal(payables: seq<AccountPayable>)
    ensures Grouping.SumItems(PaidCategoryItems(payables)) == Ledger.Total(AccountsPayable.Entries(payables), Paid)
  {
    if |payables| > 0 {
      var front := payables[..|payables| - 1];
      PaidCategoryItemsTotal(front);
      assert AccountsPayable.Entries(payables)[..|payables| - 1] == AccountsPayable.Entries(front);
      var items := PaidCategoryItems(front);
      var a := payables[|payables| - 1];
      if a.status == Paid {
        assert (items + [Grouping.Item(a.category, a.amount)])[..|items|] == items;
      } else {
        assert items + [] == items;
      }
    }
  }

  /** `categoryExpenses`: one entry per category that has a paid payable,
      largest total first, and the totals add up to the paid expense. */
  method CategoryExpenses(payables: seq<AccountPayable>) returns (r: seq<Grouping.Group<TransactionCategory>>)
    ensures multiset(r) == multiset(Grouping.Grouped(PaidCategoryItems(payables)))
    ensures forall i, j :: 0 <= i < j < |r| ==> r[i].total >= r[j].total
    ensures Grouping.SumGroups(r) == Ledger.Total(AccountsPayable.Entries(payables), Paid)
  {
    var items := PaidCategoryItems(payables);
    var groups := Grouping.GroupTotals(items);
    r := Grouping.SortByTotalDesc(groups);
    Grouping.GroupedAddsUp(items);
    PaidCategoryItemsTotal(payables);
  }
}
