/** The accounts-receivable screen: filters and search, the sortable and
    paginated list, the create form that splits an amount into monthly
    installments, "mark as received" and the statistics cards. */
module AccountsReceivable {
  import opened Types
  import Seqs
  import Text
  import Sorting
  import ListView
  import Ledger
  import App

  /** The part of a receivable the statistics and the overdue test read. */
  function EntryOf(a: AccountReceivable): Ledger.Entry {
    Ledger.Entry(a.id, a.status, a.amount, a.dueDate, a.paymentDate)
  }

  function Entries(s: seq<AccountReceivable>): (r: seq<Ledger.Entry>)
    ensures |r| == |s| && forall i :: 0 <= i < |s| ==> r[i] == EntryOf(s[i])
  {
    seq(|s|, i requires 0 <= i < |s| => EntryOf(s[i]))
  }

  /** `stats`, the same cards as on the payables screen. */
  function Stats(accounts: seq<AccountReceivable>, now: Instant, startOf: Day -> Instant): Ledger.Stats {
    Ledger.StatsOf(Entries(accounts), now, startOf)
  }

  // ---------------------------------------------------------------------
  // Filter and search

  /** The search box: the term, lower-cased, occurs in the lower-cased
      description, client name, project name or id, or the term as typed
      occurs in the amount's text. A client or project that does not
      resolve matches nothing. */
  predicate MatchesSearch(a: AccountReceivable, term: string, clients: seq<Client>, projects: seq<Project>,
                          lower: char -> char, amountText: real -> string) {
    var t := Text.MapChars(lower, term);
    var c := Seqs.FindById(clients, a.clientId, App.ClientId);
    var p := Seqs.FindById(projects, a.projectId, App.ProjectId);
    Text.Contains(Text.MapChars(lower, a.description), t)
    || Text.Contains(amountText(a.amount), term)
    || (c >= 0 && Text.Contains(Text.MapChars(lower, clients[c].name), t))
    || (p >= 0 && Text.Contains(Text.MapChars(lower, projects[p].name), t))
    || Text.Contains(Text.MapChars(lower, a.id), t)
  }

  predicate Passes(a: AccountReceivable, status: Choice<PaymentStatus>, project: Choice<string>, term: string,
                   clients: seq<Client>, projects: seq<Project>, lower: char -> char, amountText: real -> string) {
    status.Admits(a.status) && project.Admits(a.projectId)
    && (term == "" || MatchesSearch(a, term, clients, projects, lower, amountText))
  }

  /** The `filter` half of `filteredAccounts`: the accounts passing the
      status and project selects and, when a term is typed, the search. */
  function Filtered(s: seq<AccountReceivable>, status: Choice<PaymentStatus>, project: Choice<string>, term: string,
                    clients: seq<Client>, projects: seq<Project>, lower: char -> char, amountText: real -> string)
    : (r: seq<AccountReceivable>)
    ensures |r| <= |s|
    ensures forall a :: a in r <==> a in s && Passes(a, status, project, term, clients, projects, lower, amountText)
  {
    if |s| == 0 then []
    else
      var front := Filtered(s[..|s| - 1], status, project, term, clients, projects, lower, amountText);
      var a := s[|s| - 1];
      assert forall x :: x in s <==> x in s[..|s| - 1] || x == a;
      if Passes(a, status, project, term, clients, projects, lower, amountText) then front + [a] else front
  }

  /** With no term and both selects on 'all' nothing is filtered out. */
  lemma {:induction false} NoFilterKeepsAll(s: seq<AccountReceivable>, clients: seq<Client>, projects: seq<Project>,
                                            lower: char -> char, amountText: real -> string)
    ensures Filtered(s, All, All, "", clients, projects, lower, amountText) == s
  {
    if |s| > 0 {
      NoFilterKeepsAll(s[..|s| - 1], clients, projects, lower, amountText);
    }
  }

  /** An account's own id, typed in full, always finds it. */
  lemma SearchById(a: AccountReceivable, clients: seq<Client>, projects: seq<Project>,
                   lower: char -> char, amountText: real -> string)
    ensures MatchesSearch(a, a.id, clients, projects, lower, amountText)
  {
    Text.ContainsAt(Text.MapChars(lower, a.id), Text.MapChars(lower, a.id));
    assert Text.OccursAt(Text.MapChars(lower, a.id), Text.MapChars(lower, a.id), 0);
  }

  // ---------------------------------------------------------------------
  // Sorting

  /** The columns `requestSort` accepts: the record's own fields and the
      looked-up client and project names. */
  datatype SortKey =
    | Id | ProjectIdKey | ClientIdKey | Description | Amount | DueDate | Status | PaymentMethod | PaymentDate
    | CreatedAt | CreatedBy | InstallmentNumber | TotalInstallments | ClientName | ProjectName

  function StatusName(s: PaymentStatus): string {
    match s
    case Pending => "PENDING"
    case Paid => "PAID"
    case Overdue => "OVERDUE"
    case Cancelled => "CANCELLED"
  }

  /** `(x?.name || '')` for a looked-up record. */
  function ClientName(clients: seq<Client>, id: string): string {
    var k := Seqs.FindById(clients, id, App.ClientId);
    if k == -1 then "" else clients[k].name
  }

  function ProjectName(projects: seq<Project>, id: string): string {
    var k := Seqs.FindById(projects, id, App.ProjectId);
    if k == -1 then "" else projects[k].name
  }

  /** The value the comparator reads for a column. ISO dates and
      timestamps order as the days and instants they stand for; a missing
      value reads as ''. */
  function KeyValue(key: SortKey, clients: seq<Client>, projects: seq<Project>, a: AccountReceivable): Sorting.SortValue {
    match key
    case Id => Sorting.Str(a.id)
    case ProjectIdKey => Sorting.Str(a.projectId)
    case ClientIdKey => Sorting.Str(a.clientId)
    case Description => Sorting.Str(a.description)
    case Amount => Sorting.Num(a.amount)
    case DueDate => Sorting.Num(a.dueDate as real)
    case Status => Sorting.Str(StatusName(a.status))
    case PaymentMethod => Sorting.Str(a.paymentMethod.GetOr(""))
    case PaymentDate => if a.paymentDate.Some? then Sorting.Num(a.paymentDate.value as real) else Sorting.Str("")
    case CreatedAt => Sorting.Num(a.createdAt as real)
    case CreatedBy => Sorting.Str(a.createdBy)
    case InstallmentNumber => Sorting.Num(a.installmentNumber as real)
    case TotalInstallments => Sorting.Num(a.totalInstallments as real)
    case ClientName => Sorting.Str(ClientName(clients, a.clientId))
    case ProjectName => Sorting.Str(ProjectName(projects, a.projectId))
  }

  /** The comparator's key for a column. */
  function SortKeyOf(key: SortKey, clients: seq<Client>, projects: seq<Project>): AccountReceivable -> Sorting.SortValue {
    (a: AccountReceivable) => KeyValue(key, clients, projects, a)
  }

  /** The sort starts on the due date, ascending. */
  const InitialSort: Option<ListView.SortConfig<SortKey>> := Some(ListView.SortConfig(DueDate, Sorting.Asc))

  // ---------------------------------------------------------------------
  // Installments

  /** `newAccount` of the create form. */
  datatype ReceivableForm = ReceivableForm(
    projectId: string,
    clientId: string,
    description: string,
    amount: real,
    dueDate: Day,
    status: PaymentStatus,
    createdAt: Instant,
    createdBy: string,
    installmentNumber: int,
    totalInstallments: int)

  /** The form as the screen opens it and as it is reset. */
  function DefaultForm(today: Day, now: Instant): ReceivableForm {
    ReceivableForm("", "", "", 0.0, today, Pending, now, "Felipe Paiva", 1, 1)
  }

  /** Choosing a project also fills in its client, or '' when it does not
      resolve. */
  function FormWithProject(form: ReceivableForm, projects: seq<Project>, id: string): (r: ReceivableForm)
    ensures r.projectId == id
    ensures var k := Seqs.FindById(projects, id, App.ProjectId);
            r.clientId == if k == -1 then "" else projects[k].clientId
    ensures r.(projectId := form.projectId, clientId := form.clientId) == form
  {
    var k := Seqs.FindById(projects, id, App.ProjectId);
    form.(projectId := id, clientId := if k == -1 then "" else projects[k].clientId)
  }

  /** `newAccount.totalInstallments || 1`. */
  function InstallmentCount(t: int): (n: int)
    ensures n != 0
    ensures t != 0 ==> n == t
  {
    if t == 0 then 1 else t
  }

  /** The guard of `handleCreateAccount`: project, client and description
      filled in, a non-zero amount, and a project that resolves. */
  predicate CanCreate(form: ReceivableForm, projects: seq<Project>) {
    form.projectId != "" && form.clientId != "" && form.description != "" && form.amount != 0.0
    && Seqs.FindById(projects, form.projectId, App.ProjectId) >= 0
  }

  function InstallmentDescription(description: string, i: nat, t: int): string {
    if InstallmentCount(t) > 1
    then description + " - Parcela " + Text.NatToDecimal(i + 1) + "/" + Text.NatToDecimal(t)
    else description
  }

  /** Installment `i` (from 0) of the form: an equal share of the amount,
      due `i` months after the form's date (`addMonths` is the calendar's
      `setMonth(getMonth() + i)`), numbered `i + 1` of N. */
  function Installment(form: ReceivableForm, i: nat, idFor: nat -> string, addMonths: (Day, int) -> Day): AccountReceivable {
    var n := InstallmentCount(form.totalInstallments);
    AccountReceivable(idFor(i), form.projectId, form.clientId,
                      InstallmentDescription(form.description, i, form.totalInstallments),
                      form.amount / (n as real), addMonths(form.dueDate, i), form.status, None, None,
                      form.createdAt, form.createdBy, i + 1, n)
  }

  /** How many times the loop runs: N, or none for a negative N. */
  function LoopCount(form: ReceivableForm): nat {
    var n := InstallmentCount(form.totalInstallments);
    if n < 0 then 0 else n
  }

  /** `accountsToCreate` as the loop leaves it. */
  function Installments(form: ReceivableForm, idFor: nat -> string, addMonths: (Day, int) -> Day): (r: seq<AccountReceivable>)
    ensures |r| == LoopCount(form)
  {
    seq(LoopCount(form), i requires 0 <= i < LoopCount(form) => Installment(form, i, idFor, addMonths))
  }

  /** The loop of `handleCreateAccount` that builds `accountsToCreate`. */
  method BuildInstallments(form: ReceivableForm, idFor: nat -> string, addMonths: (Day, int) -> Day)
    returns (r: seq<AccountReceivable>)
    ensures r == Installments(form, idFor, addMonths)
  {
    var n := InstallmentCount(form.totalInstallments);
    r := [];
    var i := 0;
    while i < n
      invariant 0 <= i && (n >= 0 ==> i <= n) && (n < 0 ==> i == 0)
      invariant |r| == i && forall j :: 0 <= j < i ==> r[j] == Installment(form, j, idFor, addMonths)
    {
      r := r + [Installment(form, i, idFor, addMonths)];
      i := i + 1;
    }
  }

  function SumAmounts(s: seq<AccountReceivable>): real {
    if |s| == 0 then 0.0 else SumAmounts(s[..|s| - 1]) + s[|s| - 1].amount
  }

  lemma {:induction false} SumOfEqualShares(s: seq<AccountReceivable>, x: real)
    requires forall i :: 0 <= i < |s| ==> s[i].amount == x
    ensures SumAmounts(s) == (|s| as real) * x
  {
    if |s| > 0 {
      SumOfEqualShares(s[..|s| - 1], x);
    }
  }

  /** For N of at least one the N shares add up to the amount entered. */
  lemma SharesAddUpToAmount(form: ReceivableForm, idFor: nat -> string, addMonths: (Day, int) -> Day)
    requires InstallmentCount(form.totalInstallments) >= 1
    ensures SumAmounts(Installments(form, idFor, addMonths)) == form.amount
  {
    var n := InstallmentCount(form.totalInstallments);
    var r := Installments(form, idFor, addMonths);
    var share := form.amount / (n as real);
    assert |r| == n;
    forall i | 0 <= i < |r|
      ensures r[i].amount == share
    {
      assert r[i] == Installment(form, i, idFor, addMonths);
    }
    SumOfEqualShares(r, share);
    SharesCancel(form.amount, n as real);
  }

  lemma SharesCancel(a: real, d: real)
    requires d != 0.0
    ensures d * (a / d) == a
  {
  }

  /** Installment `i` is numbered `i + 1` of N, due `i` months after the
      base date, and its description carries " - Parcela i+1/N" exactly
      when N is above one. */
  lemma InstallmentFields(form: ReceivableForm, idFor: nat -> string, addMonths: (Day, int) -> Day, i: int)
    requires 0 <= i < LoopCount(form)
    ensures var a := Installments(form, idFor, addMonths)[i];
            var n := InstallmentCount(form.totalInstallments);
            a.installmentNumber == i + 1 && a.totalInstallments == n && a.dueDate == addMonths(form.dueDate, i)
            && a.id == idFor(i) && a.projectId == form.projectId && a.clientId == form.clientId
            && a.status == form.status && a.paymentDate.None? && a.paymentMethod.None?
            && (n > 1 ==> a.description == form.description + " - Parcela " + Text.NatToDecimal(i + 1) + "/" + Text.NatToDecimal(n))
            && (n == 1 ==> a.description == form.description)
  {
  }

  /** When the calendar moves a date by `m` months to the month `m` later,
      installment `i` falls due in the base month plus `i`. */
  lemma InstallmentMonths(form: ReceivableForm, idFor: nat -> string, addMonths: (Day, int) -> Day,
                          monthOf: Day -> MonthKey, i: int)
    requires forall d: Day, m: int :: monthOf(addMonths(d, m)) == monthOf(d) + m
    requires 0 <= i < LoopCount(form)
    ensures monthOf(Installments(form, idFor, addMonths)[i].dueDate) == monthOf(form.dueDate) + i
  {
  }

  /** A negative installment count passes the guard yet creates nothing. */
  lemma NegativeCountCreatesNothing(form: ReceivableForm, idFor: nat -> string, addMonths: (Day, int) -> Day)
    requires form.totalInstallments < 0
    ensures Installments(form, idFor, addMonths) == []
  {
  }

  // ---------------------------------------------------------------------
  // Mark as received

  function DefaultPaymentData(today: Day): PaymentData {
    PaymentData(today, "PIX")
  }

  function WithPayment(a: AccountReceivable, pd: PaymentData): AccountReceivable {
    a.(status := Paid, paymentDate := Some(pd.paymentDate), paymentMethod := Some(pd.paymentMethod))
  }

  /** The account `handleMarkAsReceived` hands to `onUpdate`: none for an
      unknown id, otherwise the first account with that id, PAID on the
      dialog's date by the dialog's method and otherwise unchanged. */
  function ReceivedAccount(accounts: seq<AccountReceivable>, id: string, pd: PaymentData): (r: Option<AccountReceivable>)
    ensures r.None? <==> forall j :: 0 <= j < |accounts| ==> accounts[j].id != id
    ensures r.Some? ==>
      exists k :: 0 <= k < |accounts| && accounts[k].id == id && (forall j :: 0 <= j < k ==> accounts[j].id != id)
        && r.value.(status := accounts[k].status, paymentDate := accounts[k].paymentDate,
                    paymentMethod := accounts[k].paymentMethod) == accounts[k]
        && r.value.status == Paid && r.value.paymentDate == Some(pd.paymentDate)
        && r.value.paymentMethod == Some(pd.paymentMethod)
  {
    var k := Seqs.FindById(accounts, id, App.ReceivableId);
    if k == -1 then None else Some(WithPayment(accounts[k], pd))
  }

  // ---------------------------------------------------------------------
  // The screen's state

  class ReceivablesScreen {
    var form: ReceivableForm
    var paymentData: PaymentData
    var filterStatus: Choice<PaymentStatus>
    var filterProject: Choice<string>
    var searchTerm: string
    var sortConfig: Option<ListView.SortConfig<SortKey>>
    const pager: ListView.Pager

    predicate Valid()
      reads this, pager
    {
      pager.Valid()
    }

    /** The screen as it opens: page 1 of 10 rows, sorted by due date. */
    constructor (today: Day, now: Instant)
      ensures Valid() && fresh(pager)
      ensures form == DefaultForm(today, now) && paymentData == DefaultPaymentData(today)
      ensures filterStatus == All && filterProject == All && searchTerm == "" && sortConfig == InitialSort
      ensures pager.currentPage == 1 && pager.itemsPerPage == 10
    {
      form := DefaultForm(today, now);
      paymentData := DefaultPaymentData(today);
      filterStatus := All;
      filterProject := All;
      searchTerm := "";
      sortConfig := InitialSort;
      pager := new ListView.Pager(10);
    }

    /** Typing a search term; a changed term sends the list to page 1. */
    method SetSearchTerm(t: string)
      requires Valid()
      modifies this, pager
      ensures Valid() && searchTerm == t && pager.itemsPerPage == old(pager.itemsPerPage)
      ensures pager.currentPage == if t != old(searchTerm) then 1 else old(pager.currentPage)
      ensures form == old(form) && paymentData == old(paymentData) && sortConfig == old(sortConfig)
      ensures filterStatus == old(filterStatus) && filterProject == old(filterProject)
    {
      if t != searchTerm {
        pager.ResetPage();
      }
      searchTerm := t;
    }

    /** Choosing a status; a changed filter sends the list to page 1. */
    method SetFilterStatus(c: Choice<PaymentStatus>)
      requires Valid()
      modifies this, pager
      ensures Valid() && filterStatus == c && pager.itemsPerPage == old(pager.itemsPerPage)
      ensures pager.currentPage == if c != old(filterStatus) then 1 else old(pager.currentPage)
      ensures form == old(form) && paymentData == old(paymentData) && sortConfig == old(sortConfig)
      ensures searchTerm == old(searchTerm) && filterProject == old(filterProject)
    {
      if c != filterStatus {
        pager.ResetPage();
      }
      filterStatus := c;
    }

    /** Choosing a project; a changed filter sends the list to page 1. */
    method SetFilterProject(c: Choice<string>)
      requires Valid()
      modifies this, pager
      ensures Valid() && filterProject == c && pager.itemsPerPage == old(pager.itemsPerPage)
      ensures pager.currentPage == if c != old(filterProject) then 1 else old(pager.currentPage)
      ensures form == old(form) && paymentData == old(paymentData) && sortConfig == old(sortConfig)
      ensures searchTerm == old(searchTerm) && filterStatus == old(filterStatus)
    {
      if c != filterProject {
        pager.ResetPage();
      }
      filterProject := c;
    }

    /** `requestSort(key)`. */
    method RequestSort(key: SortKey)
      modifies this
      ensures sortConfig == Some(ListView.RequestSort(old(sortConfig), key))
      ensures form == old(form) && paymentData == old(paymentData) && searchTerm == old(searchTerm)
      ensures filterStatus == old(filterStatus) && filterProject == old(filterProject)
    {
      sortConfig := Some(ListView.RequestSort(sortConfig, key));
    }

    /** `filteredAccounts` and the current page of it: the filtered accounts
      reordered by the sort column, and the slice the pager shows. */
    method Rows(accounts: seq<AccountReceivable>, clients: seq<Client>, projects: seq<Project>,
                lower: char -> char, amountText: real -> string)
      returns (list: seq<AccountReceivable>, page: seq<AccountReceivable>)
      requires Valid()
      ensures multiset(list) == multiset(Filtered(accounts, filterStatus, filterProject, searchTerm, clients, projects, lower, amountText))
      ensures sortConfig.Some? ==>
        Sorting.SortedBy(list, SortKeyOf(sortConfig.value.key, clients, projects), sortConfig.value.direction)
      ensures sortConfig.None? ==> list == Filtered(accounts, filterStatus, filterProject, searchTerm, clients, projects, lower, amountText)
      ensures page == pager.Shown(list)
    {
      list := Filtered(accounts, filterStatus, filterProject, searchTerm, clients, projects, lower, amountText);
      if sortConfig.Some? {
        list := Sorting.SortedCopy(list, SortKeyOf(sortConfig.value.key, clients, projects), sortConfig.value.direction);
      }
      page := pager.Shown(list);
    }

    /** Choosing a project in the form. */
    method SelectProject(projects: seq<Project>, id: string)
      modifies this
      ensures form == FormWithProject(old(form), projects, id)
      ensures paymentData == old(paymentData) && searchTerm == old(searchTerm) && sortConfig == old(sortConfig)
      ensures filterStatus == old(filterStatus) && filterProject == old(filterProject)
    {
      form := FormWithProject(form, projects, id);
    }

    /** `handleCreateAccount` as the application runs it: when the guard
      passes, every installment is handed to `onCreate`, but each call
      prepends to the list drawn before the event, so only the last
      installment is stored; the form is reset. Otherwise nothing changes. */
    method CreateAccount(erp: App.Erp, projects: seq<Project>, idFor: nat -> string, addMonths: (Day, int) -> Day,
                         today: Day, now: Instant)
      modifies this, erp
      ensures CanCreate(old(form), projects) ==>
        erp.receivables == App.BatchedPrependAsWritten(old(erp.receivables), Installments(old(form), idFor, addMonths))
        && form == DefaultForm(today, now)
      ensures !CanCreate(old(form), projects) ==> erp.receivables == old(erp.receivables) && form == old(form)
      ensures paymentData == old(paymentData) && searchTerm == old(searchTerm) && sortConfig == old(sortConfig)
      ensures filterStatus == old(filterStatus) && filterProject == old(filterProject)
      ensures erp.orders == old(erp.orders) && erp.payables == old(erp.payables)
      ensures erp.suppliers == old(erp.suppliers) && erp.materials == old(erp.materials)
    {
      if CanCreate(form, projects) {
        var accounts := BuildInstallments(form, idFor, addMonths);
        erp.CreateReceivablesAsWritten(accounts);
        form := DefaultForm(today, now);
      }
    }

    /** `handleCreateAccount` as evidently intended: every installment is
      stored (the last one first, as each creation prepends to the current
      list) and the form is reset; otherwise nothing changes. */
    method CreateAccountCorrected(erp: App.Erp, projects: seq<Project>, idFor: nat -> string, addMonths: (Day, int) -> Day,
                                  today: Day, now: Instant)
      modifies this, erp
      ensures CanCreate(old(form), projects) ==>
        erp.receivables == App.Reversed(Installments(old(form), idFor, addMonths)) + old(erp.receivables)
        && form == DefaultForm(today, now)
      ensures !CanCreate(old(form), projects) ==> erp.receivables == old(erp.receivables) && form == old(form)
      ensures paymentData == old(paymentData) && searchTerm == old(searchTerm) && sortConfig == old(sortConfig)
      ensures filterStatus == old(filterStatus) && filterProject == old(filterProject)
      ensures erp.orders == old(erp.orders) && erp.payables == old(erp.payables)
      ensures erp.suppliers == old(erp.suppliers) && erp.materials == old(erp.materials)
    {
      if CanCreate(form, projects) {
        var accounts := BuildInstallments(form, idFor, addMonths);
        erp.CreateReceivables(accounts);
        form := DefaultForm(today, now);
      }
    }

    /** `handleMarkAsReceived`. */
    method MarkAsReceived(erp: App.Erp, accountId: string, today: Day)
      modifies this, erp
      ensures var r := ReceivedAccount(old(erp.receivables), accountId, old(paymentData));
        (r.None? ==> erp.receivables == old(erp.receivables) && paymentData == old(paymentData))
        && (r.Some? ==> erp.receivables == Seqs.ReplaceById(old(erp.receivables), r.value, App.ReceivableId)
                        && paymentData == DefaultPaymentData(today))
      ensures form == old(form) && searchTerm == old(searchTerm) && sortConfig == old(sortConfig)
      ensures filterStatus == old(filterStatus) && filterProject == old(filterProject)
      ensures erp.orders == old(erp.orders) && erp.payables == old(erp.payables)
      ensures erp.suppliers == old(erp.suppliers) && erp.materials == old(erp.materials)
    {
      var r := ReceivedAccount(erp.receivables, accountId, paymentData);
      if r.Some? {
        erp.UpdateReceivable(r.value);
        paymentData := DefaultPaymentData(today);
      }
    }
  }
}
