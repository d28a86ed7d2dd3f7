/** The accounts-payable screen: its three filters, the create form and
    its guard, "mark as paid" and the statistics cards. */
module AccountsPayable {
  import opened Types
  import Seqs
  import Ledger
  import App

  /** The part of a payable the statistics and the overdue test read. */
  function EntryOf(a: AccountPayable): Ledger.Entry {
    Ledger.Entry(a.id, a.status, a.amount, a.dueDate, a.paymentDate)
  }

  function Entries(s: seq<AccountPayable>): (r: seq<Ledger.Entry>)
    ensures |r| == |s| && forall i :: 0 <= i < |s| ==> r[i] == EntryOf(s[i])
  {
    seq(|s|, i requires 0 <= i < |s| => EntryOf(s[i]))
  }

  // ---------------------------------------------------------------------
  // Filters

  predicate Passes(a: AccountPayable, status: Choice<PaymentStatus>, project: Choice<string>, supplier: Choice<string>) {
    status.Admits(a.status) && project.Admits(a.projectId) && supplier.Admits(a.supplierId)
  }

  /** `filteredAccounts`: the accounts passing the status, project and
      supplier selects, each either 'all' or one value. */
  function Filtered(s: seq<AccountPayable>, status: Choice<PaymentStatus>, project: Choice<string>, supplier: Choice<string>)
    : (r: seq<AccountPayable>)
    ensures |r| <= |s|
    ensures forall a :: a in r <==> a in s && Passes(a, status, project, supplier)
  {
    if |s| == 0 then []
    else
      var front := Filtered(s[..|s| - 1], status, project, supplier);
      var a := s[|s| - 1];
      assert forall x :: x in s <==> x in s[..|s| - 1] || x == a;
      if Passes(a, status, project, supplier) then front + [a] else front
  }

  /** Filtering keeps the list's order: the filtered concatenation is the
      concatenation of the filtered parts. */
  lemma {:induction false} FilteredKeepsOrder(s: seq<AccountPayable>, t: seq<AccountPayable>,
                                              status: Choice<PaymentStatus>, project: Choice<string>, supplier: Choice<string>)
    ensures Filtered(s + t, status, project, supplier) == Filtered(s, status, project, supplier) + Filtered(t, status, project, supplier)
  {
    if |t| == 0 {
      assert s + t == s;
    } else {
      var n := |t| - 1;
      var u, a := t[..n], t[n];
      assert t == u + [a];
      assert s + t == (s + u) + [a];
      FilteredKeepsOrder(s, u, status, project, supplier);
      FilteredSnoc(s + u, a, status, project, supplier);
      FilteredSnoc(u, a, status, project, supplier);
    }
  }

  /** Filtering a list with one more account at its end. */
  lemma FilteredSnoc(u: seq<AccountPayable>, a: AccountPayable,
                     status: Choice<PaymentStatus>, project: Choice<string>, supplier: Choice<string>)
    ensures Filtered(u + [a], status, project, supplier)
         == if Passes(a, status, project, supplier) then Filtered(u, status, project, supplier) + [a]
            else Filtered(u, status, project, supplier)
  {
    assert (u + [a])[..|u|] == u;
  }

  /** With every select on 'all' the whole list is shown, as it is. */
  lemma {:induction false} AllFiltersShowEverything(s: seq<AccountPayable>)
    ensures Filtered(s, All, All, All) == s
  {
    if |s| > 0 {
      AllFiltersShowEverything(s[..|s| - 1]);
    }
  }

  // ---------------------------------------------------------------------
  // The create form

  /** `newAccount`: the fields the form holds. */
  datatype PayableForm = PayableForm(
    projectId: string,
    supplierId: string,
    description: string,
    amount: real,
    dueDate: Day,
    status: PaymentStatus,
    category: TransactionCategory,
    createdAt: Instant,
    createdBy: string)

  /** The form as the screen opens it and as it is reset after a creation:
      due today, PENDING, 'Materiais', created by 'Felipe Paiva'. */
  function DefaultForm(today: Day, now: Instant): PayableForm {
    PayableForm("", "", "", 0.0, today, Pending, Materiais, now, "Felipe Paiva")
  }

  /** The account `handleCreateAccount` hands to `onCreate`: none unless
      project, supplier and description are filled in and the amount is
      not zero; otherwise the form's fields under the given id. */
  function NewAccount(form: PayableForm, id: string): (r: Option<AccountPayable>)
    ensures r.None? <==> form.projectId == "" || form.supplierId == "" || form.description == "" || form.amount == 0.0
    ensures r.Some? ==> var a := r.value;
      a.id == id && a.projectId == form.projectId && a.supplierId == form.supplierId
      && a.description == form.description && a.amount == form.amount && a.dueDate == form.dueDate
      && a.status == form.status && a.category == form.category
      && a.createdAt == form.createdAt && a.createdBy == form.createdBy
      && a.orderId.None? && a.paymentMethod.None? && a.paymentDate.None?
      && a.billingTerms.None? && a.observations.None?
  {
    if form.projectId == "" || form.supplierId == "" || form.description == "" || form.amount == 0.0 then None
    else Some(AccountPayable(id, None, form.projectId, form.supplierId, form.description, form.amount,
                             form.dueDate, form.status, None, None, form.category, None, None,
                             form.createdAt, form.createdBy))
  }

  /** The reset form cannot be submitted again as it is. */
  lemma ResetFormIsRejected(today: Day, now: Instant, id: string)
    ensures NewAccount(DefaultForm(today, now), id).None?
  {
  }

  /** Filling in the fields the form offers, other than the category,
      yields a PENDING 'Materiais' account created by 'Felipe Paiva' at
      the time the form was last reset. */
  lemma FilledDefaultFormIsPendingMateriais(today: Day, now: Instant, id: string,
                                             projectId: string, supplierId: string, description: string, amount: real, dueDate: Day)
    requires NewAccount(DefaultForm(today, now).(projectId := projectId, supplierId := supplierId,
                        description := description, amount := amount, dueDate := dueDate), id).Some?
    ensures var a := NewAccount(DefaultForm(today, now).(projectId := projectId, supplierId := supplierId,
                                description := description, amount := amount, dueDate := dueDate), id).value;
            a.status == Pending && a.category == Materiais && a.createdBy == "Felipe Paiva" && a.createdAt == now
            && a.amount == amount && a.amount != 0.0
  {
  }

  // ---------------------------------------------------------------------
  // Mark as paid

  /** The form of the payment dialog as it opens: paid today by PIX. */
  function DefaultPaymentData(today: Day): PaymentData {
    PaymentData(today, "PIX")
  }

  function WithPayment(a: AccountPayable, pd: PaymentData): AccountPayable {
    a.(status := Paid, paymentDate := Some(pd.paymentDate), paymentMethod := Some(pd.paymentMethod))
  }

  /** The account `handleMarkAsPaid` hands to `onUpdate`: none for an
      unknown id, otherwise the first account with that id, PAID on the
      dialog's date by the dialog's method. */
  function PaidAccount(accounts: seq<AccountPayable>, id: string, pd: PaymentData): (r: Option<AccountPayable>)
    ensures r.None? <==> forall j :: 0 <= j < |accounts| ==> accounts[j].id != id
    ensures r.Some? ==> exists k :: 0 <= k < |accounts| && accounts[k].id == id && r.value == WithPayment(accounts[k], pd)
    ensures r.Some? ==>
      r.value.id == id && r.value.status == Paid
      && r.value.paymentDate == Some(pd.paymentDate) && r.value.paymentMethod == Some(pd.paymentMethod)
  {
    var k := Seqs.FindById(accounts, id, App.PayableId);
    if k == -1 then None else Some(WithPayment(accounts[k], pd))
  }

  /** The paid account differs from the one found in status, payment
      date and payment method only. */
  lemma MarkAsPaidChangesOnlyPayment(accounts: seq<AccountPayable>, id: string, pd: PaymentData, k: int)
    requires 0 <= k < |accounts| && accounts[k].id == id
    requires forall j :: 0 <= j < k ==> accounts[j].id != id
    ensures PaidAccount(accounts, id, pd) == Some(WithPayment(accounts[k], pd))
    ensures PaidAccount(accounts, id, pd).value.(status := accounts[k].status, paymentDate := accounts[k].paymentDate,
                                                paymentMethod := accounts[k].paymentMethod) == accounts[k]
  {
    Seqs.FindByIdAt(accounts, id, App.PayableId, k);
  }

  // ---------------------------------------------------------------------
  // Statistics

  /** `isOverdue(dueDate)` on this screen's list. */
  predicate IsOverdue(accounts: seq<AccountPayable>, d: Day, now: Instant, startOf: Day -> Instant) {
    Ledger.IsOverdue(Entries(accounts), d, now, startOf)
  }

  /** `stats`. */
  function Stats(accounts: seq<AccountPayable>, now: Instant, startOf: Day -> Instant): Ledger.Stats {
    Ledger.StatsOf(Entries(accounts), now, startOf)
  }

  /** The pending and paid cards count and total exactly the accounts the
      status select shows for PENDING and for PAID. */
  lemma {:induction false} StatsMatchStatusFilter(accounts: seq<AccountPayable>, st: PaymentStatus)
    ensures Ledger.Count(Entries(accounts), st) == |Filtered(accounts, Only(st), All, All)|
    ensures Ledger.Total(Entries(accounts), st) == SumAmounts(Filtered(accounts, Only(st), All, All))
  {
    if |accounts| > 0 {
      var n := |accounts| - 1;
      var front, a := accounts[..n], accounts[n];
      StatsMatchStatusFilter(front, st);
      var es := Entries(accounts);
      assert es[..n] == Entries(front);
      assert Ledger.Count(es, st) == Ledger.Count(Entries(front), st) + Ledger.Indicator(a.status == st);
      assert Ledger.Total(es, st) == Ledger.Total(Entries(front), st) + Ledger.AmountIf(EntryOf(a), st);
      var f := Filtered(front, Only(st), All, All);
      if Passes(a, Only(st), All, All) {
        assert Filtered(accounts, Only(st), All, All) == f + [a];
        assert (f + [a])[..|f|] == f;
      } else {
        assert Filtered(accounts, Only(st), All, All) == f;
      }
    }
  }

  function SumAmounts(s: seq<AccountPayable>): real {
    if |s| == 0 then 0.0 else SumAmounts(s[..|s| - 1]) + s[|s| - 1].amount
  }

  lemma EntriesOfUpdate(accounts: seq<AccountPayable>, k: int, a: AccountPayable)
    requires 0 <= k < |accounts|
    ensures Entries(accounts[k := a]) == Entries(accounts)[k := EntryOf(a)]
  {
  }

  /** Paying a pending account through the screen and storing it with
      `handleUpdateAccountPayable` moves one account and its amount from
      the pending cards to the paid cards. */
  lemma PayingMovesStats(accounts: seq<AccountPayable>, id: string, pd: PaymentData, k: int,
                         now: Instant, startOf: Day -> Instant)
    requires Seqs.DistinctIds(accounts, App.PayableId)
    requires 0 <= k < |accounts| && accounts[k].id == id && accounts[k].status == Pending
    ensures PaidAccount(accounts, id, pd).Some?
    ensures var after := Seqs.ReplaceById(accounts, PaidAccount(accounts, id, pd).value, App.PayableId);
            var b := Stats(accounts, now, startOf);
            var c := Stats(after, now, startOf);
            c.pending == b.pending - 1 && c.paid == b.paid + 1
            && c.totalPending == b.totalPending - accounts[k].amount && c.totalPaid == b.totalPaid + accounts[k].amount
  {
    assert forall j :: 0 <= j < k ==> App.PayableId(accounts[j]) != App.PayableId(accounts[k]);
    MarkAsPaidChangesOnlyPayment(accounts, id, pd, k);
    var paid := WithPayment(accounts[k], pd);
    Seqs.ReplaceByIdUnique(accounts, paid, App.PayableId, k);
    EntriesOfUpdate(accounts, k, paid);
    assert EntryOf(paid) == Ledger.PaidEntry(Entries(accounts)[k], pd.paymentDate);
    Ledger.PaymentMovesEntry(Entries(accounts), k, pd.paymentDate, now, startOf);
  }

  // ---------------------------------------------------------------------
  // The screen's state

  /** The form state of the screen; the accounts live in the application. */
  class PayablesScreen {
    var form: PayableForm
    var paymentData: PaymentData

    constructor (today: Day, now: Instant)
      ensures form == DefaultForm(today, now) && paymentData == DefaultPaymentData(today)
    {
      form := DefaultForm(today, now);
      paymentData := DefaultPaymentData(today);
    }

    /** `handleCreateAccount`: on a valid form the account is prepended to
      the application's payables and the form is reset; otherwise nothing
      changes. */
    method CreateAccount(erp: App.Erp, id: string, today: Day, now: Instant)
      modifies this, erp
      ensures NewAccount(old(form), id).None? ==>
        form == old(form) && erp.payables == old(erp.payables)
      ensures NewAccount(old(form), id).Some? ==>
        form == DefaultForm(today, now) && erp.payables == [NewAccount(old(form), id).value] + old(erp.payables)
      ensures paymentData == old(paymentData)
      ensures erp.orders == old(erp.orders) && erp.receivables == old(erp.receivables)
      ensures erp.suppliers == old(erp.suppliers) && erp.materials == old(erp.materials)
    {
      var created := NewAccount(form, id);
      if created.Some? {
        erp.CreatePayable(created.value);
        form := DefaultForm(today, now);
      }
    }

    /** `handleMarkAsPaid`: for a known id the paid account replaces the
      stored one and the dialog is reset; otherwise nothing changes. */
    method MarkAsPaid(erp: App.Erp, accountId: string, today: Day)
      modifies this, erp
      ensures var r := PaidAccount(old(erp.payables), accountId, old(paymentData));
        (r.None? ==> erp.payables == old(erp.payables) && paymentData == old(paymentData))
        && (r.Some? ==> erp.payables == Seqs.ReplaceById(old(erp.payables), r.value, App.PayableId)
                        && paymentData == DefaultPaymentData(today))
      ensures form == old(form)
      ensures erp.orders == old(erp.orders) && erp.receivables == old(erp.receivables)
      ensures erp.suppliers == old(erp.suppliers) && erp.materials == old(erp.materials)
    {
      var r := PaidAccount(erp.payables, accountId, paymentData);
      if r.Some? {
        erp.UpdatePayable(r.value);
        paymentData := DefaultPaymentData(today);
      }
    }
  }
}
