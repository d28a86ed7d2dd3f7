# Morais ERP: requisitions, quotes, approval and finance, in Dafny

This project models the business rules of the Morais ERP web application. The application runs material requisitions for construction projects and keeps their accounts.

A requisition (`MaterialOrder`) lists the items a site needs. Suppliers' quotes are then collected for it. From the third quote on, the requisition is ready for approval. One quote is selected, and approving the requisition generates an account payable for the selected supplier. The finance screens keep payables and receivables, split receivables into monthly installments and mark accounts as paid. They also derive cash-flow, income-statement, per-category and per-project figures. The supplier and material registers are searchable, sortable and paginated lists with a create/edit form.

The model follows the application's structure, one module per screen:

- `OrdersManager`: the cost rule, the quote form and the transitions of one requisition. These are written as functions on values. There is also a class `Requisition` whose quote list is an array and whose approval marks a quote in place.
- `App`: the state the application holds and its handlers, as a class `Erp`. Also the payable derived from an approved requisition: due date from the billing terms, category from a vote over the items. The `/(\d+)\s*dia/i` pattern is modelled exactly.
- `Dashboard` and `ProjectDetail`: the spend roll-ups.
- `Ledger`, `AccountsPayable` and `AccountsReceivable`: status statistics, the overdue test, filters, create guards, installments and marking as paid. Each screen is a class holding its form and list state.
- `CashFlow` and `FinancialReports`: month buckets built by loops over maps, the running balance, the three-month projection, the income statement, category and project totals, and budget against actual.
- `SuppliersManager` and `MaterialsManager`: search, sort, pagination and the merge-on-edit save.
- Shared building blocks:
  - `Seqs`: find and replace by id.
  - `Text`: `includes`, `join`, `split(' ')[0]`, string `<`, decimal digits.
  - `Sorting`: the comparator, an insertion sort in place on an array, and `[...s].sort`.
  - `ListView`: `requestSort`, page slices and the `Pager` class.
  - `Grouping`: the `acc[key] = (acc[key] || 0) + amount` record listed by `Object.entries`.

Money is `real`. Calendar days, month keys and clock instants are integers. Several things become parameters:

- the calendar: `monthOf`, `addMonths`, `startOf`;
- the clock: `today`, `now`;
- character case mapping: `lower`, `upper`;
- `Number.prototype.toString`: `amountText`;
- the classifier's result;
- the random ids and codes.

## Model

| member | source | states |
|---|---|---|
| OrdersManager.MinPrice | components/OrdersManager.tsx:65-67 | `Math.min` over the quote prices is the price of some quote and no quote is cheaper |
| OrdersManager.TotalOrderCost | components/OrdersManager.tsx:61-69 | the cost is the price of the first selected quote; with none selected, the lowest price; with no quotes, 0 |
| OrdersManager.AddItem | components/OrdersManager.tsx:71-85 | nothing is added without a name; otherwise exactly one item is appended, with the given id, quantity 1 when none was typed, and unit and category from the classifier |
| OrdersManager.SaveOrder | components/OrdersManager.tsx:87-98 | no requisition without a project or without items; otherwise one with the draft's project, items and status, no quotes, the current time, the fixed requester and an id starting `REQ-` |
| OrdersManager.NewOrderAwaitsQuotes | components/OrdersManager.tsx:31-37 | a requisition saved from the initial draft awaits quotes and costs 0 |
| OrdersManager.InitialPricesAligned | components/OrdersManager.tsx:100-108 | the opened quote form holds exactly one price key per item, in item order |
| OrdersManager.SetPriceKeepsAligned | components/OrdersManager.tsx:478-481 | typing an item's price keeps one key per item |
| OrdersManager.SetPriceOther | components/OrdersManager.tsx:478-481 | typing one item's price leaves every other item's price unchanged |
| OrdersManager.InitialFormTotalsZero | components/OrdersManager.tsx:103-112 | a freshly opened form, with freight included, totals 0 |
| OrdersManager.PreviewMatchesSaved | components/OrdersManager.tsx:521-527 | the total the form displays while it is filled is the total the saved quote gets |
| OrdersManager.SavingQuote | components/OrdersManager.tsx:118-152 | no update without a supplier; otherwise one new unselected quote appended after the unchanged quotes, priced at the item subtotal plus any freight not included, carrying the form's delivery days, freight flag and cost, billing terms and item prices, with no justification, payment method or observations; status is ready exactly when there are 3 or more quotes, and nothing else changes |
| OrdersManager.SaveQuoteIgnoresStatus | components/OrdersManager.tsx:146-151 | the saved status depends only on the quote count, whatever the previous status was, REJECTED included |
| OrdersManager.SaveQuoteKeepsSelectedCost | components/OrdersManager.tsx:134-146 | a new quote is never selected, so a requisition with a selection keeps its cost |
| OrdersManager.SaveQuoteCostIsMin | components/OrdersManager.tsx:61-69 | without a selection, the cost after a save is the lower of the old cost and the new quote's price |
| OrdersManager.ThirdQuoteMakesReady | components/OrdersManager.tsx:146-151 | three saves on a new requisition give pending, pending, then ready with three quotes |
| OrdersManager.SelectingQuote | components/OrdersManager.tsx:155-165 | refused on an approved requisition; otherwise each quote is selected exactly when its id is the chosen one, and no other field or quote count changes |
| OrdersManager.SelectQuoteMakesItTheCost | components/OrdersManager.tsx:155-165 | with distinct quote ids, selecting an existing quote leaves it the only selected one, and its price becomes the cost |
| OrdersManager.SelectUnknownQuoteClears | components/OrdersManager.tsx:159-162 | selecting an id no quote has clears the selection |
| OrdersManager.SelectQuoteIdempotent | components/OrdersManager.tsx:159-162 | selecting the same quote twice equals selecting it once |
| OrdersManager.UpdatingQuoteDetails | components/OrdersManager.tsx:167-176 | refused on an approved requisition; otherwise only the named field of the quotes with that id changes |
| OrdersManager.UpdateDetailsKeepsCost | components/OrdersManager.tsx:171-173 | editing payment method or observations changes neither the selection, the prices nor the cost |
| OrdersManager.PaymentMethodEnablesApproval | components/OrdersManager.tsx:404-406 | with three quotes and a selected one, setting its payment method enables the Approve button |
| OrdersManager.CheapestIndex | components/OrdersManager.tsx:183-184 | the first position whose price equals the minimum |
| OrdersManager.ApproveOrder | components/OrdersManager.tsx:178-195 | without quotes the in-place mark throws; otherwise the order is APPROVED with a selection, and the quotes are unchanged when one was already selected |
| OrdersManager.ApproveSelectsCheapest | components/OrdersManager.tsx:182-186 | with no selection, approval selects exactly the first quote at the lowest price and changes no other quote field |
| OrdersManager.ApproveKeepsSelection | components/OrdersManager.tsx:182-188 | with a selection, approval only sets the status |
| OrdersManager.EnabledApprovalOnlySetsStatus | components/OrdersManager.tsx:404-406 | whenever the button is enabled, approving only sets the status, and the selected quote has a payment method |
| OrdersManager.HandleSaveQuote | components/OrdersManager.tsx:118-119 | no update without a requisition in view; otherwise the outcome is the quote save applied to the first requisition with that id, so an update is for it and has at least one quote |
| OrdersManager.HandleSelectQuote | components/OrdersManager.tsx:155-157 | no update for an unknown id; otherwise the outcome is the selection applied to the first requisition with that id, never an approved one |
| OrdersManager.HandleUpdateQuoteDetails | components/OrdersManager.tsx:167-169 | no update for an unknown id; otherwise the outcome is the details edit applied to the first requisition with that id, never an approved one |
| OrdersManager.HandleApproveOrder | components/OrdersManager.tsx:178-195 | no update for an unknown id; otherwise the outcome is the approval of the first requisition with that id, APPROVED when it does not throw |
| OrdersManager.HandleRejectOrder | components/OrdersManager.tsx:197-201 | an update happens exactly when the id is known, and it is the first requisition with that id with only its status changed, to REJECTED |
| OrdersManager.Requisition.constructor | components/OrdersManager.tsx:59 | the object holds the given requisition |
| OrdersManager.Requisition.SaveQuote | components/OrdersManager.tsx:146-151 | the new state is the saved-quote requisition; a save allocates a new quote array, a refused one keeps the old array |
| OrdersManager.Requisition.SelectQuote | components/OrdersManager.tsx:159-164 | the new state is the selection's result; a selection allocates a new quote array, a refusal keeps the old one |
| OrdersManager.Requisition.UpdateQuoteDetails | components/OrdersManager.tsx:171-175 | the new state is the details update's result; an update allocates a new quote array, a refusal keeps the old one |
| OrdersManager.Requisition.Approve | components/OrdersManager.tsx:182-189 | marks the cheapest quote in the same array and sets APPROVED, or reports the throw and changes nothing |
| OrdersManager.Requisition.Reject | components/OrdersManager.tsx:197-201 | only the status changes, to REJECTED |
| App.GreedyIsTheOnlySplit | App.tsx:225 | the pattern matches at a position exactly when some digits/space/`dia` split matches there, and every matching split takes all the digits and all the spaces |
| App.FirstMatch | App.tsx:225 | the leftmost position where the pattern matches, or none when it matches nowhere |
| App.LeftmostMatchStartsRun | App.tsx:225-227 | the leftmost match starts a whole run of digits, so the captured number is the full run |
| App.NoDigitsMeansThirtyDays | App.tsx:228-231 | missing terms, or terms without a digit, give today + 30 |
| App.DigitsWithoutDiaMeanThirtyDays | App.tsx:224-231 | digits not followed by `dia` do not count: "30/60" gives today + 30 |
| App.DaysFromWrittenTerms | App.tsx:224-227 | text without digits, then a number, then " dias" parse to that number, and the due date is today plus it |
| App.DefaultTermsGive28Days | App.tsx:224-227 | the quote form's default terms "Faturamento 28 dias" give today + 28 |
| App.VoteFromKeepsFirstMaximal | App.tsx:235-237 | the reducer keeps the first value of maximal count seen so far |
| App.MostCommonIsFirstMaximal | App.tsx:234-237 | the vote fails only on an empty list; otherwise it picks the first category, in item order, whose count is maximal |
| App.PayableCategoryIsMateriais | App.tsx:239-246 | every table entry and the fallback are 'Materiais' |
| App.DescriptionNamesEveryItem | App.tsx:253 | the description starts `Pedido <id> - ` and contains every item's name |
| App.PayableFromSelectedQuote | App.tsx:248-263 | when the due date fits in a `Date`, the payable is pending, in 'Materiais', for the selected quote's price, which is the requisition's cost; supplier, payment method, terms and observations come from the quote; order id, project and requester come from the requisition; it has no payment date. A due date past what a `Date` holds throws |
| App.PayableExistsExactlyWhen | App.tsx:216-255 | no payable exactly when no quote is selected or its supplier is unknown; a throw exactly when there is a known supplier and either no items or a due date no `Date` can hold |
| App.ApprovalYieldsPayable | App.tsx:213-265 | approving a requisition with quotes and items, whose suppliers are known and whose terms give due dates a `Date` can hold, always yields a payable, for the cost the requisition showed before approval |
| App.DistantTermsThrow | App.tsx:224-255 | terms of 100000000 days or more, from any day since 1970, make the approval throw instead of creating a payable |
| App.FirstInstallmentLost | components/AccountsReceivable.tsx:172 | as written, of two installments created together only the last is stored |
| App.BatchedPrepend | App.tsx:207-211 | creating N accounts one after another keeps all N, newest first, ahead of the old list |
| App.Erp.constructor | App.tsx:97-103 | the state starts with the given collections |
| App.Erp.UpdateOrder | App.tsx:138-142 | the orders are replaced by id; no other collection changes |
| App.Erp.CreateOrder | App.tsx:144-148 | the order is prepended; no other collection changes |
| App.Erp.UpdateSupplier | App.tsx:159-163 | the suppliers are replaced by id; no other collection changes |
| App.Erp.CreateSupplier | App.tsx:165-169 | the supplier is prepended; no other collection changes |
| App.Erp.UpdateMaterial | App.tsx:171-175 | the materials are replaced by id; no other collection changes |
| App.Erp.CreateMaterial | App.tsx:177-181 | the material is prepended; no other collection changes |
| App.Erp.UpdatePayable | App.tsx:189-193 | the payables are replaced by id; no other collection changes |
| App.Erp.CreatePayable | App.tsx:195-199 | the payable is prepended; no other collection changes |
| App.Erp.UpdateReceivable | App.tsx:201-205 | the receivables are replaced by id; no other collection changes |
| App.Erp.CreateReceivable | App.tsx:207-211 | the receivable is prepended; no other collection changes |
| App.Erp.CreateReceivablesAsWritten | components/AccountsReceivable.tsx:172 | as written, every creation prepends to the same drawn snapshot, so only the last one is kept |
| App.Erp.CreateReceivables | App.tsx:207-211 | every installment is kept, newest first, ahead of the old receivables |
| App.Erp.ApproveOrder | App.tsx:213-268 | the order is stored by id first; then the derived payable, if any, is prepended; a throwing derivation leaves the stored order and no payable |
| Seqs.FindById | App.tsx:220 | the first position with the id, or -1 exactly when no element has it |
| Seqs.ReplaceByIdEffect | App.tsx:138-142 | replacing by id keeps the length and every id; positions with the id hold the update, all others are unchanged |
| Seqs.ReplaceByIdUnique | App.tsx:189-193 | with distinct ids, replacing by id updates the single position with that id |
| Seqs.ReplaceByIdAbsent | App.tsx:201-205 | replacing an id nobody has changes nothing |
| Text.ContainsAt | components/SuppliersManager.tsx:45-47 | `includes` holds exactly when the term occurs at some offset |
| Text.JoinHasPart | App.tsx:253 | every part occurs in the joined string |
| Text.FirstWord | components/Dashboard.tsx:33 | `split(' ')[0]` is a prefix without a space, followed by a space or the end |
| Text.LexLessTransitive | components/AccountsReceivable.tsx:99-101 | string `<` is transitive |
| Text.LexLessTrichotomy | components/AccountsReceivable.tsx:99-101 | any two different strings are ordered by `<` one way or the other |
| Text.DecimalRoundTrip | App.tsx:227 | `parseInt` of a number's decimal text gives the number back |
| Sorting.BeforeTotal | components/AccountsReceivable.tsx:98-106 | the comparator orders any two values one way or the other, in either direction |
| Sorting.BeforeTransitive | components/AccountsReceivable.tsx:98-106 | the comparator is consistent: "not after" is transitive |
| Sorting.SortInPlace | components/AccountsReceivable.tsx:81-107 | the array ends sorted by the key in the chosen direction and is a permutation of what it held |
| Sorting.SortedCopy | components/SuppliersManager.tsx:52-69 | the copy is sorted and a permutation of the input; the input is left alone |
| ListView.RequestSort | components/AccountsReceivable.tsx:126-132 | the key is the clicked one; the direction is descending exactly when the same key was ascending |
| ListView.RequestSortCycle | components/SuppliersManager.tsx:79-85 | from any state but that column ascending, one click sorts it ascending, two descending and three ascending again |
| ListView.RequestSortFlips | components/SuppliersManager.tsx:79-85 | from every state, a second click on the same column reverses the direction the first click gave |
| ListView.TotalPages | components/AccountsReceivable.tsx:120 | the page count is the ceiling of n / k: enough pages for n rows, the last one non-empty, and none when n = 0 |
| ListView.Page | components/AccountsReceivable.tsx:115-118 | the slice of page p holds at most k rows, and exactly the rows from (p-1)·k on |
| ListView.PagesCoverList | components/SuppliersManager.tsx:72-77 | reading pages 1 to totalPages in turn gives back the whole list, in order |
| ListView.PrevPage | components/AccountsReceivable.tsx:436-437 | page 1 stays 1; any later page goes back one |
| ListView.NextPage | components/AccountsReceivable.tsx:446-447 | the last page, or a list with no pages, stays put; an earlier page goes on one; a page past the end clamps to the last page |
| ListView.NavigationStaysInRange | components/MaterialsManager.tsx:234-245 | navigation from a page in range stays in range |
| ListView.Pager.constructor | components/AccountsReceivable.tsx:34-35 | page 1 with the given page size |
| ListView.Pager.Prev | components/AccountsReceivable.tsx:436 | the page becomes the previous-page value; the page size is unchanged |
| ListView.Pager.Next | components/AccountsReceivable.tsx:446 | the page becomes the next-page value; the page size is unchanged |
| ListView.Pager.ResetPage | components/AccountsReceivable.tsx:122-124 | back to page 1 with the same page size |
| ListView.Pager.SetItemsPerPage | components/AccountsReceivable.tsx:122-124 | the new size, and page 1 |
| ListView.Pager.Shown | components/AccountsReceivable.tsx:115-118 | the rows of the current page: at most a page size of them, exactly as many as remain from the page's offset, none past the end, each the record at its offset |
| Dashboard.ChartData | components/Dashboard.tsx:27-36 | one entry per project, in project order, with its budget and its spent orders' cost |
| Dashboard.ChartBudgetsAddUp | components/Dashboard.tsx:12 | the budget bars add up to the total budget |
| Dashboard.ChartSpendAddsUp | components/Dashboard.tsx:24-30 | with distinct project ids, and every spent order in a listed project, the spend bars add up to the actual spend |
| Dashboard.SpendMatchesChart | components/Dashboard.tsx:27-30 | the spend bars add up to each project's spend summed over the projects |
| Dashboard.SpendOverProjectsIsActual | components/Dashboard.tsx:24-30 | under the same conditions, the per-project spends add up to the actual spend |
| Dashboard.StatsCoverAtMostAll | components/Dashboard.tsx:38-42 | the three slices count at most all the orders, and exactly all of them when none is rejected or delivered |
| ProjectDetail.ProjectOrders | App.tsx:310 | the project's orders are exactly the orders with its id |
| ProjectDetail.SpentAndPendingPartition | components/ProjectDetail.tsx:26-32 | spent plus pending is the cost of every order that is not rejected, and the available balance is the budget less that |
| ProjectDetail.RejectedCountsNowhere | components/ProjectDetail.tsx:30-32 | a rejected order changes neither total |
| ProjectDetail.PageSpendIsChartSpend | components/ProjectDetail.tsx:26-28 | the page's spent total is the dashboard bar for that project |
| ProjectDetail.ListedValueIgnoresStatus | components/ProjectDetail.tsx:118 | the value listed for an order does not depend on its status |
| Ledger.FirstDueOn | components/AccountsPayable.tsx:111-113 | the first account with the given due date, or -1 exactly when there is none |
| Ledger.StatusCountsPartition | components/AccountsPayable.tsx:115-118 | the four status counts add up to the number of accounts, so pending plus paid is at most that |
| Ledger.CountAfterUpdate | components/AccountsPayable.tsx:115-118 | replacing one account changes a status count by what leaves and what arrives |
| Ledger.TotalAfterUpdate | components/AccountsPayable.tsx:119-124 | replacing one account changes a status total by what leaves and what arrives |
| Ledger.PaymentMovesEntry | components/AccountsPayable.tsx:115-124 | paying a pending account moves it, and its amount, from the pending to the paid card |
| Ledger.OverdueLooksUpByDate | components/AccountsPayable.tsx:111-113 | once the first account due on a date has been paid, no account due that day is overdue, paid or not |
| Ledger.PastUnpaidDayFlagsAll | components/AccountsPayable.tsx:111-118 | when the first account due on a past day has no payment date, every account due that day counts as overdue |
| Ledger.HighlightedIsPayableAndCounted | components/AccountsPayable.tsx:220-249 | a highlighted due date belongs to a pending account that offers the pay action and is counted on the overdue card |
| AccountsPayable.Filtered | components/AccountsPayable.tsx:46-53 | an account is listed exactly when it passes all three selects |
| AccountsPayable.FilteredKeepsOrder | components/AccountsPayable.tsx:46-53 | filtering keeps list order and distributes over concatenation |
| AccountsPayable.AllFiltersShowEverything | components/AccountsPayable.tsx:47-52 | with every select on 'all' the list is shown as it is |
| AccountsPayable.NewAccount | components/AccountsPayable.tsx:55-61 | no account exactly when project, supplier or description is empty or the amount is 0; otherwise the form's fields and the given id |
| AccountsPayable.ResetFormIsRejected | components/AccountsPayable.tsx:64-74 | the reset form cannot be submitted again unchanged |
| AccountsPayable.FilledDefaultFormIsPendingMateriais | components/AccountsPayable.tsx:26-36 | the default form, filled in, creates a pending 'Materiais' account |
| AccountsPayable.PaidAccount | components/AccountsPayable.tsx:78-87 | nothing for an unknown id; otherwise the first account with the id, set to PAID with the form's date and method |
| AccountsPayable.MarkAsPaidChangesOnlyPayment | components/AccountsPayable.tsx:80-87 | the paid account differs from the one found only in status, payment date and payment method |
| AccountsPayable.StatsMatchStatusFilter | components/AccountsPayable.tsx:115-124 | the pending and paid cards count and total exactly the accounts the status filter lists |
| AccountsPayable.PayingMovesStats | components/AccountsPayable.tsx:78-87 | with distinct ids, paying a pending account and storing it moves one account and its amount from pending to paid |
| AccountsPayable.PayablesScreen.constructor | components/AccountsPayable.tsx:26-44 | the default form and a payment form dated today, paid by PIX |
| AccountsPayable.PayablesScreen.CreateAccount | components/AccountsPayable.tsx:55-76 | on a valid form the account is prepended and the form is reset; otherwise nothing changes |
| AccountsPayable.PayablesScreen.MarkAsPaid | components/AccountsPayable.tsx:78-94 | the paid account replaces the stored one by id, or nothing changes for an unknown id; the payment form is reset to today and PIX |
| AccountsReceivable.Filtered | components/AccountsReceivable.tsx:58-77 | an account is listed exactly when it passes both selects and, for a non-empty term, the search over description, amount text, client, project and id |
| AccountsReceivable.NoFilterKeepsAll | components/AccountsReceivable.tsx:58-77 | no search term and both selects on 'all' list everything, in order |
| AccountsReceivable.SearchById | components/AccountsReceivable.tsx:66-72 | an account's own id, typed in full, always finds it |
| AccountsReceivable.FormWithProject | components/AccountsReceivable.tsx:479-485 | choosing a project also fills in its client, or '' for an unknown project; nothing else in the form changes |
| AccountsReceivable.InstallmentCount | components/AccountsReceivable.tsx:152 | `totalInstallments \|\| 1` is never 0 and keeps any non-zero count |
| AccountsReceivable.BuildInstallments | components/AccountsReceivable.tsx:151-170 | the loop builds exactly the installment list |
| AccountsReceivable.SharesAddUpToAmount | components/AccountsReceivable.tsx:152-162 | for a count of at least 1, the equal shares add up to the amount entered |
| AccountsReceivable.InstallmentFields | components/AccountsReceivable.tsx:155-168 | installment i is number i+1 of N, with an equal share, due i months after the base date, and with the " - Parcela i+1/N" suffix only when N > 1 |
| AccountsReceivable.InstallmentMonths | components/AccountsReceivable.tsx:156-157 | when the calendar moves m months to the month m later, installment i falls due i months after the base month |
| AccountsReceivable.NegativeCountCreatesNothing | components/AccountsReceivable.tsx:155 | a negative count passes the guard but creates nothing |
| AccountsReceivable.ReceivedAccount | components/AccountsReceivable.tsx:188-197 | nothing for an unknown id; otherwise the first account with the id, set to PAID with the form's date and method and otherwise unchanged |
| AccountsReceivable.ReceivablesScreen.constructor | components/AccountsReceivable.tsx:30-56 | filters on 'all', an empty search, sorted by due date ascending, page 1 of 10, the default forms |
| AccountsReceivable.ReceivablesScreen.SetSearchTerm | components/AccountsReceivable.tsx:122-124 | a changed term goes back to page 1 |
| AccountsReceivable.ReceivablesScreen.SetFilterStatus | components/AccountsReceivable.tsx:122-124 | a changed status filter goes back to page 1 |
| AccountsReceivable.ReceivablesScreen.SetFilterProject | components/AccountsReceivable.tsx:122-124 | a changed project filter goes back to page 1 |
| AccountsReceivable.ReceivablesScreen.RequestSort | components/AccountsReceivable.tsx:126-132 | the sort state becomes the `requestSort` result |
| AccountsReceivable.ReceivablesScreen.Rows | components/AccountsReceivable.tsx:58-120 | the filtered accounts, sorted by the column in its direction, the current page of them and the page count |
| AccountsReceivable.ReceivablesScreen.SelectProject | components/AccountsReceivable.tsx:479-485 | the form takes the project and its client |
| AccountsReceivable.ReceivablesScreen.CreateAccount | components/AccountsReceivable.tsx:145-186 | as written: when the guard passes, the installments are handed to the create handler one by one, each prepended to the list drawn before the event, so only the last is stored; the form is reset; otherwise nothing changes |
| AccountsReceivable.ReceivablesScreen.CreateAccountCorrected | components/AccountsReceivable.tsx:145-186 | as intended: when the guard passes, every installment is stored, newest first, and the form is reset; otherwise nothing changes |
| AccountsReceivable.ReceivablesScreen.MarkAsReceived | components/AccountsReceivable.tsx:188-204 | the received account replaces the stored one by id, or nothing changes for an unknown id |
| CashFlow.AddToBuckets | components/CashFlow.tsx:39-58 | every month of the window gains what the PAID accounts paid in it; months outside the window are not created |
| CashFlow.Window | components/CashFlow.tsx:24-36 | n consecutive months ending with the current one, ascending |
| CashFlow.ZeroWindow | components/CashFlow.tsx:27-36 | a zero bucket for exactly the current month and the n-1 before it |
| CashFlow.RunningBalance | components/CashFlow.tsx:60-70 | the rows in ascending month order, with the running balance |
| CashFlow.CashFlowData | components/CashFlow.tsx:21-71 | the history is the window's rows, newest first, each with its month's paid income, paid expense and running balance |
| CashFlow.FlowRows | components/CashFlow.tsx:60-70 | row t is month thisMonth - t; each balance is the older row's balance plus this month's net; the oldest balance is its own net; the newest is the window's net |
| CashFlow.WindowBalanceIsCurrentBalance | components/CashFlow.tsx:113-123 | when every paid account was paid inside the window, the newest balance equals the current balance |
| CashFlow.ProjectedRows | components/CashFlow.tsx:73-111 | exactly the next three months, ascending, each with what falls due in it among the pending accounts |
| CashFlow.ZeroProjection | components/CashFlow.tsx:78-86 | a zero bucket for exactly the next three months |
| CashFlow.ProjectedData | components/CashFlow.tsx:73-111 | the loops compute the projected rows |
| CashFlow.ProjectionCoversPending | components/CashFlow.tsx:125-135 | when everything pending falls due in the next three months, the columns add up to the pending income and expense, and the projected balance is the current balance plus the projection's net |
| CashFlow.CategoryExpenses | components/CashFlow.tsx:137-148 | the categories of PAID payables with their totals, largest first, adding up to the paid expense |
| FinancialReports.GrossProfitIsCurrentBalance | components/FinancialReports.tsx:19-28 | revenue and expenses are the PAID totals, and gross profit is the cash-flow screen's current balance |
| FinancialReports.MarginBounds | components/FinancialReports.tsx:28-29 | with revenue of 0 or less the margin is 0; with positive revenue it is non-negative exactly when gross profit is, and at most 100 |
| FinancialReports.Positive | components/FinancialReports.tsx:56-57 | keeps exactly the groups with a positive total |
| FinancialReports.ExpensesByCategory | components/FinancialReports.tsx:39-59 | the six categories' PAID totals, those above 0 only, largest first |
| FinancialReports.CategoryListedIffPositive | components/FinancialReports.tsx:49-57 | a category is listed, with its PAID total, exactly when that total is positive |
| FinancialReports.CategoryTotalsAddUp | components/FinancialReports.tsx:39-54 | the six categories' totals add up to the paid expense: every payment falls in one of them |
| FinancialReports.CategoriesAddUp | components/FinancialReports.tsx:39-59 | the listed totals add up to the paid expense |
| FinancialReports.RevenueByProject | components/FinancialReports.tsx:61-81 | one row per project id with a PAID receivable, largest revenue first |
| FinancialReports.UnknownProjectRow | components/FinancialReports.tsx:71-78 | an id that no project has gives name 'N/A', budget 0 and usage 0 |
| FinancialReports.KnownProjectRow | components/FinancialReports.tsx:71-78 | a found project gives its name and budget, and the grouped revenue |
| FinancialReports.RevenueRowsAddUp | components/FinancialReports.tsx:61-81 | the rows add up to the income statement's revenue |
| FinancialReports.BudgetVsActual | components/FinancialReports.tsx:83-101 | one row per project, in project order |
| FinancialReports.BudgetRowsAddUp | components/FinancialReports.tsx:83-101 | each variance is the row's PAID revenue less its budget; with distinct ids and every paid receivable in a listed project, the actuals add up to the revenue |
| FinancialReports.ConversionRate | components/FinancialReports.tsx:224 | never negative; 0 without projects, and 0 without paid receivables |
| Grouping.Keys | components/FinancialReports.tsx:64-70 | the record's keys are distinct and cover every item |
| Grouping.KeysAreWritten | components/FinancialReports.tsx:64-70 | every key of the record was written by some item |
| Grouping.TotalsMapAgrees | components/FinancialReports.tsx:64-70 | the filled record holds exactly the written keys, each with the sum of its amounts |
| Grouping.GroupTotals | components/FinancialReports.tsx:62-70 | the `forEach` over the record builds the grouped totals, keys in first-written order |
| Grouping.GroupedAddsUp | components/CashFlow.tsx:137-144 | the grouped totals add up to the sum of all amounts |
| Grouping.SortByTotalDesc | components/CashFlow.tsx:145-147 | largest total first, the same groups and the same sum |
| SuppliersManager.Filtered | components/SuppliersManager.tsx:43-49 | a supplier is kept exactly when its name or category contains the term, ignoring case, or its non-empty document contains the term as typed |
| SuppliersManager.FilteredKeepsOrder | components/SuppliersManager.tsx:43-49 | filtering keeps list order |
| SuppliersManager.EmptySearchKeepsAll | components/SuppliersManager.tsx:43-49 | an empty search shows every supplier |
| SuppliersManager.Merged | components/SuppliersManager.tsx:105-107 | editing keeps the record's id |
| SuppliersManager.MergeRoundTrip | components/SuppliersManager.tsx:105-121 | merging a record's own form gives the record back, and the merged record's form is the form saved |
| SuppliersManager.NewSupplier | components/SuppliersManager.tsx:108-112 | the form's fields, rating 5 whatever the form says, and an id starting `S-` |
| SuppliersManager.EditRoundTrip | components/SuppliersManager.tsx:102-116 | with distinct ids, saving an unchanged edit leaves the list as it was, and any edit keeps every id in place |
| SuppliersManager.SuppliersScreen.constructor | components/SuppliersManager.tsx:21-34 | page 1 of 25, sorted by name ascending, the empty form |
| SuppliersManager.SuppliersScreen.SetSearchTerm | components/SuppliersManager.tsx:37-40 | a changed term goes back to page 1 |
| SuppliersManager.SuppliersScreen.SetItemsPerPage | components/SuppliersManager.tsx:37-40 | a changed page size goes back to page 1 |
| SuppliersManager.SuppliersScreen.RequestSort | components/SuppliersManager.tsx:79-85 | the sort state becomes the `requestSort` result |
| SuppliersManager.SuppliersScreen.Rows | components/SuppliersManager.tsx:43-77 | the filtered suppliers, sorted on a copy, the current page of them and the page count |
| SuppliersManager.SuppliersScreen.PrevPage | components/SuppliersManager.tsx:274-275 | the page becomes the previous-page value |
| SuppliersManager.SuppliersScreen.NextPage | components/SuppliersManager.tsx:288-289 | the page becomes the next-page value |
| SuppliersManager.SuppliersScreen.OpenCreate | components/SuppliersManager.tsx:87-99 | no record is being edited, and the form is empty |
| SuppliersManager.SuppliersScreen.Edit | components/SuppliersManager.tsx:118-122 | the record is being edited, and the form holds its fields |
| SuppliersManager.SuppliersScreen.SetForm | components/SuppliersManager.tsx:25-34 | the form holds what was typed |
| SuppliersManager.SuppliersScreen.Save | components/SuppliersManager.tsx:102-116 | nothing without a name and an e-mail; otherwise the merged record replaces the edited one by id, or a new supplier is prepended |
| MaterialsManager.Filtered | components/MaterialsManager.tsx:40-45 | a material is kept exactly when its name or category contains the term, ignoring case |
| MaterialsManager.FilteredKeepsOrder | components/MaterialsManager.tsx:40-45 | filtering keeps list order |
| MaterialsManager.EmptySearchKeepsAll | components/MaterialsManager.tsx:40-45 | an empty search shows every material |
| MaterialsManager.Merged | components/MaterialsManager.tsx:92-94 | editing keeps the record's id |
| MaterialsManager.MergeRoundTrip | components/MaterialsManager.tsx:92-107 | merging a record's own form gives the record back, and the merged record's form is the form saved |
| MaterialsManager.NewMaterial | components/MaterialsManager.tsx:95-98 | the form's fields and an id starting `M-` |
| MaterialsManager.EditRoundTrip | components/MaterialsManager.tsx:89-102 | with distinct ids, saving an unchanged edit leaves the list as it was, and any edit keeps every id in place |
| MaterialsManager.MaterialsScreen.constructor | components/MaterialsManager.tsx:20-30 | page 1 of 25, sorted by name ascending, the empty form |
| MaterialsManager.MaterialsScreen.SetSearchTerm | components/MaterialsManager.tsx:35-38 | a changed term goes back to page 1 |
| MaterialsManager.MaterialsScreen.SetItemsPerPage | components/MaterialsManager.tsx:35-38 | a changed page size goes back to page 1 |
| MaterialsManager.MaterialsScreen.RequestSort | components/MaterialsManager.tsx:69-75 | the sort state becomes the `requestSort` result |
| MaterialsManager.MaterialsScreen.Rows | components/MaterialsManager.tsx:40-67 | the filtered materials, sorted on a copy, the current page of them and the page count |
| MaterialsManager.MaterialsScreen.PrevPage | components/MaterialsManager.tsx:234-235 | the page becomes the previous-page value |
| MaterialsManager.MaterialsScreen.NextPage | components/MaterialsManager.tsx:244-245 | the page becomes the next-page value |
| MaterialsManager.MaterialsScreen.OpenCreate | components/MaterialsManager.tsx:77-87 | no record is being edited, and the form is empty |
| MaterialsManager.MaterialsScreen.Edit | components/MaterialsManager.tsx:104-108 | the record is being edited, and the form holds its fields |
| MaterialsManager.MaterialsScreen.SetForm | components/MaterialsManager.tsx:24-30 | the form holds what was typed |
| MaterialsManager.MaterialsScreen.Save | components/MaterialsManager.tsx:89-102 | nothing without a name and a category; otherwise the merged record replaces the edited one by id, or a new material is prepended |

## Left out

- Where the code and the intended rules differ, the model follows the code:
  - Saving a quote recomputes the status from the quote count. A REJECTED or APPROVED requisition goes back to PENDING_QUOTES or READY_FOR_APPROVAL (`OrdersManager.SaveQuoteIgnoresStatus`).
  - The generated payable is prepended to the payables, not appended.
  - Creating receivable installments keeps only the last one (`AccountsReceivable.ReceivablesScreen.CreateAccount`); see "## Findings".
- `OrdersManager.tsx:183-185`: approval's automatic choice of the cheapest quote cannot be reached from the screen. The Approve button needs a selected quote. It is modelled, and proved, as the handler is written.
- App.tsx:304 renders the requisitions screen without `onApproveOrder`, so App's `handleApproveOrder` is never called from the screen as shown. `App.Erp.ApproveOrder` models it standalone.
- Saving a requisition does not reset the draft. `setShowForm(false)` only closes the form and is left out, like every modal flag, the rendering and the theme.
- Sorting: `Array.prototype.sort` is stable, but the model proves only that the result is sorted and a permutation. The order of equal keys is not stated.
- Strings compare by `char` code. JavaScript compares UTF-16 code units, and the two differ only for characters outside the Basic Multilingual Plane.
- `toLowerCase`, `toUpperCase` and `Number.prototype.toString` are given functions.
- Dates and months:
  - ISO dates are day numbers, and a 'YYYY-MM' key is a month number; keys sort in month order as the text does.
  - `new Date`, `setDate`, `setMonth` and time zones are the given `monthOf`, `addMonths` and `startOf`.
  - Month overflow in `setMonth` is not modelled.
- `revenueByProject`: `Object.entries` lists integer-like keys first, in numeric order. The model lists keys in first-written order, which agrees for the application's non-numeric project ids.
- A saved quote's item prices: `Object.entries(quoteFormData.itemPrices)` also lists integer-like keys first. An item id is nine random base-36 characters and can be all digits. The model keeps the entries in the order they were written.
- The `Date` range: a due date of day 100000000 (counted from 1970) or later, or before day -100000000, throws. The day 100000000 itself is representable at exactly midnight UTC only, and local time zones shift the boundary by up to a day; the model counts that day as out of range.
- `categoryMap[c] || 'Materiais'` would also find inherited keys such as `constructor`. The model reads only the table's own entries and the fallback.
- `projectRevenue[ar.projectId] || 0` in `FinancialReports.tsx` would likewise find inherited keys for a project id such as `constructor`. The model reads only the keys the grouping wrote.
- The `PaymentStatus` enum is not part of this model's sources. Its values are taken to be the strings `PENDING`, `PAID`, `OVERDUE` and `CANCELLED`, as the member names suggest. The order of the status column's sort follows from that assumption.
- Floating-point rounding is not modelled: money is exact `real`, and `toFixed`, `toLocaleString` and the percentage displays are left out. So is `parseInt` beyond safe-integer precision.
- A fractional installment count (`totalInstallments` of 2.5) is not modelled; counts are integers.
- The form's `createdAt` is the time the form was reset, which is passed in as `now`.
- Left out entirely:
  - persistence in `localStorage`;
  - the material classifier service (its result is an input);
  - the PDF script;
  - the login gate;
  - `handleCreateProject`;
  - the mock data generators;
  - `Layout` and `FinanceManager`, which only switch views.
- FinancialReports.CategoriesAddUp: stated for non-negative amounts only, because `filter(value > 0)` drops negative totals.
- FinancialReports.MarginBounds: the bound of 100 is stated only for non-negative payable amounts.
- CashFlow.WindowBalanceIsCurrentBalance: needs every PAID account to have a payment date inside the window, since payments outside it are not bucketed.
- CashFlow.ProjectionCoversPending: needs every pending account to fall due in the next three months.
- SuppliersManager.NewSupplier: states the `S-` prefix, not that the code has four digits.
- MaterialsManager.NewMaterial: states the `M-` prefix, not that the code has four digits.
- Ids and random codes are parameters; uniqueness of fresh ids is not modelled.

## Findings

| source | as written | input that shows it | evidently intended | confidence | as-written member | corrected member |
|---|---|---|---|---|---|---|
| components/AccountsReceivable.tsx:172 with App.tsx:207-211 | `accountsToCreate.forEach(onCreate)` calls the create handler N times in one event. Each call builds `[account, ...accountsReceivable]` from the same drawn list, so each call overwrites the previous one | an installment count of 2: two accounts are created, one is stored, and the first installment is lost | all N installments are stored | not executed | App.BatchedPrependAsWritten, App.FirstInstallmentLost, App.Erp.CreateReceivablesAsWritten, AccountsReceivable.ReceivablesScreen.CreateAccount | App.BatchedPrepend, App.Erp.CreateReceivables, AccountsReceivable.ReceivablesScreen.CreateAccountCorrected |
