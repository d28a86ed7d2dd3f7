/** The application shell: the state collections and their update and
    create handlers, and the account payable generated when a requisition
    is approved (due date from the billing terms, category from a vote on
    the item categories). */
module App {
  import opened Types
  import Seqs
  import Text
  import OrdersManager

  // ---------------------------------------------------------------------
  // The billing-terms pattern `/(\d+)\s*dia/i`

  /** `\s`: the ECMAScript white space and line terminator characters. */
  predicate IsSpace(c: char) {
    var n := c as int;
    (9 <= n <= 13) || n == 32 || n == 0xA0 || n == 0x1680 || (0x2000 <= n <= 0x200A)
    || n == 0x2028 || n == 0x2029 || n == 0x202F || n == 0x205F || n == 0x3000 || n == 0xFEFF
  }

  /** The end of the run of digits starting at `i`. */
  function DigitRunEnd(s: string, i: nat): (j: nat)
    requires i <= |s|
    ensures i <= j <= |s| && (j == |s| || !Text.IsDigit(s[j]))
    ensures forall k :: i <= k < j ==> Text.IsDigit(s[k])
    decreases |s| - i
  {
    if i == |s| || !Text.IsDigit(s[i]) then i else DigitRunEnd(s, i + 1)
  }

  /** The end of the run of white space starting at `i`. */
  function SpaceRunEnd(s: string, i: nat): (j: nat)
    requires i <= |s|
    ensures i <= j <= |s| && (j == |s| || !IsSpace(s[j]))
    ensures forall k :: i <= k < j ==> IsSpace(s[k])
    decreases |s| - i
  {
    if i == |s| || !IsSpace(s[i]) then i else SpaceRunEnd(s, i + 1)
  }

  /** `dia` in any letter case at `j`. */
  predicate DiaAt(s: string, j: int) {
    0 <= j && j + 3 <= |s|
    && (s[j] == 'd' || s[j] == 'D') && (s[j + 1] == 'i' || s[j + 1] == 'I') && (s[j + 2] == 'a' || s[j + 2] == 'A')
  }

  /** The pattern matches at `i`: `s[i..j]` is one or more digits,
      `s[j..k]` white space, and `dia` follows. This is the backtracking
      reading any regular-expression engine gives the pattern. */
  predicate SplitMatches(s: string, i: int, j: int, k: int) {
    0 <= i < j <= k <= |s|
    && (forall m :: i <= m < j ==> Text.IsDigit(s[m]))
    && (forall m :: j <= m < k ==> IsSpace(s[m]))
    && DiaAt(s, k)
  }

  /** The greedy reading: take all digits, then all white space, then `dia`. */
  predicate MatchesAt(s: string, i: nat) {
    i < |s| && Text.IsDigit(s[i]) && DiaAt(s, SpaceRunEnd(s, DigitRunEnd(s, i)))
  }

  /** The greedy reading matches exactly when some split matches, and the
      split is then the greedy one: the captured digits are the whole run. */
  lemma {:induction false} GreedyIsTheOnlySplit(s: string, i: nat)
    ensures MatchesAt(s, i) <==> exists j, k :: SplitMatches(s, i, j, k)
    ensures forall j, k :: SplitMatches(s, i, j, k) ==> j == DigitRunEnd(s, i) && k == SpaceRunEnd(s, j)
  {
    forall j, k | SplitMatches(s, i, j, k)
      ensures j == DigitRunEnd(s, i) && k == SpaceRunEnd(s, j)
    {
      var e := DigitRunEnd(s, i);
      var f := SpaceRunEnd(s, j);
    }
    if MatchesAt(s, i) {
      var j := DigitRunEnd(s, i);
      assert SplitMatches(s, i, j, SpaceRunEnd(s, j));
    }
  }

  /** The leftmost match at or after `from`. */
  function FirstMatch(s: string, from: nat): (r: Option<nat>)
    requires from <= |s|
    ensures r.Some? ==> from <= r.value < |s| && MatchesAt(s, r.value)
    ensures r.Some? ==> forall i :: from <= i < r.value ==> !MatchesAt(s, i)
    ensures r.None? ==> forall i :: from <= i < |s| ==> !MatchesAt(s, i)
    decreases |s| - from
  {
    if from == |s| then None
    else if MatchesAt(s, from) then Some(from)
    else FirstMatch(s, from + 1)
  }

  /** The leftmost match starts a run of digits, so the captured group is
      a maximal digit run. */
  lemma LeftmostMatchStartsRun(s: string)
    ensures var r := FirstMatch(s, 0); r.Some? && r.value > 0 ==> !Text.IsDigit(s[r.value - 1])
  {
    var r := FirstMatch(s, 0);
    if r.Some? && r.value > 0 && Text.IsDigit(s[r.value - 1]) {
      assert DigitRunEnd(s, r.value - 1) == DigitRunEnd(s, r.value);
      assert MatchesAt(s, r.value - 1);
    }
  }

  /** `parseInt(match[1])` for the first match of the billing terms, a
      missing value read as ''. */
  function DaysFromTerms(terms: Option<string>): Option<nat> {
    var s := if terms.Some? then terms.value else "";
    match FirstMatch(s, 0)
    case Some(i) => Some(Text.DecimalValue(s[i..DigitRunEnd(s, i)]))
    case None => None
  }

  /** The payable's due date: today plus the matched number of days, else
      today plus 30. */
  function DueDate(terms: Option<string>, today: Day): Day {
    match DaysFromTerms(terms)
    case Some(n) => today + n
    case None => today + 30
  }

  /** Terms without a digit, or no terms at all, fall back to 30 days. */
  lemma NoDigitsMeansThirtyDays(terms: Option<string>, today: Day)
    requires terms.Some? ==> forall i :: 0 <= i < |terms.value| ==> !Text.IsDigit(terms.value[i])
    ensures DueDate(terms, today) == today + 30
  {
  }

  /** Digits not followed by `dia` do not count: "30/60" gives the default. */
  lemma DigitsWithoutDiaMeanThirtyDays(today: Day)
    ensures DueDate(Some("30/60"), today) == today + 30
  {
    var s := "30/60";
    assert !MatchesAt(s, 0) by { assert DigitRunEnd(s, 0) == 2; }
    assert !MatchesAt(s, 1) by { assert DigitRunEnd(s, 1) == 2; }
    assert !MatchesAt(s, 3) by { assert DigitRunEnd(s, 3) == 5; }
    assert !MatchesAt(s, 4) by { assert DigitRunEnd(s, 4) == 5; }
  }

  /** Terms written as some text without digits, a number and " dias" give
      that number of days ("Faturamento 28 dias" gives 28). */
  lemma {:induction false} DaysFromWrittenTerms(prefix: string, n: nat, today: Day)
    requires forall i :: 0 <= i < |prefix| ==> !Text.IsDigit(prefix[i])
    ensures DaysFromTerms(Some(prefix + Text.NatToDecimal(n) + " dias")) == Some(n)
    ensures DueDate(Some(prefix + Text.NatToDecimal(n) + " dias"), today) == today + n
  {
    var d := Text.NatToDecimal(n);
    var s := prefix + d + " dias";
    var p := |prefix|;
    var e := p + |d|;
    assert forall i :: 0 <= i < p ==> s[i] == prefix[i];
    assert forall i :: 0 <= i < |d| ==> s[p + i] == d[i];
    assert s[e] == ' ' && s[e + 1] == 'd' && s[e + 2] == 'i' && s[e + 3] == 'a';
    assert DigitRunEnd(s, p) == e by {
      DigitRunFrom(s, p, e);
    }
    assert SpaceRunEnd(s, e) == e + 1;
    assert MatchesAt(s, p);
    assert FirstMatch(s, 0) == Some(p) by {
      FirstMatchSkips(s, 0, p);
    }
    assert s[p..e] == d;
    Text.DecimalRoundTrip(n);
  }

  lemma {:induction false} DigitRunFrom(s: string, i: nat, e: nat)
    requires i <= e < |s| && !Text.IsDigit(s[e])
    requires forall m :: i <= m < e ==> Text.IsDigit(s[m])
    ensures DigitRunEnd(s, i) == e
    decreases e - i
  {
    if i < e {
      DigitRunFrom(s, i + 1, e);
    }
  }

  lemma {:induction false} FirstMatchSkips(s: string, from: nat, p: nat)
    requires from <= p < |s| && MatchesAt(s, p)
    requires forall i :: from <= i < p ==> !Text.IsDigit(s[i])
    ensures FirstMatch(s, from) == Some(p)
    decreases p - from
  {
    if from < p {
      FirstMatchSkips(s, from + 1, p);
    }
  }

  /** The form's default terms give 28 days. */
  lemma DefaultTermsGive28Days(today: Day)
    ensures DueDate(Some("Faturamento 28 dias"), today) == today + 28
  {
    var prefix := "Faturamento ";
    assert Text.NatToDecimal(28) == "28";
    assert prefix + "28" + " dias" == "Faturamento 28 dias";
    DaysFromWrittenTerms(prefix, 28, today);
  }

  // ---------------------------------------------------------------------
  // The category vote

  /** `arr.filter(v => v === x).length`. */
  function Count(arr: seq<string>, x: string): (n: nat)
    ensures n <= |arr|
  {
    if |arr| == 0 then 0 else Count(arr[..|arr| - 1], x) + (if arr[|arr| - 1] == x then 1 else 0)
  }

  /** The reducer `(a, b) => count(a) >= count(b) ? a : b` from position `i`. */
  function VoteFrom(arr: seq<string>, acc: string, i: nat): string
    requires i <= |arr|
    decreases |arr| - i
  {
    if i == |arr| then acc
    else VoteFrom(arr, if Count(arr, acc) >= Count(arr, arr[i]) then acc else arr[i], i + 1)
  }

  /** `categories.reduce(...)` without an initial value; an empty list throws. */
  function MostCommon(arr: seq<string>): Option<string> {
    if |arr| == 0 then None else Some(VoteFrom(arr, arr[0], 1))
  }

  /** Position `p` holds the first value of maximal count among the first
      `i` positions. */
  predicate FirstMaximalAmong(arr: seq<string>, p: int, i: int) {
    0 <= p < i <= |arr|
    && (forall j {:trigger Count(arr, arr[j])} :: 0 <= j < i ==> Count(arr, arr[j]) <= Count(arr, arr[p]))
    && (forall j {:trigger Count(arr, arr[j])} :: 0 <= j < p ==> Count(arr, arr[j]) < Count(arr, arr[p]))
  }

  /** The position whose value the reducer holds after position `i`, when
      it holds the value at `p`. */
  ghost function VoteIndex(arr: seq<string>, p: int, i: nat): int
    requires 0 <= p < |arr| && i <= |arr|
    decreases |arr| - i
  {
    if i == |arr| then p
    else VoteIndex(arr, if Count(arr, arr[p]) >= Count(arr, arr[i]) then p else i, i + 1)
  }

  /** The reducer keeps the first value of maximal count seen so far: it
      ends holding the value at the first position of maximal count. */
  lemma {:induction false} VoteFromKeepsFirstMaximal(arr: seq<string>, p: int, i: nat)
    requires i <= |arr| && FirstMaximalAmong(arr, p, i)
    ensures FirstMaximalAmong(arr, VoteIndex(arr, p, i), |arr|)
    ensures VoteFrom(arr, arr[p], i) == arr[VoteIndex(arr, p, i)]
    decreases |arr| - i
  {
    if i < |arr| {
      var next := if Count(arr, arr[p]) >= Count(arr, arr[i]) then p else i;
      assert FirstMaximalAmong(arr, next, i + 1);
      assert VoteFrom(arr, arr[p], i) == VoteFrom(arr, arr[next], i + 1);
      assert VoteIndex(arr, p, i) == VoteIndex(arr, next, i + 1);
      VoteFromKeepsFirstMaximal(arr, next, i + 1);
    }
  }

  /** The vote picks the first category, in item order, whose number of
      occurrences is maximal; only an empty list has none. */
  lemma MostCommonIsFirstMaximal(arr: seq<string>)
    ensures MostCommon(arr).None? <==> |arr| == 0
    ensures MostCommon(arr).Some? ==>
      exists q :: FirstMaximalAmong(arr, q, |arr|) && MostCommon(arr).value == arr[q]
  {
    if |arr| > 0 {
      VoteFromKeepsFirstMaximal(arr, 0, 1);
      var q := VoteIndex(arr, 0, 1);
      assert FirstMaximalAmong(arr, q, |arr|) && MostCommon(arr).value == arr[q];
    }
  }

  /** `item.category || 'Outros'`. */
  function ItemCategory(item: MaterialItem): string {
    if IsSet(item.category) then item.category.value else "Outros"
  }

  function ItemCategories(items: seq<MaterialItem>): (r: seq<string>)
    ensures |r| == |items|
  {
    seq(|items|, i requires 0 <= i < |items| => ItemCategory(items[i]))
  }

  const CategoryMap: map<string, TransactionCategory> :=
    map["Estrutural" := Materiais, "Básico" := Materiais, "Agregados" := Materiais,
        "Fixação" := Materiais, "Madeiramento" := Materiais, "Acabamento" := Materiais]

  /** `categoryMap[c] || 'Materiais'`. */
  function PayableCategory(c: string): TransactionCategory {
    if c in CategoryMap then CategoryMap[c] else Materiais
  }

  /** Every entry of the table and the fallback are 'Materiais'. */
  lemma PayableCategoryIsMateriais(c: string)
    ensures PayableCategory(c) == Materiais
  {
  }

  // ---------------------------------------------------------------------
  // The generated payable

  function ItemName(i: MaterialItem): string {
    i.name
  }

  function ItemNames(items: seq<MaterialItem>): (r: seq<string>)
    ensures |r| == |items|
  {
    seq(|items|, i requires 0 <= i < |items| => items[i].name)
  }

  /** `Pedido <id> - <names joined by ', '>`. */
  function PayableDescription(order: MaterialOrder): string {
    "Pedido " + order.id + " - " + Text.Join(ItemNames(order.items), ", ")
  }

  /** The description names the requisition and every item. */
  lemma DescriptionNamesEveryItem(order: MaterialOrder, k: int)
    requires 0 <= k < |order.items|
    ensures Text.IsPrefix("Pedido " + order.id + " - ", PayableDescription(order))
    ensures Text.Contains(PayableDescription(order), order.items[k].name)
  {
    var head := "Pedido " + order.id + " - ";
    var names := Text.Join(ItemNames(order.items), ", ");
    var d := PayableDescription(order);
    assert d == head + names;
    assert d[..|head|] == head;
    Text.JoinHasPart(ItemNames(order.items), ", ", k);
    Text.ContainsAt(names, order.items[k].name);
    var i :| Text.OccursAt(names, order.items[k].name, i);
    assert d[|head| + i..|head| + i + |order.items[k].name|] == names[i..i + |order.items[k].name|];
    assert Text.OccursAt(d, order.items[k].name, |head| + i);
    Text.ContainsAt(d, order.items[k].name);
  }

  /** A JavaScript `Date` holds at most 8.64e15 ms either side of
      1970-01-01, that is 100000000 days. */
  const DateLimit: int := 100_000_000

  /** The days whose `toISOString` does not throw a RangeError. The day
      `DateLimit` itself is representable only at exactly midnight UTC and
      is counted as out of range. */
  predicate Representable(d: Day) {
    -DateLimit <= d < DateLimit
  }

  /** What `handleApproveOrder` does after updating the order: no payable,
      one payable, or a throw (a TypeError from the vote over an empty item
      list, or a RangeError from `toISOString` on a due date no `Date` can
      hold). */
  datatype PayableOutcome = NoPayable | Payable(account: AccountPayable) | Throws

  function SupplierId(s: Supplier): string {
    s.id
  }

  /** The payable derived from an approved requisition: none without a
      selected quote or when the quote's supplier is unknown. */
  function DerivePayable(order: MaterialOrder, suppliers: seq<Supplier>, payableId: string, today: Day, now: Instant): PayableOutcome {
    var k := OrdersManager.SelectedIndex(order.orderQuotes);
    if k < 0 then NoPayable
    else
      var quote := order.orderQuotes[k];
      if Seqs.FindById(suppliers, quote.supplierId, SupplierId) < 0 then NoPayable
      else
        var due := DueDate(quote.billingTerms, today);
        match MostCommon(ItemCategories(order.items))
        case None => Throws
        case Some(c) =>
          if !Representable(due) then Throws
          else
            Payable(AccountPayable(
              payableId, Some(order.id), order.projectId, quote.supplierId,
              PayableDescription(order), quote.totalPrice, due, Pending,
              quote.paymentMethod, None, PayableCategory(c), quote.billingTerms,
              quote.observations, now, order.requestedBy))
  }

  /** The payable is pending, in 'Materiais', for the requisition's cost,
      and copies the selected quote's supplier and commercial terms, the
      order's id and project and the requester; a due date past what a
      `Date` holds throws instead. */
  lemma PayableFromSelectedQuote(order: MaterialOrder, suppliers: seq<Supplier>, payableId: string, today: Day, now: Instant, k: int)
    requires OrdersManager.FirstSelected(order.orderQuotes, k)
    requires exists i :: 0 <= i < |suppliers| && suppliers[i].id == order.orderQuotes[k].supplierId
    requires |order.items| > 0
    ensures var q := order.orderQuotes[k];
            !Representable(DueDate(q.billingTerms, today)) ==> DerivePayable(order, suppliers, payableId, today, now) == Throws
    ensures var r := DerivePayable(order, suppliers, payableId, today, now);
            var q := order.orderQuotes[k];
            Representable(DueDate(q.billingTerms, today)) ==>
            r.Payable?
            && r.account.id == payableId && r.account.orderId == Some(order.id)
            && r.account.projectId == order.projectId && r.account.supplierId == q.supplierId
            && r.account.amount == q.totalPrice == OrdersManager.TotalOrderCost(order)
            && r.account.dueDate == DueDate(q.billingTerms, today)
            && r.account.status == Pending && r.account.category == Materiais
            && r.account.paymentMethod == q.paymentMethod && r.account.paymentDate.None?
            && r.account.billingTerms == q.billingTerms && r.account.observations == q.observations
            && r.account.description == PayableDescription(order)
            && r.account.createdAt == now && r.account.createdBy == order.requestedBy
  {
    var i :| 0 <= i < |suppliers| && suppliers[i].id == order.orderQuotes[k].supplierId;
    assert SupplierId(suppliers[i]) == order.orderQuotes[k].supplierId;
    assert OrdersManager.SelectedIndex(order.orderQuotes) == k;
    MostCommonIsFirstMaximal(ItemCategories(order.items));
  }

  /** No payable without a selected quote or with an unknown supplier; an
      order without items, or a due date no `Date` can hold, throws;
      otherwise exactly one payable. */
  lemma PayableExistsExactlyWhen(order: MaterialOrder, suppliers: seq<Supplier>, payableId: string, today: Day, now: Instant)
    ensures var r := DerivePayable(order, suppliers, payableId, today, now);
            var k := OrdersManager.SelectedIndex(order.orderQuotes);
            (r == NoPayable <==>
               k < 0 || forall i :: 0 <= i < |suppliers| ==> suppliers[i].id != order.orderQuotes[k].supplierId)
            && (r == Throws <==>
               k >= 0 && (exists i :: 0 <= i < |suppliers| && suppliers[i].id == order.orderQuotes[k].supplierId)
               && (|order.items| == 0 || !Representable(DueDate(order.orderQuotes[k].billingTerms, today))))
  {
    MostCommonIsFirstMaximal(ItemCategories(order.items));
    var k := OrdersManager.SelectedIndex(order.orderQuotes);
    if k >= 0 {
      var id := order.orderQuotes[k].supplierId;
      if exists i :: 0 <= i < |suppliers| && suppliers[i].id == id {
        var i :| 0 <= i < |suppliers| && suppliers[i].id == id;
        assert SupplierId(suppliers[i]) == id;
      }
    }
  }

  /** Approving any requisition with quotes leaves a selected quote, so the
      payable exists once its supplier is known and its due date fits in a
      `Date`, and its amount is the cost the requisition had before
      approval. */
  lemma ApprovalYieldsPayable(o: MaterialOrder, suppliers: seq<Supplier>, payableId: string, today: Day, now: Instant)
    requires |o.orderQuotes| > 0 && |o.items| > 0
    requires forall q :: q in o.orderQuotes ==> exists i :: 0 <= i < |suppliers| && suppliers[i].id == q.supplierId
    requires forall q :: q in o.orderQuotes ==> Representable(DueDate(q.billingTerms, today))
    ensures var a := OrdersManager.ApproveOrder(o);
            a.Update? && DerivePayable(a.order, suppliers, payableId, today, now).Payable?
            && DerivePayable(a.order, suppliers, payableId, today, now).account.amount == OrdersManager.TotalOrderCost(o)
  {
    var a := OrdersManager.ApproveOrder(o).order;
    var k := OrdersManager.SelectedIndex(a.orderQuotes);
    assert OrdersManager.FirstSelected(a.orderQuotes, k);
    var qs := o.orderQuotes;
    assert |a.orderQuotes| == |qs| && forall j :: 0 <= j < |qs| ==> a.orderQuotes[j].supplierId == qs[j].supplierId by {
      if OrdersManager.SelectedIndex(qs) < 0 {
        OrdersManager.ApproveSelectsCheapest(o);
      }
    }
    assert qs[k] in qs;
    PayableFromSelectedQuote(a, suppliers, payableId, today, now, k);
  }

  /** Terms of 100000000 days or more, such as "Faturamento 100000000
      dias", give a due date no `Date` holds from any day since 1970, so
      approving a requisition with such a selected quote throws and creates
      no payable. */
  lemma DistantTermsThrow(order: MaterialOrder, suppliers: seq<Supplier>, payableId: string, today: Day, now: Instant,
                          k: int, prefix: string, n: nat)
    requires OrdersManager.FirstSelected(order.orderQuotes, k)
    requires exists i :: 0 <= i < |suppliers| && suppliers[i].id == order.orderQuotes[k].supplierId
    requires forall i :: 0 <= i < |prefix| ==> !Text.IsDigit(prefix[i])
    requires order.orderQuotes[k].billingTerms == Some(prefix + Text.NatToDecimal(n) + " dias")
    requires today >= 0 && n >= DateLimit
    ensures DerivePayable(order, suppliers, payableId, today, now) == Throws
  {
    DaysFromWrittenTerms(prefix, n, today);
    PayableExistsExactlyWhen(order, suppliers, payableId, today, now);
    assert OrdersManager.SelectedIndex(order.orderQuotes) == k;
  }

  // ---------------------------------------------------------------------
  // The application state

  function PayableId(a: AccountPayable): string {
    a.id
  }

  function ReceivableId(a: AccountReceivable): string {
    a.id
  }

  function MaterialId(m: Material): string {
    m.id
  }

  function ProjectId(p: Project): string {
    p.id
  }

  function ClientId(c: Client): string {
    c.id
  }

  /** Reversed(s): the last element first. */
  function Reversed<T>(s: seq<T>): (r: seq<T>)
    ensures |r| == |s|
    ensures forall i :: 0 <= i < |s| ==> r[i] == s[|s| - 1 - i]
  {
    if |s| == 0 then [] else [s[|s| - 1]] + Reversed(s[..|s| - 1])
  }

  /** The receivables after N creations in one event handler where each
      creation prepends to the list the handler saw when the screen was
      drawn: every creation overwrites the previous one. */
  function BatchedPrependAsWritten<T>(snapshot: seq<T>, created: seq<T>): seq<T> {
    if |created| == 0 then snapshot else [created[|created| - 1]] + snapshot
  }

  /** Two installments created together: the first one is lost. */
  lemma FirstInstallmentLost<T>(snapshot: seq<T>, a: T, b: T)
    requires a != b && a !in snapshot
    ensures a !in BatchedPrependAsWritten(snapshot, [a, b])
    ensures |BatchedPrependAsWritten(snapshot, [a, b])| == |snapshot| + 1
  {
  }

  /** Each creation prepends to the current list: all N are kept, the last
      one first. */
  function BatchedPrepend<T>(current: seq<T>, created: seq<T>): (r: seq<T>)
    ensures r == Reversed(created) + current
    ensures |r| == |current| + |created|
    ensures forall x :: x in created ==> x in r
    decreases |created|
  {
    if |created| == 0 then current
    else
      var r := BatchedPrepend([created[0]] + current, created[1..]);
      assert Reversed(created) == Reversed(created[1..]) + [created[0]];
      assert forall x :: x in created ==> x == created[0] || x in created[1..];
      r
  }

  /** The state `App` holds and passes down. */
  class Erp {
    var orders: seq<MaterialOrder>
    var payables: seq<AccountPayable>
    var receivables: seq<AccountReceivable>
    var suppliers: seq<Supplier>
    var materials: seq<Material>

    constructor (orders: seq<MaterialOrder>, payables: seq<AccountPayable>, receivables: seq<AccountReceivable>,
                 suppliers: seq<Supplier>, materials: seq<Material>)
      ensures this.orders == orders && this.payables == payables && this.receivables == receivables
      ensures this.suppliers == suppliers && this.materials == materials
    {
      this.orders := orders;
      this.payables := payables;
      this.receivables := receivables;
      this.suppliers := suppliers;
      this.materials := materials;
    }

    /** `handleUpdateOrder`. */
    method UpdateOrder(updated: MaterialOrder)
      modifies this
      ensures orders == Seqs.ReplaceById(old(orders), updated, OrdersManager.OrderId)
      ensures payables == old(payables) && receivables == old(receivables)
      ensures suppliers == old(suppliers) && materials == old(materials)
    {
      orders := Seqs.ReplaceById(orders, updated, OrdersManager.OrderId);
    }

    /** `handleCreateOrder`. */
    method CreateOrder(o: MaterialOrder)
      modifies this
      ensures orders == [o] + old(orders)
      ensures payables == old(payables) && receivables == old(receivables)
      ensures suppliers == old(suppliers) && materials == old(materials)
    {
      orders := [o] + orders;
    }

    method UpdateSupplier(updated: Supplier)
      modifies this
      ensures suppliers == Seqs.ReplaceById(old(suppliers), updated, SupplierId)
      ensures orders == old(orders) && payables == old(payables) && receivables == old(receivables)
      ensures materials == old(materials)
    {
      suppliers := Seqs.ReplaceById(suppliers, updated, SupplierId);
    }

    method CreateSupplier(s: Supplier)
      modifies this
      ensures suppliers == [s] + old(suppliers)
      ensures orders == old(orders) && payables == old(payables) && receivables == old(receivables)
      ensures materials == old(materials)
    {
      suppliers := [s] + suppliers;
    }

    method UpdateMaterial(updated: Material)
      modifies this
      ensures materials == Seqs.ReplaceById(old(materials), updated, MaterialId)
      ensures orders == old(orders) && payables == old(payables) && receivables == old(receivables)
      ensures suppliers == old(suppliers)
    {
      materials := Seqs.ReplaceById(materials, updated, MaterialId);
    }

    method CreateMaterial(m: Material)
      modifies this
      ensures materials == [m] + old(materials)
      ensures orders == old(orders) && payables == old(payables) && receivables == old(receivables)
      ensures suppliers == old(suppliers)
    {
      materials := [m] + materials;
    }

    /** `handleUpdateAccountPayable`. */
    method UpdatePayable(account: AccountPayable)
      modifies this
      ensures payables == Seqs.ReplaceById(old(payables), account, PayableId)
      ensures orders == old(orders) && receivables == old(receivables)
      ensures suppliers == old(suppliers) && materials == old(materials)
    {
      payables := Seqs.ReplaceById(payables, account, PayableId);
    }

    /** `handleCreateAccountPayable`. */
    method CreatePayable(account: AccountPayable)
      modifies this
      ensures payables == [account] + old(payables)
      ensures orders == old(orders) && receivables == old(receivables)
      ensures suppliers == old(suppliers) && materials == old(materials)
    {
      payables := [account] + payables;
    }

    method UpdateReceivable(account: AccountReceivable)
      modifies this
      ensures receivables == Seqs.ReplaceById(old(receivables), account, ReceivableId)
      ensures orders == old(orders) && payables == old(payables)
      ensures suppliers == old(suppliers) && materials == old(materials)
    {
      receivables := Seqs.ReplaceById(receivables, account, ReceivableId);
    }

    /** `handleCreateAccountReceivable` once. */
    method CreateReceivable(account: AccountReceivable)
      modifies this
      ensures receivables == [account] + old(receivables)
      ensures orders == old(orders) && payables == old(payables)
      ensures suppliers == old(suppliers) && materials == old(materials)
    {
      receivables := [account] + receivables;
    }

    /** `accountsToCreate.forEach(onCreate)` as the application runs it:
      every call builds its list from the same drawn snapshot, and the
      last call's list is the one kept. */
    method CreateReceivablesAsWritten(accounts: seq<AccountReceivable>)
      modifies this
      ensures receivables == BatchedPrependAsWritten(old(receivables), accounts)
      ensures orders == old(orders) && payables == old(payables)
      ensures suppliers == old(suppliers) && materials == old(materials)
    {
      var snapshot := receivables;
      var i := 0;
      while i < |accounts|
        invariant 0 <= i <= |accounts|
        invariant receivables == BatchedPrependAsWritten(snapshot, accounts[..i])
        invariant orders == old(orders) && payables == old(payables)
        invariant suppliers == old(suppliers) && materials == old(materials)
      {
        receivables := [accounts[i]] + snapshot;
        i := i + 1;
      }
      assert accounts[..i] == accounts;
    }

    /** The installments created one after the other, each prepended to the
      current list. */
    method CreateReceivables(accounts: seq<AccountReceivable>)
      modifies this
      ensures receivables == Reversed(accounts) + old(receivables)
      ensures orders == old(orders) && payables == old(payables)
      ensures suppliers == old(suppliers) && materials == old(materials)
    {
      var i := 0;
      while i < |accounts|
        invariant 0 <= i <= |accounts|
        invariant receivables == Reversed(accounts[..i]) + old(receivables)
        invariant orders == old(orders) && payables == old(payables)
        invariant suppliers == old(suppliers) && materials == old(materials)
      {
        assert accounts[..i + 1][..i] == accounts[..i];
        CreateReceivable(accounts[i]);
        i := i + 1;
      }
      assert accounts[..i] == accounts;
    }

    /** `handleApproveOrder`: stores the approved order, then prepends the
      derived payable, if any. `thrown` is true when the derivation throws
      after the order was stored. */
    method ApproveOrder(order: MaterialOrder, payableId: string, today: Day, now: Instant) returns (thrown: bool)
      modifies this
      ensures orders == Seqs.ReplaceById(old(orders), order, OrdersManager.OrderId)
      ensures var r := DerivePayable(order, old(suppliers), payableId, today, now);
              thrown == r.Throws? && payables == if r.Payable? then [r.account] + old(payables) else old(payables)
      ensures receivables == old(receivables) && suppliers == old(suppliers) && materials == old(materials)
    {
      UpdateOrder(order);
      var r := DerivePayable(order, suppliers, payableId, today, now);
      thrown := r.Throws?;
      if r.Payable? {
        CreatePayable(r.account);
      }
    }
  }
}
