/** The material-requisition screen: the cost rule applied to every
    requisition, the item and order drafts, the quote form, and the
    handlers that save, select, annotate, approve and reject quotes. A
    handler's result is what it passes to `onUpdateOrder` (nothing, a new
    order value, or a TypeError thrown before any call); `Requisition`
    performs the same updates on one requisition object in place. */
module OrdersManager {
  import opened Types
  import Seqs
  import Text

  predicate IsSelectedQuote(q: OrderQuote) {
    q.isSelected
  }

  /** `quotes.findIndex(q => q.isSelected)`. */
  function SelectedIndex(qs: seq<OrderQuote>): int {
    Seqs.FindIndex(qs, IsSelectedQuote)
  }

  predicate FirstSelected(qs: seq<OrderQuote>, k: int) {
    0 <= k < |qs| && qs[k].isSelected && forall j :: 0 <= j < k ==> !qs[j].isSelected
  }

  predicate NoneSelected(qs: seq<OrderQuote>) {
    forall j :: 0 <= j < |qs| ==> !qs[j].isSelected
  }

  /** The lowest price is the price of some quote and at most every price. */
  predicate IsMinPrice(qs: seq<OrderQuote>, m: real) {
    (exists i :: 0 <= i < |qs| && qs[i].totalPrice == m)
    && forall i :: 0 <= i < |qs| ==> m <= qs[i].totalPrice
  }

  /** `Math.min(...quotes.map(q => q.totalPrice))` on a non-empty list. */
  function MinPrice(qs: seq<OrderQuote>): (m: real)
    requires |qs| > 0
    ensures IsMinPrice(qs, m)
  {
    if |qs| == 1 then qs[0].totalPrice
    else
      var rest := MinPrice(qs[1..]);
      var i :| 0 <= i < |qs[1..]| && qs[1..][i].totalPrice == rest;
      assert qs[i + 1].totalPrice == rest;
      if qs[0].totalPrice <= rest then qs[0].totalPrice else rest
  }

  /** `calculateTotalOrderCost`: the price of the first selected quote;
      without a selection the lowest price; without quotes 0. */
  function TotalOrderCost(o: MaterialOrder): (c: real)
    ensures forall k :: FirstSelected(o.orderQuotes, k) ==> c == o.orderQuotes[k].totalPrice
    ensures NoneSelected(o.orderQuotes) && |o.orderQuotes| > 0 ==> IsMinPrice(o.orderQuotes, c)
    ensures |o.orderQuotes| == 0 ==> c == 0.0
  {
    var k := SelectedIndex(o.orderQuotes);
    if k >= 0 then o.orderQuotes[k].totalPrice
    else if |o.orderQuotes| > 0 then MinPrice(o.orderQuotes)
    else 0.0
  }

  // ---------------------------------------------------------------------
  // Drafting a requisition

  /** The `{category, unit}` the material classifier returns for a name. */
  datatype Classification = Classification(category: string, unit: string)

  /** The `newItem` form: a name and a quantity. */
  datatype ItemDraft = ItemDraft(name: string, quantity: real)

  /** The `newOrder` form. */
  datatype OrderDraft = OrderDraft(projectId: string, items: seq<MaterialItem>, status: OrderStatus)

  const InitialOrderDraft := OrderDraft("", [], PendingQuotes)

  /** `handleAddItem`: nothing without a name; otherwise appends one item
      whose quantity defaults to 1 and whose unit and category come from
      the classifier. */
  function AddItem(draft: OrderDraft, item: ItemDraft, itemId: string, ai: Classification): (r: Option<OrderDraft>)
    ensures r.None? <==> item.name == ""
    ensures r.Some? ==>
      r.value.projectId == draft.projectId && r.value.status == draft.status
      && |r.value.items| == |draft.items| + 1 && r.value.items[..|draft.items|] == draft.items
      && var added := r.value.items[|draft.items|];
         added.id == itemId && added.name == item.name
         && added.quantity == (if item.quantity == 0.0 then 1.0 else item.quantity)
         && added.unit == ai.unit && added.category == Some(ai.category)
  {
    if item.name == "" then None
    else
      var quantity := if item.quantity == 0.0 then 1.0 else item.quantity;
      var items' := draft.items + [MaterialItem(itemId, item.name, quantity, ai.unit, Some(ai.category))];
      assert items'[..|draft.items|] == draft.items;
      Some(draft.(items := items'))
  }

  /** `handleSaveOrder`: nothing without a project or without items;
      otherwise the new requisition `REQ-<number>` with no quotes, the
      draft's status, the current time and the fixed requester. */
  function SaveOrder(draft: OrderDraft, requestNumber: nat, now: Instant): (r: Option<MaterialOrder>)
    requires 1000 <= requestNumber <= 9999
    ensures r.None? <==> draft.projectId == "" || |draft.items| == 0
    ensures r.Some? ==>
      r.value.projectId == draft.projectId && r.value.items == draft.items
      && r.value.orderQuotes == [] && r.value.status == draft.status
      && r.value.requestDate == now && r.value.requestedBy == "Felipe Paiva"
      && Text.IsPrefix("REQ-", r.value.id)
  {
    if draft.projectId == "" || |draft.items| == 0 then None
    else Some(MaterialOrder("REQ-" + Text.NatToDecimal(requestNumber), draft.projectId, now,
                            draft.status, "Felipe Paiva", draft.items, []))
  }

  /** From the initial draft a saved requisition awaits quotes and costs 0. */
  lemma NewOrderAwaitsQuotes(draft: OrderDraft, requestNumber: nat, now: Instant)
    requires 1000 <= requestNumber <= 9999
    requires draft.status == InitialOrderDraft.status
    requires draft.projectId != "" && |draft.items| > 0
    ensures var r := SaveOrder(draft, requestNumber, now);
            r.Some? && r.value.status == PendingQuotes && TotalOrderCost(r.value) == 0.0
  {
  }

  // ---------------------------------------------------------------------
  // The quote form

  /** The `quoteFormData` form; `itemPrices` is the price record in key
      order. */
  datatype QuoteForm = QuoteForm(
    supplierId: string,
    deliveryDays: int,
    isFreightIncluded: bool,
    freightCost: real,
    billingTerms: string,
    itemPrices: seq<ItemQuoteEntry>)

  function EntryItemId(e: ItemQuoteEntry): string {
    e.itemId
  }

  function ItemId(i: MaterialItem): string {
    i.id
  }

  /** `itemPrices[id] || 0`. */
  function PriceFor(prices: seq<ItemQuoteEntry>, id: string): real {
    var k := Seqs.FindById(prices, id, EntryItemId);
    if k >= 0 then prices[k].unitPrice else 0.0
  }

  /** `items.find(i => i.id === id)?.quantity || 0`. */
  function QuantityFor(items: seq<MaterialItem>, id: string): real {
    var k := Seqs.FindById(items, id, ItemId);
    if k >= 0 then items[k].quantity else 0.0
  }

  /** `{ ...prices, [id]: price }`: an existing key keeps its place and
      takes the new value, a new key goes last. */
  function SetPrice(prices: seq<ItemQuoteEntry>, id: string, price: real): (r: seq<ItemQuoteEntry>)
    ensures PriceFor(r, id) == price
  {
    var k := Seqs.FindById(prices, id, EntryItemId);
    if k >= 0 then
      var r := prices[k := ItemQuoteEntry(id, price)];
      assert forall j :: 0 <= j < k ==> r[j] == prices[j];
      Seqs.FindByIdAt(r, id, EntryItemId, k);
      r
    else
      var r := prices + [ItemQuoteEntry(id, price)];
      assert forall j :: 0 <= j < |prices| ==> r[j] == prices[j];
      Seqs.FindByIdAt(r, id, EntryItemId, |prices|);
      r
  }

  /** One zero price per item, as `handleOpenQuoteForm` fills the record
      (a repeated id is one key). */
  function InitialPrices(items: seq<MaterialItem>): seq<ItemQuoteEntry> {
    if |items| == 0 then []
    else SetPrice(InitialPrices(items[..|items| - 1]), items[|items| - 1].id, 0.0)
  }

  /** `handleOpenQuoteForm`. */
  function InitialQuoteForm(items: seq<MaterialItem>): QuoteForm {
    QuoteForm("", 1, true, 0.0, "Faturamento 28 dias", InitialPrices(items))
  }

  /** The price record has exactly one key per item, in item order. */
  predicate Aligned(prices: seq<ItemQuoteEntry>, items: seq<MaterialItem>) {
    |prices| == |items| && forall i :: 0 <= i < |items| ==> prices[i].itemId == items[i].id
  }

  /** With distinct item ids the initial record is aligned with the items. */
  lemma {:induction false} InitialPricesAligned(items: seq<MaterialItem>)
    requires Seqs.DistinctIds(items, ItemId)
    ensures Aligned(InitialPrices(items), items)
  {
    if |items| > 0 {
      var n := |items| - 1;
      var front, last := items[..n], items[n];
      forall i, j | 0 <= i < j < |front|
        ensures ItemId(front[i]) != ItemId(front[j])
      {
        assert front[i] == items[i] && front[j] == items[j];
      }
      InitialPricesAligned(front);
      var prices := InitialPrices(front);
      forall j | 0 <= j < |prices|
        ensures EntryItemId(prices[j]) != last.id
      {
        assert prices[j].itemId == front[j].id && front[j] == items[j];
      }
      assert Seqs.FindById(prices, last.id, EntryItemId) == -1;
      assert InitialPrices(items) == prices + [ItemQuoteEntry(last.id, 0.0)];
    }
  }

  /** Typing a price for one of the items keeps the record aligned. */
  lemma SetPriceKeepsAligned(prices: seq<ItemQuoteEntry>, items: seq<MaterialItem>, k: int, price: real)
    requires Aligned(prices, items) && 0 <= k < |items|
    ensures Aligned(SetPrice(prices, items[k].id, price), items)
  {
    var j := Seqs.FindById(prices, items[k].id, EntryItemId);
    assert prices[k].itemId == items[k].id;
  }

  /** One line of a quote: unit price times quantity. */
  function LineTotal(price: real, quantity: real): real {
    price * quantity
  }

  /** The subtotal `handleSaveQuote` computes: the sum over the items of
      `(itemPrices[item.id] || 0) * item.quantity`. */
  function ItemsSubtotal(items: seq<MaterialItem>, prices: seq<ItemQuoteEntry>): real {
    if |items| == 0 then 0.0
    else
      var last := items[|items| - 1];
      ItemsSubtotal(items[..|items| - 1], prices) + LineTotal(PriceFor(prices, last.id), last.quantity)
  }

  /** The final total: the subtotal plus the freight unless it is included. */
  function QuoteTotal(items: seq<MaterialItem>, form: QuoteForm): real {
    ItemsSubtotal(items, form.itemPrices) + (if form.isFreightIncluded then 0.0 else form.freightCost)
  }

  /** The total the form displays while it is being filled: the sum over
      the price record of `price * (quantity of that item || 0)`. */
  function PreviewSubtotal(prices: seq<ItemQuoteEntry>, items: seq<MaterialItem>): real {
    if |prices| == 0 then 0.0
    else
      var last := prices[|prices| - 1];
      PreviewSubtotal(prices[..|prices| - 1], items) + LineTotal(last.unitPrice, QuantityFor(items, last.itemId))
  }

  function PreviewTotal(items: seq<MaterialItem>, form: QuoteForm): real {
    PreviewSubtotal(form.itemPrices, items) + (if form.isFreightIncluded then 0.0 else form.freightCost)
  }

  lemma {:induction false} SubtotalsAgree(items: seq<MaterialItem>, prices: seq<ItemQuoteEntry>, n: nat)
    requires Aligned(prices, items) && Seqs.DistinctIds(items, ItemId)
    requires n <= |items|
    ensures ItemsSubtotal(items[..n], prices) == PreviewSubtotal(prices[..n], items)
  {
    if n > 0 {
      SubtotalsAgree(items, prices, n - 1);
      AlignedLookups(items, prices, n - 1);
      ItemsSubtotalStep(items, prices, n);
      PreviewSubtotalStep(prices, items, n);
    } else {
      assert items[..0] == [] && prices[..0] == [];
    }
  }

  lemma ItemsSubtotalStep(items: seq<MaterialItem>, prices: seq<ItemQuoteEntry>, n: nat)
    requires 0 < n <= |items|
    ensures ItemsSubtotal(items[..n], prices)
         == ItemsSubtotal(items[..n - 1], prices) + LineTotal(PriceFor(prices, items[n - 1].id), items[n - 1].quantity)
  {
    assert items[..n][..n - 1] == items[..n - 1];
  }

  lemma PreviewSubtotalStep(prices: seq<ItemQuoteEntry>, items: seq<MaterialItem>, n: nat)
    requires 0 < n <= |prices|
    ensures PreviewSubtotal(prices[..n], items)
         == PreviewSubtotal(prices[..n - 1], items) + LineTotal(prices[n - 1].unitPrice, QuantityFor(items, prices[n - 1].itemId))
  {
    assert prices[..n][..n - 1] == prices[..n - 1];
  }

  /** In an aligned record over distinct items, position k is where both
      lookups of the k-th id land. */
  lemma AlignedLookups(items: seq<MaterialItem>, prices: seq<ItemQuoteEntry>, k: int)
    requires Aligned(prices, items) && Seqs.DistinctIds(items, ItemId)
    requires 0 <= k < |items|
    ensures PriceFor(prices, items[k].id) == prices[k].unitPrice
    ensures QuantityFor(items, prices[k].itemId) == items[k].quantity
  {
    var id := items[k].id;
    forall j | 0 <= j < k
      ensures EntryItemId(prices[j]) != id && ItemId(items[j]) != id
    {
      assert ItemId(items[j]) != ItemId(items[k]);
    }
    Seqs.FindByIdAt(prices, id, EntryItemId, k);
    Seqs.FindByIdAt(items, id, ItemId, k);
  }

  /** The total shown while the form is filled equals the total that is
      saved, as long as the price record is aligned with distinct items
      (which opening the form and typing prices maintain). */
  lemma PreviewMatchesSaved(items: seq<MaterialItem>, form: QuoteForm)
    requires Aligned(form.itemPrices, items) && Seqs.DistinctIds(items, ItemId)
    ensures PreviewTotal(items, form) == QuoteTotal(items, form)
  {
    SubtotalsAgree(items, form.itemPrices, |items|);
    assert items[..|items|] == items;
    assert form.itemPrices[..|items|] == form.itemPrices;
  }

  /** A freshly opened form prices every item at 0, so its total is 0. */
  lemma {:induction false} InitialFormTotalsZero(items: seq<MaterialItem>)
    ensures ItemsSubtotal(items, InitialPrices(items)) == 0.0
  {
    ZeroPricesSubtotal(items, InitialPrices(items), items);
  }

  lemma {:induction false} ZeroPricesSubtotal(items: seq<MaterialItem>, prices: seq<ItemQuoteEntry>, all: seq<MaterialItem>)
    requires prices == InitialPrices(all)
    ensures ItemsSubtotal(items, prices) == 0.0
  {
    if |items| > 0 {
      ZeroPricesSubtotal(items[..|items| - 1], prices, all);
      InitialPricesAreZero(all, items[|items| - 1].id);
    }
  }

  lemma {:induction false} InitialPricesAreZero(items: seq<MaterialItem>, id: string)
    ensures PriceFor(InitialPrices(items), id) == 0.0
  {
    if |items| > 0 {
      var front := InitialPrices(items[..|items| - 1]);
      InitialPricesAreZero(items[..|items| - 1], id);
      if id != items[|items| - 1].id {
        SetPriceOther(front, items[|items| - 1].id, 0.0, id);
      }
    }
  }

  /** Setting one key leaves the price of every other key as it was. */
  lemma SetPriceOther(prices: seq<ItemQuoteEntry>, key: string, price: real, id: string)
    requires id != key
    ensures PriceFor(SetPrice(prices, key, price), id) == PriceFor(prices, id)
  {
    var r := SetPrice(prices, key, price);
    var k := Seqs.FindById(prices, id, EntryItemId);
    var k' := Seqs.FindById(r, id, EntryItemId);
    var j := Seqs.FindById(prices, key, EntryItemId);
    if k >= 0 {
      assert r[k] == prices[k];
      assert k' == k;
    } else {
      assert k' == -1;
    }
  }

  // ---------------------------------------------------------------------
  // Transitions of one requisition

  /** What a handler passes to `onUpdateOrder`: no call, one new order
      value, or a TypeError thrown before the call. */
  datatype Outcome = NoUpdate | Update(order: MaterialOrder) | TypeError

  /** The new quote built by `handleSaveQuote`. */
  function NewQuote(items: seq<MaterialItem>, form: QuoteForm, quoteId: string): OrderQuote {
    OrderQuote(quoteId, form.supplierId, QuoteTotal(items, form), form.deliveryDays, false,
               None, None, None, form.isFreightIncluded, Some(form.freightCost),
               Some(form.billingTerms), form.itemPrices)
  }

  /** The status after a save: ready from the third quote on. */
  function StatusForCount(n: nat): OrderStatus {
    if n >= 3 then ReadyForApproval else PendingQuotes
  }

  /** `handleSaveQuote` on the requisition in view. */
  function SavingQuote(o: MaterialOrder, form: QuoteForm, quoteId: string): (r: Outcome)
    ensures r == NoUpdate <==> form.supplierId == ""
    ensures r != TypeError
    ensures r.Update? ==>
      var qs := o.orderQuotes;
      var qs' := r.order.orderQuotes;
      |qs'| == |qs| + 1 && qs'[..|qs|] == qs
      && qs'[|qs|].id == quoteId && qs'[|qs|].supplierId == form.supplierId
      && !qs'[|qs|].isSelected && qs'[|qs|].totalPrice == QuoteTotal(o.items, form)
      && qs'[|qs|].deliveryDays == form.deliveryDays
      && qs'[|qs|].isFreightIncluded == form.isFreightIncluded
      && qs'[|qs|].freightCost == Some(form.freightCost)
      && qs'[|qs|].billingTerms == Some(form.billingTerms)
      && qs'[|qs|].itemPrices == form.itemPrices
      && qs'[|qs|].justification.None? && qs'[|qs|].paymentMethod.None? && qs'[|qs|].observations.None?
      && (r.order.status == ReadyForApproval <==> |qs'| >= 3)
      && (r.order.status == PendingQuotes <==> |qs'| < 3)
      && r.order == o.(orderQuotes := qs', status := r.order.status)
  {
    if form.supplierId == "" then NoUpdate
    else
      var qs' := o.orderQuotes + [NewQuote(o.items, form, quoteId)];
      assert qs'[..|o.orderQuotes|] == o.orderQuotes;
      Update(o.(orderQuotes := qs', status := StatusForCount(|qs'|)))
  }

  /** The status after a save depends on the quote count only: a rejected
      or an approved requisition goes back to awaiting quotes or to ready. */
  lemma SaveQuoteIgnoresStatus(o: MaterialOrder, s: OrderStatus, form: QuoteForm, quoteId: string)
    ensures SavingQuote(o.(status := s), form, quoteId) == SavingQuote(o, form, quoteId)
  {
  }

  /** A new quote is never selected, so saving one keeps the cost of a
      requisition that has a selection. */
  lemma SaveQuoteKeepsSelectedCost(o: MaterialOrder, form: QuoteForm, quoteId: string, k: int)
    requires FirstSelected(o.orderQuotes, k) && form.supplierId != ""
    ensures TotalOrderCost(SavingQuote(o, form, quoteId).order) == TotalOrderCost(o)
  {
    var qs' := SavingQuote(o, form, quoteId).order.orderQuotes;
    assert qs'[k] == o.orderQuotes[k];
    assert FirstSelected(qs', k);
  }

  /** Without a selection, saving a quote makes the cost the lower of the
      old cost and the new quote's price. */
  lemma SaveQuoteCostIsMin(o: MaterialOrder, form: QuoteForm, quoteId: string)
    requires NoneSelected(o.orderQuotes) && |o.orderQuotes| > 0 && form.supplierId != ""
    ensures var c := TotalOrderCost(SavingQuote(o, form, quoteId).order);
            var p := QuoteTotal(o.items, form);
            c == (if p < TotalOrderCost(o) then p else TotalOrderCost(o))
  {
    var qs := o.orderQuotes;
    var qs' := SavingQuote(o, form, quoteId).order.orderQuotes;
    assert forall j :: 0 <= j < |qs| ==> qs'[j] == qs[j];
    assert NoneSelected(qs');
    var c := TotalOrderCost(o);
    var c' := TotalOrderCost(SavingQuote(o, form, quoteId).order);
    var i :| 0 <= i < |qs| && qs[i].totalPrice == c;
    var i' :| 0 <= i' < |qs'| && qs'[i'].totalPrice == c';
    assert qs'[i].totalPrice == c;
    assert c' <= qs'[|qs|].totalPrice;
  }

  /** Three saved quotes make a new requisition ready for approval. */
  lemma ThirdQuoteMakesReady(o: MaterialOrder, f1: QuoteForm, f2: QuoteForm, f3: QuoteForm, q1: string, q2: string, q3: string)
    requires |o.orderQuotes| == 0
    requires f1.supplierId != "" && f2.supplierId != "" && f3.supplierId != ""
    ensures var r1 := SavingQuote(o, f1, q1).order;
            var r2 := SavingQuote(r1, f2, q2).order;
            var r3 := SavingQuote(r2, f3, q3);
            r1.status == PendingQuotes && r2.status == PendingQuotes
            && r3.Update? && r3.order.status == ReadyForApproval && |r3.order.orderQuotes| == 3
  {
  }

  function SelectedAs(qs: seq<OrderQuote>, quoteId: string): (r: seq<OrderQuote>)
    ensures |r| == |qs|
  {
    seq(|qs|, i requires 0 <= i < |qs| => qs[i].(isSelected := qs[i].id == quoteId))
  }

  /** `handleSelectQuote` on a found requisition: refused once approved;
      otherwise every quote is marked selected exactly when its id is the
      chosen id. */
  function SelectingQuote(o: MaterialOrder, quoteId: string): (r: Outcome)
    ensures r == NoUpdate <==> o.status == Approved
    ensures r != TypeError
    ensures r.Update? ==>
      r.order == o.(orderQuotes := r.order.orderQuotes) && |r.order.orderQuotes| == |o.orderQuotes|
      && forall i :: 0 <= i < |o.orderQuotes| ==>
           r.order.orderQuotes[i].(isSelected := o.orderQuotes[i].isSelected) == o.orderQuotes[i]
           && (r.order.orderQuotes[i].isSelected <==> o.orderQuotes[i].id == quoteId)
  {
    if o.status == Approved then NoUpdate
    else Update(o.(orderQuotes := SelectedAs(o.orderQuotes, quoteId)))
  }

  predicate AtMostOneSelected(qs: seq<OrderQuote>) {
    forall i, j :: 0 <= i < |qs| && 0 <= j < |qs| && qs[i].isSelected && qs[j].isSelected ==> i == j
  }

  function QuoteId(q: OrderQuote): string {
    q.id
  }

  /** With distinct quote ids, selecting a quote that exists leaves it the
      only selected quote and makes its price the requisition's cost. */
  lemma SelectQuoteMakesItTheCost(o: MaterialOrder, k: int)
    requires o.status != Approved
    requires Seqs.DistinctIds(o.orderQuotes, QuoteId) && 0 <= k < |o.orderQuotes|
    ensures var r := SelectingQuote(o, o.orderQuotes[k].id);
            r.Update? && AtMostOneSelected(r.order.orderQuotes)
            && FirstSelected(r.order.orderQuotes, k)
            && TotalOrderCost(r.order) == o.orderQuotes[k].totalPrice
  {
    var qs := o.orderQuotes;
    var qs' := SelectingQuote(o, qs[k].id).order.orderQuotes;
    forall i | 0 <= i < |qs| && i != k
      ensures !qs'[i].isSelected
    {
      assert i < k ==> QuoteId(qs[i]) != QuoteId(qs[k]);
      assert i > k ==> QuoteId(qs[k]) != QuoteId(qs[i]);
    }
    assert FirstSelected(qs', k);
  }

  /** Selecting an id no quote has clears the selection. */
  lemma SelectUnknownQuoteClears(o: MaterialOrder, quoteId: string)
    requires o.status != Approved
    requires forall i :: 0 <= i < |o.orderQuotes| ==> o.orderQuotes[i].id != quoteId
    ensures NoneSelected(SelectingQuote(o, quoteId).order.orderQuotes)
  {
  }

  /** Selecting the same quote twice is the same as selecting it once. */
  lemma SelectQuoteIdempotent(o: MaterialOrder, quoteId: string)
    requires o.status != Approved
    ensures SelectingQuote(SelectingQuote(o, quoteId).order, quoteId) == SelectingQuote(o, quoteId)
  {
    var once := SelectingQuote(o, quoteId).order;
    assert SelectedAs(once.orderQuotes, quoteId) == once.orderQuotes;
  }

  /** The two quote fields the commercial-details panel edits. */
  datatype QuoteField = PaymentMethod | Observations

  function WithDetail(q: OrderQuote, field: QuoteField, value: string): OrderQuote {
    match field
    case PaymentMethod => q.(paymentMethod := Some(value))
    case Observations => q.(observations := Some(value))
  }

  function DetailedAs(qs: seq<OrderQuote>, quoteId: string, field: QuoteField, value: string): (r: seq<OrderQuote>)
    ensures |r| == |qs|
  {
    seq(|qs|, i requires 0 <= i < |qs| => if qs[i].id == quoteId then WithDetail(qs[i], field, value) else qs[i])
  }

  /** `handleUpdateQuoteDetails` on a found requisition: refused once
      approved; otherwise the chosen field of the quotes with that id takes
      the value and nothing else changes. */
  function UpdatingQuoteDetails(o: MaterialOrder, quoteId: string, field: QuoteField, value: string): (r: Outcome)
    ensures r == NoUpdate <==> o.status == Approved
    ensures r != TypeError
    ensures r.Update? ==>
      r.order == o.(orderQuotes := r.order.orderQuotes) && |r.order.orderQuotes| == |o.orderQuotes|
      && forall i :: 0 <= i < |o.orderQuotes| ==>
           var q := o.orderQuotes[i];
           var q' := r.order.orderQuotes[i];
           (q.id != quoteId ==> q' == q)
           && (q.id == quoteId && field == PaymentMethod ==> q' == q.(paymentMethod := Some(value)))
           && (q.id == quoteId && field == Observations ==> q' == q.(observations := Some(value)))
  {
    if o.status == Approved then NoUpdate
    else Update(o.(orderQuotes := DetailedAs(o.orderQuotes, quoteId, field, value)))
  }

  /** Editing the commercial details changes neither the selection, the
      prices, the status nor therefore the cost. */
  lemma UpdateDetailsKeepsCost(o: MaterialOrder, quoteId: string, field: QuoteField, value: string)
    requires o.status != Approved
    ensures var o' := UpdatingQuoteDetails(o, quoteId, field, value).order;
            o'.status == o.status && TotalOrderCost(o') == TotalOrderCost(o)
  {
    var qs := o.orderQuotes;
    var qs' := UpdatingQuoteDetails(o, quoteId, field, value).order.orderQuotes;
    assert forall i :: 0 <= i < |qs| ==> qs'[i].isSelected == qs[i].isSelected && qs'[i].totalPrice == qs[i].totalPrice;
    var k := SelectedIndex(qs);
    if k >= 0 {
      assert FirstSelected(qs', k);
    } else if |qs| > 0 {
      assert NoneSelected(qs');
      var c := TotalOrderCost(o);
      var c' := TotalOrderCost(o.(orderQuotes := qs'));
      var i :| 0 <= i < |qs| && qs[i].totalPrice == c;
      var i' :| 0 <= i' < |qs'| && qs'[i'].totalPrice == c';
      assert c <= qs[i'].totalPrice && c' <= qs'[i].totalPrice;
    }
  }

  /** The Approve button (lines 389 and 406): shown before approval and
      enabled with at least three quotes and a selected quote that has a
      payment method. */
  predicate ApproveEnabled(o: MaterialOrder) {
    var k := SelectedIndex(o.orderQuotes);
    o.status != Approved && |o.orderQuotes| >= 3 && k >= 0 && IsSet(o.orderQuotes[k].paymentMethod)
  }

  /** Choosing a payment method for the selected quote of a requisition
      with three quotes enables approval; choosing the empty option
      disables it. */
  lemma PaymentMethodEnablesApproval(o: MaterialOrder, k: int, value: string)
    requires o.status != Approved && |o.orderQuotes| >= 3
    requires Seqs.DistinctIds(o.orderQuotes, QuoteId) && FirstSelected(o.orderQuotes, k)
    ensures var o' := UpdatingQuoteDetails(o, o.orderQuotes[k].id, PaymentMethod, value).order;
            ApproveEnabled(o') <==> value != ""
  {
    var qs := o.orderQuotes;
    var qs' := UpdatingQuoteDetails(o, qs[k].id, PaymentMethod, value).order.orderQuotes;
    assert FirstSelected(qs', k);
    assert qs'[k].paymentMethod == Some(value);
  }

  /** `quotes.findIndex(q => q.totalPrice === minPrice)`. */
  function CheapestIndex(qs: seq<OrderQuote>): (k: int)
    requires |qs| > 0
    ensures 0 <= k < |qs| && qs[k].totalPrice == MinPrice(qs)
    ensures forall j :: 0 <= j < k ==> qs[j].totalPrice != MinPrice(qs)
  {
    var m := MinPrice(qs);
    Seqs.FindIndex(qs, (q: OrderQuote) => q.totalPrice == m)
  }

  /** `handleApproveOrder` on a found requisition. Without a selection the
      first cheapest quote is marked selected (with no quote at all the
      marking dereferences index -1 and throws); then the status becomes
      APPROVED. */
  function ApproveOrder(o: MaterialOrder): (r: Outcome)
    ensures r != NoUpdate
    ensures r == TypeError <==> |o.orderQuotes| == 0
    ensures r.Update? ==>
      r.order.status == Approved && SelectedIndex(r.order.orderQuotes) >= 0
      && TotalOrderCost(r.order) == TotalOrderCost(o)
  {
    var qs := o.orderQuotes;
    var k := SelectedIndex(qs);
    if k >= 0 then
      Update(o.(status := Approved))
    else if |qs| == 0 then
      TypeError
    else
      var c := CheapestIndex(qs);
      var qs' := qs[c := qs[c].(isSelected := true)];
      assert FirstSelected(qs', c);
      Update(o.(orderQuotes := qs', status := Approved))
  }

  /** Approving without a selection selects exactly the first quote at the
      lowest price and changes nothing else in the quotes. */
  lemma ApproveSelectsCheapest(o: MaterialOrder)
    requires NoneSelected(o.orderQuotes) && |o.orderQuotes| > 0
    ensures var o' := ApproveOrder(o).order;
            var k := SelectedIndex(o'.orderQuotes);
            AtMostOneSelected(o'.orderQuotes) && k >= 0
            && o'.orderQuotes == o.orderQuotes[k := o.orderQuotes[k].(isSelected := true)]
            && IsMinPrice(o.orderQuotes, o.orderQuotes[k].totalPrice)
            && forall j :: 0 <= j < k ==> o.orderQuotes[j].totalPrice > o.orderQuotes[k].totalPrice
  {
    var qs := o.orderQuotes;
    var c := CheapestIndex(qs);
    var qs' := ApproveOrder(o).order.orderQuotes;
    assert FirstSelected(qs', c);
    assert SelectedIndex(qs') == c;
  }

  /** Approving keeps an existing selection and only sets the status. */
  lemma ApproveKeepsSelection(o: MaterialOrder)
    requires !NoneSelected(o.orderQuotes)
    ensures ApproveOrder(o) == Update(o.(status := Approved))
  {
  }

  /** Whenever the Approve button is enabled, approving only sets the
      status: the automatic cheapest-quote selection is never reached from
      the button, and the approved order carries a payment method. */
  lemma EnabledApprovalOnlySetsStatus(o: MaterialOrder)
    requires ApproveEnabled(o)
    ensures ApproveOrder(o) == Update(o.(status := Approved))
    ensures var qs := ApproveOrder(o).order.orderQuotes; IsSet(qs[SelectedIndex(qs)].paymentMethod)
  {
  }

  /** `handleRejectOrder` on a found requisition. */
  function RejectOrder(o: MaterialOrder): MaterialOrder {
    o.(status := Rejected)
  }

  // ---------------------------------------------------------------------
  // The handlers, looking the requisition up in the order list

  function OrderId(o: MaterialOrder): string {
    o.id
  }

  /** `handleSaveQuote`: acts on the requisition in view, if any. */
  function HandleSaveQuote(orders: seq<MaterialOrder>, viewingOrderId: string, form: QuoteForm, quoteId: string): (r: Outcome)
    ensures (forall i :: 0 <= i < |orders| ==> orders[i].id != viewingOrderId) ==> r == NoUpdate
    ensures r.Update? ==> r.order.id == viewingOrderId && |r.order.orderQuotes| >= 1
    ensures forall k :: 0 <= k < |orders| && orders[k].id == viewingOrderId
                        && (forall j :: 0 <= j < k ==> orders[j].id != viewingOrderId)
                        ==> r == SavingQuote(orders[k], form, quoteId)
  {
    var k := Seqs.FindById(orders, viewingOrderId, OrderId);
    if k < 0 then NoUpdate else SavingQuote(orders[k], form, quoteId)
  }

  function HandleSelectQuote(orders: seq<MaterialOrder>, orderId: string, quoteId: string): (r: Outcome)
    ensures (forall i :: 0 <= i < |orders| ==> orders[i].id != orderId) ==> r == NoUpdate
    ensures r.Update? ==> r.order.id == orderId && r.order.status != Approved
    ensures forall k :: 0 <= k < |orders| && orders[k].id == orderId
                        && (forall j :: 0 <= j < k ==> orders[j].id != orderId)
                        ==> r == SelectingQuote(orders[k], quoteId)
  {
    var k := Seqs.FindById(orders, orderId, OrderId);
    if k < 0 then NoUpdate else SelectingQuote(orders[k], quoteId)
  }

  function HandleUpdateQuoteDetails(orders: seq<MaterialOrder>, orderId: string, quoteId: string, field: QuoteField, value: string): (r: Outcome)
    ensures (forall i :: 0 <= i < |orders| ==> orders[i].id != orderId) ==> r == NoUpdate
    ensures r.Update? ==> r.order.id == orderId && r.order.status != Approved
    ensures forall k :: 0 <= k < |orders| && orders[k].id == orderId
                        && (forall j :: 0 <= j < k ==> orders[j].id != orderId)
                        ==> r == UpdatingQuoteDetails(orders[k], quoteId, field, value)
  {
    var k := Seqs.FindById(orders, orderId, OrderId);
    if k < 0 then NoUpdate else UpdatingQuoteDetails(orders[k], quoteId, field, value)
  }

  /** `handleApproveOrder`: the update and, when given, the approval
      callback both receive the returned order. */
  function HandleApproveOrder(orders: seq<MaterialOrder>, orderId: string): (r: Outcome)
    ensures (forall i :: 0 <= i < |orders| ==> orders[i].id != orderId) ==> r == NoUpdate
    ensures r.Update? ==> r.order.id == orderId && r.order.status == Approved
    ensures forall k :: 0 <= k < |orders| && orders[k].id == orderId
                        && (forall j :: 0 <= j < k ==> orders[j].id != orderId)
                        ==> r == ApproveOrder(orders[k])
  {
    var k := Seqs.FindById(orders, orderId, OrderId);
    if k < 0 then NoUpdate else ApproveOrder(orders[k])
  }

  function HandleRejectOrder(orders: seq<MaterialOrder>, orderId: string): (r: Outcome)
    ensures (forall i :: 0 <= i < |orders| ==> orders[i].id != orderId) <==> r == NoUpdate
    ensures r.Update? ==> r.order.id == orderId && r.order.status == Rejected
    ensures forall k :: 0 <= k < |orders| && orders[k].id == orderId
                        && (forall j :: 0 <= j < k ==> orders[j].id != orderId)
                        ==> r == Update(orders[k].(status := Rejected))
    ensures r != TypeError
  {
    var k := Seqs.FindById(orders, orderId, OrderId);
    if k < 0 then NoUpdate else Update(RejectOrder(orders[k]))
  }

  // ---------------------------------------------------------------------
  // One requisition object, updated in place

  /** A requisition whose quote list is an array; `Value()` is the record
      the rest of the application reads. */
  class Requisition {
    var id: string
    var projectId: string
    var requestDate: Instant
    var status: OrderStatus
    var requestedBy: string
    var items: seq<MaterialItem>
    var quotes: array<OrderQuote>

    function Value(): MaterialOrder
      reads this, quotes
    {
      MaterialOrder(id, projectId, requestDate, status, requestedBy, items, quotes[..])
    }

    constructor (o: MaterialOrder)
      ensures Value() == o
    {
      id := o.id;
      projectId := o.projectId;
      requestDate := o.requestDate;
      status := o.status;
      requestedBy := o.requestedBy;
      items := o.items;
      quotes := new OrderQuote[|o.orderQuotes|](i requires 0 <= i < |o.orderQuotes| => o.orderQuotes[i]);
    }

    /** `[...orderQuotes, newQuote]` is a new list. */
    method SaveQuote(form: QuoteForm, quoteId: string)
      modifies this
      ensures var r := SavingQuote(old(Value()), form, quoteId);
              Value() == if r.Update? then r.order else old(Value())
      ensures form.supplierId != "" ==> fresh(quotes)
      ensures form.supplierId == "" ==> quotes == old(quotes)
    {
      if form.supplierId == "" {
        return;
      }
      var s := quotes[..] + [NewQuote(items, form, quoteId)];
      var a := new OrderQuote[|s|](i requires 0 <= i < |s| => s[i]);
      quotes := a;
      status := StatusForCount(a.Length);
    }

    /** `orderQuotes.map(...)` is a new list. */
    method SelectQuote(quoteId: string)
      modifies this
      ensures var r := SelectingQuote(old(Value()), quoteId);
              Value() == if r.Update? then r.order else old(Value())
      ensures old(status) != Approved ==> fresh(quotes)
      ensures old(status) == Approved ==> quotes == old(quotes)
    {
      if status == Approved {
        return;
      }
      var s := SelectedAs(quotes[..], quoteId);
      quotes := new OrderQuote[|s|](i requires 0 <= i < |s| => s[i]);
    }

    /** The `map` at the update is a new list too. */
    method UpdateQuoteDetails(quoteId: string, field: QuoteField, value: string)
      modifies this
      ensures var r := UpdatingQuoteDetails(old(Value()), quoteId, field, value);
              Value() == if r.Update? then r.order else old(Value())
      ensures old(status) != Approved ==> fresh(quotes)
      ensures old(status) == Approved ==> quotes == old(quotes)
    {
      if status == Approved {
        return;
      }
      var s := DetailedAs(quotes[..], quoteId, field, value);
      quotes := new OrderQuote[|s|](i requires 0 <= i < |s| => s[i]);
    }

    /** Marks the cheapest quote in the existing list (the same array
      object) when nothing is selected, then approves; `ok` is false where
      the source throws, and then nothing has changed. */
    method Approve() returns (ok: bool)
      modifies this, quotes
      ensures quotes == old(quotes)
      ensures ok <==> ApproveOrder(old(Value())).Update?
      ensures ok ==> Value() == ApproveOrder(old(Value())).order
      ensures !ok ==> Value() == old(Value())
    {
      var k := SelectedIndex(quotes[..]);
      if k < 0 {
        if quotes.Length == 0 {
          return false;
        }
        var c := CheapestIndex(quotes[..]);
        quotes[c] := quotes[c].(isSelected := true);
      }
      status := Approved;
      ok := true;
    }

    method Reject()
      modifies this
      ensures Value() == RejectOrder(old(Value()))
    {
      status := Rejected;
    }
  }
}
