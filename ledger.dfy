/** What the payables and receivables screens compute alike from their
    records: the status counts and totals of the statistics cards and the
    overdue test, written over the part of a record they read. */
module Ledger {
  import opened Types
  import Seqs

  /** The fields of an account that the statistics read. */
  datatype Entry = Entry(id: string, status: PaymentStatus, amount: real, dueDate: Day, paymentDate: Option<Day>)

  function Indicator(b: bool): nat {
    if b then 1 else 0
  }

  /** `s.filter(a => a.status === st).length`. */
  function Count(s: seq<Entry>, st: PaymentStatus): (n: nat)
    ensures n <= |s|
  {
    if |s| == 0 then 0 else Count(s[..|s| - 1], st) + Indicator(s[|s| - 1].status == st)
  }

  function AmountIf(e: Entry, st: PaymentStatus): real {
    if e.status == st then e.amount else 0.0
  }

  /** `s.filter(a => a.status === st).reduce((acc, a) => acc + a.amount, 0)`. */
  function Total(s: seq<Entry>, st: PaymentStatus): real {
    if |s| == 0 then 0.0 else Total(s[..|s| - 1], st) + AmountIf(s[|s| - 1], st)
  }

  /** `all.find(a => a.dueDate === d)`, as a position or -1. */
  function FirstDueOn(all: seq<Entry>, d: Day): (k: int)
    ensures -1 <= k < |all|
    ensures k >= 0 ==> all[k].dueDate == d && forall j :: 0 <= j < k ==> all[j].dueDate != d
    ensures k == -1 <==> forall j :: 0 <= j < |all| ==> all[j].dueDate != d
  {
    Seqs.FindIndex(all, (e: Entry) => e.dueDate == d)
  }

  /** `isOverdue(d)`: the day `d` began before the clock's `now` and the
      first account due on `d` (looked up by date, not by account) has no
      payment date. `startOf` gives the instant a day begins. */
  predicate IsOverdue(all: seq<Entry>, d: Day, now: Instant, startOf: Day -> Instant) {
    var k := FirstDueOn(all, d);
    startOf(d) < now && (k == -1 || all[k].paymentDate.None?)
  }

  predicate CountsOverdue(all: seq<Entry>, e: Entry, now: Instant, startOf: Day -> Instant) {
    e.status == Overdue || IsOverdue(all, e.dueDate, now, startOf)
  }

  /** `s.filter(a => a.status === OVERDUE || isOverdue(a.dueDate)).length`,
      the overdue test reading the whole list `all`. */
  function CountOverdue(s: seq<Entry>, all: seq<Entry>, now: Instant, startOf: Day -> Instant): (n: nat)
    ensures n <= |s|
  {
    if |s| == 0 then 0
    else CountOverdue(s[..|s| - 1], all, now, startOf) + Indicator(CountsOverdue(all, s[|s| - 1], now, startOf))
  }

  datatype Stats = Stats(pending: nat, paid: nat, overdue: nat, totalPending: real, totalPaid: real)

  /** The statistics cards: `{ pending, paid, overdue, totalPending, totalPaid }`. */
  function StatsOf(s: seq<Entry>, now: Instant, startOf: Day -> Instant): Stats {
    Stats(Count(s, Pending), Count(s, Paid), CountOverdue(s, s, now, startOf), Total(s, Pending), Total(s, Paid))
  }

  /** Every account has exactly one of the four statuses, so the four
      counts add up to the number of accounts and the pending and paid
      cards never exceed it together. */
  lemma StatusCountsPartition(s: seq<Entry>, now: Instant, startOf: Day -> Instant)
    ensures Count(s, Pending) + Count(s, Paid) + Count(s, Overdue) + Count(s, Cancelled) == |s|
    ensures StatsOf(s, now, startOf).pending + StatsOf(s, now, startOf).paid <= |s|
  {
    CountsPartition(s);
  }

  lemma {:induction false} CountsPartition(s: seq<Entry>)
    ensures Count(s, Pending) + Count(s, Paid) + Count(s, Overdue) + Count(s, Cancelled) == |s|
  {
    if |s| > 0 {
      CountsPartition(s[..|s| - 1]);
    }
  }

  /** Replacing one account changes a count by what leaves and what
      arrives. */
  lemma {:induction false} CountAfterUpdate(s: seq<Entry>, k: int, e: Entry, st: PaymentStatus)
    requires 0 <= k < |s|
    ensures Count(s[k := e], st) + Indicator(s[k].status == st) == Count(s, st) + Indicator(e.status == st)
  {
    var n := |s| - 1;
    if k == n {
      assert s[k := e][..n] == s[..n];
    } else {
      assert s[k := e][..n] == s[..n][k := e];
      CountAfterUpdate(s[..n], k, e, st);
    }
  }

  /** Replacing one account changes a total by what leaves and what
      arrives. */
  lemma {:induction false} TotalAfterUpdate(s: seq<Entry>, k: int, e: Entry, st: PaymentStatus)
    requires 0 <= k < |s|
    ensures Total(s[k := e], st) + AmountIf(s[k], st) == Total(s, st) + AmountIf(e, st)
  {
    var n := |s| - 1;
    if k == n {
      assert s[k := e][..n] == s[..n];
    } else {
      assert s[k := e][..n] == s[..n][k := e];
      TotalAfterUpdate(s[..n], k, e, st);
    }
  }

  /** What marking an account as paid does to it. */
  function PaidEntry(e: Entry, day: Day): Entry {
    e.(status := Paid, paymentDate := Some(day))
  }

  /** Paying a pending account moves it, and its amount, from the pending
      cards to the paid cards. */
  lemma PaymentMovesEntry(s: seq<Entry>, k: int, day: Day, now: Instant, startOf: Day -> Instant)
    requires 0 <= k < |s| && s[k].status == Pending
    ensures var before := StatsOf(s, now, startOf);
            var after := StatsOf(s[k := PaidEntry(s[k], day)], now, startOf);
            after.pending == before.pending - 1 && after.paid == before.paid + 1
            && after.totalPending == before.totalPending - s[k].amount
            && after.totalPaid == before.totalPaid + s[k].amount
  {
    var e := PaidEntry(s[k], day);
    CountAfterUpdate(s, k, e, Pending);
    CountAfterUpdate(s, k, e, Paid);
    TotalAfterUpdate(s, k, e, Pending);
    TotalAfterUpdate(s, k, e, Paid);
  }

  /** The overdue test looks the date up: once the first account due on a
      day has been paid, no account due that day is overdue, paid or not. */
  lemma OverdueLooksUpByDate(all: seq<Entry>, i: int, j: int, now: Instant, startOf: Day -> Instant)
    requires 0 <= i < j < |all| && all[i].dueDate == all[j].dueDate
    requires forall p :: 0 <= p < i ==> all[p].dueDate != all[i].dueDate
    requires all[i].paymentDate.Some?
    ensures !IsOverdue(all, all[j].dueDate, now, startOf)
  {
  }

  /** Conversely, when the first account due on a past day has no payment
      date, every account due that day counts as overdue, a paid one
      included. */
  lemma PastUnpaidDayFlagsAll(all: seq<Entry>, i: int, j: int, now: Instant, startOf: Day -> Instant)
    requires 0 <= i < |all| && 0 <= j < |all| && all[i].dueDate == all[j].dueDate
    requires forall p :: 0 <= p < i ==> all[p].dueDate != all[i].dueDate
    requires all[i].paymentDate.None? && startOf(all[i].dueDate) < now
    ensures CountsOverdue(all, all[j], now, startOf)
  {
  }

  /** The red highlight on a due date: overdue and still pending. */
  predicate Highlighted(all: seq<Entry>, e: Entry, now: Instant, startOf: Day -> Instant) {
    IsOverdue(all, e.dueDate, now, startOf) && e.status == Pending
  }

  /** The "mark as paid" button is offered for pending accounts only. */
  predicate PayActionShown(e: Entry) {
    e.status == Pending
  }

  /** A highlighted account can always be paid, and a highlighted account
      of the list is one the overdue card counts. */
  lemma {:induction false} HighlightedIsPayableAndCounted(s: seq<Entry>, k: int, now: Instant, startOf: Day -> Instant)
    requires 0 <= k < |s| && Highlighted(s, s[k], now, startOf)
    ensures PayActionShown(s[k])
    ensures StatsOf(s, now, startOf).overdue >= 1
  {
    CountOverdueAtLeastOne(s, s, k, now, startOf);
  }

  lemma {:induction false} CountOverdueAtLeastOne(s: seq<Entry>, all: seq<Entry>, k: int, now: Instant, startOf: Day -> Instant)
    requires 0 <= k < |s| && CountsOverdue(all, s[k], now, startOf)
    ensures CountOverdue(s, all, now, startOf) >= 1
  {
    if k < |s| - 1 {
      CountOverdueAtLeastOne(s[..|s| - 1], all, k, now, startOf);
    }
  }
}
