/** Totals grouped by a key, the shape shared by the reports that build a
    record `acc[key] = (acc[key] || 0) + amount` and list it with
    `Object.entries`: keys in the order they were first written, each with
    the sum of its amounts. */
module Grouping {
  import Sorting

  /** One amount to be added under a key. */
  datatype Item<K> = Item(key: K, amount: real)

  /** One entry of the grouped record. */
  datatype Group<K> = Group(key: K, total: real)

  predicate Distinct<K(==)>(ks: seq<K>) {
    forall i, j :: 0 <= i < j < |ks| ==> ks[i] != ks[j]
  }

  /** The record's keys in insertion order: each key once, where it first
      occurs. */
  function Keys<K(==)>(items: seq<Item<K>>): (r: seq<K>)
    ensures Distinct(r)
    ensures forall i :: 0 <= i < |items| ==> items[i].key in r
  {
    if |items| == 0 then []
    else
      var front := Keys(items[..|items| - 1]);
      var x := items[|items| - 1];
      assert forall i :: 0 <= i < |items| - 1 ==> items[..|items| - 1][i] == items[i];
      if x.key in front then front else front + [x.key]
  }

  /** Every key of the record was written by some item. */
  lemma {:induction false} KeysAreWritten<K>(items: seq<Item<K>>)
    ensures forall j :: 0 <= j < |Keys(items)| ==> exists i :: 0 <= i < |items| && items[i].key == Keys(items)[j]
  {
    if |items| > 0 {
      var n := |items| - 1;
      KeysAreWritten(items[..n]);
      var front := Keys(items[..n]);
      assert Keys(items) == if items[n].key in front then front else front + [items[n].key];
      forall j | 0 <= j < |Keys(items)|
        ensures exists i :: 0 <= i < |items| && items[i].key == Keys(items)[j]
      {
        if j < |front| {
          var i :| 0 <= i < n && items[..n][i].key == front[j];
          assert items[i].key == Keys(items)[j];
        } else {
          assert items[n].key == Keys(items)[j];
        }
      }
    } else {
      assert Keys(items) == [];
    }
  }

  /** `acc[k]` once every item has been added. */
  function TotalFor<K(==)>(items: seq<Item<K>>, k: K): real {
    if |items| == 0 then 0.0
    else TotalFor(items[..|items| - 1], k) + (if items[|items| - 1].key == k then items[|items| - 1].amount else 0.0)
  }

  function SumItems<K>(items: seq<Item<K>>): real {
    if |items| == 0 then 0.0 else SumItems(items[..|items| - 1]) + items[|items| - 1].amount
  }

  function SumGroups<K>(gs: seq<Group<K>>): real {
    if |gs| == 0 then 0.0 else SumGroups(gs[..|gs| - 1]) + gs[|gs| - 1].total
  }

  /** The groups of the given keys, in the given order. */
  function GroupsFor<K(==)>(items: seq<Item<K>>, ks: seq<K>): (r: seq<Group<K>>)
    ensures |r| == |ks|
    ensures forall j :: 0 <= j < |ks| ==> r[j] == Group(ks[j], TotalFor(items, ks[j]))
  {
    seq(|ks|, j requires 0 <= j < |ks| => Group(ks[j], TotalFor(items, ks[j])))
  }

  /** `Object.entries(acc)` after the `forEach`. */
  function Grouped<K(==)>(items: seq<Item<K>>): seq<Group<K>> {
    GroupsFor(items, Keys(items))
  }

  /** The record once every item has been added: each key written, with
      its running total. */
  function TotalsMap<K(==)>(items: seq<Item<K>>): map<K, real> {
    if |items| == 0 then map[]
    else
      var m := TotalsMap(items[..|items| - 1]);
      var x := items[|items| - 1];
      m[x.key := (if x.key in m then m[x.key] else 0.0) + x.amount]
  }

  /** The record holds exactly the written keys, each with its total. */
  lemma {:induction false} TotalsMapAgrees<K>(items: seq<Item<K>>)
    ensures forall k :: k in TotalsMap(items) <==> k in Keys(items)
    ensures forall k :: k in TotalsMap(items) ==> TotalsMap(items)[k] == TotalFor(items, k)
  {
    if |items| > 0 {
      var n := |items| - 1;
      TotalsMapAgrees(items[..n]);
      var x := items[n];
      if x.key !in TotalsMap(items[..n]) {
        NotWrittenTotalsZero(items[..n], x.key);
      }
    }
  }

  /** The loop that fills the record, and the listing of its entries. */
  method GroupTotals<K(==)>(items: seq<Item<K>>) returns (groups: seq<Group<K>>)
    ensures groups == Grouped(items)
  {
    var order: seq<K> := [];
    var acc: map<K, real> := map[];
    var i := 0;
    while i < |items|
      invariant 0 <= i <= |items|
      invariant order == Keys(items[..i])
      invariant acc == TotalsMap(items[..i])
    {
      var x := items[i];
      assert items[..i + 1] == items[..i] + [x];
      TotalsMapAgrees(items[..i]);
      KeysSnoc(items[..i], x);
      if x.key in acc {
        acc := acc[x.key := acc[x.key] + x.amount];
      } else {
        order := order + [x.key];
        acc := acc[x.key := x.amount];
      }
      i := i + 1;
    }
    assert items[..i] == items;
    TotalsMapAgrees(items);
    groups := seq(|order|, j requires 0 <= j < |order| => Group(order[j], acc[order[j]]));
  }

  /** The record's keys after one more item. */
  lemma KeysSnoc<K>(items: seq<Item<K>>, x: Item<K>)
    ensures Keys(items + [x]) == if x.key in Keys(items) then Keys(items) else Keys(items) + [x.key]
  {
    assert (items + [x])[..|items|] == items;
  }

  /** A key no item carries has a zero total. */
  lemma {:induction false} NotWrittenTotalsZero<K>(items: seq<Item<K>>, k: K)
    requires k !in Keys(items)
    ensures TotalFor(items, k) == 0.0
  {
    if |items| > 0 {
      NotWrittenTotalsZero(items[..|items| - 1], k);
    }
  }

  /** The keys' totals summed over a list of keys. */
  function SumOverKeys<K(==)>(items: seq<Item<K>>, ks: seq<K>): real {
    if |ks| == 0 then 0.0 else SumOverKeys(items, ks[..|ks| - 1]) + TotalFor(items, ks[|ks| - 1])
  }

  lemma {:induction false} SumGroupsForKeys<K>(items: seq<Item<K>>, ks: seq<K>)
    ensures SumGroups(GroupsFor(items, ks)) == SumOverKeys(items, ks)
  {
    if |ks| > 0 {
      var n := |ks| - 1;
      SumGroupsForKeys(items, ks[..n]);
      assert GroupsFor(items, ks)[..n] == GroupsFor(items, ks[..n]);
    }
  }

  /** What one more item adds to a sum over keys: its amount once for each
      time its key is listed. */
  function Hits<K(==)>(x: Item<K>, ks: seq<K>): real {
    if |ks| == 0 then 0.0 else Hits(x, ks[..|ks| - 1]) + (if ks[|ks| - 1] == x.key then x.amount else 0.0)
  }

  lemma {:induction false} SumOverKeysStep<K>(items: seq<Item<K>>, x: Item<K>, ks: seq<K>)
    ensures SumOverKeys(items + [x], ks) == SumOverKeys(items, ks) + Hits(x, ks)
  {
    if |ks| > 0 {
      SumOverKeysStep(items, x, ks[..|ks| - 1]);
      assert (items + [x])[..|items|] == items;
    }
  }

  lemma {:induction false} HitsOnce<K>(x: Item<K>, ks: seq<K>)
    requires Distinct(ks) && x.key in ks
    ensures Hits(x, ks) == x.amount
  {
    var n := |ks| - 1;
    if ks[n] == x.key {
      assert x.key !in ks[..n];
      HitsNone(x, ks[..n]);
    } else {
      HitsOnce(x, ks[..n]);
    }
  }

  lemma {:induction false} HitsNone<K>(x: Item<K>, ks: seq<K>)
    requires x.key !in ks
    ensures Hits(x, ks) == 0.0
  {
    if |ks| > 0 {
      HitsNone(x, ks[..|ks| - 1]);
    }
  }

  lemma {:induction false} SumOverNoItems<K>(ks: seq<K>)
    ensures SumOverKeys([], ks) == 0.0
  {
    if |ks| > 0 {
      SumOverNoItems(ks[..|ks| - 1]);
    }
  }

  /** Summing the totals of distinct keys that include every item's key
      gives the sum of all the amounts: nothing is lost or counted twice. */
  lemma {:induction false} KeysCoverItems<K>(items: seq<Item<K>>, ks: seq<K>)
    requires Distinct(ks)
    requires forall i :: 0 <= i < |items| ==> items[i].key in ks
    ensures SumOverKeys(items, ks) == SumItems(items)
  {
    if |items| == 0 {
      SumOverNoItems(ks);
    } else {
      var n := |items| - 1;
      var front := items[..n];
      KeysCoverItems(front, ks);
      assert front + [items[n]] == items;
      SumOverKeysStep(front, items[n], ks);
      HitsOnce(items[n], ks);
    }
  }

  /** The grouped totals add up to the sum of all the amounts. */
  lemma GroupedAddsUp<K>(items: seq<Item<K>>)
    ensures SumGroups(Grouped(items)) == SumItems(items)
  {
    SumGroupsForKeys(items, Keys(items));
    KeysCoverItems(items, Keys(items));
  }

  // ---------------------------------------------------------------------
  // Sorting the groups

  /** The comparator `(a, b) => b.total - a.total` reads the total. */
  function TotalValue<K>(g: Group<K>): Sorting.SortValue {
    Sorting.Num(g.total)
  }

  lemma {:induction false} SumGroupsConcat<K>(a: seq<Group<K>>, b: seq<Group<K>>)
    ensures SumGroups(a + b) == SumGroups(a) + SumGroups(b)
  {
    if |b| > 0 {
      var n := |b| - 1;
      assert (a + b)[..|a + b| - 1] == a + b[..n];
      SumGroupsConcat(a, b[..n]);
    } else {
      assert a + b == a;
    }
  }

  /** Taking one group out of a list takes its total out of the sum. */
  lemma SumGroupsRemove<K>(b: seq<Group<K>>, i: int)
    requires 0 <= i < |b|
    ensures SumGroups(b) == SumGroups(b[..i] + b[i + 1..]) + b[i].total
  {
    var left, x, right := b[..i], b[i], b[i + 1..];
    assert b == (left + [x]) + right;
    SumGroupsConcat(left + [x], right);
    assert (left + [x])[..|left|] == left;
    assert SumGroups(left + [x]) == SumGroups(left) + x.total;
    SumGroupsConcat(left, right);
  }

  /** Reordering the groups does not change their sum. */
  lemma {:induction false} SumGroupsPermutation<K>(a: seq<Group<K>>, b: seq<Group<K>>)
    requires multiset(a) == multiset(b)
    ensures SumGroups(a) == SumGroups(b)
    decreases |a|
  {
    if |a| > 0 {
      var n := |a| - 1;
      var x := a[n];
      assert a == a[..n] + [x];
      assert x in multiset(b);
      var i :| 0 <= i < |b| && b[i] == x;
      var rest := b[..i] + b[i + 1..];
      assert b == b[..i] + [x] + b[i + 1..];
      assert multiset(b) == multiset(rest) + multiset{x};
      assert multiset(a) == multiset(a[..n]) + multiset{x};
      assert multiset(a[..n]) == multiset(a) - multiset{x};
      assert multiset(rest) == multiset(b) - multiset{x};
      SumGroupsPermutation(a[..n], rest);
      SumGroupsRemove(b, i);
    }
  }

  /** `[...groups].sort((a, b) => b.total - a.total)`: largest total
      first, the same groups, the same sum. */
  method SortByTotalDesc<K>(groups: seq<Group<K>>) returns (r: seq<Group<K>>)
    ensures Sorting.SortedBy(r, TotalValue, Sorting.Desc)
    ensures forall i, j :: 0 <= i < j < |r| ==> r[i].total >= r[j].total
    ensures multiset(r) == multiset(groups)
    ensures SumGroups(r) == SumGroups(groups)
  {
    r := Sorting.SortedCopy(groups, TotalValue, Sorting.Desc);
    SumGroupsPermutation(r, groups);
  }
}
