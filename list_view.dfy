/** Sorting state, pagination and page navigation, written identically in
    the suppliers, materials and receivables screens. */
module ListView {
  import opened Types
  import Sorting

  datatype SortConfig<K> = SortConfig(key: K, direction: Sorting.Direction)

  /** `requestSort(key)`: descending only when the same key is currently
      ascending, ascending otherwise. */
  function RequestSort<K(==)>(current: Option<SortConfig<K>>, key: K): (r: SortConfig<K>)
    ensures r.key == key
    ensures r.direction == Sorting.Desc <==> current == Some(SortConfig(key, Sorting.Asc))
  {
    if current.Some? && current.value.key == key && current.value.direction == Sorting.Asc
    then SortConfig(key, Sorting.Desc)
    else SortConfig(key, Sorting.Asc)
  }

  /** From any state but (key, ascending), clicking a column sorts it
      ascending, a second click descending and a third ascending again. */
  lemma RequestSortCycle<K>(current: Option<SortConfig<K>>, key: K)
    requires current != Some(SortConfig(key, Sorting.Asc))
    ensures var once := RequestSort(current, key);
            var twice := RequestSort(Some(once), key);
            var thrice := RequestSort(Some(twice), key);
            once == SortConfig(key, Sorting.Asc)
            && twice == SortConfig(key, Sorting.Desc)
            && thrice == SortConfig(key, Sorting.Asc)
  {
  }

  /** From every state, the second click on a column flips the direction
      the first click gave. */
  lemma RequestSortFlips<K>(current: Option<SortConfig<K>>, key: K)
    ensures var once := RequestSort(current, key);
            var twice := RequestSort(Some(once), key);
            twice.key == key && twice.direction != once.direction
  {
  }

  /** `Math.ceil(n / k)`. */
  function TotalPages(n: nat, k: nat): (r: nat)
    requires k >= 1
    ensures r * k >= n
    ensures r > 0 ==> (r - 1) * k < n
    ensures r == 0 <==> n == 0
  {
    if n == 0 then 0 else 1 + TotalPages(if n <= k then 0 else n - k, k)
  }

  function Min(a: int, b: int): int {
    if a <= b then a else b
  }

  /** Where page `p` starts. */
  function Offset(p: int, k: int): (r: nat)
    requires p >= 1 && k >= 1
    ensures r == (p - 1) * k
  {
    (p - 1) * k
  }

  /** `s.slice((p - 1) * k, (p - 1) * k + k)`; the current page is always at
      least 1. */
  function Page<T>(s: seq<T>, p: int, k: int): (r: seq<T>)
    requires p >= 1 && k >= 1
    ensures |r| <= k
    ensures Offset(p, k) <= |s| ==> |r| == Min(k, |s| - Offset(p, k))
    ensures Offset(p, k) >= |s| ==> r == []
    ensures forall i :: 0 <= i < |r| ==> Offset(p, k) + i < |s| && r[i] == s[Offset(p, k) + i]
  {
    var start := Offset(p, k);
    var lo := Min(start, |s|);
    var hi := Min(start + k, |s|);
    s[lo..hi]
  }

  /** The pages 1..m, one after the other. */
  function PagesUpTo<T>(s: seq<T>, k: int, m: nat): seq<T>
    requires k >= 1
  {
    if m == 0 then [] else PagesUpTo(s, k, m - 1) + Page(s, m, k)
  }

  lemma {:induction false} PagesUpToPrefix<T>(s: seq<T>, k: int, m: nat)
    requires k >= 1
    ensures PagesUpTo(s, k, m) == s[..Min(m * k, |s|)]
  {
    if m > 0 {
      PagesUpToPrefix(s, k, m - 1);
      assert (m - 1) * k + k == m * k;
      var lo := Min((m - 1) * k, |s|);
      var hi := Min(m * k, |s|);
      assert s[..lo] + s[lo..hi] == s[..hi];
    }
  }

  /** Reading pages 1 to totalPages in turn shows every record once, in
      order: pagination loses and repeats nothing. */
  lemma PagesCoverList<T>(s: seq<T>, k: int)
    requires k >= 1
    ensures PagesUpTo(s, k, TotalPages(|s|, k)) == s
  {
    PagesUpToPrefix(s, k, TotalPages(|s|, k));
  }

  function Max(a: int, b: int): int {
    if a >= b then a else b
  }

  /** The "previous" button: disabled on page 1, else `max(1, p - 1)`. */
  function PrevPage(p: int): (r: int)
    requires p >= 1
    ensures r >= 1
    ensures p == 1 ==> r == 1
    ensures p > 1 ==> r == p - 1
  {
    if p == 1 then p else Max(1, p - 1)
  }

  /** The "next" button: disabled on the last page or when there are no
      pages, else `min(totalPages, p + 1)`. */
  function NextPage(p: int, totalPages: nat): (r: int)
    requires p >= 1
    ensures r >= 1
    ensures totalPages == 0 || p == totalPages ==> r == p
    ensures p < totalPages ==> r == p + 1
    ensures p > totalPages > 0 ==> r == totalPages
  {
    if p == totalPages || totalPages == 0 then p else Min(totalPages, p + 1)
  }

  /** Navigation keeps a page that is in range in range. */
  lemma NavigationStaysInRange(p: int, totalPages: nat)
    requires 1 <= p <= Max(totalPages, 1)
    ensures 1 <= PrevPage(p) <= Max(totalPages, 1)
    ensures 1 <= NextPage(p, totalPages) <= Max(totalPages, 1)
  {
  }

  /** The `currentPage` / `itemsPerPage` state of a list screen. */
  class Pager {
    var currentPage: int
    var itemsPerPage: int

    predicate Valid()
      reads this
    {
      currentPage >= 1 && itemsPerPage >= 1
    }

    constructor (itemsPerPage: int)
      requires itemsPerPage >= 1
      ensures Valid() && currentPage == 1 && this.itemsPerPage == itemsPerPage
    {
      currentPage := 1;
      this.itemsPerPage := itemsPerPage;
    }

    method Prev()
      requires Valid()
      modifies this
      ensures Valid()
      ensures currentPage == PrevPage(old(currentPage)) && itemsPerPage == old(itemsPerPage)
    {
      if currentPage != 1 {
        currentPage := Max(1, currentPage - 1);
      }
    }

    method Next(totalPages: nat)
      requires Valid()
      modifies this
      ensures Valid()
      ensures currentPage == NextPage(old(currentPage), totalPages) && itemsPerPage == old(itemsPerPage)
    {
      if !(currentPage == totalPages || totalPages == 0) {
        currentPage := Min(totalPages, currentPage + 1);
      }
    }

    /** The effect that runs when the search term (or a filter) changes. */
    method ResetPage()
      requires Valid()
      modifies this
      ensures Valid() && currentPage == 1 && itemsPerPage == old(itemsPerPage)
    {
      currentPage := 1;
    }

    /** Choosing a page size; the effect then returns to page 1. */
    method SetItemsPerPage(k: int)
      requires Valid() && k >= 1
      modifies this
      ensures Valid() && currentPage == 1 && itemsPerPage == k
    {
      itemsPerPage := k;
      currentPage := 1;
    }

    /** The records shown on the current page. */
    function Shown<T>(s: seq<T>): (r: seq<T>)
      requires Valid()
      reads this
      ensures |r| <= itemsPerPage
      ensures Offset(currentPage, itemsPerPage) <= |s| ==>
        |r| == Min(itemsPerPage, |s| - Offset(currentPage, itemsPerPage))
      ensures Offset(currentPage, itemsPerPage) >= |s| ==> r == []
      ensures forall i :: 0 <= i < |r| ==>
        Offset(currentPage, itemsPerPage) + i < |s| && r[i] == s[Offset(currentPage, itemsPerPage) + i]
    {
      Page(s, currentPage, itemsPerPage)
    }
  }
}
