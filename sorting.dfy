/** The comparator every list screen passes to `Array.prototype.sort`:
    `a < b ? (asc ? -1 : 1) : a > b ? (asc ? 1 : -1) : 0` on one key of the
    two records, and an in-place sort that orders an array by it. */
module Sorting {
  import Text

  /** The value a record has under a sort key: a string (a missing value
      reads as '') or a number. */
  datatype SortValue = Str(s: string) | Num(x: real)

  datatype Direction = Asc | Desc

  /** JavaScript's `a < b` between two key values. Dates are kept as day
      numbers while the application compares them as ISO date strings, so
      the one key that mixes the two kinds is a missing payment date, which
      reads as '' and is less than every date string: strings come first. */
  predicate ValueLess(a: SortValue, b: SortValue) {
    match (a, b)
    case (Str(x), Str(y)) => Text.LexLess(x, y)
    case (Num(x), Num(y)) => x < y
    case (Str(_), Num(_)) => true
    case (Num(_), Str(_)) => false
  }

  /** The comparator does not put `a` after `b`. */
  predicate Before(dir: Direction, a: SortValue, b: SortValue) {
    if dir == Asc then !ValueLess(b, a) else !ValueLess(a, b)
  }

  predicate SortedBy<T>(s: seq<T>, key: T -> SortValue, dir: Direction) {
    forall i, j :: 0 <= i < j < |s| ==> Before(dir, key(s[i]), key(s[j]))
  }

  lemma ValueLessIrreflexive(a: SortValue)
    ensures !ValueLess(a, a)
  {
    if a.Str? {
      Text.LexLessIrreflexive(a.s);
    }
  }

  lemma ValueLessTransitive(a: SortValue, b: SortValue, c: SortValue)
    requires ValueLess(a, b) && ValueLess(b, c)
    ensures ValueLess(a, c)
  {
    if a.Str? && b.Str? && c.Str? {
      Text.LexLessTransitive(a.s, b.s, c.s);
    }
  }

  lemma ValueLessTrichotomy(a: SortValue, b: SortValue)
    ensures ValueLess(a, b) || ValueLess(b, a) || a == b
  {
    if a.Str? && b.Str? {
      Text.LexLessTrichotomy(a.s, b.s);
    }
  }

  /** Any two values are ordered one way or the other. */
  lemma BeforeTotal(dir: Direction, a: SortValue, b: SortValue)
    ensures Before(dir, a, b) || Before(dir, b, a)
  {
    if ValueLess(a, b) && ValueLess(b, a) {
      ValueLessTransitive(a, b, a);
      ValueLessIrreflexive(a);
    }
  }

  /** The comparator is consistent: "not after" is transitive. */
  lemma BeforeTransitive(dir: Direction, a: SortValue, b: SortValue, c: SortValue)
    requires Before(dir, a, b) && Before(dir, b, c)
    ensures Before(dir, a, c)
  {
    if dir == Asc {
      if ValueLess(c, a) {
        ValueLessTrichotomy(a, b);
        if ValueLess(a, b) {
          ValueLessTransitive(c, a, b);
        }
      }
    } else {
      if ValueLess(a, c) {
        ValueLessTrichotomy(a, b);
        if ValueLess(b, a) {
          ValueLessTransitive(b, a, c);
        }
      }
    }
  }

  /** Sorts `a` in place by the comparator on `key` in direction `dir`:
      the result is ordered and a permutation of the input. */
  method SortInPlace<T>(a: array<T>, key: T -> SortValue, dir: Direction)
    modifies a
    ensures SortedBy(a[..], key, dir)
    ensures multiset(a[..]) == old(multiset(a[..]))
  {
    if a.Length == 0 {
      return;
    }
    var i := 1;
    while i < a.Length
      invariant 1 <= i <= a.Length
      invariant forall p, q :: 0 <= p < q < i ==> Before(dir, key(a[p]), key(a[q]))
      invariant multiset(a[..]) == old(multiset(a[..]))
    {
      var j := i;
      while j > 0 && !Before(dir, key(a[j - 1]), key(a[j]))
        invariant 0 <= j <= i
        invariant forall p, q :: 0 <= p < q <= i && p != j && q != j ==> Before(dir, key(a[p]), key(a[q]))
        invariant forall q :: j < q <= i ==> Before(dir, key(a[j]), key(a[q]))
        invariant multiset(a[..]) == old(multiset(a[..]))
      {
        BeforeTotal(dir, key(a[j - 1]), key(a[j]));
        a[j - 1], a[j] := a[j], a[j - 1];
        j := j - 1;
      }
      forall p | 0 <= p < j
        ensures Before(dir, key(a[p]), key(a[j]))
      {
        if p < j - 1 {
          BeforeTransitive(dir, key(a[p]), key(a[j - 1]), key(a[j]));
        }
      }
      i := i + 1;
    }
    assert a[..] == a[..a.Length];
  }

  /** `[...s].sort(cmp)`: sorts a copy and leaves `s` as it was. */
  method SortedCopy<T>(s: seq<T>, key: T -> SortValue, dir: Direction) returns (r: seq<T>)
    ensures SortedBy(r, key, dir)
    ensures multiset(r) == multiset(s)
    ensures |r| == |s|
  {
    if |s| == 0 {
      return [];
    }
    var a := new T[|s|](i requires 0 <= i < |s| => s[i]);
    assert a[..] == s;
    SortInPlace(a, key, dir);
    r := a[..];
    assert |r| == |multiset(r)| == |multiset(s)| == |s|;
  }
}
