/** Collection lookups and updates used by the application's state
    handlers: `findIndex`/`find` and replacing the records whose id
    matches. */
module Seqs {

  /** `s.findIndex(p)`: the first position satisfying `p`, or -1. */
  function FindIndex<T>(s: seq<T>, p: T -> bool): (r: int)
    ensures -1 <= r < |s|
    ensures r >= 0 ==> p(s[r]) && forall j :: 0 <= j < r ==> !p(s[j])
    ensures r == -1 <==> forall j :: 0 <= j < |s| ==> !p(s[j])
  {
    if |s| == 0 then -1
    else if p(s[0]) then 0
    else
      var k := FindIndex(s[1..], p);
      if k == -1 then -1 else k + 1
  }

  /** `s.findIndex(x => x.id === id)`, the lookup behind every `find` by id. */
  function FindById<T>(s: seq<T>, id: string, idOf: T -> string): (r: int)
    ensures -1 <= r < |s|
    ensures r >= 0 ==> idOf(s[r]) == id && forall j :: 0 <= j < r ==> idOf(s[j]) != id
    ensures r == -1 <==> forall j :: 0 <= j < |s| ==> idOf(s[j]) != id
  {
    FindIndex(s, x => idOf(x) == id)
  }

  /** `s.map(x => idOf(x) == idOf(updated) ? updated : x)`. */
  function ReplaceById<T>(s: seq<T>, updated: T, idOf: T -> string): (r: seq<T>)
    ensures |r| == |s|
  {
    seq(|s|, i requires 0 <= i < |s| => if idOf(s[i]) == idOf(updated) then updated else s[i])
  }

  /** The lookup finds the first position holding the id. */
  lemma FindByIdAt<T>(s: seq<T>, id: string, idOf: T -> string, k: int)
    requires 0 <= k < |s| && idOf(s[k]) == id
    requires forall j :: 0 <= j < k ==> idOf(s[j]) != id
    ensures FindById(s, id, idOf) == k
  {
  }

  /** The ids of a collection, in order. */
  function Ids<T>(s: seq<T>, idOf: T -> string): (r: seq<string>)
    ensures |r| == |s|
  {
    seq(|s|, i requires 0 <= i < |s| => idOf(s[i]))
  }

  predicate DistinctIds<T>(s: seq<T>, idOf: T -> string) {
    forall i, j :: 0 <= i < j < |s| ==> idOf(s[i]) != idOf(s[j])
  }

  /** Replacing by id keeps the length and the id of every position, puts
      `updated` exactly where the id matched and leaves every other record
      as it was. */
  lemma ReplaceByIdEffect<T>(s: seq<T>, updated: T, idOf: T -> string)
    ensures Ids(ReplaceById(s, updated, idOf), idOf) == Ids(s, idOf)
    ensures forall i :: 0 <= i < |s| && idOf(s[i]) == idOf(updated) ==> ReplaceById(s, updated, idOf)[i] == updated
    ensures forall i :: 0 <= i < |s| && idOf(s[i]) != idOf(updated) ==> ReplaceById(s, updated, idOf)[i] == s[i]
  {
  }

  /** With distinct ids, replacing by id is an update of the single
      position holding that id; without a match it changes nothing. */
  lemma ReplaceByIdUnique<T>(s: seq<T>, updated: T, idOf: T -> string, k: int)
    requires DistinctIds(s, idOf)
    requires 0 <= k < |s| && idOf(s[k]) == idOf(updated)
    ensures ReplaceById(s, updated, idOf) == s[k := updated]
  {
    var r := ReplaceById(s, updated, idOf);
    forall i | 0 <= i < |s| ensures r[i] == s[k := updated][i] {
      if i != k {
        assert i < k ==> idOf(s[i]) != idOf(s[k]);
        assert i > k ==> idOf(s[k]) != idOf(s[i]);
      }
    }
  }

  lemma ReplaceByIdAbsent<T>(s: seq<T>, updated: T, idOf: T -> string)
    requires forall i :: 0 <= i < |s| ==> idOf(s[i]) != idOf(updated)
    ensures ReplaceById(s, updated, idOf) == s
  {
  }
}
