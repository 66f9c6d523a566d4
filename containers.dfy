/**
  The generic helpers of the playground: `findInex` over an array, and the
  functions written for any `Container`. A container offers exactly two reads,
  `count` and `subscript(i)`, so it is represented here by the sequence `c` of
  its items: `count` is `|c|` and `self[i]` is `c[i]`.
*/
module Containers {
  import opened Wrappers

  /**
    Reference definition of the index that `findInex(of: v, in: a)` returns:
    the least index holding `v`, or `None` when `v` does not occur.
  */
  function FirstIndex<T(==)>(a: seq<T>, v: T): (r: Option<nat>)
    ensures r.Some? ==> r.value < |a| && a[r.value] == v
    ensures r.Some? ==> forall j :: 0 <= j < r.value ==> a[j] != v
    ensures r.None? <==> v !in a
  {
    if |a| == 0 then None
    else if a[0] == v then Some(0)
    else match FirstIndex(a[1..], v)
      case None => None
      case Some(i) => Some(i + 1)
  }

  /**
    `findInex`: scans `a` from the front and returns the first index whose
    value equals `v`, or `None` after the whole array has been scanned.
  */
  method FindIndex<T(==)>(v: T, a: seq<T>) returns (r: Option<nat>)
    ensures r.Some? ==> r.value < |a| && a[r.value] == v
    ensures r.Some? ==> forall j :: 0 <= j < r.value ==> a[j] != v
    ensures r.None? <==> v !in a
    ensures r == FirstIndex(a, v)
  {
    for index := 0 to |a|
      invariant forall j :: 0 <= j < index ==> a[j] != v
    {
      if a[index] == v {
        r := Some(index);
        FirstIndexIsUnique(a, v, index);
        return;
      }
    }
    r := None;
  }

  /** The least-index property determines `FirstIndex` completely. */
  lemma FirstIndexIsUnique<T>(a: seq<T>, v: T, i: nat)
    requires i < |a| && a[i] == v
    requires forall j :: 0 <= j < i ==> a[j] != v
    ensures FirstIndex(a, v) == Some(i)
  {
  }

  /**
    What `allItemsMatch` checks: both containers have the same `count`, and
    their items are pairwise equal at every index.
  */
  predicate ItemsMatch<T(==)>(c1: seq<T>, c2: seq<T>)
  {
    |c1| == |c2| && forall i :: 0 <= i < |c1| ==> c1[i] == c2[i]
  }

  /**
    `allItemsMatch`: returns false as soon as the counts differ, or at the
    first index whose items differ, and true otherwise.
  */
  method AllItemsMatch<T(==)>(c1: seq<T>, c2: seq<T>) returns (r: bool)
    ensures r <==> ItemsMatch(c1, c2)
    ensures r <==> c1 == c2
  {
    if |c1| != |c2| {
      return false;
    }
    for i := 0 to |c1|
      invariant forall j :: 0 <= j < i ==> c1[j] == c2[j]
    {
      if c1[i] != c2[i] {
        return false;
      }
    }
    assert c1 == c2;
    return true;
  }

  /** Matching items is the same as equality of the item sequences. */
  lemma ItemsMatchIsEquality<T>(c1: seq<T>, c2: seq<T>)
    ensures ItemsMatch(c1, c2) <==> c1 == c2
  {
    if ItemsMatch(c1, c2) {
      assert c1 == c2;
    }
  }

  /** Every container matches itself. */
  lemma ItemsMatchReflexive<T>(c: seq<T>)
    ensures ItemsMatch(c, c)
  {
  }

  /** The order of the two containers does not matter. */
  lemma ItemsMatchSymmetric<T>(c1: seq<T>, c2: seq<T>)
    ensures ItemsMatch(c1, c2) <==> ItemsMatch(c2, c1)
  {
  }

  /** Two containers that match a third match each other. */
  lemma ItemsMatchTransitive<T>(c1: seq<T>, c2: seq<T>, c3: seq<T>)
    requires ItemsMatch(c1, c2) && ItemsMatch(c2, c3)
    ensures ItemsMatch(c1, c3)
  {
  }

  /**
    `startsWith`: the container is not empty and its first item is `item`;
    equivalently, a search for `item` from the front stops at index 0.
  */
  function StartsWith<T(==)>(c: seq<T>, item: T): (b: bool)
    ensures b ==> item in c
    ensures b <==> FirstIndex(c, item) == Some(0)
  {
    |c| >= 1 && c[0] == item
  }

  /** Adding items at the end does not change what a container starts with. */
  lemma StartsWithAppend<T>(c: seq<T>, d: seq<T>, item: T)
    requires StartsWith(c, item)
    ensures StartsWith(c + d, item)
  {
  }

  /**
    The generic subscript `self[indices]`: collects, in the order of
    `indices`, the item at each index. Every index must be in range, since
    the single-index subscript traps otherwise.
  */
  method ItemsAt<T>(c: seq<T>, indices: seq<int>) returns (r: seq<T>)
    requires forall k :: 0 <= k < |indices| ==> 0 <= indices[k] < |c|
    ensures |r| == |indices|
    ensures forall k :: 0 <= k < |indices| ==> r[k] == c[indices[k]]
  {
    r := [];
    for k := 0 to |indices|
      invariant |r| == k
      invariant forall j :: 0 <= j < k ==> r[j] == c[indices[j]]
    {
      r := r + [c[indices[k]]];
    }
  }
}
