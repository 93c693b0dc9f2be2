/** The string and path interner: `TyIntern` and the comparison of `Interned` handles. */
module Interner {
  import opened Basics

  function Stored<T(==)>(items: seq<T>, item: T): seq<T> {
    if item in items then items else items + [item]
  }

  /** The items after a run of calls, and the handle each call returned. */
  function StoredAll<T(==)>(items: seq<T>, calls: seq<T>): seq<T>
    decreases |calls|
  {
    if calls == [] then items else StoredAll(Stored(items, calls[0]), calls[1..])
  }

  function Handles<T(==)>(items: seq<T>, calls: seq<T>): seq<nat>
    decreases |calls|
  {
    if calls == [] then [] else [IndexOf(items, calls[0])] + Handles(Stored(items, calls[0]), calls[1..])
  }

  class TyIntern<T(==)> {
    var items: seq<T>
    var ids: map<T, nat>

    ghost predicate Valid()
      reads this
    {
      && (forall i :: 0 <= i < |items| ==> items[i] in ids && ids[items[i]] == i)
      && (forall t :: t in ids ==> ids[t] < |items| && items[ids[t]] == t)
    }

    constructor ()
      ensures Valid() && items == []
    {
      items := [];
      ids := map[];
    }

    /** `intern`, and `intern_borrow`, which differs only in cloning the item later. */
    method Intern(item: T) returns (id: nat)
      requires Valid()
      modifies this
      ensures Valid() && Distinct(items)
      ensures items == Stored(old(items), item) && id == IndexOf(old(items), item)
      ensures old(items) <= items && id < |items| && items[id] == item
    {
      hide IndexOf;
      if item in ids {
        id := ids[item];
        assert item in items[..id + 1];
        IndexIs(items, item, id);
      } else {
        id := |items|;
        assert item !in items;
        IndexIs(items + [item], item, id);
        AbsentIndex(items, item);
        ids := ids[item := id];
        items := items + [item];
      }
    }

    /** `get`; a handle this interner did not give out panics. */
    method Get(id: nat) returns (r: Option<T>)
      requires Valid()
      ensures r == if id < |items| then Some(items[id]) else None
      ensures r.Some? ==> r.value in ids && ids[r.value] == id
    {
      r := if id < |items| then Some(items[id]) else None;
    }

    /** Any run of calls: the handles do not depend on what lies between two calls. */
    method InternAll(calls: seq<T>) returns (handles: seq<nat>)
      requires Valid()
      modifies this
      ensures Valid() && items == StoredAll(old(items), calls) && handles == Handles(old(items), calls)
    {
      hide IndexOf, Stored;
      handles := [];
      ghost var start := items;
      for k := 0 to |calls|
        invariant Valid()
        invariant StoredAll(start, calls) == StoredAll(items, calls[k..])
        invariant Handles(start, calls) == handles + Handles(items, calls[k..])
      {
        var id := Intern(calls[k]);
        assert calls[k..][1..] == calls[k + 1..];
        handles := handles + [id];
      }
    }
  }

  lemma AbsentIndex<T>(items: seq<T>, item: T)
    requires item !in items
    ensures IndexOf(items, item) == |items|
  {
  }

  lemma StoredDistinct<T>(items: seq<T>, item: T)
    requires Distinct(items)
    ensures Distinct(Stored(items, item)) && items <= Stored(items, item)
    ensures IndexOf(items, item) < |Stored(items, item)| && Stored(items, item)[IndexOf(items, item)] == item
  {
    if item !in items {
      AbsentIndex(items, item);
    } else {
      var i :| 0 <= i < |items| && items[i] == item;
      IndexIs(items, item, i);
    }
  }

  /** Over any run of calls the store stays free of repetitions, what was stored keeps its handle,
      and every handle given out resolves, at the end, to the item it was given out for. */
  lemma {:induction false} HandlesResolve<T>(items: seq<T>, calls: seq<T>)
    requires Distinct(items)
    ensures Distinct(StoredAll(items, calls)) && items <= StoredAll(items, calls)
    ensures |Handles(items, calls)| == |calls|
    ensures forall k :: 0 <= k < |calls| ==>
      && Handles(items, calls)[k] < |StoredAll(items, calls)|
      && StoredAll(items, calls)[Handles(items, calls)[k]] == calls[k]
    decreases |calls|
  {
    if calls != [] {
      var stored := Stored(items, calls[0]);
      StoredDistinct(items, calls[0]);
      HandlesResolve(stored, calls[1..]);
      FirstHandle(items, calls);
    }
  }

  /** The first handle of a run of calls, given the others. */
  lemma FirstHandle<T>(items: seq<T>, calls: seq<T>)
    requires calls != []
    requires var stored, id := Stored(items, calls[0]), IndexOf(items, calls[0]);
      items <= stored && id < |stored| && stored[id] == calls[0]
    requires var stored, rest := Stored(items, calls[0]), calls[1..];
      && stored <= StoredAll(stored, rest) && |Handles(stored, rest)| == |rest|
      && forall k :: 0 <= k < |rest| ==>
           && Handles(stored, rest)[k] < |StoredAll(stored, rest)|
           && StoredAll(stored, rest)[Handles(stored, rest)[k]] == rest[k]
    ensures StoredAll(items, calls) == StoredAll(Stored(items, calls[0]), calls[1..])
    ensures items <= StoredAll(items, calls) && |Handles(items, calls)| == |calls|
    ensures forall k :: 0 <= k < |calls| ==>
      && Handles(items, calls)[k] < |StoredAll(items, calls)|
      && StoredAll(items, calls)[Handles(items, calls)[k]] == calls[k]
  {
    hide Stored, IndexOf;
    var stored, rest := Stored(items, calls[0]), calls[1..];
    var last, id := StoredAll(stored, rest), IndexOf(items, calls[0]);
    assert Handles(items, calls) == [id] + Handles(stored, rest) && calls == [calls[0]] + rest;
    assert StoredAll(items, calls) == last && last[id] == stored[id];
    hide StoredAll, Handles;
  }

  /** Two handles from one interner are equal exactly when the contents are, so equality of
      handles, which the code uses, is equality of contents, which its hash and order use. */
  lemma HandleEqualityIsContentEquality<T>(items: seq<T>, calls: seq<T>, j: nat, k: nat)
    requires Distinct(items) && j < |calls| && k < |calls|
    ensures |Handles(items, calls)| == |calls|
    ensures Handles(items, calls)[j] == Handles(items, calls)[k] <==> calls[j] == calls[k]
  {
    HandlesResolve(items, calls);
  }

  datatype Ordering = Less | Equal | Greater

  /** A lawful comparison of contents. */
  ghost predicate Lawful<T(!new)>(cmp: (T, T) -> Ordering) {
    && (forall a, b :: cmp(a, b) == Equal <==> a == b)
    && (forall a, b :: cmp(a, b) == Less <==> cmp(b, a) == Greater)
    && (forall a, b, c :: cmp(a, b) == Less && cmp(b, c) == Less ==> cmp(a, c) == Less)
  }

  /** `Ord` for handles: it compares what they stand for. */
  function Compare<T>(items: seq<T>, cmp: (T, T) -> Ordering, i: nat, j: nat): Ordering
    requires i < |items| && j < |items|
  {
    cmp(items[i], items[j])
  }

  /** The order of handles is a total order that agrees with their equality, and storing more
      items never changes it. */
  lemma HandleOrderIsLawful<T(!new)>(items: seq<T>, calls: seq<T>, cmp: (T, T) -> Ordering, i: nat, j: nat, k: nat)
    requires Distinct(items) && Lawful(cmp) && i < |items| && j < |items| && k < |items|
    ensures Compare(items, cmp, i, j) == Equal <==> i == j
    ensures Compare(items, cmp, i, j) == Less <==> Compare(items, cmp, j, i) == Greater
    ensures Compare(items, cmp, i, j) == Less && Compare(items, cmp, j, k) == Less ==> Compare(items, cmp, i, k) == Less
    ensures items <= StoredAll(items, calls)
    ensures Compare(StoredAll(items, calls), cmp, i, j) == Compare(items, cmp, i, j)
  {
    HandlesResolve(items, calls);
  }

  /** `Hash` for handles: it hashes what they stand for. */
  function HashOf<T>(items: seq<T>, hash: T -> int, i: nat): int
    requires i < |items|
  {
    hash(items[i])
  }

  /** Comparing or hashing the handles of two strings is comparing or hashing the strings, whatever was
      interned before, between and after. */
  lemma HandlesStandForContents<T>(items: seq<T>, calls: seq<T>, cmp: (T, T) -> Ordering, hash: T -> int,
      j: nat, k: nat)
    requires Distinct(items) && j < |calls| && k < |calls|
    ensures var store, handles := StoredAll(items, calls), Handles(items, calls);
      && |handles| == |calls| && handles[j] < |store| && handles[k] < |store|
      && Compare(store, cmp, handles[j], handles[k]) == cmp(calls[j], calls[k])
      && HashOf(store, hash, handles[k]) == hash(calls[k])
  {
    HandlesResolve(items, calls);
  }
}
