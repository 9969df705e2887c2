/** `LaravelCacheAdapter`: price results kept in Laravel's cache under a
    prefixed key derived from the request's parameters. */
module LaravelCacheAdapter {
  import opened Wrappers
  import opened PriceCalculationResult

  /** A parameter value as it appears in the array handed to `buildKey`. */
  datatype ParamValue =
    | RealParam(r: real)
    | IntParam(i: int)
    | StringParam(s: string)
    | BoolParam(b: bool)

  /** A PHP array with string keys: entries in insertion order. */
  type Params = seq<(string, ParamValue)>

  /** `md5(serialize($params))`: a deterministic function that is not part of
      this model, so it is passed in. */
  type Digest = Params -> string

  /** A PHP array never repeats a key. */
  predicate DistinctKeys(p: Params) {
    forall i, j | 0 <= i < j < |p| :: p[i].0 != p[j].0
  }

  /** The order `ksort` puts non-numeric string keys in: character by
      character, a proper prefix first. */
  predicate Below(a: string, b: string) {
    if a == [] then b != []
    else if b == [] then false
    else if a[0] != b[0] then a[0] < b[0]
    else Below(a[1..], b[1..])
  }

  lemma {:induction false} BelowAsymmetric(a: string, b: string)
    requires Below(a, b)
    ensures !Below(b, a)
  {
    if a != [] && b != [] && a[0] == b[0] {
      BelowAsymmetric(a[1..], b[1..]);
    }
  }

  lemma {:induction false} BelowTransitive(a: string, b: string, c: string)
    requires Below(a, b) && Below(b, c)
    ensures Below(a, c)
  {
    if a != [] && a[0] == b[0] && b[0] == c[0] {
      BelowTransitive(a[1..], b[1..], c[1..]);
    }
  }

  lemma {:induction false} BelowTotal(a: string, b: string)
    requires a != b
    ensures Below(a, b) || Below(b, a)
  {
    if a != [] && b != [] && a[0] == b[0] {
      assert a == [a[0]] + a[1..] && b == [b[0]] + b[1..];
      BelowTotal(a[1..], b[1..]);
    }
  }

  /** Keys in strictly increasing order. */
  predicate KeySorted(p: Params) {
    forall i, j | 0 <= i < j < |p| :: Below(p[i].0, p[j].0)
  }

  /** Inserts an entry into a key-sorted array at its place. */
  function Insert(e: (string, ParamValue), sorted: Params): (r: Params)
    requires KeySorted(sorted)
    requires forall i | 0 <= i < |sorted| :: sorted[i].0 != e.0
    ensures multiset(r) == multiset(sorted) + multiset{e}
    ensures KeySorted(r)
    decreases |sorted|
  {
    if sorted == [] then [e]
    else if Below(e.0, sorted[0].0) then
      InFrontStaysSorted(e, sorted);
      [e] + sorted
    else
      var rest := Insert(e, sorted[1..]);
      BehindHeadStaysSorted(e, sorted, rest);
      [sorted[0]] + rest
  }

  lemma InFrontStaysSorted(e: (string, ParamValue), sorted: Params)
    requires KeySorted(sorted) && sorted != [] && Below(e.0, sorted[0].0)
    ensures KeySorted([e] + sorted)
  {
    forall j | 0 < j < |sorted| ensures Below(e.0, sorted[j].0) {
      BelowTransitive(e.0, sorted[0].0, sorted[j].0);
    }
  }

  lemma BehindHeadStaysSorted(e: (string, ParamValue), sorted: Params, rest: Params)
    requires KeySorted(sorted) && sorted != [] && e.0 != sorted[0].0 && !Below(e.0, sorted[0].0)
    requires KeySorted(rest) && multiset(rest) == multiset(sorted[1..]) + multiset{e}
    ensures KeySorted([sorted[0]] + rest)
    ensures multiset([sorted[0]] + rest) == multiset(sorted) + multiset{e}
  {
    BelowTotal(e.0, sorted[0].0);
    assert sorted == [sorted[0]] + sorted[1..];
    forall k | 0 <= k < |rest| ensures Below(sorted[0].0, rest[k].0) {
      assert rest[k] in multiset(rest);
      if rest[k] != e {
        assert rest[k] in sorted[1..];
      }
    }
  }

  /** `ksort`: the same entries, ordered by key. */
  function KSort(p: Params): (r: Params)
    requires DistinctKeys(p)
    ensures multiset(r) == multiset(p)
    ensures KeySorted(r)
  {
    if p == [] then []
    else
      var tail := KSort(p[1..]);
      HeadKeyIsNew(p, tail);
      Insert(p[0], tail)
  }

  lemma HeadKeyIsNew(p: Params, tail: Params)
    requires DistinctKeys(p) && p != [] && multiset(tail) == multiset(p[1..])
    ensures forall i | 0 <= i < |tail| :: tail[i].0 != p[0].0
    ensures multiset(p) == multiset(tail) + multiset{p[0]}
  {
    forall i | 0 <= i < |tail| ensures tail[i].0 != p[0].0 {
      assert tail[i] in multiset(p[1..]);
    }
    assert p == [p[0]] + p[1..];
  }

  /** Two key-sorted arrays holding the same entries are the same array. */
  lemma {:induction false} SortedIsUnique(a: Params, b: Params)
    requires KeySorted(a) && KeySorted(b)
    requires multiset(a) == multiset(b)
    ensures a == b
  {
    if a != [] {
      assert b != [] by { assert a[0] in multiset(b); }
      if a[0] != b[0] {
        assert a[0] in multiset(b);
        assert b[0] in multiset(a);
        var k :| 0 <= k < |b| && b[k] == a[0];
        var m :| 0 <= m < |a| && a[m] == b[0];
        BelowAsymmetric(a[0].0, b[0].0);
        assert false;
      }
      assert a == [a[0]] + a[1..] && b == [b[0]] + b[1..];
      assert multiset(a) == multiset{a[0]} + multiset(a[1..]);
      assert multiset(b) == multiset{b[0]} + multiset(b[1..]);
      assert multiset(a[1..]) == multiset(a) - multiset{a[0]};
      assert multiset(b[1..]) == multiset(b) - multiset{b[0]};
      SortedIsUnique(a[1..], b[1..]);
    }
  }

  lemma {:induction false} BelowIrreflexive(a: string)
    ensures !Below(a, a)
  {
    if a != [] {
      BelowIrreflexive(a[1..]);
    }
  }

  /** Strictly increasing keys are distinct. */
  lemma SortedKeysAreDistinct(p: Params)
    requires KeySorted(p)
    ensures DistinctKeys(p)
  {
    forall i, j | 0 <= i < j < |p| ensures p[i].0 != p[j].0 {
      BelowIrreflexive(p[i].0);
    }
  }

  /** With distinct keys every entry occurs once. */
  lemma {:induction false} EntriesOccurOnce(p: Params, x: (string, ParamValue))
    requires DistinctKeys(p)
    ensures multiset(p)[x] == if x in p then 1 else 0
  {
    if p != [] {
      assert p == [p[0]] + p[1..];
      EntriesOccurOnce(p[1..], x);
      if x == p[0] {
        assert x !in p[1..];
      }
    }
  }

  /** Two arrays with distinct keys holding the same entries are
      rearrangements of each other. */
  lemma SameEntriesRearrange(p: Params, q: Params)
    requires DistinctKeys(p) && DistinctKeys(q)
    requires forall x :: x in p <==> x in q
    ensures multiset(p) == multiset(q)
  {
    forall x ensures multiset(p)[x] == multiset(q)[x] {
      EntriesOccurOnce(p, x);
      EntriesOccurOnce(q, x);
    }
  }

  /** A key-sorted rearrangement of an array is what `ksort` makes of it. */
  lemma SortedRearrangementIsKSort(p: Params, q: Params)
    requires DistinctKeys(p) && KeySorted(q)
    requires multiset(p) == multiset(q)
    ensures KSort(p) == q
  {
    SortedIsUnique(KSort(p), q);
  }

  /** `ksort` has one possible outcome: the key-sorted rearrangement. */
  lemma KSortIsTheSortedRearrangement(p: Params)
    requires DistinctKeys(p)
    ensures forall q | KeySorted(q) && multiset(q) == multiset(p) :: KSort(p) == q
  {
    forall q | KeySorted(q) && multiset(q) == multiset(p) ensures KSort(p) == q {
      SortedRearrangementIsKSort(p, q);
    }
  }

  /** `buildKey`: sort the parameters by key, then hash them. The key is the
      digest of the parameters rearranged in key order (`Below`, which is
      `ksort`'s order for non-numeric string keys). */
  function BuildKey(params: Params, digest: Digest): (key: string)
    requires DistinctKeys(params)
    ensures forall q | KeySorted(q) && multiset(q) == multiset(params) :: key == digest(q)
  {
    KSortIsTheSortedRearrangement(params);
    digest(KSort(params))
  }

  /** The key does not depend on the order the parameters were inserted in. */
  lemma BuildKeyIgnoresOrder(p: Params, q: Params, digest: Digest)
    requires DistinctKeys(p) && DistinctKeys(q)
    requires multiset(p) == multiset(q)
    ensures BuildKey(p, digest) == BuildKey(q, digest)
  {
    SortedIsUnique(KSort(p), KSort(q));
  }

  const Prefix: string := "price_calc_"

  /** `set`'s default time to live, in seconds. */
  const DefaultTtlSeconds: int := 300

  /** The storage slot `get`, `set` and `forget` address for a key. */
  function Slot(key: string): (s: string)
    ensures |s| == |Prefix| + |key|
    ensures s[..|Prefix|] == Prefix && s[|Prefix|..] == key
  {
    Prefix + key
  }

  datatype StoredItem = StoredItem(data: ResultArray, ttlSeconds: int)

  /** A call on the backing store, as recorded in its trace. */
  datatype StoreOp =
    | Read(slot: string)
    | Write(slot: string, data: ResultArray, ttlSeconds: int)
    | Remove(slot: string)

  /** The backing store of Laravel's `Cache` facade, shared by every adapter.
      Expiry is not modelled: an item stays until it is overwritten or removed. */
  class CacheStore {
    var items: map<string, StoredItem>
    /** Every call made on the store, oldest first. */
    ghost var ops: seq<StoreOp>

    constructor ()
      ensures items == map[] && ops == []
    {
      items := map[];
      ops := [];
    }
  }

  class LaravelCacheAdapter {
    const store: CacheStore

    constructor (store: CacheStore)
      ensures this.store == store
    {
      this.store := store;
    }

    /** `get`: the array stored under the key's slot, or null on a miss. */
    method Get(key: string) returns (r: Option<ResultArray>)
      modifies store`ops
      ensures r == if Slot(key) in store.items then Some(store.items[Slot(key)].data) else None
      ensures store.items == old(store.items)
      ensures store.ops == old(store.ops) + [Read(Slot(key))]
    {
      store.ops := store.ops + [Read(Slot(key))];
      if Slot(key) in store.items {
        r := Some(store.items[Slot(key)].data);
      } else {
        r := None;
      }
    }

    /** `set`: stores the array under the key's slot, replacing what was
        there; the time to live defaults to 300 s. */
    method Set(key: string, data: ResultArray, ttlSeconds: int := DefaultTtlSeconds)
      modifies store
      ensures store.items == old(store.items)[Slot(key) := StoredItem(data, ttlSeconds)]
      ensures store.ops == old(store.ops) + [Write(Slot(key), data, ttlSeconds)]
    {
      store.items := store.items[Slot(key) := StoredItem(data, ttlSeconds)];
      store.ops := store.ops + [Write(Slot(key), data, ttlSeconds)];
    }

    /** `forget`: drops whatever is stored under the key's slot. */
    method Forget(key: string)
      modifies store
      ensures store.items == old(store.items) - {Slot(key)}
      ensures store.ops == old(store.ops) + [Remove(Slot(key))]
    {
      store.items := store.items - {Slot(key)};
      store.ops := store.ops + [Remove(Slot(key))];
    }
  }
}
