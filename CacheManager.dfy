/** The in-memory string cache of package Caching: a map from string keys to
    string values, with put, get (answering the sentinel "Not Found" for a
    missing key), remove and clear. */
module Caching {

  /** The default answer of `get` for a key with no mapping. */
  const NOT_FOUND: string := "Not Found"

  /** `getOrDefault(key, "Not Found")` on the backing map. */
  function Lookup(m: map<string, string>, key: string): string {
    if key in m then m[key] else NOT_FOUND
  }

  /** One mutating call on the cache. */
  datatype CacheOp = Put(key: string, value: string) | Remove(key: string) | Clear

  /** The backing map after one call. */
  function Apply(m: map<string, string>, op: CacheOp): (r: map<string, string>)
    ensures op.Put? ==> Lookup(r, op.key) == op.value
    ensures op.Remove? ==> Lookup(r, op.key) == NOT_FOUND
    ensures op.Clear? ==> forall k :: Lookup(r, k) == NOT_FOUND
    ensures !op.Clear? ==> forall k :: k != op.key ==> Lookup(r, k) == Lookup(m, k)
    ensures op.Remove? && op.key !in m ==> r == m
  {
    match op
    case Put(key, value) => m[key := value]
    case Remove(key) => m - {key}
    case Clear => map[]
  }

  /** The backing map after a sequence of calls, the last one applied last. */
  function Run(m: map<string, string>, ops: seq<CacheOp>): map<string, string>
    decreases |ops|
  {
    if ops == [] then m else Apply(Run(m, ops[..|ops| - 1]), ops[|ops| - 1])
  }

  /** Whether `op` decides what `get(key)` answers afterwards. */
  predicate Touches(op: CacheOp, key: string) {
    op.Clear? || op.key == key
  }

  datatype Option<T> = None | Some(value: T)

  /** The last call of `ops` that touches `key`, if there is one. */
  function LastTouching(ops: seq<CacheOp>, key: string): (r: Option<CacheOp>)
    ensures r.Some? ==> exists i :: 0 <= i < |ops| && ops[i] == r.value && Touches(ops[i], key)
                          && forall j :: i < j < |ops| ==> !Touches(ops[j], key)
    ensures r.None? ==> forall i :: 0 <= i < |ops| ==> !Touches(ops[i], key)
    decreases |ops|
  {
    if ops == [] then None
    else if Touches(ops[|ops| - 1], key) then Some(ops[|ops| - 1])
    else LastTouching(ops[..|ops| - 1], key)
  }

  /** What `get(key)` answers after any sequence of calls: the value of the
      last `put` of that key, the sentinel if the last call touching it was a
      `remove` or a `clear`, and the earlier answer if no call touched it. */
  lemma {:induction false} LookupAfterRun(m: map<string, string>, ops: seq<CacheOp>, key: string)
    ensures Lookup(Run(m, ops), key)
         == match LastTouching(ops, key)
            case None => Lookup(m, key)
            case Some(op) => if op.Put? then op.value else NOT_FOUND
    decreases |ops|
  {
    if ops != [] {
      LookupAfterRun(m, ops[..|ops| - 1], key);
    }
  }

  /** A second `put` of a key replaces the first: the map is the same as if
      only the second had happened. */
  lemma PutOverwrites(m: map<string, string>, key: string, v1: string, v2: string)
    ensures Run(m, [Put(key, v1), Put(key, v2)]) == Apply(m, Put(key, v2))
  {
    var ops := [Put(key, v1), Put(key, v2)];
    assert ops[..1][..0] == [];
    assert Run(m, ops[..1]) == m[key := v1];
    assert Run(m, ops) == m[key := v1][key := v2];
  }

  /** A key stored with the sentinel as its value answers exactly like a key
      that is absent: `get` cannot tell the two apart. */
  lemma SentinelAmbiguity(m: map<string, string>, key: string)
    ensures Lookup(m[key := NOT_FOUND], key) == Lookup(m - {key}, key)
    ensures Lookup(m, key) == NOT_FOUND <==> key !in m || m[key] == NOT_FOUND
  {
  }

  /** The cache object: its backing map is a field that the methods
      reassign. Java's ConcurrentHashMap rejects null keys and values;
      strings here are never null. */
  class CacheManager {
    var cache: map<string, string>

    /** Starts with an empty map. */
    constructor ()
      ensures cache == map[]
      ensures forall k :: Get(k) == NOT_FOUND
    {
      cache := map[];
    }

    /** Adds `key` with `value`, overwriting any earlier value. */
    method Put(key: string, value: string)
      modifies this
      ensures cache == Apply(old(cache), CacheOp.Put(key, value))
      ensures Get(key) == value
      ensures forall k :: k != key ==> Get(k) == old(Get(k))
    {
      cache := cache[key := value];
    }

    /** The value stored under `key`, or the sentinel when there is none.
        A stored value equal to the sentinel answers the same as absence. */
    function Get(key: string): (r: string)
      reads this
      ensures key in cache ==> r == cache[key]
      ensures r == NOT_FOUND <==> key !in cache || cache[key] == NOT_FOUND
      ensures r != NOT_FOUND ==> key in cache
    {
      Lookup(cache, key)
    }

    /** Removes any mapping of `key`; removing an absent key changes nothing. */
    method Remove(key: string)
      modifies this
      ensures cache == Apply(old(cache), CacheOp.Remove(key))
      ensures key !in cache && Get(key) == NOT_FOUND
      ensures forall k :: k != key ==> Get(k) == old(Get(k))
      ensures key !in old(cache) ==> cache == old(cache)
    {
      cache := cache - {key};
    }

    /** Removes every mapping. */
    method Clear()
      modifies this
      ensures cache == Apply(old(cache), CacheOp.Clear)
      ensures forall k :: Get(k) == NOT_FOUND
    {
      cache := map[];
    }
  }
}
