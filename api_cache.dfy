/** The frontend's API response cache: a bounded `Map` from key to a cached value
    with its insertion time and time-to-live. The `Map`'s insertion order is kept
    as the sequence `keys`, since eviction takes the first key in that order. The
    clock (`Date.now()`) is the parameter `now`, in milliseconds. */
module ApiCache {
  import opened Wrappers
  import Text

  const MaxSize: nat := 100
  const DefaultTtl: int := 5 * 60 * 1000

  datatype CacheItem<D> = CacheItem(data: D, timestamp: int, ttl: int)

  /** An entry is stale once more than `ttl` milliseconds have passed since it was
      stored; at exactly `ttl` it is still served. */
  predicate Expired<D>(item: CacheItem<D>, now: int) {
    now - item.timestamp > item.ttl
  }

  predicate Distinct(ks: seq<string>) {
    forall i, j :: 0 <= i < j < |ks| ==> ks[i] != ks[j]
  }

  /** `Map.prototype.delete` on the insertion order: `k` is taken out, the rest keep
      their order. */
  function RemoveKey(ks: seq<string>, k: string): (r: seq<string>)
    ensures forall x :: x in r <==> x in ks && x != k
    ensures |r| <= |ks|
  {
    if ks == [] then []
    else (if ks[0] == k then [] else [ks[0]]) + RemoveKey(ks[1..], k)
  }

  lemma {:induction false} RemoveKeyAbsent(ks: seq<string>, k: string)
    requires k !in ks
    ensures RemoveKey(ks, k) == ks
  {
    if ks != [] {
      RemoveKeyAbsent(ks[1..], k);
      assert [ks[0]] + ks[1..] == ks;
    }
  }

  lemma {:induction false} RemoveKeyAppend(a: seq<string>, b: seq<string>, k: string)
    ensures RemoveKey(a + b, k) == RemoveKey(a, k) + RemoveKey(b, k)
  {
    if a == [] {
      assert a + b == b;
    } else {
      var head := if a[0] == k then [] else [a[0]];
      assert (a + b)[0] == a[0] && (a + b)[1..] == a[1..] + b;
      assert RemoveKey(a + b, k) == head + RemoveKey(a[1..] + b, k);
      RemoveKeyAppend(a[1..], b, k);
      assert RemoveKey(a, k) == head + RemoveKey(a[1..], k);
    }
  }

  /** Deleting a key that occurs once leaves the keys on either side of it. */
  lemma {:induction false} RemoveKeyOnce(a: seq<string>, k: string, b: seq<string>)
    requires k !in a && k !in b
    ensures RemoveKey(a + [k] + b, k) == a + b
  {
    calc {
      RemoveKey(a + [k] + b, k);
    == { RemoveKeyAppend(a + [k], b, k); }
      RemoveKey(a + [k], k) + RemoveKey(b, k);
    == { RemoveKeyAppend(a, [k], k); }
      RemoveKey(a, k) + RemoveKey([k], k) + RemoveKey(b, k);
    == { RemoveKeyAbsent(a, k); RemoveKeyAbsent(b, k); assert [k][1..] == []; }
      a + [] + b;
    == { assert a + [] == a; }
      a + b;
    }
  }

  /** The insertion order after `set(key, …)`: when the cache is full the first key
      goes, even if it is `key` itself; a key still present keeps its place, a new
      one goes to the end. */
  function SetKeys(ks: seq<string>, key: string): (r: seq<string>)
    requires Distinct(ks) && |ks| <= MaxSize
    ensures Distinct(r) && |r| <= MaxSize
    ensures key in r && forall x :: x in r ==> x in ks || x == key
    ensures |ks| < MaxSize ==> forall x :: x in ks ==> x in r
    ensures |ks| == MaxSize && ks[0] == key ==> r == ks[1..] + [key]
    ensures |ks| == MaxSize && key in ks[1..] ==> r == ks[1..] && |r| == MaxSize - 1
    ensures key !in ks ==> r[|r| - 1] == key
    ensures var kept := if |ks| >= MaxSize then ks[1..] else ks;
            |r| == (if key in kept then |kept| else |kept| + 1) && r[..|kept|] == kept
  {
    var kept := if |ks| >= MaxSize then ks[1..] else ks;
    if key in kept then kept else kept + [key]
  }

  /** The entries that are not expired at `now`. */
  function LiveEntries<D>(e: map<string, CacheItem<D>>, now: int): (r: map<string, CacheItem<D>>)
    ensures forall k :: k in r <==> k in e && !Expired(e[k], now)
    ensures forall k :: k in r ==> r[k] == e[k]
  {
    map k | k in e && !Expired(e[k], now) :: e[k]
  }

  /** The keys, in order, whose entries are not expired at `now`. */
  function LiveKeys<D>(ks: seq<string>, e: map<string, CacheItem<D>>, now: int): (r: seq<string>)
    ensures forall x :: x in r <==> x in ks && (x in e ==> !Expired(e[x], now))
  {
    if ks == [] then []
    else
      var last := ks[|ks| - 1];
      LiveKeys(ks[..|ks| - 1], e, now)
        + (if last in e && Expired(e[last], now) then [] else [last])
  }

  /** What `get` returns: the value of a present, unexpired entry. */
  function Lookup<D>(e: map<string, CacheItem<D>>, key: string, now: int): (r: Option<D>)
    ensures r.Some? <==> key in e && !Expired(e[key], now)
    ensures r.Some? ==> r.value == e[key].data
  {
    if key in e && !Expired(e[key], now) then Some(e[key].data) else None
  }

  /** A value just set is served at the same instant exactly when its ttl is not
      negative. */
  lemma LookupAfterSet<D>(e: map<string, CacheItem<D>>, key: string, data: D, now: int, ttl: int)
    ensures Lookup(e[key := CacheItem(data, now, ttl)], key, now) == (if ttl >= 0 then Some(data) else None)
  {
  }

  /** With the default time-to-live a value is served for five minutes after it
      is set, and not a millisecond longer. */
  lemma DefaultTtlServesFiveMinutes<D>(e: map<string, CacheItem<D>>, key: string, data: D, setAt: int, now: int)
    ensures Lookup(e[key := CacheItem(data, setAt, DefaultTtl)], key, now).Some? <==> now <= setAt + 5 * 60 * 1000
  {
  }

  /** A distinct sequence has as many elements as its set. */
  lemma {:induction false} DistinctCard(ks: seq<string>)
    requires Distinct(ks)
    ensures |set x | x in ks| == |ks|
  {
    if ks != [] {
      var rest := ks[1..];
      DistinctCard(rest);
      assert (set x | x in ks) == (set x | x in rest) + {ks[0]};
      assert ks[0] !in rest by {
        forall j | 0 <= j < |rest| ensures rest[j] != ks[0] {
          assert rest[j] == ks[j + 1];
        }
      }
    }
  }

  /** Deleting a key keeps the order free of repeats. */
  lemma {:induction false} RemoveKeyDistinct(ks: seq<string>, k: string)
    requires Distinct(ks)
    ensures Distinct(RemoveKey(ks, k))
  {
    if ks != [] {
      var rest := ks[1..];
      assert Distinct(rest) by {
        forall i, j | 0 <= i < j < |rest| ensures rest[i] != rest[j] {
          assert rest[i] == ks[i + 1] && rest[j] == ks[j + 1];
        }
      }
      RemoveKeyDistinct(rest, k);
      assert ks[0] !in rest by {
        forall j | 0 <= j < |rest| ensures rest[j] != ks[0] {
          assert rest[j] == ks[j + 1];
        }
      }
    }
  }

  /** A distinct sequence splits around its `i`-th element, which occurs on
      neither side. */
  lemma DistinctSplit(ks: seq<string>, i: nat)
    requires Distinct(ks) && i < |ks|
    ensures ks == ks[..i] + [ks[i]] + ks[i + 1..]
    ensures ks[i] !in ks[..i] && ks[i] !in ks[i + 1..]
  {
    var before, after := ks[..i], ks[i + 1..];
    assert forall j :: 0 <= j < |before| ==> before[j] == ks[j];
    assert forall j :: 0 <= j < |after| ==> after[j] == ks[i + 1 + j];
  }

  /** One step of the cleanup sweep over the snapshot `ks`: the key at `i` is still
      in the order, and deleting it when expired (or keeping it when live) moves
      the boundary between swept and unswept keys one place on. */
  lemma SweepStep<D>(ks: seq<string>, i: nat, e: map<string, CacheItem<D>>, now: int, keys: seq<string>)
    requires Distinct(ks) && i < |ks|
    requires keys == LiveKeys(ks[..i], e, now) + ks[i..]
    ensures ks[i] in keys
    ensures !(ks[i] in e && Expired(e[ks[i]], now)) ==> keys == LiveKeys(ks[..i + 1], e, now) + ks[i + 1..]
    ensures ks[i] in e && Expired(e[ks[i]], now) ==>
      RemoveKey(keys, ks[i]) == LiveKeys(ks[..i + 1], e, now) + ks[i + 1..]
  {
    var k, before, after := ks[i], ks[..i], ks[i + 1..];
    var live := LiveKeys(before, e, now);
    assert keys == live + [k] + after by {
      assert ks[i..] == [k] + after;
    }
    LiveKeysStep(ks, i, e, now);
    if k in e && Expired(e[k], now) {
      DistinctSplit(ks, i);
      assert k !in live;
      RemoveKeyOnce(live, k, after);
    }
  }

  /** Sweeping one more key of the snapshot appends it to the live keys unless it
      has expired. */
  lemma LiveKeysStep<D>(ks: seq<string>, i: nat, e: map<string, CacheItem<D>>, now: int)
    requires i < |ks|
    ensures (ks[i] in e && Expired(e[ks[i]], now)) ==> LiveKeys(ks[..i + 1], e, now) == LiveKeys(ks[..i], e, now)
    ensures !(ks[i] in e && Expired(e[ks[i]], now)) ==> LiveKeys(ks[..i + 1], e, now) == LiveKeys(ks[..i], e, now) + [ks[i]]
  {
    assert ks[..i + 1][..i] == ks[..i] && ks[..i + 1][i] == ks[i];
    assert LiveKeys(ks[..i], e, now) + [] == LiveKeys(ks[..i], e, now);
  }

  /** After the sweep the entries left are exactly the live ones. */
  lemma SweepResult<D>(ks: seq<string>, e: map<string, CacheItem<D>>, now: int,
                       keys: seq<string>, entries: map<string, CacheItem<D>>)
    requires forall k :: k in e <==> k in ks
    requires keys == LiveKeys(ks, e, now)
    requires forall k :: k in entries <==> k in keys
    requires forall k :: k in entries ==> k in e && entries[k] == e[k]
    ensures entries == LiveEntries(e, now)
  {
  }

  /** `APICache`. */
  class Cache<D> {
    var keys: seq<string>
    var entries: map<string, CacheItem<D>>

    /** The order lists each stored key once, and the cache never holds more than
        `MaxSize` entries. */
    ghost predicate Valid()
      reads this
    {
      && Distinct(keys)
      && (forall k :: k in entries <==> k in keys)
      && |keys| <= MaxSize
    }

    constructor ()
      ensures Valid() && keys == [] && entries == map[]
    {
      keys := [];
      entries := map[];
    }

    /** `getStats().size`: a cache that keeps its invariant holds at most `MaxSize`
        entries, and its order lists exactly them. */
    method Size() returns (size: nat)
      requires Valid()
      ensures size == |entries| == |keys| <= MaxSize
    {
      DistinctCard(keys);
      assert entries.Keys == set x | x in keys;
      size := |entries|;
    }

    /** `set`: evicts the oldest key first when full, then stores the value stamped
        with `now`. */
    method Set(key: string, data: D, now: int, ttl: int)
      requires Valid()
      modifies this
      ensures Valid()
      ensures keys == SetKeys(old(keys), key)
      ensures entries ==
        (if |old(keys)| >= MaxSize then old(entries) - {old(keys)[0]} else old(entries))
          [key := CacheItem(data, now, ttl)]
    {
      if |keys| >= MaxSize {
        var oldest := keys[0];
        keys := keys[1..];
        entries := entries - {oldest};
      }
      if key !in entries {
        keys := keys + [key];
      }
      entries := entries[key := CacheItem(data, now, ttl)];
    }

    /** `set(key, data)` without a time-to-live: the default one. */
    method SetWithDefaultTtl(key: string, data: D, now: int)
      requires Valid()
      modifies this
      ensures Valid()
      ensures keys == SetKeys(old(keys), key)
      ensures entries ==
        (if |old(keys)| >= MaxSize then old(entries) - {old(keys)[0]} else old(entries))
          [key := CacheItem(data, now, DefaultTtl)]
    {
      Set(key, data, now, DefaultTtl);
    }

    /** `get`: a missing key changes nothing; an expired one is deleted. */
    method Get(key: string, now: int) returns (r: Option<D>)
      requires Valid()
      modifies this
      ensures Valid()
      ensures r == Lookup(old(entries), key, now)
      ensures key in old(entries) && Expired(old(entries)[key], now) ==>
        entries == old(entries) - {key} && keys == RemoveKey(old(keys), key)
      ensures !(key in old(entries) && Expired(old(entries)[key], now)) ==>
        entries == old(entries) && keys == old(keys)
    {
      if key !in entries {
        return None;
      }
      var item := entries[key];
      if Expired(item, now) {
        var _ := Delete(key);
        return None;
      }
      r := Some(item.data);
    }

    /** `has`: the same check as `get`, answered as a boolean. */
    method Has(key: string, now: int) returns (present: bool)
      requires Valid()
      modifies this
      ensures Valid()
      ensures present <==> Lookup(old(entries), key, now).Some?
      ensures key in old(entries) && Expired(old(entries)[key], now) ==>
        entries == old(entries) - {key} && keys == RemoveKey(old(keys), key)
      ensures !(key in old(entries) && Expired(old(entries)[key], now)) ==>
        entries == old(entries) && keys == old(keys)
    {
      if key !in entries {
        return false;
      }
      if Expired(entries[key], now) {
        var _ := Delete(key);
        return false;
      }
      present := true;
    }

    /** `delete`: reports whether the key was there. */
    method Delete(key: string) returns (removed: bool)
      requires Valid()
      modifies this
      ensures Valid()
      ensures removed <==> key in old(entries)
      ensures entries == old(entries) - {key}
      ensures keys == RemoveKey(old(keys), key)
    {
      removed := key in entries;
      entries := entries - {key};
      keys := RemoveKey(keys, key);
      RemoveKeyDistinct(old(keys), key);
    }

    /** `clear`. */
    method Clear()
      modifies this
      ensures Valid() && keys == [] && entries == map[]
    {
      keys := [];
      entries := map[];
    }

    /** `cleanup`: one sweep over the entries in order, deleting every expired one. */
    method Cleanup(now: int)
      requires Valid()
      modifies this
      ensures Valid()
      ensures entries == LiveEntries(old(entries), now)
      ensures keys == LiveKeys(old(keys), old(entries), now)
    {
      var ks := keys;
      var e := entries;
      var i := 0;
      while i < |ks|
        invariant 0 <= i <= |ks|
        invariant Valid() && Distinct(ks)
        invariant forall k :: k in e <==> k in ks
        invariant keys == LiveKeys(ks[..i], e, now) + ks[i..]
        invariant forall k :: k in entries ==> k in e && entries[k] == e[k]
      {
        var key := ks[i];
        SweepStep(ks, i, e, now, keys);
        assert key in e && e[key] == entries[key];
        if Expired(entries[key], now) {
          var _ := Delete(key);
        }
        i := i + 1;
      }
      assert ks[..|ks|] == ks;
      SweepResult(ks, e, now, keys, entries);
    }
  }

  /** `generateCacheKey` with every parameter already turned into its string. */
  function GenerateCacheKey(prefix: string, params: seq<string>): (key: string)
    ensures |params| >= 1 ==> key == Text.Join([prefix] + params, '_')
    ensures params == [] ==> key == prefix + "_"
  {
    prefix + "_" + Text.Join(params, '_')
  }

  /** Without underscores inside the prefix and the parameters, the key splits back
      into them. */
  lemma KeyRecoversParts(prefix: string, params: seq<string>)
    requires |params| >= 1
    requires '_' !in prefix && forall i :: 0 <= i < |params| ==> '_' !in params[i]
    ensures Text.Split(GenerateCacheKey(prefix, params), '_') == [prefix] + params
  {
    Text.SplitJoin([prefix] + params, '_');
  }

  /** With underscores inside the parts, different requests can share a key. */
  lemma KeysCanCollide()
    ensures GenerateCacheKey("a_b", ["c"]) == GenerateCacheKey("a", ["b", "c"])
  {
  }
}
