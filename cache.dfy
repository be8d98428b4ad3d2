/** `ResponseCache` and `GenericCache<T>` (the same code over different value
    types) as one class. The `LruCache` it wraps is modelled by its recency
    list: `entries[0]` is the least recently used slot, the last element the
    most recently used one. Instants are milliseconds on the cache's clock. */
module Cache {
  import opened Errors

  /** A key together with its `CacheEntry { data, expires_at }`. */
  datatype Entry<V> = Entry(key: string, data: V, expiresAt: int)

  /** `CacheEntry::is_expired`. */
  predicate IsExpired<V>(e: Entry<V>, now: int)
  {
    now > e.expiresAt
  }

  ghost predicate DistinctKeys<V>(s: seq<Entry<V>>)
  {
    forall i, j :: 0 <= i < j < |s| ==> s[i].key != s[j].key
  }

  function KeySet<V>(s: seq<Entry<V>>): set<string>
  {
    set i | 0 <= i < |s| :: s[i].key
  }

  /** The first slot at or after `from` holding `k`, or -1. */
  function IndexFrom<V>(s: seq<Entry<V>>, k: string, from: nat): (i: int)
    requires from <= |s|
    decreases |s| - from
    ensures -1 <= i < |s|
    ensures i >= 0 ==> from <= i && s[i].key == k && forall j :: from <= j < i ==> s[j].key != k
    ensures i < 0 ==> forall j :: from <= j < |s| ==> s[j].key != k
  {
    if from == |s| then -1
    else if s[from].key == k then from
    else IndexFrom(s, k, from + 1)
  }

  /** The slot holding `k`, or -1. */
  function IndexOf<V>(s: seq<Entry<V>>, k: string): (i: int)
    ensures -1 <= i < |s|
    ensures i >= 0 ==> s[i].key == k
    ensures i < 0 ==> forall j :: 0 <= j < |s| ==> s[j].key != k
    ensures i >= 0 ==> forall j :: 0 <= j < i ==> s[j].key != k
  {
    IndexFrom(s, k, 0)
  }

  /** The entry stored under `k`, whatever its expiry. */
  function Find<V>(s: seq<Entry<V>>, k: string): Option<Entry<V>>
  {
    var i := IndexOf(s, k);
    if i < 0 then None else Some(s[i])
  }

  function RemoveAt<V>(s: seq<Entry<V>>, i: nat): seq<Entry<V>>
    requires i < |s|
  {
    s[..i] + s[i + 1..]
  }

  /** Move slot `i` to the most-recent end (`get_mut`'s promotion). */
  function Promote<V>(s: seq<Entry<V>>, i: nat): seq<Entry<V>>
    requires i < |s|
  {
    RemoveAt(s, i) + [s[i]]
  }

  /** `LruCache::put`: replace and promote an existing key; otherwise append,
      first dropping the least recently used slot when the cache is full. */
  function Put<V>(s: seq<Entry<V>>, capacity: nat, e: Entry<V>): (t: seq<Entry<V>>)
    requires 0 < capacity && |s| <= capacity
    ensures |s| <= |t| <= capacity
    ensures |t| > 0 && t[|t| - 1] == e
  {
    var i := IndexOf(s, e.key);
    if i >= 0 then RemoveAt(s, i) + [e]
    else if |s| < capacity then s + [e]
    else s[1..] + [e]
  }

  /** What `get` returns: the data of the entry stored under `k` if it has not expired. */
  function LookupResult<V>(s: seq<Entry<V>>, k: string, now: int): (r: Option<V>)
    ensures r.Some? <==> Find(s, k).Some? && now <= Find(s, k).value.expiresAt
    ensures r.Some? ==> r.value == Find(s, k).value.data
  {
    var i := IndexOf(s, k);
    if i < 0 || IsExpired(s[i], now) then None else Some(s[i].data)
  }

  /** The recency list after `get`: a hit becomes the most recently used entry,
      an expired entry is dropped, and an absent key changes nothing. */
  function AfterLookup<V>(s: seq<Entry<V>>, k: string, now: int): (t: seq<Entry<V>>)
    ensures |s| - 1 <= |t| <= |s|
    ensures Find(s, k).None? ==> t == s
    ensures LookupResult(s, k, now).Some? ==> |t| == |s| && t[|t| - 1] == Find(s, k).value
    ensures Find(s, k).Some? && LookupResult(s, k, now).None? ==> |t| == |s| - 1
  {
    var i := IndexOf(s, k);
    if i < 0 then s
    else if IsExpired(s[i], now) then RemoveAt(s, i)
    else Promote(s, i)
  }

  class GenericCache<V> {
    var entries: seq<Entry<V>>
    const capacity: nat
    const ttl: nat

    ghost predicate Valid()
      reads this
    {
      0 < capacity && |entries| <= capacity && DistinctKeys(entries)
    }

    /** `new(capacity, ttl)`; a capacity of 0 makes `NonZeroUsize::new(..).unwrap()` panic. */
    constructor (capacity: nat, ttl: nat)
      requires capacity > 0
      ensures Valid()
      ensures entries == [] && this.capacity == capacity && this.ttl == ttl
    {
      this.capacity := capacity;
      this.ttl := ttl;
      entries := [];
    }

    /** `get(key)` at instant `now`: `get_mut` promotes the slot; a live entry is
        returned, an expired one is popped. */
    method Get(key: string, now: int) returns (r: Option<V>)
      requires Valid()
      modifies this
      ensures Valid()
      ensures r == LookupResult(old(entries), key, now)
      ensures entries == AfterLookup(old(entries), key, now)
    {
      var i := IndexOf(entries, key);
      if i < 0 {
        return None;
      }
      var e := entries[i];
      ghost var before := entries;
      entries := Promote(entries, i);
      PromoteKeepsDistinct(before, i);
      if !IsExpired(e, now) {
        r := Some(e.data);
      } else {
        assert entries[..|entries| - 1] == RemoveAt(before, i);
        entries := entries[..|entries| - 1];
        r := None;
      }
    }

    /** `insert(key, value)` at instant `now`: the entry expires at `now + ttl`. */
    method Insert(key: string, value: V, now: int)
      requires Valid()
      modifies this
      ensures Valid()
      ensures entries == Put(old(entries), capacity, Entry(key, value, now + ttl))
    {
      PutKeepsValid(entries, capacity, Entry(key, value, now + ttl));
      entries := Put(entries, capacity, Entry(key, value, now + ttl));
    }

    /** `clear()`. */
    method Clear()
      requires Valid()
      modifies this
      ensures Valid() && entries == []
    {
      entries := [];
    }

    /** `len()`. */
    function Len(): (n: nat)
      reads this
      ensures Valid() ==> n == |KeySet(entries)| && n <= capacity
    {
      DistinctKeySetSize(entries);
      |entries|
    }

    /** `is_empty()`. */
    function IsEmpty(): (b: bool)
      reads this
      ensures b <==> Len() == 0
    {
      |entries| == 0
    }
  }

  // ---------------------------------------------------------------------------
  // Properties of the recency list

  lemma RemoveAtKeys<V>(s: seq<Entry<V>>, i: nat)
    requires i < |s| && DistinctKeys(s)
    ensures DistinctKeys(RemoveAt(s, i))
    ensures KeySet(RemoveAt(s, i)) == KeySet(s) - {s[i].key}
  {
    var r := RemoveAt(s, i);
    assert forall j :: 0 <= j < |r| ==> r[j] == (if j < i then s[j] else s[j + 1]);
    forall x | x in KeySet(s) - {s[i].key} ensures x in KeySet(r) {
      var n :| 0 <= n < |s| && s[n].key == x;
      if n < i { assert r[n].key == x; } else { assert r[n - 1].key == x; }
    }
  }

  lemma AppendFreshKey<V>(s: seq<Entry<V>>, e: Entry<V>)
    requires DistinctKeys(s) && e.key !in KeySet(s)
    ensures DistinctKeys(s + [e])
    ensures KeySet(s + [e]) == KeySet(s) + {e.key}
  {
    var r := s + [e];
    forall x | x in KeySet(s) ensures x in KeySet(r) {
      var n :| 0 <= n < |s| && s[n].key == x;
      assert r[n].key == x;
    }
    assert r[|s|].key == e.key;
  }

  lemma PromoteKeepsDistinct<V>(s: seq<Entry<V>>, i: nat)
    requires i < |s| && DistinctKeys(s)
    ensures DistinctKeys(Promote(s, i)) && |Promote(s, i)| == |s|
    ensures KeySet(Promote(s, i)) == KeySet(s)
  {
    RemoveAtKeys(s, i);
    AppendFreshKey(RemoveAt(s, i), s[i]);
  }

  lemma DistinctKeySetSize<V>(s: seq<Entry<V>>)
    ensures DistinctKeys(s) ==> |KeySet(s)| == |s|
  {
    if DistinctKeys(s) && |s| > 0 {
      var t := s[..|s| - 1];
      assert DistinctKeys(t);
      DistinctKeySetSize(t);
      assert s == t + [s[|s| - 1]];
      assert s[|s| - 1].key !in KeySet(t);
      AppendFreshKey(t, s[|s| - 1]);
    }
  }

  /** `put` keeps the cache within its capacity and its keys unique. */
  lemma PutKeepsValid<V>(s: seq<Entry<V>>, capacity: nat, e: Entry<V>)
    requires 0 < capacity && |s| <= capacity && DistinctKeys(s)
    ensures |Put(s, capacity, e)| <= capacity && DistinctKeys(Put(s, capacity, e))
  {
    var i := IndexOf(s, e.key);
    if i >= 0 {
      RemoveAtKeys(s, i);
      AppendFreshKey(RemoveAt(s, i), e);
    } else if |s| < capacity {
      AppendFreshKey(s, e);
    } else {
      RemoveAtKeys(s, 0);
      assert RemoveAt(s, 0) == s[1..];
      AppendFreshKey(s[1..], e);
    }
  }

  /** After `put` the new entry is the most recently used one and is what `k` maps to. */
  lemma PutStores<V>(s: seq<Entry<V>>, capacity: nat, e: Entry<V>)
    requires 0 < capacity && |s| <= capacity && DistinctKeys(s)
    ensures var t := Put(s, capacity, e); |t| > 0 && t[|t| - 1] == e && Find(t, e.key) == Some(e)
  {
    PutKeepsValid(s, capacity, e);
    var t := Put(s, capacity, e);
    assert t[|t| - 1] == e;
    assert e.key in KeySet(t);
    var j := IndexOf(t, e.key);
    assert t[j].key == t[|t| - 1].key;
    assert j == |t| - 1;
  }

  /** Inserting a key that is not present into a full cache evicts exactly the
      least recently used key; anywhere else no key is lost. */
  lemma PutKeys<V>(s: seq<Entry<V>>, capacity: nat, e: Entry<V>)
    requires 0 < capacity && |s| <= capacity && DistinctKeys(s)
    ensures e.key in KeySet(s) ==>
      KeySet(Put(s, capacity, e)) == KeySet(s) && |Put(s, capacity, e)| == |s|
    ensures e.key !in KeySet(s) && |s| < capacity ==>
      KeySet(Put(s, capacity, e)) == KeySet(s) + {e.key} && |Put(s, capacity, e)| == |s| + 1
    ensures e.key !in KeySet(s) && |s| == capacity ==>
      KeySet(Put(s, capacity, e)) == KeySet(s) - {s[0].key} + {e.key} && |Put(s, capacity, e)| == |s|
  {
    var i := IndexOf(s, e.key);
    if i >= 0 {
      RemoveAtKeys(s, i);
      AppendFreshKey(RemoveAt(s, i), e);
    } else if |s| < capacity {
      AppendFreshKey(s, e);
    } else {
      RemoveAtKeys(s, 0);
      assert RemoveAt(s, 0) == s[1..];
      AppendFreshKey(s[1..], e);
    }
  }

  lemma FindAfterRemove<V>(s: seq<Entry<V>>, i: nat, k: string)
    requires i < |s| && DistinctKeys(s) && k != s[i].key
    ensures Find(RemoveAt(s, i), k) == Find(s, k)
  {
    RemoveAtKeys(s, i);
    var r := RemoveAt(s, i);
    var a, b := IndexOf(s, k), IndexOf(r, k);
    if a >= 0 {
      var m := if a < i then a else a - 1;
      assert r[m] == s[a];
      assert b == m;
    }
  }

  lemma FindAfterAppend<V>(s: seq<Entry<V>>, e: Entry<V>, k: string)
    requires k != e.key
    ensures Find(s + [e], k) == Find(s, k)
  {
    var r := s + [e];
    var a, b := IndexOf(s, k), IndexOf(r, k);
    if a >= 0 {
      assert r[a] == s[a];
      assert b == a;
    } else {
      assert KeySet(r) == KeySet(s) + {e.key} by {
        forall x | x in KeySet(s) ensures x in KeySet(r) {
          var n :| 0 <= n < |s| && s[n].key == x;
          assert r[n].key == x;
        }
        assert r[|s|].key == e.key;
      }
    }
  }

  /** `put` leaves every other key's entry as it was, unless it was the evicted one. */
  lemma PutOthersUnchanged<V>(s: seq<Entry<V>>, capacity: nat, e: Entry<V>, k: string)
    requires 0 < capacity && |s| <= capacity && DistinctKeys(s) && k != e.key
    requires !(e.key !in KeySet(s) && |s| == capacity && k == s[0].key)
    ensures Find(Put(s, capacity, e), k) == Find(s, k)
  {
    var i := IndexOf(s, e.key);
    if i >= 0 {
      FindAfterRemove(s, i, k);
      FindAfterAppend(RemoveAt(s, i), e, k);
    } else if |s| < capacity {
      FindAfterAppend(s, e, k);
    } else {
      FindAfterRemove(s, 0, k);
      assert RemoveAt(s, 0) == s[1..];
      FindAfterAppend(s[1..], e, k);
    }
  }

  /** An `insert` at `t` is visible to every `get` up to and including `t + ttl`. */
  lemma InsertThenGet<V>(s: seq<Entry<V>>, capacity: nat, k: string, v: V, t: int, ttl: nat, now: int)
    requires 0 < capacity && |s| <= capacity && DistinctKeys(s)
    requires now <= t + ttl
    ensures LookupResult(Put(s, capacity, Entry(k, v, t + ttl)), k, now) == Some(v)
  {
    PutStores(s, capacity, Entry(k, v, t + ttl));
  }

  /** Expiry is strict: an entry is still live at its expiry instant and gone one tick later. */
  lemma ExpiryIsStrict<V>(s: seq<Entry<V>>, k: string)
    requires Find(s, k).Some?
    ensures LookupResult(s, k, Find(s, k).value.expiresAt) == Some(Find(s, k).value.data)
    ensures LookupResult(s, k, Find(s, k).value.expiresAt + 1) == None
  {
  }

  /** A hit returns the stored value, which is not past its expiry, and makes the
      key the most recently used one; nothing is added or lost. */
  lemma GetHit<V>(s: seq<Entry<V>>, k: string, now: int, other: string)
    requires DistinctKeys(s) && LookupResult(s, k, now).Some?
    ensures Find(s, k).Some? && LookupResult(s, k, now).value == Find(s, k).value.data
    ensures now <= Find(s, k).value.expiresAt
    ensures var t := AfterLookup(s, k, now);
      |t| == |s| && t[|t| - 1] == Find(s, k).value && KeySet(t) == KeySet(s) && DistinctKeys(t)
    ensures other != k ==> Find(AfterLookup(s, k, now), other) == Find(s, other)
  {
    var i := IndexOf(s, k);
    PromoteKeepsDistinct(s, i);
    if other != k {
      RemoveAtKeys(s, i);
      FindAfterRemove(s, i, other);
      FindAfterAppend(RemoveAt(s, i), s[i], other);
    }
  }

  /** After a hit the other entries keep their relative order ahead of the hit key,
      so the next eviction takes the least recently used of them. */
  lemma GetHitOrder<V>(s: seq<Entry<V>>, k: string, now: int)
    requires LookupResult(s, k, now).Some?
    ensures var t, i := AfterLookup(s, k, now), IndexOf(s, k);
      0 <= i < |s| && t[..|t| - 1] == s[..i] + s[i + 1..]
    ensures var t := AfterLookup(s, k, now);
      |s| >= 2 ==> t[0] == (if IndexOf(s, k) == 0 then s[1] else s[0])
  {
    var t, i := AfterLookup(s, k, now), IndexOf(s, k);
    assert t == RemoveAt(s, i) + [s[i]];
    assert t[..|t| - 1] == RemoveAt(s, i);
  }

  /** A `get` of an expired key returns nothing and removes exactly that key. */
  lemma GetExpired<V>(s: seq<Entry<V>>, k: string, now: int, other: string)
    requires DistinctKeys(s) && Find(s, k).Some? && IsExpired(Find(s, k).value, now)
    requires other != k
    ensures LookupResult(s, k, now) == None
    ensures var t := AfterLookup(s, k, now);
      |t| == |s| - 1 && Find(t, k) == None && Find(t, other) == Find(s, other)
  {
    var i := IndexOf(s, k);
    RemoveAtKeys(s, i);
    FindAfterRemove(s, i, other);
  }

  /** A `get` of an absent key changes nothing. */
  lemma GetAbsent<V>(s: seq<Entry<V>>, k: string, now: int)
    requires Find(s, k).None?
    ensures LookupResult(s, k, now) == None && AfterLookup(s, k, now) == s
  {
  }

  /** A lookup keeps the keys distinct. */
  lemma AfterLookupKeepsDistinct<V>(s: seq<Entry<V>>, k: string, now: int)
    requires DistinctKeys(s)
    ensures DistinctKeys(AfterLookup(s, k, now))
  {
    var i := IndexOf(s, k);
    if i >= 0 {
      if IsExpired(s[i], now) {
        RemoveAtKeys(s, i);
      } else {
        PromoteKeepsDistinct(s, i);
      }
    }
  }

  /** With distinct keys, the most recently used entry is what its key maps to. */
  lemma FindLast<V>(s: seq<Entry<V>>, e: Entry<V>)
    requires DistinctKeys(s) && |s| > 0 && s[|s| - 1] == e
    ensures Find(s, e.key) == Some(e)
  {
    assert e.key in KeySet(s);
    var j := IndexOf(s, e.key);
    assert s[j].key == s[|s| - 1].key;
  }

  /** The crate's eviction test: capacity 2, insert key1, key2, key3, then look
      up key1, key2 and key3 in turn. */
  lemma EvictionScenario(t: int, ttl: nat)
    ensures
      var s1 := Put([], 2, Entry("key1", "value1", t + ttl));
      var s2 := Put(s1, 2, Entry("key2", "value2", t + ttl));
      var s3 := Put(s2, 2, Entry("key3", "value3", t + ttl));
      var s4 := AfterLookup(s3, "key1", t);
      var s5 := AfterLookup(s4, "key2", t);
      && LookupResult(s3, "key1", t) == None
      && LookupResult(s4, "key2", t) == Some("value2")
      && LookupResult(s5, "key3", t) == Some("value3")
  {
    var e1, e2, e3 := Entry("key1", "value1", t + ttl), Entry("key2", "value2", t + ttl), Entry("key3", "value3", t + ttl);
    assert Put([], 2, e1) == [e1];
    assert IndexOf([e1], "key2") == -1;
    assert Put([e1], 2, e2) == [e1, e2];
    assert IndexOf([e1, e2], "key3") == -1;
    assert Put([e1, e2], 2, e3) == [e2, e3];
    assert IndexOf([e2, e3], "key1") == -1;
    assert IndexOf([e2, e3], "key2") == 0;
    assert Promote([e2, e3], 0) == [e3, e2];
    assert IndexOf([e3, e2], "key3") == 0;
  }
}
