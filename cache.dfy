/** The field-metadata cache (fieldCache): a map from struct type to list
    element plus a recency list, front = most recently used, with LRU
    eviction from the back. The state is described by the value CacheState;
    the class FieldCache holds the same fields and updates them in place. */
module Cache {
  import opened Text
  import opened Reflect
  import opened Errors
  import opened Fields

  /** A list element (*list.Element holding a *cacheEntry): `id` stands for
      the element's identity, which Go compares by pointer. */
  datatype Elem = Elem(id: nat, value: seq<FieldInfo>)

  /** The cache's whole state: the map from type to element, the list from
      front to back, the next fresh element identity, the capacity and the
      hit, miss and eviction counters. */
  datatype CacheState = CacheState(cache: map<FieldType, Elem>, order: seq<Elem>, nextId: nat,
                                   maxSize: int, hits: int, misses: int, evictions: int)

  /** CacheStats; HitRatio is the exact ratio, not its float64 rounding. */
  datatype CacheStats = CacheStats(currentSize: nat, maxSize: int, hits: int, misses: int, hitRatio: real)

  const CacheName := "字段缓存"

  /** The map and the list describe the same elements: list elements have
      distinct identities, all older than nextId; the map's values are
      exactly the list's elements, each under one key; counters are not
      negative. */
  ghost predicate Consistent(m: CacheState) {
    && (forall a, b :: 0 <= a < b < |m.order| ==> m.order[a].id != m.order[b].id)
    && (forall j :: 0 <= j < |m.order| ==> m.order[j].id < m.nextId)
    && KeysDistinct(m)
    && (forall v :: v in m.cache.Values <==> v in m.order)
    && m.hits >= 0 && m.misses >= 0 && m.evictions >= 0
  }

  /** No two keys hold the same element. */
  ghost predicate KeysDistinct(m: CacheState) {
    forall k1, k2 :: k1 in m.cache && k2 in m.cache && m.cache[k1].id == m.cache[k2].id ==> k1 == k2
  }

  /** A positive capacity bounds the number of entries. */
  predicate Bounded(m: CacheState) {
    m.maxSize > 0 ==> |m.order| <= m.maxSize
  }

  /** newFieldCache with the given capacity: empty, counters at zero. */
  function NewCache(capacity: int): (m: CacheState)
    ensures Consistent(m) && Bounded(m)
    ensures m.maxSize == capacity && m.order == [] && m.cache == map[]
  {
    CacheState(map[], [], 0, capacity, 0, 0, 0)
  }

  /** evict. An empty list is left alone. Otherwise the back element always
      leaves the list; if some key maps to it, that key leaves the map and
      the eviction is counted, else CacheOverflowError is returned. */
  function EvictSpec(m: CacheState): (r: (CacheState, Option<Error>))
    ensures m.order == [] ==> r == (m, None)
    ensures m.order != [] ==> r.0.order == m.order[..|m.order| - 1]
    ensures r.0.maxSize == m.maxSize && r.0.hits == m.hits && r.0.misses == m.misses && r.0.nextId == m.nextId
    ensures r.1.Some? ==> r.1.value.kind == CacheOverflow && r.0.cache == m.cache && r.0.evictions == m.evictions
    ensures r.1.None? && m.order != [] ==>
              var back := m.order[|m.order| - 1];
              && r.0.evictions == m.evictions + 1
              && (forall k :: k in r.0.cache <==> k in m.cache && m.cache[k].id != back.id)
              && (forall k :: k in r.0.cache ==> r.0.cache[k] == m.cache[k])
  {
    if m.order == [] then (m, None)
    else
      var back := m.order[|m.order| - 1];
      var rest := m.order[..|m.order| - 1];
      if exists k :: k in m.cache && m.cache[k].id == back.id then
        (m.(order := rest,
            cache := map k | k in m.cache && m.cache[k].id != back.id :: m.cache[k],
            evictions := m.evictions + 1), None)
      else
        (m.(order := rest), Some(CacheOverflowError(CacheName, m.maxSize)))
  }

  /** On a consistent cache, evict never fails: it removes the back element
      and the one key that maps to it, and the cache stays consistent. */
  lemma EvictConsistent(m: CacheState)
    requires Consistent(m) && m.order != []
    ensures var r := EvictSpec(m);
            && r.1.None?
            && Consistent(r.0)
            && |r.0.order| == |m.order| - 1
            && exists k :: k in m.cache && m.cache[k] == m.order[|m.order| - 1] && r.0.cache == m.cache - {k}
  {
    var back := m.order[|m.order| - 1];
    assert back in m.cache.Values;
    var kb :| kb in m.cache && m.cache[kb] == back;
    assert EvictSpec(m).0.cache == m.cache - {kb};
    EvictedValuesListed(m);
    EvictedListValued(m);
  }

  /** After evict, every element the map holds is still in the list. */
  lemma EvictedValuesListed(m: CacheState)
    requires Consistent(m) && m.order != []
    ensures forall v :: v in EvictSpec(m).0.cache.Values ==> v in EvictSpec(m).0.order
  {
    var n := |m.order|;
    var r := EvictSpec(m).0;
    forall v | v in r.cache.Values
      ensures v in r.order
    {
      var k :| k in r.cache && r.cache[k] == v;
      assert v in m.cache.Values;
      var j :| 0 <= j < n && m.order[j] == v;
      assert j != n - 1;
      assert r.order[j] == v;
    }
  }

  /** After evict, every element left in the list is still in the map. */
  lemma EvictedListValued(m: CacheState)
    requires Consistent(m) && m.order != []
    ensures forall v :: v in EvictSpec(m).0.order ==> v in EvictSpec(m).0.cache.Values
  {
    var back := m.order[|m.order| - 1];
    assert back in m.cache.Values;
    var r := EvictSpec(m).0;
    forall v | v in r.order
      ensures v in r.cache.Values
    {
      var j :| 0 <= j < |r.order| && r.order[j] == v;
      assert m.order[j] == v;
      assert v in m.cache.Values;
      var k :| k in m.cache && m.cache[k] == v;
      assert v.id != back.id;
      assert k in r.cache;
    }
  }

  /** The eviction loop of getFieldsInfo, run when the capacity is positive:
      evict while the list holds at least maxSize entries and is not empty.
      Errors are ignored; each round shortens the list. */
  function EvictWhileFull(m: CacheState): (r: CacheState)
    ensures m.maxSize > 0 ==> |r.order| < m.maxSize
    ensures |r.order| <= |m.order| && r.order == m.order[..|r.order|]
    ensures r.maxSize == m.maxSize && r.hits == m.hits && r.misses == m.misses && r.nextId == m.nextId
    ensures forall k :: k in r.cache ==> k in m.cache && r.cache[k] == m.cache[k]
    ensures m.maxSize <= 0 ==> r == m
    decreases |m.order|
  {
    if m.maxSize > 0 && |m.order| >= m.maxSize && |m.order| > 0 then
      EvictWhileFull(EvictSpec(m).0)
    else m
  }

  lemma {:induction false} EvictWhileFullConsistent(m: CacheState)
    requires Consistent(m)
    ensures Consistent(EvictWhileFull(m))
    decreases |m.order|
  {
    if m.maxSize > 0 && |m.order| >= m.maxSize && |m.order| > 0 {
      EvictConsistent(m);
      EvictWhileFullConsistent(EvictSpec(m).0);
    }
  }

  /** The loop of SetMaxSize: evict while the list is longer than a positive
      capacity, stopping at the first failed eviction. */
  function TrimSpec(m: CacheState): (r: CacheState)
    ensures |r.order| <= |m.order| && r.order == m.order[..|r.order|]
    ensures r.maxSize == m.maxSize && r.hits == m.hits && r.misses == m.misses && r.nextId == m.nextId
    ensures m.maxSize <= 0 ==> r == m
    decreases |m.order|
  {
    if |m.order| > m.maxSize && m.maxSize > 0 then
      var (m1, err) := EvictSpec(m);
      if err.Some? then m1 else TrimSpec(m1)
    else m
  }

  /** SetMaxSize(size): record the capacity, then trim to it. */
  function SetMaxSizeSpec(m: CacheState, size: int): (r: CacheState)
    ensures r.maxSize == size
    ensures size <= 0 ==> r == m.(maxSize := size)
  {
    TrimSpec(m.(maxSize := size))
  }

  /** On a consistent cache, SetMaxSize with a positive size leaves at most
      that many entries, keeping the most recently used ones. */
  lemma {:induction false} TrimConsistent(m: CacheState)
    requires Consistent(m)
    ensures Consistent(TrimSpec(m)) && Bounded(TrimSpec(m))
    ensures m.maxSize > 0 ==> |TrimSpec(m).order| == if |m.order| < m.maxSize then |m.order| else m.maxSize
    decreases |m.order|
  {
    if |m.order| > m.maxSize && m.maxSize > 0 {
      EvictConsistent(m);
      TrimConsistent(EvictSpec(m).0);
    }
  }

  lemma SetMaxSizeBounds(m: CacheState, size: int)
    requires Consistent(m)
    ensures var r := SetMaxSizeSpec(m, size);
            Consistent(r) && Bounded(r) && r.order == m.order[..|r.order|]
            && (size > 0 ==> |r.order| == if |m.order| < size then |m.order| else size)
            && (size <= 0 ==> r.order == m.order)
  {
    TrimConsistent(m.(maxSize := size));
  }

  /** The position of the element with identity `id` in the list. */
  function IndexOf(s: seq<Elem>, id: nat): (r: Option<nat>)
    ensures r.Some? ==> r.value < |s| && s[r.value].id == id
    ensures r.None? ==> forall j :: 0 <= j < |s| ==> s[j].id != id
  {
    if s == [] then None
    else if s[0].id == id then Some(0)
    else match IndexOf(s[1..], id)
      case None => None
      case Some(j) => Some(j + 1)
  }

  /** list.MoveToFront: the element moves to the front and the others keep
      their order; an element not in the list leaves it unchanged. */
  function MoveToFront(s: seq<Elem>, e: Elem): (r: seq<Elem>)
    ensures |r| == |s|
    ensures IndexOf(s, e.id).None? ==> r == s
    ensures IndexOf(s, e.id).Some? ==>
              var j := IndexOf(s, e.id).value;
              r[0] == s[j] && r[1..] == s[..j] + s[j + 1..]
  {
    match IndexOf(s, e.id)
    case None => s
    case Some(j) => [s[j]] + s[..j] + s[j + 1..]
  }

  /** Moving an element to the front keeps the list's elements and keeps
      their identities distinct. */
  lemma MoveToFrontPermutes(s: seq<Elem>, e: Elem)
    requires forall a, b :: 0 <= a < b < |s| ==> s[a].id != s[b].id
    ensures var r := MoveToFront(s, e);
            (forall a, b :: 0 <= a < b < |r| ==> r[a].id != r[b].id)
            && (forall x :: x in r <==> x in s)
  {
    var r := MoveToFront(s, e);
    if IndexOf(s, e.id).Some? {
      var j := IndexOf(s, e.id).value;
      assert r == [s[j]] + s[..j] + s[j + 1..];
      assert s == s[..j] + [s[j]] + s[j + 1..];
      assert multiset(r) == multiset(s);
      forall a, b | 0 <= a < b < |r|
        ensures r[a].id != r[b].id
      {
        var sa := if a == 0 then j else if a <= j then a - 1 else a;
        var sb := if b == 0 then j else if b <= j then b - 1 else b;
        assert r[a] == s[sa] && r[b] == s[sb];
        if sa < sb {
          assert s[sa].id != s[sb].id;
        } else {
          assert s[sb].id != s[sa].id;
        }
      }
      forall x
        ensures x in r <==> x in s
      {
        assert x in r <==> x in multiset(r);
        assert x in s <==> x in multiset(s);
      }
    }
  }

  lemma MoveToFrontConsistent(m: CacheState, e: Elem)
    requires Consistent(m)
    ensures Consistent(m.(order := MoveToFront(m.order, e)))
  {
    MoveToFrontPermutes(m.order, e);
    var r := MoveToFront(m.order, e);
    forall j | 0 <= j < |r|
      ensures r[j].id < m.nextId
    {
      assert r[j] in m.order;
    }
  }

  /** getFieldsInfo(t, tagKey). A type that is not a struct gives nil and
      changes nothing. A cached type gives the stored descriptors, counts a
      hit and moves its element to the front. Otherwise the descriptors are
      parsed, the cache is made room for when the capacity is positive, a
      new element goes to the front under key t, and a miss is counted. The
      key is the type alone: the tag key is not part of it. */
  function LookupSpec(m: CacheState, t: FieldType, env: TypeEnv, tagKey: string): (r: (seq<FieldInfo>, CacheState))
    ensures t.NonStructT? ==> r == ([], m)
    ensures !t.NonStructT? && t in m.cache ==>
              && r.0 == m.cache[t].value
              && r.1 == m.(hits := m.hits + 1, order := MoveToFront(m.order, m.cache[t]))
    ensures !t.NonStructT? && t !in m.cache ==>
              && r.0 == FieldsOf(env, t, tagKey)
              && |r.1.order| >= 1 && r.1.order[0] == Elem(m.nextId, r.0) && r.1.nextId == m.nextId + 1
              && t in r.1.cache && r.1.cache[t] == r.1.order[0]
              && r.1.misses == m.misses + 1 && r.1.hits == m.hits
              && (m.maxSize > 0 ==> |r.1.order| <= m.maxSize)
              && (m.maxSize <= 0 ==> r.1.order == [r.1.order[0]] + m.order)
    ensures r.1.maxSize == m.maxSize
  {
    if t.NonStructT? then ([], m)
    else if t in m.cache then
      var e := m.cache[t];
      (e.value, m.(hits := m.hits + 1, order := MoveToFront(m.order, e)))
    else
      var fields := FieldsOf(env, t, tagKey);
      var m1 := if m.maxSize > 0 then EvictWhileFull(m) else m;
      var e := Elem(m1.nextId, fields);
      (fields, m1.(order := [e] + m1.order, cache := m1.cache[t := e],
                   nextId := m1.nextId + 1, misses := m1.misses + 1))
  }

  /** Adding a fresh element under a new key keeps the cache consistent. */
  lemma PushFrontConsistent(m: CacheState, t: FieldType, fields: seq<FieldInfo>)
    requires Consistent(m) && t !in m.cache
    ensures var e := Elem(m.nextId, fields);
            Consistent(m.(order := [e] + m.order, cache := m.cache[t := e],
                          nextId := m.nextId + 1, misses := m.misses + 1))
  {
    var e := Elem(m.nextId, fields);
    var r := m.(order := [e] + m.order, cache := m.cache[t := e], nextId := m.nextId + 1, misses := m.misses + 1);
    forall k | k in r.cache && k != t
      ensures r.cache[k].id < e.id
    {
      assert r.cache[k] in m.cache.Values;
      assert r.cache[k] in m.order;
    }
    forall v
      ensures v in r.cache.Values <==> v in r.order
    {
      if v == e {
        assert r.cache[t] == e;
      } else {
        if v in r.cache.Values {
          var k :| k in r.cache && r.cache[k] == v;
          assert k != t && m.cache[k] == v;
        }
        if v in m.cache.Values {
          var k :| k in m.cache && m.cache[k] == v;
          assert r.cache[k] == v;
        }
        assert v in r.order <==> v in m.order;
      }
    }
    forall a, b | 0 <= a < b < |r.order|
      ensures r.order[a].id != r.order[b].id
    {
      if a == 0 {
        assert r.order[b] == m.order[b - 1];
      } else {
        assert r.order[a] == m.order[a - 1] && r.order[b] == m.order[b - 1];
      }
    }
  }

  /** getFieldsInfo keeps the cache consistent and within its capacity. */
  lemma LookupConsistent(m: CacheState, t: FieldType, env: TypeEnv, tagKey: string)
    requires Consistent(m) && Bounded(m)
    ensures Consistent(LookupSpec(m, t, env, tagKey).1) && Bounded(LookupSpec(m, t, env, tagKey).1)
  {
    if t.NonStructT? {
    } else if t in m.cache {
      MoveToFrontConsistent(m, m.cache[t]);
    } else {
      var m1 := if m.maxSize > 0 then EvictWhileFull(m) else m;
      EvictWhileFullConsistent(m);
      PushFrontConsistent(m1, t, FieldsOf(env, t, tagKey));
    }
  }

  /** Every cached descriptor has a non-empty index path. */
  ghost predicate WellIndexed(m: CacheState) {
    forall t, j :: t in m.cache && 0 <= j < |m.cache[t].value| ==> m.cache[t].value[j].index != []
  }

  /** getFieldsInfo only ever stores what parseFields returns, whose index
      paths are never empty. */
  lemma LookupWellIndexed(m: CacheState, t: FieldType, env: TypeEnv, tagKey: string)
    requires WellIndexed(m)
    ensures WellIndexed(LookupSpec(m, t, env, tagKey).1)
    ensures forall j :: 0 <= j < |LookupSpec(m, t, env, tagKey).0| ==> LookupSpec(m, t, env, tagKey).0[j].index != []
  {
    if t.StructT? {
      ParseFieldsOrdered(env, t.id, tagKey);
      var fs := ParseFields(env, t.id, tagKey);
      assert forall j :: 0 <= j < |fs| ==> fs[j] in fs;
    }
    if !t.NonStructT? && t !in m.cache && m.maxSize > 0 {
      var m1 := EvictWhileFull(m);
      assert WellIndexed(m1);
    }
  }

  /** The cache key ignores the tag key: once a type is cached, a lookup
      with another tag key returns the descriptors parsed for the first. */
  lemma StaleTagKey(m: CacheState, id: TypeId, env: TypeEnv, k1: string, k2: string)
    requires StructT(id) !in m.cache
    ensures var (f1, m1) := LookupSpec(m, StructT(id), env, k1);
            LookupSpec(m1, StructT(id), env, k2).0 == f1 == ParseFields(env, id, k1)
  {
  }

  /** Every cached entry holds what parsing its type with tagKey gives. */
  predicate Faithful(m: CacheState, env: TypeEnv, tagKey: string) {
    forall t :: t in m.cache ==> m.cache[t].value == FieldsOf(env, t, tagKey)
  }

  /** With a single tag key the cache is transparent: every lookup returns
      exactly what parsing the type gives, and the cache stays faithful. */
  lemma LookupTransparent(m: CacheState, t: FieldType, env: TypeEnv, tagKey: string)
    requires Faithful(m, env, tagKey)
    ensures LookupSpec(m, t, env, tagKey).0 == FieldsOf(env, t, tagKey)
    ensures Faithful(LookupSpec(m, t, env, tagKey).1, env, tagKey)
  {
  }

  /** Every cached entry holds what parsing its type gives under some tag
      key: the cache never stores anything else, whatever tag keys the
      callers used. */
  ghost predicate Parsed(m: CacheState, env: TypeEnv) {
    forall t :: t in m.cache ==> exists k: string :: m.cache[t].value == FieldsOf(env, t, k)
  }

  /** getFieldsInfo returns the parse of the type under some tag key (the
      caller's on a miss, an earlier caller's on a hit) and stores nothing
      else. */
  lemma LookupParsed(m: CacheState, t: FieldType, env: TypeEnv, tagKey: string)
    requires Parsed(m, env)
    ensures exists k: string :: LookupSpec(m, t, env, tagKey).0 == FieldsOf(env, t, k)
    ensures Parsed(LookupSpec(m, t, env, tagKey).1, env)
  {
    var (fs, m2) := LookupSpec(m, t, env, tagKey);
    if t.NonStructT? || t !in m.cache {
      assert fs == FieldsOf(env, t, tagKey);
    }
    if !t.NonStructT? && t !in m.cache {
      var m1 := if m.maxSize > 0 then EvictWhileFull(m) else m;
      forall u | u in m2.cache
        ensures exists k: string :: m2.cache[u].value == FieldsOf(env, u, k)
      {
        if u == t {
          assert m2.cache[u].value == FieldsOf(env, u, tagKey);
        } else {
          assert m2.cache[u] == m1.cache[u] == m.cache[u];
        }
      }
    }
  }

  /** Trimming only removes entries, so what remains is still parsed. */
  lemma {:induction false} TrimParsed(m: CacheState, env: TypeEnv)
    requires Parsed(m, env)
    ensures Parsed(TrimSpec(m), env)
    decreases |m.order|
  {
    if |m.order| > m.maxSize && m.maxSize > 0 {
      var (m1, err) := EvictSpec(m);
      assert Parsed(m1, env) by {
        forall u | u in m1.cache
          ensures exists k: string :: m1.cache[u].value == FieldsOf(env, u, k)
        {
          assert u in m.cache && m1.cache[u] == m.cache[u];
        }
      }
      if err.None? {
        TrimParsed(m1, env);
      }
    }
  }

  /** Clear: empty map and list, counters at zero, capacity unchanged. */
  function ClearSpec(m: CacheState): (r: CacheState)
    ensures Consistent(r) && Bounded(r)
    ensures r.cache == map[] && r.order == []
    ensures r.hits == 0 && r.misses == 0 && r.evictions == 0
    ensures r.maxSize == m.maxSize
  {
    m.(cache := map[], order := [], hits := 0, misses := 0, evictions := 0)
  }

  /** GetStats: the list's length, the capacity, the counters and the share
      of hits among all lookups (0 before the first lookup). */
  function StatsOf(m: CacheState): (s: CacheStats)
    requires m.hits >= 0 && m.misses >= 0
    ensures s.currentSize == |m.order| && s.maxSize == m.maxSize && s.hits == m.hits && s.misses == m.misses
    ensures 0.0 <= s.hitRatio <= 1.0
    ensures m.hits + m.misses == 0 ==> s.hitRatio == 0.0
    ensures m.hits + m.misses > 0 ==> s.hitRatio * (m.hits + m.misses) as real == m.hits as real
  {
    var total := m.hits + m.misses;
    var ratio := if total > 0 then m.hits as real / total as real else 0.0;
    CacheStats(|m.order|, m.maxSize, m.hits, m.misses, ratio)
  }

  /** The cache object: the same state, updated in place. Every method keeps
      Consistent, and each is proved to perform the corresponding
      transition above. */
  class FieldCache {
    var cache: map<FieldType, Elem>
    var order: seq<Elem>
    var nextId: nat
    var maxSize: int
    var hits: int
    var misses: int
    var evictions: int

    function Model(): CacheState
      reads this
    {
      CacheState(cache, order, nextId, maxSize, hits, misses, evictions)
    }

    /** newFieldCache, with its capacity given. */
    constructor(capacity: int)
      ensures Model() == NewCache(capacity)
    {
      cache := map[];
      order := [];
      nextId := 0;
      maxSize := capacity;
      hits, misses, evictions := 0, 0, 0;
    }

    /** evict: drop the back element, then search the map for the key that
        holds it. */
    method Evict() returns (err: Option<Error>)
      requires KeysDistinct(Model())
      modifies this
      ensures (Model(), err) == EvictSpec(old(Model()))
    {
      if |order| == 0 {
        return None;
      }
      var back := order[|order| - 1];
      order := order[..|order| - 1];
      ghost var before := cache;
      ghost var removed: FieldType := NonStructT;
      var keys := cache.Keys;
      var found := false;
      while keys != {} && !found
        invariant order == old(order)[..|old(order)| - 1]
        invariant nextId == old(nextId) && maxSize == old(maxSize) && hits == old(hits) && misses == old(misses)
        invariant keys <= before.Keys
        invariant !found ==> cache == before && evictions == old(evictions)
        invariant !found ==> forall k :: k in before && k !in keys ==> before[k].id != back.id
        invariant found ==> removed in before && before[removed].id == back.id && cache == before - {removed}
        invariant found ==> evictions == old(evictions) + 1
        decreases keys
      {
        var k :| k in keys;
        if cache[k].id == back.id {
          cache := cache - {k};
          removed := k;
          found := true;
          evictions := evictions + 1;
        }
        keys := keys - {k};
      }
      if !found {
        assert !exists k :: k in before && before[k].id == back.id;
        return Some(CacheOverflowError(CacheName, maxSize));
      }
      assert cache == map k | k in before && before[k].id != back.id :: before[k];
      return None;
    }

    /** SetMaxSize: record the capacity, then evict while over it, stopping
        at the first failed eviction. */
    method SetMaxSize(size: int)
      requires Consistent(Model())
      modifies this
      ensures Model() == SetMaxSizeSpec(old(Model()), size)
      ensures Consistent(Model()) && Bounded(Model())
    {
      maxSize := size;
      TrimConsistent(Model());
      while |order| > maxSize && maxSize > 0
        invariant maxSize == size
        invariant Consistent(Model())
        invariant TrimSpec(Model()) == SetMaxSizeSpec(old(Model()), size)
        decreases |order|
      {
        ghost var before := Model();
        EvictConsistent(before);
        var err := Evict();
        if err.Some? {
          break;
        }
      }
      TrimConsistent(Model());
    }

    /** getFieldsInfo: the lookup, with the miss path's eviction loop. */
    method GetFieldsInfo(t: FieldType, env: TypeEnv, tagKey: string) returns (fields: seq<FieldInfo>)
      requires Consistent(Model()) && Bounded(Model())
      modifies this
      ensures (fields, Model()) == LookupSpec(old(Model()), t, env, tagKey)
      ensures Consistent(Model()) && Bounded(Model())
    {
      LookupConsistent(Model(), t, env, tagKey);
      if t.NonStructT? {
        return [];
      }
      if t in cache {
        var e := cache[t];
        hits := hits + 1;
        order := MoveToFront(order, e);
        return e.value;
      }
      fields := FieldsOf(env, t, tagKey);
      if maxSize > 0 {
        while |order| >= maxSize && |order| > 0
          invariant Consistent(Model())
          invariant EvictWhileFull(Model()) == EvictWhileFull(old(Model()))
          decreases |order|
        {
          EvictConsistent(Model());
          var ignored := Evict();
        }
      }
      var e := Elem(nextId, fields);
      order := [e] + order;
      cache := cache[t := e];
      nextId := nextId + 1;
      misses := misses + 1;
    }

    /** Clear: empty map and list, counters at zero. */
    method Clear()
      modifies this
      ensures Model() == ClearSpec(old(Model()))
    {
      cache := map[];
      order := [];
      hits, misses, evictions := 0, 0, 0;
    }

    /** GetStats: reads the state and changes nothing. */
    method GetStats() returns (s: CacheStats)
      requires hits >= 0 && misses >= 0
      ensures s.currentSize == |order| && s.maxSize == maxSize && s.hits == hits && s.misses == misses
      ensures 0.0 <= s.hitRatio <= 1.0
      ensures s == StatsOf(Model())
    {
      var total := hits + misses;
      var ratio := 0.0;
      if total > 0 {
        ratio := hits as real / total as real;
      }
      s := CacheStats(|order|, maxSize, hits, misses, ratio);
    }
  }
}
