/** The cache as a view of the log of stores, the grouping of a chunk, and why no stale entry is ever served. */
module AgentCache {
  import opened Text
  import opened Protocol
  import opened Wire
  import opened AgentModel
  import opened AgentLedger

  // ----- the cache and the log of stores -----

  ghost predicate EntryLogged(settings: Settings, key: string, entry: CacheEntry, stores: seq<Store>) {
    && key != "" && LastStore(stores, key).Some?
    && var store := stores[LastStore(stores, key).value];
       entry == CacheEntry(store.at + settings.cacheTTL, store.result, store.at)
  }

  /** Every entry is the most recent store of its key, and the cache keeps to its bound. */
  ghost predicate CacheLogged(settings: Settings, cache: map<string, CacheEntry>, stores: seq<Store>) {
    && (settings.CacheEnabled() ==> |cache| <= settings.cacheMaxEntries)
    && (!settings.CacheEnabled() ==> cache == map[])
    && forall key :: key in cache ==> EntryLogged(settings, key, cache[key], stores)
  }

  ghost predicate SubCache(small: map<string, CacheEntry>, large: map<string, CacheEntry>) {
    forall key :: key in small ==> key in large && small[key] == large[key]
  }

  lemma {:induction false} SubsetSize<T>(a: set<T>, b: set<T>)
    requires a <= b
    ensures |a| <= |b|
  {
    if a != {} {
      var x :| x in a;
      SubsetSize(a - {x}, b - {x});
    }
  }

  lemma {:induction false} SubCacheLogged(settings: Settings, small: map<string, CacheEntry>,
                                          large: map<string, CacheEntry>, stores: seq<Store>)
    requires SubCache(small, large) && CacheLogged(settings, large, stores)
    ensures CacheLogged(settings, small, stores)
  {
    assert small.Keys <= large.Keys;
    SubsetSize(small.Keys, large.Keys);
    assert |small| == |small.Keys| && |large| == |large.Keys|;
  }

  lemma {:induction false} LastStoreAppend(stores: seq<Store>, store: Store, key: string)
    ensures LastStore(stores + [store], key) == if store.key == key then Some(|stores|) else LastStore(stores, key)
  {
    assert (stores + [store])[..|stores|] == stores;
  }

  /** A hit returns what was most recently stored under its key, no longer than the TTL ago. */
  lemma {:induction false} HitIsLastStore(settings: Settings, cache: map<string, CacheEntry>, stores: seq<Store>,
                                          key: string, now: int)
    requires CacheLogged(settings, cache, stores)
    requires FindEntry(cache, settings, key, now).Some?
    ensures var last := LastStore(stores, key);
            && last.Some? && stores[last.value].result == FindEntry(cache, settings, key, now).value
            && now <= stores[last.value].at + settings.cacheTTL
            && forall j :: last.value < j < |stores| ==> stores[j].key != key
  {
    assert EntryLogged(settings, key, cache[key], stores);
  }

  lemma {:induction false} StoreEntrySize(settings: Settings, cache: map<string, CacheEntry>, key: string,
                                          result: RequestResult, now: int, hint: string)
    requires settings.CacheEnabled() && |cache| <= settings.cacheMaxEntries
    ensures |StoreEntry(cache, settings, key, result, now, hint)| <= settings.cacheMaxEntries
  {
    if key != "" {
      var after := StoreEntry(cache, settings, key, result, now, hint);
      if |cache| >= settings.cacheMaxEntries && cache != map[] {
        var victim := Victim(cache, hint);
        assert after.Keys == cache.Keys - {victim} + {key};
        assert |cache.Keys - {victim}| == |cache.Keys| - 1;
      } else {
        assert after.Keys == cache.Keys + {key};
      }
      assert |after| == |after.Keys| && |cache| == |cache.Keys|;
    }
  }

  lemma {:induction false} StoreEntryLogged(settings: Settings, cache: map<string, CacheEntry>, stores: seq<Store>,
                                            store: Store, hint: string)
    requires settings.CacheEnabled() && store.key != "" && CacheLogged(settings, cache, stores)
    ensures CacheLogged(settings, StoreEntry(cache, settings, store.key, store.result, store.at, hint),
                        stores + [store])
  {
    hide LastStore;
    var after := StoreEntry(cache, settings, store.key, store.result, store.at, hint);
    StoreEntrySize(settings, cache, store.key, store.result, store.at, hint);
    forall key | key in after ensures EntryLogged(settings, key, after[key], stores + [store]) {
      LastStoreAppend(stores, store, key);
      if key != store.key {
        assert EntryLogged(settings, key, cache[key], stores);
      }
    }
  }

  /** A full store gives up an entry that expires no later than any entry that stays, wherever the walk began. */
  lemma {:induction false} EvictsEarliest(settings: Settings, cache: map<string, CacheEntry>, key: string,
                                          result: RequestResult, now: int, hint: string)
    requires settings.CacheEnabled() && key != "" && key !in cache && |cache| >= settings.cacheMaxEntries
    ensures Evicts(cache, settings, hint).Some?
    ensures var after := StoreEntry(cache, settings, key, result, now, hint);
            exists victim :: victim in cache && after.Keys == cache.Keys - {victim} + {key}
              && forall other :: other in cache && other in after
                   ==> cache[victim].expiresAt <= cache[other].expiresAt && after[other] == cache[other]
  {
    assert |cache.Keys| == |cache|;
    var after := StoreEntry(cache, settings, key, result, now, hint);
    var victim := Victim(cache, hint);
    assert victim in cache && after.Keys == cache.Keys - {victim} + {key};
  }

  // ----- grouping a chunk -----

  ghost predicate UnitOK(unit: Unit) {
    && (unit.cacheable <==> Cacheable(unit.primary.request))
    && (unit.cacheable ==> unit.cacheKey == CacheKey(unit.primary.request))
    && (!unit.cacheable ==> unit.duplicates == [])
    && forall d :: d in unit.duplicates ==> Cacheable(d.request) && CacheKey(d.request) == unit.cacheKey
  }

  ghost predicate DistinctKeys(units: seq<Unit>) {
    forall i, j :: 0 <= i < j < |units| && units[i].cacheable && units[j].cacheable
      ==> units[i].cacheKey != units[j].cacheKey
  }

  /** Duplicates share their unit's key, and no two units share one. */
  ghost predicate UnitsOK(units: seq<Unit>) {
    DistinctKeys(units) && forall i :: 0 <= i < |units| ==> UnitOK(units[i])
  }

  ghost predicate KeysAbsent(units: seq<Unit>, cache: map<string, CacheEntry>) {
    forall i :: 0 <= i < |units| && units[i].cacheable ==> units[i].cacheKey !in cache
  }

  ghost predicate IndexOK(prep: Prep) {
    && (forall key :: key in prep.dedupeIndex ==>
          prep.dedupeIndex[key] < |prep.units|
          && prep.units[prep.dedupeIndex[key]].cacheable && prep.units[prep.dedupeIndex[key]].cacheKey == key)
    && (forall i :: 0 <= i < |prep.units| && prep.units[i].cacheable ==> prep.units[i].cacheKey in prep.dedupeIndex)
  }

  /** Whether the cache answers a request, told from the cache alone. */
  predicate Fresh(settings: Settings, cache: map<string, CacheEntry>, request: RequestItem, now: int) {
    Cacheable(request) && FindEntry(cache, settings, CacheKey(request), now).Some?
  }

  function Hits(settings: Settings, cache: map<string, CacheEntry>, items: seq<Pending>, now: int): seq<Pending> {
    if items == [] then []
    else
      var last := items[|items| - 1];
      Hits(settings, cache, items[..|items| - 1], now) + if Fresh(settings, cache, last.request, now) then [last]
                                                           else []
  }

  /** Looking a key up does not change what any key finds at the same instant. */
  ghost predicate SameLookups(settings: Settings, a: map<string, CacheEntry>, b: map<string, CacheEntry>, now: int) {
    SubCache(b, a) && forall key :: FindEntry(a, settings, key, now) == FindEntry(b, settings, key, now)
  }

  lemma {:induction false} LookupKeepsOthers(settings: Settings, cache: map<string, CacheEntry>, key: string, now: int)
    ensures SameLookups(settings, cache, AfterLookup(cache, settings, key, now), now)
    ensures settings.CacheEnabled() && key != "" && FindEntry(cache, settings, key, now).None? ==>
              key !in AfterLookup(cache, settings, key, now)
  {
  }

  /** The grouping so far is right, and no unit's key is in this cache. */
  ghost predicate Grouped(prep: Prep, cache: map<string, CacheEntry>) {
    UnitsOK(prep.units) && IndexOK(prep) && KeysAbsent(prep.units, cache)
  }

  lemma {:induction false} GroupedFrame(a: Prep, b: Prep, cache: map<string, CacheEntry>,
                                        smaller: map<string, CacheEntry>)
    requires Grouped(a, cache) && a.units == b.units && a.dedupeIndex == b.dedupeIndex && SubCache(smaller, cache)
    ensures Grouped(b, smaller)
  {
    hide UnitsOK;
  }

  /** A request that cannot be cached becomes a unit without a key. */
  lemma {:induction false} AppendPlain(prep: Prep, core: Core, cache: map<string, CacheEntry>, item: Pending)
    requires Grouped(prep, cache) && !Cacheable(item.request)
    ensures Grouped(Prep(core, prep.units + [Unit(item, [], "", false)], prep.dedupeIndex), cache)
  {
    hide CacheKey, Cacheable;
  }

  /** A request with a new key becomes a unit, and the index points at it. */
  lemma {:induction false} AppendUnit(prep: Prep, core: Core, cache: map<string, CacheEntry>, item: Pending,
                                      key: string)
    requires Grouped(prep, cache) && Cacheable(item.request) && key == CacheKey(item.request)
    requires key !in cache && key !in prep.dedupeIndex
    ensures Grouped(Prep(core, prep.units + [Unit(item, [], key, true)], prep.dedupeIndex[key := |prep.units|]), cache)
  {
    hide CacheKey, Cacheable;
  }

  /** A request with a known key joins the unit that the index points at. */
  lemma {:induction false} JoinUnit(prep: Prep, core: Core, cache: map<string, CacheEntry>, idx: nat, item: Pending)
    requires Grouped(prep, cache) && Cacheable(item.request)
    requires idx < |prep.units| && prep.units[idx].cacheable && prep.units[idx].cacheKey == CacheKey(item.request)
    ensures var unit := prep.units[idx];
            Grouped(Prep(core, prep.units[idx := unit.(duplicates := unit.duplicates + [item])], prep.dedupeIndex),
                    cache)
  {
    hide CacheKey, Cacheable;
  }

  lemma {:induction false} IndexedUnit(prep: Prep, cache: map<string, CacheEntry>, key: string)
    requires Grouped(prep, cache) && key in prep.dedupeIndex
    ensures var idx := prep.dedupeIndex[key];
            idx < |prep.units| && prep.units[idx].cacheable && prep.units[idx].cacheKey == key
  {
  }

  /** One item against a prepared prefix: what it sends, and that the grouping stays right. */
  lemma {:induction false} PrepareItemGroups(config: Config, prep: Prep, item: Pending, now: int)
    requires Grouped(prep, prep.core.cache)
    requires config.settings.CacheEnabled() || prep.core.cache == map[]
    ensures var after := PrepareItem(config, prep, item, now); Grouped(after, after.core.cache)
    ensures SameLookups(config.settings, prep.core.cache, PrepareItem(config, prep, item, now).core.cache, now)
    ensures Sent(PrepareItem(config, prep, item, now).core.outbox)
            == Sent(prep.core.outbox) + if Fresh(config.settings, prep.core.cache, item.request, now) then [item]
                                          else []
  {
    hide CacheKey, FindEntry, AfterLookup, Grouped, LastStore, Cacheable;
    var key, after := CacheKey(item.request), PrepareItem(config, prep, item, now);
    LookupKeepsOthers(config.settings, prep.core.cache, key, now);
    var looked := AfterLookup(prep.core.cache, config.settings, key, now);
    var left := prep.(core := prep.core.(cache := looked));
    GroupedFrame(prep, left, prep.core.cache, looked);
    if Fresh(config.settings, prep.core.cache, item.request, now) {
      GroupedFrame(prep, after, prep.core.cache, after.core.cache);
    } else if Cacheable(item.request) && key in prep.dedupeIndex {
      IndexedUnit(prep, prep.core.cache, key);
      JoinUnit(left, after.core, looked, prep.dedupeIndex[key], item);
    } else if Cacheable(item.request) {
      AppendUnit(left, after.core, looked, item, key);
    } else {
      AppendPlain(prep, after.core, prep.core.cache, item);
    }
  }

  /** A chunk splits into the cache hits, which the cache at the start decides alone, and units with distinct keys
      that the cache no longer holds. */
  lemma {:induction false} PrepareGroups(config: Config, core: Core, items: seq<Pending>, now: int)
    requires config.settings.CacheEnabled() || core.cache == map[]
    ensures var prep := Prepare(config, core, items, now);
            UnitsOK(prep.units) && IndexOK(prep) && KeysAbsent(prep.units, prep.core.cache)
    ensures SameLookups(config.settings, core.cache, Prepare(config, core, items, now).core.cache, now)
    ensures Sent(Prepare(config, core, items, now).core.outbox)
            == Sent(core.outbox) + Hits(config.settings, core.cache, items, now)
  {
    hide FindEntry, PrepareItem, CacheKey, Cacheable, UnitOK;
    if items != [] {
      var last := |items| - 1;
      PrepareGroups(config, core, items[..last], now);
      var before := Prepare(config, core, items[..last], now);
      PrepareItemGroups(config, before, items[last], now);
      assert Fresh(config.settings, before.core.cache, items[last].request, now)
             == Fresh(config.settings, core.cache, items[last].request, now);
    }
  }
}
