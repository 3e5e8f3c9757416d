/** What the cache keeps: in every run it is the log of stores over again, but for what has expired. */
module AgentRetention {
  import opened Text
  import opened Protocol
  import opened Validation
  import opened Wire
  import opened AgentModel
  import opened AgentLedger
  import opened AgentCache
  import opened AgentOrigins
  import opened AgentRuns

  /** Some store after the i-th took the place of this key. */
  ghost predicate EvictedSince(stores: seq<Store>, i: nat, key: string) {
    exists j :: i < j < |stores| && stores[j].evicted == Some(key)
  }

  /** The key was stored and has not made room for another since. */
  ghost predicate Held(stores: seq<Store>, key: string) {
    LastStore(stores, key).Some? && !EvictedSince(stores, LastStore(stores, key).value, key)
  }

  function StoredAt(stores: seq<Store>, key: string): int
    requires LastStore(stores, key).Some?
  {
    stores[LastStore(stores, key).value].at
  }

  /** The key is held and what was stored under it has not expired. */
  ghost predicate Alive(settings: Settings, stores: seq<Store>, key: string, now: int) {
    Held(stores, key) && now <= StoredAt(stores, key) + settings.cacheTTL
  }

  /** Whatever is alive is in the cache, and whatever is in the cache is held. */
  ghost predicate Retained(settings: Settings, cache: map<string, CacheEntry>, stores: seq<Store>, now: int) {
    && (forall key :: Alive(settings, stores, key, now) ==> key in cache)
    && (forall key :: key in cache ==> Held(stores, key))
  }

  lemma {:induction false} RetainedLater(settings: Settings, cache: map<string, CacheEntry>, stores: seq<Store>,
                                         now: int, later: int)
    requires Retained(settings, cache, stores, now) && now <= later
    ensures Retained(settings, cache, stores, later)
  {
    hide Held;
    forall key | Alive(settings, stores, key, later) ensures Alive(settings, stores, key, now) {
    }
  }

  /** Removing what has expired leaves the rest. */
  lemma {:induction false} RetainedSub(settings: Settings, cache: map<string, CacheEntry>,
                                       small: map<string, CacheEntry>, stores: seq<Store>, now: int)
    requires Retained(settings, cache, stores, now) && CacheLogged(settings, cache, stores) && SubCache(small, cache)
    requires forall key :: key in cache && now <= cache[key].expiresAt ==> key in small
    ensures Retained(settings, small, stores, now)
  {
    hide Held, LastStore;
    forall key | Alive(settings, stores, key, now) ensures key in small {
      assert key in cache;
      assert EntryLogged(settings, key, cache[key], stores);
    }
  }

  lemma {:induction false} EvictedAppend(stores: seq<Store>, store: Store, i: nat, key: string)
    requires i < |stores|
    ensures EvictedSince(stores + [store], i, key) <==> EvictedSince(stores, i, key) || store.evicted == Some(key)
  {
    if EvictedSince(stores, i, key) {
      var j :| i < j < |stores| && stores[j].evicted == Some(key);
      assert (stores + [store])[j].evicted == Some(key);
    }
    if EvictedSince(stores + [store], i, key) {
      var j :| i < j < |stores + [store]| && (stores + [store])[j].evicted == Some(key);
      assert j < |stores| ==> stores[j].evicted == Some(key);
    }
    assert (stores + [store])[|stores|] == store;
  }

  lemma {:induction false} HeldAppend(stores: seq<Store>, store: Store, key: string)
    ensures Held(stores + [store], key)
            <==> store.key == key || (Held(stores, key) && store.evicted != Some(key))
    ensures LastStore(stores + [store], key).Some? ==>
              StoredAt(stores + [store], key) == if store.key == key then store.at else StoredAt(stores, key)
  {
    hide EvictedSince;
    LastStoreAppend(stores, store, key);
    if store.key == key {
      NotEvictedYet(stores, store, key);
    } else if LastStore(stores, key).Some? {
      EvictedAppend(stores, store, LastStore(stores, key).value, key);
    }
  }

  lemma {:induction false} NotEvictedYet(stores: seq<Store>, store: Store, key: string)
    ensures !EvictedSince(stores + [store], |stores|, key)
  {
  }

  /** A store keeps all that it does not evict. */
  lemma {:induction false} RetainedStore(settings: Settings, cache: map<string, CacheEntry>, stores: seq<Store>,
                                         store: Store, hint: string, now: int)
    requires settings.CacheEnabled() && store.key != "" && store.evicted == Evicts(cache, settings, hint)
    requires Retained(settings, cache, stores, now)
    ensures Retained(settings, StoreEntry(cache, settings, store.key, store.result, store.at, hint), stores + [store],
                     now)
  {
    hide EvictedSince, Evicts, LastStore;
    var after := StoreEntry(cache, settings, store.key, store.result, store.at, hint);
    forall key | Alive(settings, stores + [store], key, now) ensures key in after {
      HeldAppend(stores, store, key);
      if key != store.key {
        assert Alive(settings, stores, key, now);
      }
    }
    forall key | key in after ensures Held(stores + [store], key) {
      HeldAppend(stores, store, key);
    }
  }

  // ----- who makes room -----

  /** The keys that the log holds at some time without being sure that they have not expired. */
  ghost function HeldKeys(stores: seq<Store>): set<string> {
    set j | 0 <= j < |stores| && Held(stores, stores[j].key) :: stores[j].key
  }

  ghost function AliveKeys(settings: Settings, stores: seq<Store>, now: int): set<string> {
    set j | 0 <= j < |stores| && Alive(settings, stores, stores[j].key, now) :: stores[j].key
  }

  /** The j-th store made room only if it had to, and then by a key that had been stored no later than any that was
      still alive. */
  ghost predicate EvictionOK(settings: Settings, stores: seq<Store>, j: nat)
    requires j < |stores|
  {
    var before, at := stores[..j], stores[j].at;
    match stores[j].evicted
    case None => |AliveKeys(settings, before, at)| < settings.cacheMaxEntries
    case Some(victim) =>
      && Held(before, victim) && |HeldKeys(before)| >= settings.cacheMaxEntries
      && forall key :: Alive(settings, before, key, at) ==> StoredAt(before, victim) <= StoredAt(before, key)
  }

  ghost predicate EvictionsOK(settings: Settings, stores: seq<Store>) {
    forall j :: 0 <= j < |stores| ==> EvictionOK(settings, stores, j)
  }

  lemma {:induction false} StoreEvicts(settings: Settings, cache: map<string, CacheEntry>, stores: seq<Store>,
                                       store: Store, hint: string, now: int)
    requires settings.CacheEnabled() && store.evicted == Evicts(cache, settings, hint) && now <= store.at
    requires Retained(settings, cache, stores, now) && CacheLogged(settings, cache, stores)
    requires EvictionsOK(settings, stores)
    ensures EvictionsOK(settings, stores + [store])
  {
    hide Held, LastStore, EvictionOK, AliveKeys, HeldKeys;
    forall j | 0 <= j < |stores| ensures EvictionOK(settings, stores + [store], j) {
      assert EvictionOK(settings, stores, j);
      EvictionFrame(settings, stores, store, j);
    }
    RetainedLater(settings, cache, stores, now, store.at);
    KeysBetween(settings, cache, stores, store.at);
    if store.evicted.Some? {
      VictimOldest(settings, cache, stores, store, hint);
    }
    assert (stores + [store])[..|stores|] == stores;
    LastEviction(settings, cache, stores, store, hint);
  }

  lemma {:induction false} EvictionFrame(settings: Settings, stores: seq<Store>, store: Store, j: nat)
    requires j < |stores| && EvictionOK(settings, stores, j)
    ensures EvictionOK(settings, stores + [store], j)
  {
    assert (stores + [store])[..j] == stores[..j];
    hide Held, AliveKeys, HeldKeys, Alive;
  }

  lemma {:induction false} KeysBetween(settings: Settings, cache: map<string, CacheEntry>, stores: seq<Store>, now: int)
    requires Retained(settings, cache, stores, now)
    ensures |AliveKeys(settings, stores, now)| <= |cache| <= |HeldKeys(stores)|
  {
    hide EvictedSince;
    forall key | key in AliveKeys(settings, stores, now) ensures key in cache.Keys {
      assert Alive(settings, stores, key, now);
    }
    forall key | key in cache.Keys ensures key in HeldKeys(stores) {
      assert Held(stores, key);
      assert stores[LastStore(stores, key).value].key == key;
    }
    SubsetSize(AliveKeys(settings, stores, now), cache.Keys);
    SubsetSize(cache.Keys, HeldKeys(stores));
    assert |cache| == |cache.Keys|;
  }

  lemma {:induction false} VictimOldest(settings: Settings, cache: map<string, CacheEntry>, stores: seq<Store>,
                                        store: Store, hint: string)
    requires Retained(settings, cache, stores, store.at) && CacheLogged(settings, cache, stores)
    requires store.evicted == Evicts(cache, settings, hint) && store.evicted.Some?
    ensures Held(stores, store.evicted.value)
    ensures forall key :: Alive(settings, stores, key, store.at) ==>
              StoredAt(stores, store.evicted.value) <= StoredAt(stores, key)
  {
    hide EvictedSince, LastStore;
    var victim := store.evicted.value;
    assert EntryLogged(settings, victim, cache[victim], stores);
    forall key | Alive(settings, stores, key, store.at) ensures StoredAt(stores, victim) <= StoredAt(stores, key) {
      assert key in cache;
      assert EntryLogged(settings, key, cache[key], stores);
    }
  }

  lemma {:induction false} LastEviction(settings: Settings, cache: map<string, CacheEntry>, stores: seq<Store>,
                                        store: Store, hint: string)
    requires settings.CacheEnabled() && store.evicted == Evicts(cache, settings, hint)
    requires |AliveKeys(settings, stores, store.at)| <= |cache| <= |HeldKeys(stores)|
    requires store.evicted.Some? ==>
               && Held(stores, store.evicted.value)
               && forall key :: Alive(settings, stores, key, store.at) ==>
                    StoredAt(stores, store.evicted.value) <= StoredAt(stores, key)
    ensures EvictionOK(settings, stores + [store], |stores|)
  {
    hide Held, AliveKeys, HeldKeys, Alive;
    assert (stores + [store])[..|stores|] == stores;
    assert cache == map[] ==> |cache| == 0;
  }

  // ----- every step keeps it -----

  ghost predicate Kept(config: Config, core: Core, now: int) {
    && Retained(config.settings, core.cache, core.stores, now) && CacheLogged(config.settings, core.cache, core.stores)
    && EvictionsOK(config.settings, core.stores)
  }

  lemma {:induction false} KeptFrame(config: Config, a: Core, b: Core, now: int, later: int)
    requires Kept(config, a, now) && a.cache == b.cache && a.stores == b.stores && now <= later
    ensures Kept(config, b, later)
  {
    hide Retained, CacheLogged, EvictionsOK;
    RetainedLater(config.settings, a.cache, a.stores, now, later);
  }

  lemma {:induction false} KeptSub(config: Config, core: Core, small: map<string, CacheEntry>, now: int)
    requires Kept(config, core, now) && SubCache(small, core.cache)
    requires forall key :: key in core.cache && now <= core.cache[key].expiresAt ==> key in small
    ensures Kept(config, core.(cache := small), now)
  {
    RetainedSub(config.settings, core.cache, small, core.stores, now);
    SubCacheLogged(config.settings, small, core.cache, core.stores);
    hide Retained, CacheLogged, EvictionsOK;
  }

  lemma {:induction false} LookupRemoves(config: Config, cache: map<string, CacheEntry>, key: string, now: int)
    ensures var small := AfterLookup(cache, config.settings, key, now);
            SubCache(small, cache) && forall k :: k in cache && now <= cache[k].expiresAt ==> k in small
  {
  }

  lemma {:induction false} PrepareItemKeeps(config: Config, prep: Prep, item: Pending, now: int)
    requires Kept(config, prep.core, now)
    ensures Kept(config, PrepareItem(config, prep, item, now).core, now)
  {
    hide Kept, CacheKey, AfterLookup, LastStore, Cacheable, FindEntry;
    var key, after := CacheKey(item.request), PrepareItem(config, prep, item, now);
    var looked := AfterLookup(prep.core.cache, config.settings, key, now);
    LookupRemoves(config, prep.core.cache, key, now);
    KeptSub(config, prep.core, looked, now);
    KeptFrame(config, if after.core.cache == prep.core.cache then prep.core else prep.core.(cache := looked),
              after.core, now, now);
  }

  lemma {:induction false} PrepareKeeps(config: Config, core: Core, items: seq<Pending>, now: int)
    requires Kept(config, core, now)
    ensures Kept(config, Prepare(config, core, items, now).core, now)
  {
    hide Kept, PrepareItem;
    if items != [] {
      var last := |items| - 1;
      PrepareKeeps(config, core, items[..last], now);
      PrepareItemKeeps(config, Prepare(config, core, items[..last], now), items[last], now);
    }
  }

  lemma {:induction false} StoreResultKeeps(config: Config, core: Core, unit: Unit, result: RequestResult, batch: nat,
                                            raw: RequestResult, env: UnitEnv, now: int)
    requires Kept(config, core, now) && now <= env.storeAt
    ensures Kept(config, StoreResult(config, core, unit, result, batch, raw, env), now)
  {
    hide Retained, CacheLogged, EvictionsOK, StoreEntry, ShouldCache, Evicts;
    var after := StoreResult(config, core, unit, result, batch, raw, env);
    if after.stores != core.stores {
      var store := after.stores[|core.stores|];
      RetainedStore(config.settings, core.cache, core.stores, store, env.hint, now);
      StoreEntryLogged(config.settings, core.cache, core.stores, store, env.hint);
      StoreEvicts(config.settings, core.cache, core.stores, store, env.hint, now);
    }
  }

  lemma {:induction false} DuplicatesKeep(core: Core, duplicates: seq<Pending>, result: RequestResult, origin: Origin)
    ensures var after := AnswerDuplicates(core, duplicates, result, origin);
            after.cache == core.cache && after.stores == core.stores
  {
    if duplicates != [] {
      DuplicatesKeep(core, duplicates[..|duplicates| - 1], result, origin);
    }
  }

  lemma {:induction false} DeliverResultKeeps(config: Config, core: Core, unit: Unit, raw: RequestResult,
                                              origin: Origin, batch: nat, env: UnitEnv, now: int)
    requires Kept(config, core, now) && now <= env.storeAt
    ensures Kept(config, DeliverResult(config, core, unit, raw, origin, batch, env), now)
  {
    hide Kept, Sanitize, StoreResult;
    var result := Sanitize(config.redaction, raw);
    var sent := Answer(core, unit.primary, result, origin);
    var clone := CloneFor(result, unit.primary.request.requestID);
    var stored := StoreResult(config, sent, unit, clone, batch, raw, env);
    KeptFrame(config, core, sent, now, now);
    StoreResultKeeps(config, sent, unit, clone, batch, raw, env, now);
    DuplicatesKeep(stored, unit.duplicates, result, origin);
    KeptFrame(config, stored, DeliverResult(config, core, unit, raw, origin, batch, env), now, now);
  }

  lemma {:induction false} DeliverUnitsKeep(config: Config, core: Core, units: seq<Unit>,
                                            results: map<string, RequestResult>, batch: nat, env: seq<UnitEnv>,
                                            now: int)
    requires Kept(config, core, now) && |units| <= |env| && forall i :: 0 <= i < |env| ==> now <= env[i].storeAt
    ensures Kept(config, DeliverUnits(config, core, units, results, batch, env), now)
  {
    hide Kept, DeliverResult, RecoverStale, ErrorResult;
    if units != [] {
      var last := |units| - 1;
      DeliverUnitsKeep(config, core, units[..last], results, batch, env, now);
      var before := DeliverUnits(config, core, units[..last], results, batch, env);
      DeliverUnitKeeps(config, before, units[last], results, batch, env[last], now);
    }
  }

  lemma {:induction false} DeliverUnitKeeps(config: Config, core: Core, unit: Unit, results: map<string, RequestResult>,
                                            batch: nat, env: UnitEnv, now: int)
    requires Kept(config, core, now) && now <= env.storeAt
    ensures Kept(config, DeliverUnit(config, core, unit, results, batch, env), now)
  {
    hide Kept, DeliverResult, RecoverStale, ErrorResult;
    var request := unit.primary.request;
    if request.requestID in results {
      var raw := results[request.requestID];
      DeliverResultKeeps(config, core, unit, raw, FromBatch(batch, request, raw), batch, env, now);
    } else {
      var stale := RecoverStale(config, core, unit, env.lookupAt);
      if stale.Some? {
        KeptFrame(config, core, CountFailOpen(core), now, now);
        DeliverResultKeeps(config, CountFailOpen(core), unit, CloneFor(stale.value, request.requestID),
                           FromStale(env.lookupAt), batch, env, now);
      } else {
        var missing := ErrorResult(config.redaction, request.requestID, ResultPackageNotFound, ResultMissing);
        DeliverResultKeeps(config, core, unit, missing, Local, batch, env, now);
      }
    }
  }

  lemma {:induction false} FailUnitsKeep(config: Config, core: Core, units: seq<Unit>, code: Code, message: Message,
                                         times: seq<int>)
    ensures var after := FailUnits(config, core, units, code, message, times);
            after.cache == core.cache && after.stores == core.stores
  {
    hide RecoverStale, ErrorResult, AnswerDuplicates;
    if units != [] {
      var last := |units| - 1;
      FailUnitsKeep(config, core, units[..last], code, message, times);
      var before, unit := FailUnits(config, core, units[..last], code, message, times), units[last];
      forall c: Core, result, origin {
        DuplicatesKeep(c, unit.duplicates, result, origin);
      }
    }
  }

  lemma {:induction false} ErrorsKeep(core: Core, items: seq<Pending>, redaction: Redaction, code: Code,
                                      message: Message)
    ensures var after := AnswerError(core, items, redaction, code, message);
            after.cache == core.cache && after.stores == core.stores
  {
    hide ErrorResult;
    if items != [] {
      ErrorsKeep(core, items[..|items| - 1], redaction, code, message);
    }
  }

  lemma {:induction false} PickKeeps(config: Config, core: Core, pending: seq<Pending>)
    ensures var after := PickChunk(config, core, pending).core;
            after.cache == core.cache && after.stores == core.stores
  {
    hide ErrorResult, EstimatedSize;
    if pending != [] {
      PickKeeps(config, core, pending[..|pending| - 1]);
    }
  }

  lemma {:induction false} BeginKeeps(config: Config, state: State, chunk: seq<Pending>, event: Event, now: int)
    requires event.Proceed? && Kept(config, state.core, now) && now <= event.prepareAt <= event.startAt
    ensures Kept(config, BeginDispatch(config, state, chunk, event.prepareAt, event.startAt, event.batchID,
                                       event.sentAt, event.times).core, event.startAt)
  {
    hide Kept, Prepare, FailUnits, BatchOK, BatchSizeBytes, MakeBatch;
    KeptFrame(config, state.core, state.core, now, event.prepareAt);
    PrepareKeeps(config, state.core, chunk, event.prepareAt);
    var prep := Prepare(config, state.core, chunk, event.prepareAt);
    FailUnitsKeep(config, prep.core, prep.units, WorkerError, BatchInvalid, event.times);
    FailUnitsKeep(config, prep.core, prep.units, BatchTooLarge, BatchTooBig, event.times);
    KeptFrame(config, prep.core, BeginDispatch(config, state, chunk, event.prepareAt, event.startAt, event.batchID,
                                               event.sentAt, event.times).core, event.prepareAt, event.startAt);
  }

  lemma {:induction false} ProceedKeeps(config: Config, state: State, event: Event)
    requires Kept(config, state.core, state.clock) && event.Proceed? && Enabled(config, state, event)
    ensures Kept(config, ProceedStep(config, state, event).core, event.startAt)
  {
    hide Kept, PickChunk, BeginDispatch, AnswerError;
    ErrorsKeep(state.core, state.pending, config.redaction, RunDelayed, RunStartDelayed);
    PickKeeps(config, state.core, state.pending);
    var pick := PickChunk(config, state.core, state.pending);
    KeptFrame(config, state.core, AnswerError(state.core, state.pending, config.redaction, RunDelayed, RunStartDelayed),
              state.clock, event.startAt);
    KeptFrame(config, state.core, pick.core, state.clock, state.clock);
    KeptFrame(config, pick.core, pick.core, state.clock, event.startAt);
    var checked := AfterBackpressureCheck(state.(clock := event.startAt, phase := Idle), state.phase.readAt);
    var picked := checked.(core := pick.core, pending := pick.remaining, pendingInBatchBuffer := |pick.remaining|);
    BeginKeeps(config, picked, pick.chunk, event, state.clock);
  }

  lemma {:induction false} ReturnKeeps(config: Config, state: State, event: Event)
    requires Kept(config, state.core, state.clock) && event.Return? && Enabled(config, state, event)
    requires state.dispatches != []
    ensures Kept(config, ReturnStep(config, state, event).core, event.endAt)
  {
    hide Kept, FailUnits, DeliverUnits, Accepted, ResultsByID, IsRunDelayed;
    var units, times, index := state.phase.units, Times(event.env), |state.dispatches| - 1;
    var after := ReturnStep(config, state, event).core;
    match event.reply {
      case Failure(message) =>
        FailUnitsKeep(config, state.core, units, RunDelayed, Reason(message), times);
        FailUnitsKeep(config, state.core, units, DispatchFailed, Reason(message), times);
        KeptFrame(config, state.core, after, state.clock, event.endAt);
      case Package(pkg) =>
        FailUnitsKeep(config, state.core, units, ResultPackageNotFound, VerificationFailed, times);
        DeliverUnitsKeep(config, state.core, units, ResultsByID(pkg.results), index, event.env, state.clock);
        var delivered := DeliverUnits(config, state.core, units, ResultsByID(pkg.results), index, event.env);
        KeptFrame(config, delivered, delivered, state.clock, event.endAt);
        KeptFrame(config, state.core, state.core, state.clock, event.endAt);
        if after != delivered {
          KeptFrame(config, state.core, after, state.clock, event.endAt);
        }
    }
  }

  lemma {:induction false} TickRemoves(config: Config, cache: map<string, CacheEntry>, now: int)
    ensures var small := EvictExpired(cache, config.settings, now);
            SubCache(small, cache) && forall k :: k in cache && now <= cache[k].expiresAt ==> k in small
  {
  }

  lemma {:induction false} NextKeeps(config: Config, state: State, event: Event)
    requires Kept(config, state.core, state.clock) && Enabled(config, state, event)
    ensures Kept(config, Next(config, state, event).core, Next(config, state, event).clock)
  {
    hide Kept, ProceedStep, ReturnStep, AnswerError, EvictExpired, BatchOK;
    var after := Next(config, state, event);
    match event {
      case Proceed(_, _, _, _, _) =>
        ProceedKeeps(config, state, event);
        ProceedClock(config, state, event);
      case Return(_, _, _, _) =>
        if state.dispatches != [] {
          ReturnKeeps(config, state, event);
          ReturnClock(config, state, event);
        }
      case Tick(tickAt) =>
        KeptFrame(config, state.core, state.core, state.clock, tickAt);
        TickRemoves(config, state.core.cache, tickAt);
        KeptSub(config, state.core, EvictExpired(state.core.cache, config.settings, tickAt), tickAt);
      case Stop =>
        ErrorsKeep(state.core, state.pending, config.redaction, WorkerError, AgentStopped);
        KeptFrame(config, state.core, after.core, state.clock, after.clock);
      case _ => KeptFrame(config, state.core, after.core, state.clock, after.clock);
    }
  }

  lemma {:induction false} ProceedClock(config: Config, state: State, event: Event)
    requires event.Proceed? && state.phase.Ticking?
    ensures ProceedStep(config, state, event).clock == event.startAt
  {
    hide PickChunk, Prepare, FailUnits, BatchOK, BatchSizeBytes, MakeBatch, AnswerError;
  }

  lemma {:induction false} ReturnClock(config: Config, state: State, event: Event)
    requires event.Return? && state.phase.InFlight? && state.dispatches != []
    ensures ReturnStep(config, state, event).clock == event.endAt
  {
    hide FailUnits, DeliverUnits, Accepted, ResultsByID, IsRunDelayed;
  }

  lemma {:induction false} InitKept(config: Config, start: int)
    requires config.settings.Valid()
    ensures Kept(config, Init(start).core, start)
  {
  }

  lemma {:induction false} RunKeeps(config: Config, start: int, events: seq<Event>)
    requires config.settings.Valid() && IsRun(config, start, events)
    ensures Kept(config, After(config, start, events).core, After(config, start, events).clock)
  {
    hide Kept, Enabled, Next;
    if events == [] {
      InitKept(config, start);
    } else {
      var last := |events| - 1;
      RunKeeps(config, start, events[..last]);
      NextKeeps(config, After(config, start, events[..last]), events[last]);
    }
  }

  // ----- what that means -----

  /** In every run the cache answers a key if and only if it is alive: its last store has not expired and has not made
      room for another since; the answer is what was stored then. */
  lemma {:induction false} CacheAnswers(config: Config, start: int, events: seq<Event>, state: State, key: string,
                                        now: int)
    requires config.settings.Valid() && LeadsTo(config, start, events, state) && state.clock <= now && key != ""
    ensures var stores := state.core.stores;
            FindEntry(state.core.cache, config.settings, key, now)
            == if config.settings.cacheTTL > 0 && config.settings.cacheMaxEntries > 0
                  && Alive(config.settings, stores, key, now)
               then Some(stores[LastStore(stores, key).value].result) else None
  {
    hide IsRun, After, Held, LastStore, EvictionsOK;
    RunKeeps(config, start, events);
    RetainedLater(config.settings, state.core.cache, state.core.stores, state.clock, now);
    if key in state.core.cache {
      assert EntryLogged(config.settings, key, state.core.cache[key], state.core.stores);
    }
  }

  /** In every run a store makes room only when the cache is full, and by the key that was stored first. */
  lemma {:induction false} EvictsOldest(config: Config, start: int, events: seq<Event>, j: nat)
    requires config.settings.Valid() && IsRun(config, start, events)
    requires j < |After(config, start, events).core.stores|
    ensures EvictionOK(config.settings, After(config, start, events).core.stores, j)
  {
    hide IsRun, After, Retained, CacheLogged, EvictionOK;
    RunKeeps(config, start, events);
  }

  /** A tick removes what expired before it, and that only. */
  lemma {:induction false} TickKeeps(config: Config, state: State, tickAt: int)
    requires Enabled(config, state, Tick(tickAt))
    ensures var cache, after := state.core.cache, Next(config, state, Tick(tickAt));
            && (forall key :: key in after.core.cache
                              <==> key in cache
                                   && !(config.settings.CacheEnabled() && cache[key].expiresAt < tickAt))
            && (forall key :: key in after.core.cache ==> after.core.cache[key] == cache[key])
            && after.core.outbox == state.core.outbox && after.core.stores == state.core.stores
            && (after.phase.Ticking? <==> state.pending != [])
            && after.pending == state.pending && after.queue == state.queue
  {
  }

  /** While there is room a store changes nothing but its own entry. */
  lemma {:induction false} RoomKeepsAll(settings: Settings, cache: map<string, CacheEntry>, key: string,
                                        result: RequestResult, now: int, hint: string)
    requires settings.CacheEnabled() && key != "" && |cache| < settings.cacheMaxEntries
    ensures var after := StoreEntry(cache, settings, key, result, now, hint);
            && after.Keys == cache.Keys + {key} && after[key] == CacheEntry(now + settings.cacheTTL, result, now)
            && forall other :: other in cache && other != key ==> after[other] == cache[other]
  {
  }
}
