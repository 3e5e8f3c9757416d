/** Why every answer is the right one: each send on a result channel is traced to the worker result it carries. */
module AgentOrigins {
  import opened Text
  import opened Protocol
  import opened Validation
  import opened Wire
  import opened AgentModel
  import opened AgentLedger
  import opened AgentCache

  /** The same HTTP call: everything but the identifier. */
  predicate SameCall(a: RequestItem, b: RequestItem) {
    a.httpMethod == b.httpMethod && a.url == b.url && a.headers == b.headers && a.body == b.body
  }

  /** The result is the one that an accepted package of this dispatch holds for this request. */
  ghost predicate AnsweredBy(dispatch: Dispatch, asked: RequestItem, raw: RequestResult) {
    && asked in dispatch.batch.requests && raw.requestID == asked.requestID
    && dispatch.reply.Some? && dispatch.reply.value.Package?
    && var pkg := dispatch.reply.value.pkg;
       Accepted(pkg, dispatch.batch.batchID, RequestIDs(dispatch.batch.requests)) && raw in pkg.results
  }

  ghost predicate StoreOK(config: Config, store: Store, dispatches: seq<Dispatch>, clock: int) {
    && store.batch < |dispatches| && AnsweredBy(dispatches[store.batch], store.asked, store.raw)
    && Cacheable(store.asked) && Normalized(store.asked) && store.key == CacheKey(store.asked)
    && ShouldCache(store.result) && store.result == Sanitize(config.redaction, store.raw)
    && store.at <= clock
  }

  /** The dispatch sent this request on behalf of the item: it is the item's own, or the item waited as its
      duplicate. */
  ghost predicate CarriedAs(dispatch: Dispatch, asked: RequestItem, item: Pending) {
    exists k :: 0 <= k < |dispatch.units| && dispatch.units[k].primary.request == asked
                && (item == dispatch.units[k].primary || item in dispatch.units[k].duplicates)
  }

  /** An answer bears its caller's identifier, and one that is not a local error carries a worker result for the
      same call, from the caller's own batch or stored no more than the TTL before it was looked up. */
  ghost predicate SendOK(config: Config, send: Send, stores: seq<Store>, dispatches: seq<Dispatch>) {
    && send.result.requestID == send.item.request.requestID
    && match send.origin
       case Local => !send.result.ok
       case FromStale(_) => false
       case FromCache(j, at, seen) =>
         && j < seen <= |stores| && LastStore(stores[..seen], CacheKey(send.item.request)) == Some(j)
         && stores[j].at <= at <= stores[j].at + config.settings.cacheTTL
         && SameCall(stores[j].asked, send.item.request)
         && send.result == CloneFor(stores[j].result, send.item.request.requestID)
       case FromBatch(b, asked, raw) =>
         && b < |dispatches| && AnsweredBy(dispatches[b], asked, raw)
         && CarriedAs(dispatches[b], asked, send.item)
         && SameCall(asked, send.item.request) && (!Cacheable(send.item.request) ==> asked == send.item.request)
         && send.result == CloneFor(Sanitize(config.redaction, raw), send.item.request.requestID)
  }

  ghost predicate SendsOK(config: Config, outbox: seq<Send>, stores: seq<Store>, dispatches: seq<Dispatch>) {
    forall i :: 0 <= i < |outbox| ==> SendOK(config, outbox[i], stores, dispatches)
  }

  ghost predicate StoresOK(config: Config, stores: seq<Store>, dispatches: seq<Dispatch>, clock: int) {
    forall j :: 0 <= j < |stores| ==> StoreOK(config, stores[j], dispatches, clock)
  }

  ghost predicate CoreOK(config: Config, core: Core, dispatches: seq<Dispatch>, clock: int) {
    && SendsOK(config, core.outbox, core.stores, dispatches)
    && StoresOK(config, core.stores, dispatches, clock)
    && CacheLogged(config.settings, core.cache, core.stores)
    && core.counters.failOpenServed == 0
  }

  /** Later dispatches are appended, and a reply is filled in once. */
  ghost predicate Extends(a: seq<Dispatch>, b: seq<Dispatch>) {
    |a| <= |b| && forall i :: 0 <= i < |a| ==> b[i] == a[i] || (a[i].reply.None? && b[i] == a[i].(reply := b[i].reply))
  }

  lemma {:induction false} CoreOKLater(config: Config, core: Core, a: seq<Dispatch>, b: seq<Dispatch>, clock: int,
                                       later: int)
    requires CoreOK(config, core, a, clock) && Extends(a, b) && clock <= later
    ensures CoreOK(config, core, b, later)
  {
    hide CacheLogged, CacheKey, Cacheable;
    forall i | 0 <= i < |core.outbox| ensures SendOK(config, core.outbox[i], core.stores, b) {
      assert SendOK(config, core.outbox[i], core.stores, a);
    }
    forall j | 0 <= j < |core.stores| ensures StoreOK(config, core.stores[j], b, later) {
      assert StoreOK(config, core.stores[j], a, clock);
    }
  }

  lemma {:induction false} AnswerOK(config: Config, core: Core, item: Pending, result: RequestResult, origin: Origin,
                                    dispatches: seq<Dispatch>, clock: int)
    requires CoreOK(config, core, dispatches, clock)
    requires SendOK(config, Send(item, result, origin), core.stores, dispatches)
    ensures CoreOK(config, Answer(core, item, result, origin), dispatches, clock)
  {
    hide StoresOK, CacheLogged;
  }

  lemma {:induction false} ErrorsOK(config: Config, core: Core, items: seq<Pending>, code: Code, message: Message,
                                    dispatches: seq<Dispatch>, clock: int)
    requires CoreOK(config, core, dispatches, clock)
    ensures CoreOK(config, AnswerError(core, items, config.redaction, code, message), dispatches, clock)
  {
    hide CoreOK, ErrorResult;
    if items != [] {
      var last := |items| - 1;
      ErrorsOK(config, core, items[..last], code, message, dispatches, clock);
      AnswerOK(config, AnswerError(core, items[..last], config.redaction, code, message), items[last],
               ErrorResult(config.redaction, items[last].request.requestID, code, message), Local, dispatches, clock);
    }
  }

  lemma {:induction false} PickOK(config: Config, core: Core, pending: seq<Pending>, dispatches: seq<Dispatch>,
                                  clock: int)
    requires CoreOK(config, core, dispatches, clock)
    ensures CoreOK(config, PickChunk(config, core, pending).core, dispatches, clock)
  {
    hide CoreOK, ErrorResult, EstimatedSize;
    if pending != [] {
      var last := |pending| - 1;
      var before := PickChunk(config, core, pending[..last]);
      PickOK(config, core, pending[..last], dispatches, clock);
      if PickItem(config, before, pending[last]).core != before.core {
        AnswerOK(config, before.core, pending[last],
                 ErrorResult(config.redaction, pending[last].request.requestID, BatchTooLarge, RequestTooBig), Local,
                   dispatches, clock);
      }
    }
  }

  lemma {:induction false} SubCacheOK(config: Config, core: Core, cache: map<string, CacheEntry>,
                                      dispatches: seq<Dispatch>, clock: int)
    requires CoreOK(config, core, dispatches, clock) && SubCache(cache, core.cache)
    ensures CoreOK(config, core.(cache := cache), dispatches, clock)
  {
    SubCacheLogged(config.settings, cache, core.cache, core.stores);
    hide SendsOK, StoresOK, CacheLogged;
  }

  /** Two cacheable requests with one key are the same call: neither has a body. */
  lemma {:induction false} SameKeySameCall(a: RequestItem, b: RequestItem)
    requires Cacheable(a) && Cacheable(b) && Normalized(a) && Normalized(b) && CacheKey(a) == CacheKey(b)
    ensures SameCall(a, b)
  {
    CacheKeyInjective(a, b);
    hide CacheKey;
  }

  lemma {:induction false} HitOK(config: Config, core: Core, item: Pending, now: int, dispatches: seq<Dispatch>,
                                 clock: int)
    requires CoreOK(config, core, dispatches, clock) && clock <= now && Normalized(item.request)
    requires Fresh(config.settings, core.cache, item.request, now)
    ensures var key := CacheKey(item.request);
            var result := FindEntry(core.cache, config.settings, key, now).value;
            SendOK(config, Send(item, CloneFor(result, item.request.requestID), 
                        FromCache(LastStore(core.stores, key).GetOr(0), now, |core.stores|)), core.stores, dispatches)
  {
    hide CacheKey, LastStore, Sanitize, SendsOK, ShouldCache, AnsweredBy, SameCall, Normalized;
    var key := CacheKey(item.request);
    HitIsLastStore(config.settings, core.cache, core.stores, key, now);
    var j := LastStore(core.stores, key).value;
    assert StoreOK(config, core.stores[j], dispatches, clock);
    SameKeySameCall(core.stores[j].asked, item.request);
    assert core.stores[..|core.stores|] == core.stores;
  }

  lemma {:induction false} PrepareItemOK(config: Config, prep: Prep, item: Pending, now: int,
                                         dispatches: seq<Dispatch>, clock: int)
    requires CoreOK(config, prep.core, dispatches, clock) && clock <= now && Normalized(item.request)
    ensures CoreOK(config, PrepareItem(config, prep, item, now).core, dispatches, clock)
  {
    hide CacheKey, SendsOK, StoresOK, CacheLogged, LastStore, SendOK;
    var key := CacheKey(item.request);
    if Fresh(config.settings, prep.core.cache, item.request, now) {
      HitOK(config, prep.core, item, now, dispatches, clock);
      var counted := prep.core.(counters := prep.core.counters.(cacheHits := prep.core.counters.cacheHits + 1));
      var result := FindEntry(prep.core.cache, config.settings, key, now).value;
      AnswerOK(config, counted, item, CloneFor(result, item.request.requestID),
               FromCache(LastStore(counted.stores, key).GetOr(0), now, |counted.stores|), dispatches, clock);
    } else {
      SubCacheOK(config, prep.core, AfterLookup(prep.core.cache, config.settings, key, now), dispatches, clock);
    }
  }

  lemma {:induction false} PrepareOK(config: Config, core: Core, items: seq<Pending>, now: int,
                                     dispatches: seq<Dispatch>, clock: int)
    requires CoreOK(config, core, dispatches, clock) && clock <= now
    requires forall i :: 0 <= i < |items| ==> Normalized(items[i].request)
    ensures CoreOK(config, Prepare(config, core, items, now).core, dispatches, clock)
  {
    hide CoreOK, PrepareItem;
    if items != [] {
      var last := |items| - 1;
      PrepareOK(config, core, items[..last], now, dispatches, clock);
      PrepareItemOK(config, Prepare(config, core, items[..last], now), items[last], now, dispatches, clock);
    }
  }

  // ----- failing a batch: plain errors only -----

  /** From a to b nothing was stored or counted as fail-open, and every new answer is this local error. */
  ghost predicate OnlyErrors(config: Config, a: Core, b: Core, code: Code, message: Message) {
    && b.cache == a.cache && b.stores == a.stores && b.counters.failOpenServed == a.counters.failOpenServed
    && a.outbox <= b.outbox
    && forall i :: |a.outbox| <= i < |b.outbox| ==> IsError(config, b.outbox[i], code, message)
  }

  ghost predicate IsError(config: Config, send: Send, code: Code, message: Message) {
    send.origin == Local && send.result == ErrorResult(config.redaction, send.item.request.requestID, code, message)
  }

  lemma {:induction false} CloneError(redaction: Redaction, id: string, other: string, code: Code, message: Message)
    ensures CloneFor(ErrorResult(redaction, id, code, message), other) == ErrorResult(redaction, other, code, message)
  {
    hide CodeText, MessageText;
  }

  lemma {:induction false} DuplicateErrors(config: Config, core: Core, duplicates: seq<Pending>, id: string,
                                           code: Code, message: Message)
    ensures OnlyErrors(config, core,
                       AnswerDuplicates(core, duplicates, ErrorResult(config.redaction, id, code, message), Local),
                         code, message)
  {
    hide ErrorResult;
    if duplicates != [] {
      var last := |duplicates| - 1;
      DuplicateErrors(config, core, duplicates[..last], id, code, message);
      CloneError(config.redaction, id, duplicates[last].request.requestID, code, message);
    }
  }

  lemma {:induction false} FailUnitErrors(config: Config, core: Core, unit: Unit, code: Code, message: Message, at: int)
    requires unit.cacheable ==> unit.cacheKey !in core.cache
    ensures OnlyErrors(config, core, FailUnit(config, core, unit, code, message, at), code, Redacted(message))
  {
    hide ErrorResult;
    var id := unit.primary.request.requestID;
    var result := ErrorResult(config.redaction, id, code, Redacted(message));
    DuplicateErrors(config, Answer(core, unit.primary, result, Local), unit.duplicates, id, code, Redacted(message));
  }

  /** When no key of a batch is cached, failing the batch gives every caller the error itself, in either
      reliability mode and whatever the stale TTL. */
  lemma {:induction false} FailUnitsErrors(config: Config, core: Core, units: seq<Unit>, code: Code, message: Message,
                                           times: seq<int>)
    requires KeysAbsent(units, core.cache)
    ensures OnlyErrors(config, core, FailUnits(config, core, units, code, message, times), code, Redacted(message))
  {
    hide FailUnit, IsError;
    if units != [] {
      var last := |units| - 1;
      FailUnitsErrors(config, core, units[..last], code, message, times);
      FailUnitErrors(config, FailUnits(config, core, units[..last], code, message, times), units[last], code, message,
                     TimeAt(times, last));
    }
  }

  lemma {:induction false} OnlyErrorsOK(config: Config, a: Core, b: Core, code: Code, message: Message,
                                        dispatches: seq<Dispatch>, clock: int)
    requires CoreOK(config, a, dispatches, clock) && OnlyErrors(config, a, b, code, message)
    ensures CoreOK(config, b, dispatches, clock)
  {
    hide StoresOK, CacheLogged, ErrorResult;
    forall i | 0 <= i < |b.outbox| ensures SendOK(config, b.outbox[i], b.stores, dispatches) {
      if i < |a.outbox| {
        assert b.outbox[i] == a.outbox[i];
      } else {
        assert IsError(config, b.outbox[i], code, message);
      }
    }
  }

  // ----- delivering an accepted package -----

  lemma {:induction false} DuplicatesOK(config: Config, core: Core, duplicates: seq<Pending>, batch: nat,
                                        asked: RequestItem,
                                        raw: RequestResult, dispatches: seq<Dispatch>, clock: int)
    requires CoreOK(config, core, dispatches, clock)
    requires batch < |dispatches| && AnsweredBy(dispatches[batch], asked, raw)
    requires forall i :: 0 <= i < |duplicates| ==>
               SameCall(asked, duplicates[i].request) && Cacheable(duplicates[i].request)
               && CarriedAs(dispatches[batch], asked, duplicates[i])
    ensures CoreOK(config, AnswerDuplicates(core, duplicates, Sanitize(config.redaction, raw),
                                            FromBatch(batch, asked, raw)), dispatches, clock)
  {
    hide CoreOK, AnsweredBy, CarriedAs, Sanitize, Cacheable, SameCall;
    if duplicates != [] {
      var last := |duplicates| - 1;
      var result, origin := Sanitize(config.redaction, raw), FromBatch(batch, asked, raw);
      DuplicatesOK(config, core, duplicates[..last], batch, asked, raw, dispatches, clock);
      AnswerOK(config, AnswerDuplicates(core, duplicates[..last], result, origin), duplicates[last],
               CloneFor(result, duplicates[last].request.requestID), origin, dispatches, clock);
    }
  }

  lemma {:induction false} SendsOKAppend(config: Config, outbox: seq<Send>, stores: seq<Store>, store: Store,
                                         dispatches: seq<Dispatch>)
    requires SendsOK(config, outbox, stores, dispatches)
    ensures SendsOK(config, outbox, stores + [store], dispatches)
  {
    hide AnsweredBy, CarriedAs, Sanitize, LastStore, CacheKey, Cacheable, SameCall;
    forall i | 0 <= i < |outbox| ensures SendOK(config, outbox[i], stores + [store], dispatches) {
      assert SendOK(config, outbox[i], stores, dispatches);
      if outbox[i].origin.FromCache? {
        assert (stores + [store])[..outbox[i].origin.seen] == stores[..outbox[i].origin.seen];
      }
    }
  }

  lemma {:induction false} StoreResultOK(config: Config, core: Core, unit: Unit, raw: RequestResult, batch: nat,
                                         env: UnitEnv,
                      dispatches: seq<Dispatch>, clock: int)
    requires CoreOK(config, core, dispatches, clock) && UnitOK(unit) && Normalized(unit.primary.request)
    requires batch < |dispatches| && AnsweredBy(dispatches[batch], unit.primary.request, raw) && env.storeAt <= clock
    ensures CoreOK(config, StoreResult(config, core, unit, Sanitize(config.redaction, raw), batch, raw, env),
                   dispatches, clock)
  {
    hide CacheKey, Sanitize, CacheLogged, StoreEntry, SendsOK, AnsweredBy;
    var result := Sanitize(config.redaction, raw);
    if unit.cacheable && ShouldCache(result) && config.settings.CacheEnabled() && unit.cacheKey != "" {
      var store := Store(unit.cacheKey, result, env.storeAt, batch, unit.primary.request, raw,
                         Evicts(core.cache, config.settings, env.hint));
      StoreEntryLogged(config.settings, core.cache, core.stores, store, env.hint);
      SendsOKAppend(config, core.outbox, core.stores, store, dispatches);
    }
  }

  ghost predicate UnitNormalized(unit: Unit) {
    Normalized(unit.primary.request) && forall d :: d in unit.duplicates ==> Normalized(d.request)
  }

  lemma {:induction false} DeliverUnitOK(config: Config, core: Core, unit: Unit, raw: RequestResult, batch: nat,
                                         env: UnitEnv,
                      dispatches: seq<Dispatch>, clock: int)
    requires CoreOK(config, core, dispatches, clock) && UnitOK(unit) && UnitNormalized(unit)
    requires batch < |dispatches| && AnsweredBy(dispatches[batch], unit.primary.request, raw) && env.storeAt <= clock
    requires unit in dispatches[batch].units
    ensures CoreOK(config, DeliverResult(config, core, unit, raw, FromBatch(batch, unit.primary.request, raw), batch,
                                         env), dispatches, clock)
  {
    assert raw.requestID == unit.primary.request.requestID;
    hide CoreOK, AnsweredBy, Sanitize, StoreResult, CacheKey, Cacheable, CarriedAs;
    var asked := unit.primary.request;
    CarriesUnit(dispatches[batch], unit);
    var result := Sanitize(config.redaction, raw);
    SanitizeKeepsID(config.redaction, raw);
    assert CloneFor(result, asked.requestID) == result;
    AnswerOK(config, core, unit.primary, result, FromBatch(batch, asked, raw), dispatches, clock);
    StoreResultOK(config, Answer(core, unit.primary, result, FromBatch(batch, asked, raw)), unit, raw, batch, env,
                  dispatches, clock);
    forall i | 0 <= i < |unit.duplicates|
      ensures SameCall(asked, unit.duplicates[i].request) && Cacheable(unit.duplicates[i].request)
    {
      assert unit.duplicates[i] in unit.duplicates;
      SameKeySameCall(asked, unit.duplicates[i].request);
    }
    DuplicatesOK(config, StoreResult(config, Answer(core, unit.primary, result, FromBatch(batch, asked, raw)), unit,
                                     result, batch, raw, env),
                 unit.duplicates, batch, asked, raw, dispatches, clock);
  }

  lemma {:induction false} CarriesUnit(dispatch: Dispatch, unit: Unit)
    requires unit in dispatch.units
    ensures CarriedAs(dispatch, unit.primary.request, unit.primary)
    ensures forall i :: 0 <= i < |unit.duplicates| ==> CarriedAs(dispatch, unit.primary.request, unit.duplicates[i])
  {
  }

  lemma {:induction false} SanitizeKeepsID(redaction: Redaction, result: RequestResult)
    ensures Sanitize(redaction, result).requestID == result.requestID
    ensures Sanitize(redaction, result).ok == result.ok
  {
  }

  /** From a to b every new send and every new store is of a result of this package. */
  ghost predicate OfPackage(a: Core, b: Core, results: map<string, RequestResult>, batch: nat) {
    && a.outbox <= b.outbox && a.stores <= b.stores
    && (forall i :: |a.outbox| <= i < |b.outbox| ==> SendOfPackage(b.outbox[i], results, batch))
    && (forall j :: |a.stores| <= j < |b.stores| ==> StoreOfPackage(b.stores[j], results, batch))
  }

  ghost predicate SendOfPackage(send: Send, results: map<string, RequestResult>, batch: nat) {
    && send.origin.FromBatch? && send.origin.batch == batch
    && send.origin.asked.requestID in results && send.origin.raw == results[send.origin.asked.requestID]
  }

  ghost predicate StoreOfPackage(store: Store, results: map<string, RequestResult>, batch: nat) {
    store.batch == batch && store.asked.requestID in results && store.raw == results[store.asked.requestID]
  }

  lemma {:induction false} OfPackageChain(a: Core, b: Core, c: Core, results: map<string, RequestResult>, batch: nat)
    requires OfPackage(a, b, results, batch) && OfPackage(b, c, results, batch)
    ensures OfPackage(a, c, results, batch)
  {
    hide SendOfPackage, StoreOfPackage;
  }

  lemma {:induction false} DuplicatesOfPackage(core: Core, duplicates: seq<Pending>, result: RequestResult,
                                               origin: Origin,
                                               results: map<string, RequestResult>, batch: nat)
    requires origin.FromBatch? && origin.batch == batch
    requires origin.asked.requestID in results && origin.raw == results[origin.asked.requestID]
    ensures OfPackage(core, AnswerDuplicates(core, duplicates, result, origin), results, batch)
  {
    if duplicates != [] {
      DuplicatesOfPackage(core, duplicates[..|duplicates| - 1], result, origin, results, batch);
    }
  }

  lemma {:induction false} DeliverResultOfPackage(config: Config, core: Core, unit: Unit,
                                                  results: map<string, RequestResult>, batch: nat, env: UnitEnv)
    requires unit.primary.request.requestID in results
    ensures var request := unit.primary.request; var raw := results[request.requestID];
            OfPackage(core, DeliverResult(config, core, unit, raw, FromBatch(batch, request, raw), batch, env), results,
                      batch)
  {
    hide Sanitize, StoreEntry;
    var request := unit.primary.request;
    var raw := results[request.requestID];
    var result, origin := Sanitize(config.redaction, raw), FromBatch(batch, request, raw);
    var sent := Answer(core, unit.primary, result, origin);
    var stored := StoreResult(config, sent, unit, CloneFor(result, request.requestID), batch, raw, env);
    assert OfPackage(core, stored, results, batch);
    DuplicatesOfPackage(stored, unit.duplicates, result, origin, results, batch);
    OfPackageChain(core, stored, AnswerDuplicates(stored, unit.duplicates, result, origin), results, batch);
  }

  /** An accepted package: every unit finds its own result, so no unit is recovered or reported missing, and all that is
      sent and stored is of this package. */
  lemma {:induction false} DeliverUnitsOK(config: Config, core: Core, units: seq<Unit>,
                                          results: map<string, RequestResult>,
                                          batch: nat, env: seq<UnitEnv>, dispatches: seq<Dispatch>, clock: int)
    requires CoreOK(config, core, dispatches, clock) && batch < |dispatches|
    requires forall i :: 0 <= i < |units| ==> UnitOK(units[i]) && UnitNormalized(units[i])
    requires forall i :: 0 <= i < |units| ==>
               && units[i].primary.request.requestID in results
               && AnsweredBy(dispatches[batch], units[i].primary.request, results[units[i].primary.request.requestID])
    requires forall i :: 0 <= i < |units| ==> units[i] in dispatches[batch].units
    requires |units| <= |env| && forall i :: 0 <= i < |env| ==> env[i].storeAt <= clock
    ensures CoreOK(config, DeliverUnits(config, core, units, results, batch, env), dispatches, clock)
    ensures OfPackage(core, DeliverUnits(config, core, units, results, batch, env), results, batch)
  {
    hide CoreOK, UnitOK, UnitNormalized, AnsweredBy, DeliverResult, SendOfPackage, StoreOfPackage;
    if units != [] {
      var last := |units| - 1;
      DeliverUnitsOK(config, core, units[..last], results, batch, env, dispatches, clock);
      DeliverUnitOK(config, DeliverUnits(config, core, units[..last], results, batch, env), units[last],
                    results[units[last].primary.request.requestID], batch, env[last], dispatches, clock);
      var before := DeliverUnits(config, core, units[..last], results, batch, env);
      DeliverResultOfPackage(config, before, units[last], results, batch, env[last]);
      OfPackageChain(core, before, DeliverUnits(config, core, units, results, batch, env), results, batch);
    }
  }
}
