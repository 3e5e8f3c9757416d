/** The agent of client/internal/agent/agent.go as the object that its goroutines update. Each method is a stretch of
    code that runs without waiting for another goroutine, and takes one step of the state machine. */
module Agent {
  import opened Text
  import opened Protocol
  import opened Validation
  import opened Wire
  import opened AgentModel
  import opened AgentRuns
  import opened AgentTheorems

  /** What lies in the result channels after these sends. */
  function Buffers(outbox: seq<Send>): map<nat, RequestResult> {
    if outbox == [] then map[]
    else
      var last := outbox[|outbox| - 1];
      Buffers(outbox[..|outbox| - 1])[last.item.channel := last.result]
  }

  lemma {:induction false} BuffersAppend(outbox: seq<Send>, send: Send)
    ensures Buffers(outbox + [send]) == Buffers(outbox)[send.item.channel := send.result]
  {
    assert (outbox + [send])[..|outbox|] == outbox;
  }

  lemma {:induction false} DeliverUnitsEnv(config: Config, core: Core, units: seq<Unit>,
                                           results: map<string, RequestResult>,
                                           batch: nat, env: seq<UnitEnv>, next: UnitEnv)
    requires |units| <= |env|
    ensures AgentModel.DeliverUnits(config, core, units, results, batch, env + [next])
            == AgentModel.DeliverUnits(config, core, units, results, batch, env)
  {
    hide DeliverUnit;
    if units != [] {
      DeliverUnitsEnv(config, core, units[..|units| - 1], results, batch, env, next);
    }
  }

  function Lookups(readings: seq<Readings>): (r: seq<int>)
    ensures |r| == |readings| && forall i :: 0 <= i < |r| ==> r[i] == readings[i].lookupAt
  {
    seq(|readings|, i requires 0 <= i < |readings| => readings[i].lookupAt)
  }

  /** The fields of the object that the model's state decides, but for those that change while a chunk is handled. */
  datatype View = View(
    queue: seq<Pending>, offered: seq<RequestItem>, unrecorded: nat, nextChannel: nat, pending: seq<Pending>,
    pendingInBatchBuffer: nat, phase: Phase, dispatchInFlight: bool, backpressureUntil: int, clock: int)

  function ViewOf(model: State): View {
    View(model.queue, model.offered, model.unrecorded, |model.accepted|, model.pending, model.pendingInBatchBuffer,
         model.phase,
         model.dispatchInFlight, model.backpressureUntil, model.clock)
  }

  // ----- the long steps in parts -----

  function Rejected(core: Core): Core {
    core.(counters := core.counters.(localRejected := core.counters.localRejected + 1,
                                     failed := core.counters.failed + 1))
  }

  /** A submission is admitted, or rejected locally. */
  predicate Admitted(state: State, verdict: Option<ResultError>, at: int) {
    verdict.None? && !BackpressureActive(state, at)
  }

  lemma {:induction false} CheckParts(state: State, item: RequestItem, verdict: Option<ResultError>, at: int)
    ensures var admitted := Admitted(state, verdict, at);
            CheckStep(state, item, verdict, at)
            == state.(
                 clock := Later(state.clock, at),
                 backpressureUntil := if verdict.None? then AfterBackpressureCheck(state, at).backpressureUntil
                                        else state.backpressureUntil,
                 offered := if admitted then state.offered + [item] else state.offered,
                 core := if admitted then state.core else Rejected(state.core))
  {
  }

  lemma {:induction false} EnqueueParts(config: Config, state: State, offer: nat)
    requires offer < |state.offered|
    ensures var free := |state.queue| < config.settings.maxQueueRequests;
            var item := Pending(state.offered[offer], |state.accepted|);
            EnqueueStep(config, state, offer)
            == state.(
                 offered := state.offered[..offer] + state.offered[offer + 1..],
                 queue := if free then state.queue + [item] else state.queue,
                 accepted := if free then state.accepted + [item] else state.accepted,
                 unrecorded := if free then state.unrecorded + 1 else state.unrecorded,
                 core := if free then state.core else Rejected(state.core))
  {
  }

  ghost predicate Sendable(config: Config, batch: RequestBatch) {
    BatchOK(batch, config.validTime) && BatchSizeBytes(batch) <= config.settings.maxBatchBytes
  }

  ghost function Screened(config: Config, core: Core, batch: RequestBatch, units: seq<Unit>, times: seq<int>): Core {
    if !BatchOK(batch, config.validTime)
      then AgentModel.FailUnits(config, core, units, WorkerError, BatchInvalid, times)
    else if BatchSizeBytes(batch) > config.settings.maxBatchBytes then
      AgentModel.FailUnits(config, core, units, BatchTooLarge, BatchTooBig, times)
    else core
  }

  /** dispatchBatch from the units to the dispatcher call. */
  ghost function Launched(config: Config, state: State, units: seq<Unit>, event: Event): State
    requires event.Proceed?
  {
    var batch := MakeBatch(Primaries(units), config.settings, event.batchID, event.sentAt);
    var core := Screened(config, state.core, batch, units, event.times);
    if !Sendable(config, batch) then state.(core := core, failedEarly := state.failedEarly + |units|)
    else
      state.(
        core := core.(counters := core.counters.(
          dispatchedBatches := core.counters.dispatchedBatches + 1,
          dispatchedRequests := core.counters.dispatchedRequests + |units|)),
        phase := InFlight(units), dispatchInFlight := true,
        dispatches := state.dispatches + [Dispatch(batch, units, event.startAt, None)])
  }

  lemma {:induction false} BeginDispatchParts(config: Config, state: State, chunk: seq<Pending>, event: Event)
    requires event.Proceed?
    ensures var prep := Prepare(config, state.core, chunk, event.prepareAt);
            var prepared := state.(core := prep.core, chunked := state.chunked + |chunk|);
            AgentModel.BeginDispatch(config, state, chunk, event.prepareAt, event.startAt, event.batchID, event.sentAt,
                                     event.times)
            == if prep.units == [] then prepared else Launched(config, prepared, prep.units, event)
  {
    hide Prepare, AgentModel.FailUnits, BatchOK, BatchSizeBytes, MakeBatch;
  }

  /** A tick that is not rejected: the choice of a chunk and its dispatch. */
  ghost function Picked(config: Config, state: State, event: Event): State
    requires event.Proceed?
  {
    var pick := PickChunk(config, state.core, state.pending);
    var picked := state.(core := pick.core, pending := pick.remaining, pendingInBatchBuffer := |pick.remaining|);
    if pick.chunk == [] then picked
    else
      AgentModel.BeginDispatch(config, picked, pick.chunk, event.prepareAt, event.startAt, event.batchID, event.sentAt,
                               event.times)
  }

  lemma {:induction false} ProceedParts(config: Config, state: State, event: Event)
    requires event.Proceed? && state.phase.Ticking?
    ensures var ready := state.(clock := event.startAt, phase := Idle);
            var checked := AfterBackpressureCheck(ready, state.phase.readAt);
            ProceedStep(config, state, event)
            == if BackpressureActive(ready, state.phase.readAt) then
                 checked.(
                   core := AgentModel.AnswerError(state.core, state.pending, config.redaction, RunDelayed,
                                                  RunStartDelayed),
                   pending := [], pendingInBatchBuffer := 0)
               else Picked(config, checked, event)
  {
    hide AgentModel.AnswerError, PickChunk, AgentModel.BeginDispatch;
  }

  lemma {:induction false} PrepareNothing(config: Config, core: Core, now: int)
    ensures Prepare(config, core, [], now) == Prep(core, [], map[])
  {
  }

  lemma {:induction false} PrepareOn(config: Config, core: Core, items: seq<Pending>, i: nat, now: int)
    requires i < |items|
    ensures Prepare(config, core, items[..i + 1], now)
            == PrepareItem(config, Prepare(config, core, items[..i], now), items[i], now)
  {
    hide PrepareItem;
    assert items[..i + 1][..i] == items[..i];
  }

  predicate RefusedStart(reply: Reply) {
    reply.Failure? && IsRunDelayed(reply.message)
  }

  /** What the dispatcher's reply does to the requests of the batch. */
  ghost function Settled(config: Config, core: Core, units: seq<Unit>, dispatches: seq<Dispatch>, reply: Reply,
                         env: seq<UnitEnv>): Core
    requires dispatches != []
  {
    var index := |dispatches| - 1;
    var batch := dispatches[index].batch;
    match reply
    case Failure(message) =>
      AgentModel.FailUnits(config, core, units, if IsRunDelayed(message) then RunDelayed else DispatchFailed,
                           Reason(message), Times(env))
    case Package(pkg) =>
      if Accepted(pkg, batch.batchID, RequestIDs(batch.requests)) then
        AgentModel.DeliverUnits(config, core, units, ResultsByID(pkg.results), index, env)
      else AgentModel.FailUnits(config, core, units, ResultPackageNotFound, VerificationFailed, Times(env))
  }

  lemma {:induction false} ReturnParts(config: Config, state: State, event: Event)
    requires event.Return? && state.phase.InFlight? && state.dispatches != []
    ensures var index := |state.dispatches| - 1; var refused := RefusedStart(event.reply);
            ReturnStep(config, state, event)
            == state.(
                 clock := event.endAt, phase := Idle, dispatchInFlight := false,
                 dispatches := state.dispatches[index := state.dispatches[index].(reply := Some(event.reply))],
                 backpressureUntil := if refused then event.returnAt + config.settings.backpressureCooldown
                                        else state.backpressureUntil,
                 activations := if refused then state.activations + [Activation(event.returnAt, |state.dispatches|)]
                                  else state.activations,
                 core := Settled(config, state.core, state.phase.units, state.dispatches, event.reply, event.env))
  {
    hide AgentModel.FailUnits, AgentModel.DeliverUnits, Accepted, ResultsByID, IsRunDelayed;
  }

  /** Two clock readings that handling one unit may take. */
  datatype Readings = Readings(lookupAt: int, storeAt: int)

  /** These readings, together with the map walks. */
  ghost predicate Read(readings: seq<Readings>, env: seq<UnitEnv>) {
    |env| == |readings|
    && forall i :: 0 <= i < |env| ==> env[i].lookupAt == readings[i].lookupAt && env[i].storeAt == readings[i].storeAt
  }

  class Agent {
    const config: Config

    // Shared between goroutines: the queue, the fields under the mutex and the result channels.
    var queue: seq<Pending>
    var cache: map<string, CacheEntry>
    var counters: Counters
    var backpressureUntil: int
    var dispatchInFlight: bool
    var pendingInBatchBuffer: nat
    var channels: map<nat, RequestResult>
    var nextChannel: nat

    // Local to the calls of Submit that have passed the checks, and the number that are queued but not yet counted.
    var offered: seq<RequestItem>
    var unrecorded: nat

    // Local to the Run goroutine; the last two while it is inside the dispatcher call.
    var pending: seq<Pending>
    var phase: Phase
    var batchID: string
    var requestIDs: seq<string>

    // The latest clock reading.
    var clock: int

    // The state of the model, with all its history, and its part that changes while a chunk is handled.
    ghost var model: State
    ghost var core: Core

    ghost predicate CoreReady()
      reads this`cache, this`counters, this`channels, this`core
    {
      cache == core.cache && counters == core.counters && channels == Buffers(core.outbox) && "" !in cache
    }

    /** What dispatchBatch keeps in local variables across the dispatcher call. */
    ghost predicate FlightLocals()
      reads this`model, this`batchID, this`requestIDs
    {
      model.phase.InFlight? ==>
        model.dispatches != []
        && var batch := model.dispatches[|model.dispatches| - 1].batch;
           batch.batchID == batchID && RequestIDs(batch.requests) == requestIDs
    }

    /** Every field is the model's. */
    ghost predicate Ready()
      reads this
    {
      && CoreReady() && FlightLocals() && model.core == core
      && ViewOf(model) == View(queue, offered, unrecorded, nextChannel, pending, pendingInBatchBuffer, phase,
                               dispatchInFlight,
                               backpressureUntil, clock)
    }

    constructor (config: Config, start: int)
      ensures Ready() && model == Init(start) && this.config == config
    {
      this.config, clock := config, start;
      queue, cache, counters, backpressureUntil := [], map[], Counters(0, 0, 0, 0, 0, 0, 0, 0, 0), 0;
      dispatchInFlight, pendingInBatchBuffer, channels, nextChannel := false, 0, map[], 0;
      offered, unrecorded, pending, phase, batchID, requestIDs := [], 0, [], Idle, "", [];
      model, core := Init(start), Init(start).core;
    }

    // ----- cache -----

    method LoadCacheEntry(key: string, now: int) returns (found: Option<RequestResult>)
      modifies this`cache
      ensures found == FindEntry(old(cache), config.settings, key, now)
      ensures cache == AfterLookup(old(cache), config.settings, key, now)
      ensures "" !in old(cache) ==> "" !in cache
      ensures found.Some? ==> cache == old(cache)
    {
      if !config.settings.CacheEnabled() || key == "" {
        return None;
      }
      if key !in cache {
        return None;
      }
      var entry := cache[key];
      if now > entry.expiresAt {
        cache := cache - {key};
        return None;
      }
      return Some(entry.result);
    }

    /** The entry that leaves a full cache is found by one walk over the map, with "" for "none yet". That sentinel is
        sound because "" is never a key; whatever the order of the walk, some entry that expires first is chosen. */
    method StoreCacheEntry(key: string, result: RequestResult, now: int) returns (ghost hint: string)
      requires "" !in cache
      modifies this`cache
      ensures cache == StoreEntry(old(cache), config.settings, key, result, now, hint)
      ensures !config.settings.CacheEnabled() || key == "" ==> cache == old(cache)
      ensures "" !in cache
    {
      hint := "";
      if !config.settings.CacheEnabled() || key == "" {
        return;
      }
      var entry := CacheEntry(now + config.settings.cacheTTL, result, now);
      if |cache| >= config.settings.cacheMaxEntries {
        var oldestKey, oldestExpires := "", 0;
        var left := cache.Keys;
        while left != {}
          invariant left <= cache.Keys
          invariant oldestKey == "" ==> left == cache.Keys
          invariant oldestKey != "" ==> oldestKey in cache && oldestExpires == cache[oldestKey].expiresAt
          invariant oldestKey != "" ==> forall k :: k in cache && k !in left ==> oldestExpires <= cache[k].expiresAt
          decreases left
        {
          var cacheKey :| cacheKey in left;
          if oldestKey == "" || cache[cacheKey].expiresAt < oldestExpires {
            oldestKey, oldestExpires := cacheKey, cache[cacheKey].expiresAt;
          }
          left := left - {cacheKey};
        }
        if oldestKey != "" {
          assert IsVictim(cache, oldestKey);
          hint := oldestKey;
          cache := cache - {oldestKey};
        }
      }
      cache := cache[key := entry];
    }

    method LoadStaleCacheEntry(key: string, now: int) returns (found: Option<RequestResult>)
      ensures found == FindStale(cache, config.settings, key, now)
    {
      if !config.settings.CacheEnabled() || key == "" || config.settings.staleIfErrorTTL <= 0 {
        return None;
      }
      if key !in cache || cache[key].storedAt == 0 {
        return None;
      }
      if now - cache[key].storedAt > config.settings.staleIfErrorTTL {
        return None;
      }
      return Some(cache[key].result);
    }

    method EvictExpiredCache(now: int)
      modifies this`cache
      ensures cache == EvictExpired(old(cache), config.settings, now)
      ensures forall key :: key in cache
                            <==> key in old(cache)
                                 && !(config.settings.CacheEnabled() && old(cache)[key].expiresAt < now)
      ensures forall key :: key in cache ==> cache[key] == old(cache)[key]
      ensures "" !in old(cache) ==> "" !in cache
    {
      if !config.settings.CacheEnabled() {
        return;
      }
      var left := cache.Keys;
      while left != {}
        invariant left <= cache.Keys <= old(cache).Keys
        invariant forall k :: k in cache ==> cache[k] == old(cache)[k]
        invariant forall k :: k in old(cache) && k !in left ==> (k in cache <==> now <= old(cache)[k].expiresAt)
        decreases left
      {
        var cacheKey :| cacheKey in left;
        if now > cache[cacheKey].expiresAt {
          cache := cache - {cacheKey};
        }
        left := left - {cacheKey};
      }
    }

    // ----- answering -----

    /** recordResult and the send on the result channel. */
    method Answer(item: Pending, result: RequestResult, ghost origin: Origin)
      requires CoreReady()
      modifies this`counters, this`channels, this`core
      ensures CoreReady() && core == AgentModel.Answer(old(core), item, result, origin)
    {
      hide Buffers;
      BuffersAppend(core.outbox, Send(item, result, origin));
      if result.ok {
        counters := counters.(completed := counters.completed + 1);
      } else {
        counters := counters.(failed := counters.failed + 1);
      }
      channels := channels[item.channel := result];
      core := AgentModel.Answer(core, item, result, origin);
    }

    method AnswerDuplicates(duplicates: seq<Pending>, result: RequestResult, ghost origin: Origin)
      requires CoreReady()
      modifies this`counters, this`channels, this`core
      ensures CoreReady() && core == AgentModel.AnswerDuplicates(old(core), duplicates, result, origin)
    {
      hide CoreReady, AgentModel.Answer;
      for i := 0 to |duplicates|
        invariant CoreReady() && core == AgentModel.AnswerDuplicates(old(core), duplicates[..i], result, origin)
      {
        assert duplicates[..i + 1][..i] == duplicates[..i];
        Answer(duplicates[i], CloneFor(result, duplicates[i].request.requestID), origin);
      }
      assert duplicates[..|duplicates|] == duplicates;
    }

    method AnswerError(items: seq<Pending>, code: Code, message: Message)
      requires CoreReady()
      modifies this`counters, this`channels, this`core
      ensures CoreReady() && core == AgentModel.AnswerError(old(core), items, config.redaction, code, message)
    {
      hide CoreReady, ErrorResult, CodeText, MessageText, AgentModel.Answer;
      for i := 0 to |items|
        invariant CoreReady() && core == AgentModel.AnswerError(old(core), items[..i], config.redaction, code, message)
      {
        assert items[..i + 1][..i] == items[..i];
        Answer(items[i], ErrorResult(config.redaction, items[i].request.requestID, code, message), Local);
      }
      assert items[..|items|] == items;
    }

    // ----- choosing a chunk -----

    method PickBatchChunk(items: seq<Pending>) returns (chunk: seq<Pending>, remaining: seq<Pending>)
      requires CoreReady()
      modifies this`counters, this`channels, this`core
      ensures CoreReady() && Pick(core, chunk, remaining) == PickChunk(config, old(core), items)
    {
      hide CoreReady, ErrorResult, EstimatedSize, AgentModel.Answer;
      chunk, remaining := [], [];
      for i := 0 to |items|
        invariant CoreReady() && Pick(core, chunk, remaining) == PickChunk(config, old(core), items[..i])
      {
        assert items[..i + 1][..i] == items[..i];
        var item := items[i];
        if |chunk| >= config.settings.maxBatchRequests {
          remaining := remaining + [item];
          continue;
        }
        var candidate := chunk + [item];
        if EstimatedSize(Requests(candidate), config.settings) > config.settings.maxBatchBytes {
          if |chunk| == 0 {
            Answer(item, ErrorResult(config.redaction, item.request.requestID, BatchTooLarge, RequestTooBig), Local);
            continue;
          }
          remaining := remaining + [item];
          continue;
        }
        chunk := candidate;
      }
      assert items[..|items|] == items;
    }

    method RecordCacheHit()
      requires CoreReady()
      modifies this`counters, this`core
      ensures CoreReady()
      ensures core == old(core).(counters := old(core).counters.(cacheHits := old(core).counters.cacheHits + 1))
    {
      counters := counters.(cacheHits := counters.cacheHits + 1);
      core := core.(counters := counters);
    }

    method RecordDeduplicated()
      requires CoreReady()
      modifies this`counters, this`core
      ensures CoreReady()
      ensures core == old(core).(counters := old(core).counters.(deduplicated := old(core).counters.deduplicated + 1))
    {
      counters := counters.(deduplicated := counters.deduplicated + 1);
      core := core.(counters := counters);
    }

    /** A cache lookup on behalf of the chunk. */
    method LookUp(key: string, now: int) returns (found: Option<RequestResult>)
      requires CoreReady()
      modifies this`cache, this`core
      ensures CoreReady()
      ensures found == FindEntry(old(core).cache, config.settings, key, now)
      ensures core == old(core).(cache := AfterLookup(old(core).cache, config.settings, key, now))
      ensures found.Some? ==> core == old(core)
    {
      found := LoadCacheEntry(key, now);
      core := core.(cache := cache);
    }

    method PrepareDispatchUnits(items: seq<Pending>, now: int) returns (units: seq<Unit>, ghost index: map<string, nat>)
      requires CoreReady()
      modifies this`cache, this`counters, this`channels, this`core
      ensures CoreReady() && Prep(core, units, index) == Prepare(config, old(core), items, now)
    {
      hide CoreReady, CacheKey, Cacheable, FindEntry, AfterLookup, LastStore, AgentModel.Answer, Prepare;
      PrepareNothing(config, core, now);
      units := [];
      var dedupeIndex: map<string, nat> := map[];
      for i := 0 to |items|
        invariant CoreReady() && Prep(core, units, dedupeIndex) == Prepare(config, old(core), items[..i], now)
        invariant forall key :: key in dedupeIndex ==> dedupeIndex[key] < |units|
      {
        PrepareOn(config, old(core), items, i, now);
        var item := items[i];
        var cacheable := Cacheable(item.request);
        var key := CacheKey(item.request);
        if cacheable {
          var found := LookUp(key, now);
          if found.Some? {
            ghost var store, seen := LastStore(core.stores, key).GetOr(0), |core.stores|;
            RecordCacheHit();
            Answer(item, CloneFor(found.value, item.request.requestID), FromCache(store, now, seen));
            continue;
          }
          if key in dedupeIndex {
            var idx := dedupeIndex[key];
            units := units[idx := units[idx].(duplicates := units[idx].duplicates + [item])];
            RecordDeduplicated();
            continue;
          }
        }
        units := units + [Unit(item, [], if cacheable then key else "", cacheable)];
        if cacheable {
          dedupeIndex := dedupeIndex[key := |units| - 1];
        }
      }
      assert items[..|items|] == items;
      index := dedupeIndex;
    }

    // ----- failing and delivering -----

    /** recoverStaleForError and recoverStaleForMissing, once the error is known to allow it. */
    method RecoverStale(unit: Unit, at: int) returns (recovered: Option<RequestResult>)
      requires CoreReady()
      modifies this`counters, this`core
      ensures CoreReady()
      ensures recovered == AgentModel.RecoverStale(config, old(core), unit, at)
      ensures core == if recovered.Some? then CountFailOpen(old(core)) else old(core)
    {
      hide FindStale;
      if !config.settings.failOpen || !unit.cacheable {
        return None;
      }
      recovered := LoadStaleCacheEntry(unit.cacheKey, at);
      if recovered.Some? {
        counters := counters.(failOpenServed := counters.failOpenServed + 1);
        core := CountFailOpen(core);
      }
    }

    method FailUnits(units: seq<Unit>, code: Code, message: Message, times: seq<int>)
      requires CoreReady()
      modifies this`counters, this`channels, this`core
      ensures CoreReady() && core == AgentModel.FailUnits(config, old(core), units, code, message, times)
    {
      hide CoreReady, AgentModel.FailUnit;
      for i := 0 to |units|
        invariant CoreReady() && core == AgentModel.FailUnits(config, old(core), units[..i], code, message, times)
      {
        assert units[..i + 1][..i] == units[..i];
        FailUnit(units[i], code, message, TimeAt(times, i));
      }
      assert units[..|units|] == units;
    }

    method FailUnit(unit: Unit, code: Code, message: Message, at: int)
      requires CoreReady()
      modifies this`counters, this`channels, this`core
      ensures CoreReady() && core == AgentModel.FailUnit(config, old(core), unit, code, message, at)
    {
      hide CoreReady, ErrorResult, CodeText, MessageText, AgentModel.RecoverStale, AgentModel.AnswerDuplicates,
           AgentModel.Answer;
      var requestID := unit.primary.request.requestID;
      var stale: Option<RequestResult> := None;
      if Recoverable(code) {
        stale := RecoverStale(unit, at);
      }
      ghost var origin := if stale.Some? then FromStale(at) else Local;
      var primaryResult :=
        if stale.Some? then CloneFor(stale.value, requestID)
        else ErrorResult(config.redaction, requestID, code, Redacted(message));
      Answer(unit.primary, primaryResult, origin);
      AnswerDuplicates(unit.duplicates, primaryResult, origin);
    }

    method IndexResults(results: seq<RequestResult>) returns (resultByID: map<string, RequestResult>)
      ensures resultByID == ResultsByID(results)
    {
      assert ResultsByID(results[..0]) == map[];
      hide ResultsByID;
      resultByID := map[];
      for i := 0 to |results|
        invariant resultByID == ResultsByID(results[..i])
      {
        ResultsByIDStep(results, i);
        if results[i].requestID in resultByID {
          continue;
        }
        resultByID := resultByID[results[i].requestID := results[i]];
      }
      assert results[..|results|] == results;
    }

    /** The conditional store into the cache, with its entry in the history of stores. */
    method StoreResult(unit: Unit, result: RequestResult, ghost batch: nat, ghost raw: RequestResult,
                       ghost lookupAt: int, storeAt: int)
      returns (ghost hint: string)
      requires CoreReady()
      modifies this`cache, this`core
      ensures CoreReady()
      ensures core == AgentModel.StoreResult(config, old(core), unit, result, batch, raw,
                                             UnitEnv(lookupAt, storeAt, hint))
    {
      hide Buffers, StoreEntry, ShouldCache, Evicts;
      hint := "";
      if unit.cacheable && ShouldCache(result) {
        hint := StoreCacheEntry(unit.cacheKey, result, storeAt);
      }
      core := AgentModel.StoreResult(config, core, unit, result, batch, raw, UnitEnv(lookupAt, storeAt, hint));
    }

    method DeliverUnit(unit: Unit, resultByID: map<string, RequestResult>, ghost batch: nat, lookupAt: int,
                       storeAt: int)
      returns (ghost hint: string)
      requires CoreReady()
      modifies this`cache, this`counters, this`channels, this`core
      ensures CoreReady()
      ensures core == AgentModel.DeliverUnit(config, old(core), unit, resultByID, batch,
                                             UnitEnv(lookupAt, storeAt, hint))
    {
      hide CoreReady, ErrorResult, CodeText, MessageText, AgentModel.RecoverStale, AgentModel.AnswerDuplicates,
           AgentModel.Answer,
           AgentModel.StoreResult, Sanitize;
      var request := unit.primary.request;
      var primaryResult;
      ghost var origin := Local;
      if request.requestID in resultByID {
        primaryResult := resultByID[request.requestID];
        origin := FromBatch(batch, request, primaryResult);
      } else {
        var recovered := RecoverStale(unit, lookupAt);
        if recovered.Some? {
          primaryResult := CloneFor(recovered.value, request.requestID);
          origin := FromStale(lookupAt);
        } else {
          primaryResult := ErrorResult(config.redaction, request.requestID, ResultPackageNotFound, ResultMissing);
        }
      }
      ghost var raw := primaryResult;
      primaryResult := Sanitize(config.redaction, primaryResult);
      Answer(unit.primary, primaryResult, origin);
      hint := StoreResult(unit, CloneFor(primaryResult, request.requestID), batch, raw, lookupAt, storeAt);
      AnswerDuplicates(unit.duplicates, primaryResult, origin);
    }

    method DeliverUnits(units: seq<Unit>, resultByID: map<string, RequestResult>, ghost batch: nat,
                        readings: seq<Readings>)
      returns (ghost env: seq<UnitEnv>)
      requires CoreReady() && |readings| == |units|
      modifies this`cache, this`counters, this`channels, this`core
      ensures CoreReady() && Read(readings, env)
      ensures core == AgentModel.DeliverUnits(config, old(core), units, resultByID, batch, env)
    {
      hide CoreReady, AgentModel.DeliverUnit;
      env := [];
      for i := 0 to |units|
        invariant CoreReady() && Read(readings[..i], env)
        invariant core == AgentModel.DeliverUnits(config, old(core), units[..i], resultByID, batch, env)
      {
        assert units[..i + 1][..i] == units[..i];
        ghost var hint := DeliverUnit(units[i], resultByID, batch, readings[i].lookupAt, readings[i].storeAt);
        ghost var next := UnitEnv(readings[i].lookupAt, readings[i].storeAt, hint);
        DeliverUnitsEnv(config, old(core), units[..i], resultByID, batch, env, next);
        env := env + [next];
      }
      assert units[..|units|] == units && readings[..|units|] == readings;
    }

    // ----- Submit -----

    method RecordLocalRejection()
      requires CoreReady()
      modifies this`counters, this`core
      ensures CoreReady() && core == Rejected(old(core))
    {
      counters := counters.(localRejected := counters.localRejected + 1, failed := counters.failed + 1);
      core := Rejected(core);
    }

    /** backpressureState */
    method BackpressureState(now: int) returns (active: bool)
      modifies this`backpressureUntil
      ensures active <==> old(backpressureUntil) != 0 && now < old(backpressureUntil)
      ensures backpressureUntil == if old(backpressureUntil) != 0 && now >= old(backpressureUntil) then 0
                                     else old(backpressureUntil)
    {
      if backpressureUntil == 0 {
        return false;
      }
      if now >= backpressureUntil {
        backpressureUntil := 0;
        return false;
      }
      return true;
    }

    /** Whether a submission passes classification and backpressure. */
    method MayQueue(verdict: Option<ResultError>, at: int) returns (admitted: bool)
      modifies this`backpressureUntil
      ensures admitted
              <==> verdict.None? && !(old(backpressureUntil) != 0 && at < old(backpressureUntil))
      ensures backpressureUntil == if verdict.None? && old(backpressureUntil) != 0 && at >= old(backpressureUntil)
                                     then 0 else old(backpressureUntil)
    {
      if verdict.Some? {
        return false;
      }
      var active := BackpressureState(at);
      return !active;
    }

    /** Submit up to the queue: classification and backpressure. */
    method CheckSubmission(item: RequestItem, verdict: Option<ResultError>, at: int) returns (admitted: bool)
      requires Ready()
      modifies this`clock, this`counters, this`backpressureUntil, this`offered, this`model, this`core
      ensures Ready() && model == CheckStep(old(model), item, verdict, at)
      ensures admitted <==> Admitted(old(model), verdict, at)
    {
      hide CoreReady, CheckStep, Rejected, Later;
      CheckParts(model, item, verdict, at);
      model := CheckStep(model, item, verdict, at);
      clock := Later(clock, at);
      admitted := MayQueue(verdict, at);
      if admitted {
        offered := offered + [item];
      } else {
        RecordLocalRejection();
      }
    }

    /** Submit's send on the queue, which never waits: a full queue rejects. */
    method Enqueue(offer: nat) returns (channel: Option<nat>)
      requires Ready() && offer < |offered|
      modifies this`queue, this`counters, this`nextChannel, this`offered, this`unrecorded, this`model, this`core
      ensures Ready() && model == EnqueueStep(config, old(model), offer)
      ensures channel.Some? ==> model.accepted == old(model).accepted + [Pending(old(offered)[offer], channel.value)]
    {
      hide CoreReady, EnqueueStep, Rejected;
      EnqueueParts(config, model, offer);
      model := EnqueueStep(config, model, offer);
      var item := offered[offer];
      offered := offered[..offer] + offered[offer + 1..];
      if |queue| < config.settings.maxQueueRequests {
        channel := Some(nextChannel);
        queue := queue + [Pending(item, nextChannel)];
        nextChannel := nextChannel + 1;
        unrecorded := unrecorded + 1;
      } else {
        channel := None;
        RecordLocalRejection();
      }
    }

    method RecordSubmitted()
      requires Ready() && unrecorded > 0
      modifies this`counters, this`unrecorded, this`model, this`core
      ensures Ready() && model == RecordStep(old(model))
    {
      model := RecordStep(model);
      counters := counters.(submitted := counters.submitted + 1);
      core := core.(counters := counters);
      unrecorded := unrecorded - 1;
    }

    // ----- Run -----

    /** Run takes a request off the queue. */
    method Receive()
      requires Ready() && queue != []
      modifies this`queue, this`pending, this`pendingInBatchBuffer, this`model
      ensures Ready() && model == ReceiveStep(old(model))
    {
      model := ReceiveStep(model);
      pending := pending + [queue[0]];
      queue := queue[1..];
      pendingInBatchBuffer := |pending|;
    }

    /** The context is done: Run answers what it had buffered and returns. */
    method Stop()
      requires Ready()
      modifies this`pending, this`pendingInBatchBuffer, this`phase, this`counters, this`channels, this`model, this`core
      ensures Ready() && model == StopStep(config, old(model))
    {
      hide CoreReady, AgentModel.AnswerError;
      model := StopStep(config, model);
      AnswerError(pending, WorkerError, AgentStopped);
      pending := [];
      pendingInBatchBuffer := 0;
      phase := Stopped;
    }

    /** A tick up to its look at backpressure: the clock reading, which is kept, and the eviction. */
    method Tick(tickAt: int)
      requires Ready() && phase.Idle?
      modifies this`clock, this`cache, this`phase, this`model, this`core
      ensures Ready() && model == TickStep(config, old(model), tickAt)
    {
      hide Buffers, EvictExpired;
      clock := tickAt;
      EvictExpiredCache(tickAt);
      if |pending| != 0 {
        phase := Ticking(tickAt);
      }
      core := core.(cache := cache);
      model := TickStep(config, model, tickAt);
    }

    /** The rest of a tick, from the lock that backpressureState takes; other goroutines may have had it meanwhile. */
    method Proceed(event: Event)
      requires Ready() && phase.Ticking? && event.Proceed?
      modifies this
      ensures Ready() && model == ProceedStep(config, old(model), event)
    {
      assert model.phase == phase;
      hide Ready, AgentModel.AnswerError, Picked, ProceedStep;
      ProceedParts(config, model, event);
      var active := Look(event.startAt);
      if active {
        RejectPending();
      } else {
        DispatchPending(event);
      }
    }

    method Look(startAt: int) returns (active: bool)
      requires Ready() && phase.Ticking?
      modifies this`clock, this`phase, this`backpressureUntil, this`model
      ensures Ready() && phase.Idle?
      ensures var ready := old(model).(clock := startAt, phase := Idle); var readAt := old(phase).readAt;
              && model == AfterBackpressureCheck(ready, readAt) && (active <==> BackpressureActive(ready, readAt))
      ensures old(model).phase == old(phase)
    {
      hide CoreReady;
      var now := phase.readAt;
      clock, phase := startAt, Idle;
      active := BackpressureState(now);
      model := AfterBackpressureCheck(model.(clock := startAt, phase := Idle), now);
    }

    /** rejectPendingForBackpressure */
    method RejectPending()
      requires Ready()
      modifies this`pending, this`pendingInBatchBuffer, this`counters, this`channels, this`model, this`core
      ensures Ready()
      ensures model == old(model).(
                core := AgentModel.AnswerError(old(model).core, old(model).pending, config.redaction, RunDelayed,
                                               RunStartDelayed),
                pending := [], pendingInBatchBuffer := 0)
    {
      hide CoreReady, AgentModel.AnswerError;
      AnswerError(pending, RunDelayed, RunStartDelayed);
      pending := [];
      pendingInBatchBuffer := 0;
      model := model.(core := core, pending := [], pendingInBatchBuffer := 0);
    }

    method DispatchPending(event: Event)
      requires Ready() && phase.Idle? && event.Proceed?
      modifies this
      ensures Ready() && model == Picked(config, old(model), event)
    {
      hide CoreReady, PickChunk, AgentModel.BeginDispatch;
      var chunk, remaining := PickBatchChunk(pending);
      pending := remaining;
      pendingInBatchBuffer := |pending|;
      model := model.(core := core, pending := pending, pendingInBatchBuffer := pendingInBatchBuffer);
      if |chunk| == 0 {
        return;
      }
      BeginDispatch(chunk, event);
    }

    /** dispatchBatch up to the dispatcher call. */
    method BeginDispatch(chunk: seq<Pending>, event: Event)
      requires Ready() && phase.Idle? && event.Proceed?
      modifies this
      ensures Ready()
      ensures model == AgentModel.BeginDispatch(config, old(model), chunk, event.prepareAt, event.startAt,
                                                event.batchID,
                                                event.sentAt, event.times)
    {
      hide CoreReady, Prepare, AgentModel.BeginDispatch, Launched;
      BeginDispatchParts(config, model, chunk, event);
      var units, index := PrepareDispatchUnits(chunk, event.prepareAt);
      model := model.(core := core, chunked := model.chunked + |chunk|);
      if |units| == 0 {
        return;
      }
      Launch(units, event);
    }

    method RecordBatchDispatched(requestCount: nat)
      requires CoreReady()
      modifies this`counters, this`dispatchInFlight, this`core
      ensures CoreReady() && dispatchInFlight
      ensures core == old(core).(counters := old(core).counters.(
                        dispatchedBatches := old(core).counters.dispatchedBatches + 1,
                        dispatchedRequests := old(core).counters.dispatchedRequests + requestCount))
    {
      dispatchInFlight := true;
      counters := counters.(
        dispatchedBatches := counters.dispatchedBatches + 1, dispatchedRequests := counters.dispatchedRequests
          + requestCount);
      core := core.(counters := counters);
    }

    /** The checks that a batch passes before it is sent; a batch that fails one has its requests answered. */
    method ScreenBatch(batch: RequestBatch, units: seq<Unit>, times: seq<int>) returns (passed: bool)
      requires CoreReady()
      modifies this`counters, this`channels, this`core
      ensures CoreReady() && (passed <==> Sendable(config, batch))
      ensures core == Screened(config, old(core), batch, units, times)
    {
      hide CoreReady, AgentModel.FailUnits, BatchOK, PreambleOK, ItemOK, BatchSizeBytes;
      var invalid := ValidateRequestBatch(batch, config.validTime);
      if invalid.Some? {
        FailUnits(units, WorkerError, BatchInvalid, times);
        return false;
      }
      if BatchSizeBytes(batch) > config.settings.maxBatchBytes {
        FailUnits(units, BatchTooLarge, BatchTooBig, times);
        return false;
      }
      return true;
    }

    method Launch(units: seq<Unit>, event: Event)
      requires Ready() && phase.Idle? && event.Proceed?
      modifies this
      ensures Ready() && model == Launched(config, old(model), units, event)
    {
      hide CoreReady, Screened, Sendable;
      var requests, ids := CollectRequests(units);
      var batch := MakeBatch(requests, config.settings, event.batchID, event.sentAt);
      model := Launched(config, model, units, event);
      var passed := ScreenBatch(batch, units, event.times);
      if passed {
        RecordBatchDispatched(|units|);
        phase, batchID, requestIDs := InFlight(units), event.batchID, ids;
      }
    }

    method CollectRequests(units: seq<Unit>) returns (requests: seq<RequestItem>, ids: seq<string>)
      ensures requests == Primaries(units) && ids == RequestIDs(requests)
    {
      requests, ids := [], [];
      for i := 0 to |units|
        invariant requests == Primaries(units[..i]) && ids == RequestIDs(requests)
      {
        requests := requests + [units[i].primary.request];
        ids := ids + [units[i].primary.request.requestID];
      }
      assert requests == Primaries(units);
    }

    /** dispatchBatch from the dispatcher's return. */
    method Return(reply: Reply, returnAt: int, endAt: int, readings: seq<Readings>) returns (ghost env: seq<UnitEnv>)
      requires Ready() && phase.InFlight? && |readings| == |phase.units|
      modifies this
      ensures Ready() && Read(readings, env)
      ensures old(model).dispatches != []
              && model == ReturnStep(config, old(model), Event.Return(reply, returnAt, endAt, env))
    {
      hide CoreReady, Settled, ReturnStep, RefusedStart, Read;
      env := Settle(reply, returnAt, readings);
      clock, phase := endAt, Idle;
      ghost var event := Event.Return(reply, returnAt, endAt, env);
      ReturnParts(config, model, event);
      model := ReturnStep(config, model, event);
    }

    method Settle(reply: Reply, returnAt: int, readings: seq<Readings>) returns (ghost env: seq<UnitEnv>)
      requires CoreReady() && FlightLocals() && phase == model.phase && phase.InFlight? && |readings| == |phase.units|
      modifies this`cache, this`counters, this`channels, this`core, this`dispatchInFlight, this`backpressureUntil
      ensures CoreReady() && Read(readings, env) && !dispatchInFlight
      ensures backpressureUntil == if RefusedStart(reply) then returnAt + config.settings.backpressureCooldown
                                     else old(backpressureUntil)
      ensures core == Settled(config, old(core), phase.units, model.dispatches, reply, env)
    {
      hide CoreReady, AgentModel.FailUnits, AgentModel.DeliverUnits, Accepted, ResultsByID, IsRunDelayed;
      var units := phase.units;
      env := seq(|readings|, i requires 0 <= i < |readings| => UnitEnv(readings[i].lookupAt, readings[i].storeAt, ""));
      assert Times(env) == Lookups(readings);
      dispatchInFlight := false;
      match reply
      case Failure(message) =>
        if IsRunDelayed(message) {
          backpressureUntil := returnAt + config.settings.backpressureCooldown;
        }
        FailUnits(units, if IsRunDelayed(message) then RunDelayed else DispatchFailed, Reason(message),
                  Lookups(readings));
      case Package(pkg) =>
        var refused := VerifyResultPackageForBatch(pkg, batchID, requestIDs);
        if refused.Some? {
          FailUnits(units, ResultPackageNotFound, VerificationFailed, Lookups(readings));
          return;
        }
        var resultByID := IndexResults(pkg.results);
        env := DeliverUnits(units, resultByID, |model.dispatches| - 1, readings);
    }
  }
}
