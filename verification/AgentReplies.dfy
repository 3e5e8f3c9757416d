/** What callers are told when their request fails, in the codes and texts that they see, and what each such event does
    to the rest of the agent. */
module AgentReplies {
  import opened Text
  import opened Protocol
  import opened Validation
  import opened Wire
  import opened AgentModel
  import opened AgentLedger
  import opened AgentCache
  import opened AgentOrigins
  import opened AgentRuns
  import opened AgentTheorems
  import opened Outage
  import opened Chunk
  import opened AgentRetention
  import Backpressure = AgentBackpressure

  /** The caller gets an error of the agent's own with this code and message. */
  ghost predicate Told(send: Send, code: string, message: string) {
    && send.origin.Local?
    && send.result == RequestResult(send.item.request.requestID, false, None, Some(ResultError(code, message)))
  }

  /** From one core to the other exactly these requests were told so, and nothing else changed but counters. */
  ghost predicate AllTold(before: Core, after: Core, items: multiset<Pending>, code: string, message: string) {
    && before.outbox <= after.outbox && after.cache == before.cache && after.stores == before.stores
    && multiset(Sent(after.outbox)) == multiset(Sent(before.outbox)) + items
    && forall i :: |before.outbox| <= i < |after.outbox| ==> Told(after.outbox[i], code, message)
  }

  /** Nothing but what a dispatch concerns is touched. */
  ghost predicate Untouched(a: State, b: State) {
    a.queue == b.queue && a.pending == b.pending && a.accepted == b.accepted && a.offered == b.offered
  }

  ghost predicate SaysDelayed(message: string) {
    exists i :: SaysDelayedAt(message, i)
  }

  predicate SaysDelayedAt(message: string, i: int) {
    0 <= i <= |message| - 11 && message[i..i + 11] == "RUN_DELAYED"
  }

  lemma {:induction false} DelayedIsLiteral(message: string)
    ensures IsRunDelayed(message) <==> SaysDelayed(message)
  {
    assert |CodeText(RunDelayed)| == 11;
    if IsRunDelayed(message) {
      var i :| 0 <= i <= |message| && OccursAt(message, CodeText(RunDelayed), i);
      assert SaysDelayedAt(message, i);
    }
    if SaysDelayed(message) {
      var i :| SaysDelayedAt(message, i);
      assert OccursAt(message, CodeText(RunDelayed), i);
    }
  }

  lemma {:induction false} ErrorsTold(config: Config, before: Core, after: Core, items: multiset<Pending>, code: Code,
                                      message: Message, text: string)
    requires before.outbox <= after.outbox && after.cache == before.cache && after.stores == before.stores
    requires multiset(Sent(after.outbox)) == multiset(Sent(before.outbox)) + items
    requires forall i :: |before.outbox| <= i < |after.outbox| ==> IsError(config, after.outbox[i], code, message)
    requires text == config.redaction.text(MessageText(config.redaction, message))
    ensures AllTold(before, after, items, CodeText(code), text)
  {
    hide CodeText, MessageText, Sent;
    forall i | |before.outbox| <= i < |after.outbox| ensures Told(after.outbox[i], CodeText(code), text) {
      assert IsError(config, after.outbox[i], code, message);
    }
  }

  lemma {:induction false} UnitsTold(config: Config, before: Core, units: seq<Unit>, code: Code, message: Message,
                                     times: seq<int>, text: string)
    requires KeysAbsent(units, before.cache) && text == MessageText(config.redaction, message)
    ensures AllTold(before, FailUnits(config, before, units, code, message, times), UnitItems(units), CodeText(code),
                    config.redaction.text(config.redaction.text(text)))
  {
    FailUnitsErrors(config, before, units, code, message, times);
    FailUnitsLedger(config, before, units, code, message, times);
    RedactedText(config.redaction, message);
    hide FailUnits, IsError, Ledger, UnitItems, CodeText, MessageText;
    var after := FailUnits(config, before, units, code, message, times);
    TakeLedger(before, after, UnitItems(units));
    ErrorsTold(config, before, after, UnitItems(units), code, Redacted(message),
               config.redaction.text(config.redaction.text(text)));
  }

  lemma {:induction false} TakeLedger(a: Core, b: Core, items: multiset<Pending>)
    requires Ledger(a, b, items)
    ensures multiset(Sent(b.outbox)) == multiset(Sent(a.outbox)) + items
  {
  }

  lemma {:induction false} RedactedText(redaction: Redaction, message: Message)
    ensures MessageText(redaction, Redacted(message)) == redaction.text(MessageText(redaction, message))
  {
  }

  lemma {:induction false} ItemsTold(config: Config, before: Core, items: seq<Pending>, code: Code, message: Message,
                                     text: string)
    requires text == MessageText(config.redaction, message)
    ensures AllTold(before, AnswerError(before, items, config.redaction, code, message), multiset(items),
                    CodeText(code), config.redaction.text(text))
    ensures Sent(AnswerError(before, items, config.redaction, code, message).outbox) == Sent(before.outbox) + items
  {
    AnswerErrorSends(config, before, items, code, message);
    AnswerErrorKeeps(config, before, items, code, message);
    hide AnswerError, IsError, CodeText, MessageText;
    var after := AnswerError(before, items, config.redaction, code, message);
    assert multiset(Sent(before.outbox) + items) == multiset(Sent(before.outbox)) + multiset(items);
    ErrorsTold(config, before, after, multiset(items), code, message, config.redaction.text(text));
  }

  lemma {:induction false} AnswerErrorKeeps(config: Config, core: Core, items: seq<Pending>, code: Code,
                                            message: Message)
    ensures var after := AnswerError(core, items, config.redaction, code, message);
            after.cache == core.cache && after.stores == core.stores
  {
    hide ErrorResult;
    if items != [] {
      AnswerErrorKeeps(config, core, items[..|items| - 1], code, message);
    }
  }

  // ----- the dispatcher's errors -----

  lemma {:induction false} InFlightFacts(config: Config, state: State)
    requires Inv(config, state) && state.phase.InFlight?
    ensures KeysAbsent(state.phase.units, state.core.cache) && state.dispatches != []
    ensures state.dispatches[|state.dispatches| - 1].units == state.phase.units
  {
    hide Flow, GaugesOK, Calls, CoreOK, UnitsOK;
  }

  /** A dispatch that fails: every request of the batch is told once, RUN_DELAYED if the dispatcher's error says that
      anywhere and DISPATCH_FAILED otherwise, with that error as the redacted message. Backpressure is activated in the
      first case, and left as it was in the second. */
  lemma {:induction false} FailureSettled(config: Config, start: int, events: seq<Event>, state: State, event: Event)
    requires config.settings.Valid() && start >= 0 && LeadsTo(config, start, events, state)
    requires Enabled(config, state, event) && event.Return? && event.reply.Failure?
    ensures var after, message, redact := Next(config, state, event), event.reply.message, config.redaction.text;
            && Untouched(state, after) && after.phase.Idle? && after.clock == event.endAt
            && AllTold(state.core, after.core, UnitItems(state.dispatches[|state.dispatches| - 1].units),
                       if SaysDelayed(message) then "RUN_DELAYED" else "DISPATCH_FAILED", redact(redact(message)))
            && after.backpressureUntil == (if SaysDelayed(message)
                                           then event.returnAt + config.settings.backpressureCooldown
                                           else state.backpressureUntil)
            && after.activations == if SaysDelayed(message)
                                    then state.activations + [Activation(event.returnAt, |state.dispatches|)]
                                    else state.activations
  {
    hide IsRun, After, Inv, FailUnits, AllTold, IsRunDelayed, SaysDelayed, UnitItems;
    var message := event.reply.message;
    RunInv(config, start, events);
    InFlightFacts(config, state);
    DelayedIsLiteral(message);
    var code := if IsRunDelayed(message) then RunDelayed else DispatchFailed;
    UnitsTold(config, state.core, state.phase.units, code, Reason(message), Times(event.env), message);
  }

  /** A package that the verification refuses: every request of the batch is told RESULT_PACKAGE_NOT_FOUND once, and
      nothing is cached. */
  lemma {:induction false} RefusalSettled(config: Config, start: int, events: seq<Event>, state: State, event: Event)
    requires config.settings.Valid() && start >= 0 && LeadsTo(config, start, events, state)
    requires Enabled(config, state, event) && event.Return? && event.reply.Package? && state.dispatches != []
    requires var batch := state.dispatches[|state.dispatches| - 1].batch;
             !Accepted(event.reply.pkg, batch.batchID, RequestIDs(batch.requests))
    ensures var after, redact := Next(config, state, event), config.redaction.text;
            && Untouched(state, after) && after.phase.Idle? && after.clock == event.endAt
            && AllTold(state.core, after.core, UnitItems(state.dispatches[|state.dispatches| - 1].units),
                       "RESULT_PACKAGE_NOT_FOUND", redact(redact("result package verification failed")))
            && after.backpressureUntil == state.backpressureUntil && after.activations == state.activations
  {
    hide IsRun, After, Inv, FailUnits, AllTold, Accepted, UnitItems;
    RunInv(config, start, events);
    InFlightFacts(config, state);
    UnitsTold(config, state.core, state.phase.units, ResultPackageNotFound, VerificationFailed, Times(event.env),
              "result package verification failed");
  }

  // ----- the agent's own errors -----

  /** Run stops: every buffered request is told WORKER_ERROR, in order of arrival. */
  lemma {:induction false} StopSettled(config: Config, state: State)
    requires Enabled(config, state, Stop)
    ensures var after := Next(config, state, Stop);
            && AllTold(state.core, after.core, multiset(state.pending), "WORKER_ERROR",
                       config.redaction.text("agent stopped before dispatch"))
            && Sent(after.core.outbox) == Sent(state.core.outbox) + state.pending
            && after.pending == [] && after.queue == state.queue && after.phase.Stopped?
  {
    hide AnswerError, AllTold;
    ItemsTold(config, state.core, state.pending, WorkerError, AgentStopped, "agent stopped before dispatch");
  }

  /** A tick under backpressure: every buffered request is told RUN_DELAYED, in order of arrival. */
  lemma {:induction false} RejectionSettled(config: Config, state: State, event: Event)
    requires Enabled(config, state, event) && event.Proceed?
    requires state.backpressureUntil != 0 && state.phase.readAt < state.backpressureUntil
    ensures var after := Next(config, state, event);
            && AllTold(state.core, after.core, multiset(state.pending), "RUN_DELAYED",
                       config.redaction.text("GitHub Actions run start delayed"))
            && Sent(after.core.outbox) == Sent(state.core.outbox) + state.pending
            && after.pending == [] && after.queue == state.queue && after.dispatches == state.dispatches
            && after.phase.Idle? && after.backpressureUntil == state.backpressureUntil
  {
    hide AnswerError, AllTold, PickChunk, BeginDispatch;
    ItemsTold(config, state.core, state.pending, RunDelayed, RunStartDelayed, "GitHub Actions run start delayed");
  }

  // ----- a tick that goes on -----

  lemma {:induction false} PickErrors(config: Config, core: Core, pending: seq<Pending>)
    ensures var after := PickChunk(config, core, pending).core;
            && core.outbox <= after.outbox && after.cache == core.cache && after.stores == core.stores
            && forall i :: |core.outbox| <= i < |after.outbox|
                 ==> IsError(config, after.outbox[i], BatchTooLarge, RequestTooBig)
  {
    hide ErrorResult, EstimatedSize;
    if pending != [] {
      PickErrors(config, core, pending[..|pending| - 1]);
    }
  }

  /** The choice of a chunk: only requests that are too large alone are told so; the chunk and what stays keep their
      order. */
  ghost predicate Picked(config: Config, state: State, fates: seq<Fate>, picked: Core) {
    && |fates| == |state.pending|
    && var chunk := Select(state.pending, fates, Taken);
       && FatesOK(config, Pick(picked, chunk, Select(state.pending, fates, Left)), state.pending, fates)
       && ChunkOK(config, chunk)
       && AllTold(state.core, picked, multiset(Select(state.pending, fates, Refused)), "BATCH_TOO_LARGE",
                  config.redaction.text("request exceeds max batch bytes"))
  }

  lemma {:induction false} PickSettled(config: Config, state: State) returns (fates: seq<Fate>)
    requires config.settings.Valid()
    ensures var pick := PickChunk(config, state.core, state.pending);
            && Picked(config, state, fates, pick.core)
            && pick.chunk == Select(state.pending, fates, Taken) && pick.remaining == Select(state.pending, fates, Left)
  {
    hide PickChunk, FatesOK, ChunkOK, IsError;
    fates := PickFates(config, state.core, state.pending);
    var pick := PickChunk(config, state.core, state.pending);
    var refused := Select(state.pending, fates, Refused);
    PickErrors(config, state.core, state.pending);
    assert multiset(Sent(state.core.outbox) + refused) == multiset(Sent(state.core.outbox)) + multiset(refused);
    ErrorsTold(config, state.core, pick.core, multiset(refused), BatchTooLarge, RequestTooBig,
               config.redaction.text("request exceeds max batch bytes"));
  }

  /** What becomes of the units of a prepared chunk. */
  ghost predicate Launched(config: Config, state: State, prep: Prep, event: Event, after: State, batch: RequestBatch)
    requires event.Proceed?
  {
    var settings, redact, units := config.settings, config.redaction.text, prep.units;
    var valid := BatchOK(batch, config.validTime);
    && Composed(batch, Primaries(units), settings, event.batchID, event.sentAt)
    && if units != [] && valid && BatchSizeBytes(batch) <= settings.maxBatchBytes then
         && after.dispatches == state.dispatches + [Dispatch(batch, units, event.startAt, None)]
         && after.phase == InFlight(units) && after.dispatchInFlight
         && after.core.outbox == prep.core.outbox && after.core.cache == prep.core.cache
         && after.core.stores == prep.core.stores
       else
         && after.dispatches == state.dispatches && after.phase.Idle?
         && AllTold(prep.core, after.core, UnitItems(units), if valid then "BATCH_TOO_LARGE" else "WORKER_ERROR",
                    redact(redact(if valid then "request batch exceeds max bytes"
                                  else "request batch validation failed")))
  }

  lemma {:induction false} NothingTold(core: Core, code: string, message: string)
    ensures AllTold(core, core, UnitItems([]), code, message)
  {
  }

  lemma {:induction false} BeginSettled(config: Config, state: State, chunk: seq<Pending>, event: Event)
    returns (batch: RequestBatch)
    requires config.settings.Valid() && event.Proceed? && state.phase.Idle?
    requires config.settings.CacheEnabled() || state.core.cache == map[]
    ensures var prep := Prepare(config, state.core, chunk, event.prepareAt);
            var after := BeginDispatch(config, state, chunk, event.prepareAt, event.startAt, event.batchID,
                                       event.sentAt, event.times);
            && Launched(config, state, prep, event, after, batch)
            && Untouched(state, after) && after.clock == state.clock && after.activations == state.activations
            && after.backpressureUntil == state.backpressureUntil
  {
    hide Prepare, FailUnits, BatchOK, BatchSizeBytes, MakeBatch, Composed, AllTold, UnitItems, UnitsOK, IndexOK,
         KeysAbsent, SameLookups, CodeText, MessageText;
    var prep := Prepare(config, state.core, chunk, event.prepareAt);
    batch := MakeBatch(Primaries(prep.units), config.settings, event.batchID, event.sentAt);
    MakesComposed(Primaries(prep.units), config.settings, event.batchID, event.sentAt);
    PrepareGroups(config, state.core, chunk, event.prepareAt);
    var redact := config.redaction.text;
    if prep.units == [] {
      NothingTold(prep.core, "WORKER_ERROR", redact(redact("request batch validation failed")));
      NothingTold(prep.core, "BATCH_TOO_LARGE", redact(redact("request batch exceeds max bytes")));
    } else if !BatchOK(batch, config.validTime) {
      InvalidTold(config, prep.core, prep.units, event.times);
    } else if BatchSizeBytes(batch) > config.settings.maxBatchBytes {
      TooLargeTold(config, prep.core, prep.units, event.times);
    }
  }

  lemma {:induction false} InvalidTold(config: Config, core: Core, units: seq<Unit>, times: seq<int>)
    requires KeysAbsent(units, core.cache)
    ensures var redact := config.redaction.text;
            AllTold(core, FailUnits(config, core, units, WorkerError, BatchInvalid, times), UnitItems(units),
                    "WORKER_ERROR", redact(redact("request batch validation failed")))
  {
    hide FailUnits, AllTold, KeysAbsent, UnitItems;
    UnitsTold(config, core, units, WorkerError, BatchInvalid, times, "request batch validation failed");
  }

  lemma {:induction false} TooLargeTold(config: Config, core: Core, units: seq<Unit>, times: seq<int>)
    requires KeysAbsent(units, core.cache)
    ensures var redact := config.redaction.text;
            AllTold(core, FailUnits(config, core, units, BatchTooLarge, BatchTooBig, times), UnitItems(units),
                    "BATCH_TOO_LARGE", redact(redact("request batch exceeds max bytes")))
  {
    hide FailUnits, AllTold, KeysAbsent, UnitItems;
    UnitsTold(config, core, units, BatchTooLarge, BatchTooBig, times, "request batch exceeds max bytes");
  }

  /** A tick that backpressure does not stop: it chooses a chunk, answers from the cache what it can, and dispatches the
      rest as one batch made of the settings, unless that batch is invalid or too large; then its requests are told. */
  lemma {:induction false} ProceedSettled(config: Config, start: int, events: seq<Event>, state: State, event: Event)
    returns (fates: seq<Fate>, picked: Core, batch: RequestBatch)
    requires config.settings.Valid() && start >= 0 && LeadsTo(config, start, events, state)
    requires Enabled(config, state, event) && event.Proceed?
    requires state.backpressureUntil == 0 || state.backpressureUntil <= state.phase.readAt
    ensures Picked(config, state, fates, picked)
    ensures var after, chunk := Next(config, state, event), Select(state.pending, fates, Taken);
            && after.pending == Select(state.pending, fates, Left) && after.queue == state.queue
            && after.accepted == state.accepted && after.offered == state.offered && after.clock == event.startAt
            && after.backpressureUntil == 0 && after.activations == state.activations
            && if chunk == [] then after.core == picked && after.dispatches == state.dispatches && after.phase.Idle?
               else Launched(config, state, Prepare(config, picked, chunk, event.prepareAt), event, after, batch)
  {
    hide IsRun, After, Inv, PickChunk, BeginDispatch, Picked, Launched, Prepare, AllTold;
    RunInv(config, start, events);
    Backpressure.CacheOff(config, state);
    fates := PickSettled(config, state);
    var pick := PickChunk(config, state.core, state.pending);
    picked := pick.core;
    PickedCache(config, state);
    var checked := AfterBackpressureCheck(state.(clock := event.startAt, phase := Idle), state.phase.readAt);
    var going := checked.(core := pick.core, pending := pick.remaining, pendingInBatchBuffer := |pick.remaining|);
    batch := BeginSettled(config, going, pick.chunk, event);
    LaunchedFrame(config, going, state, Prepare(config, picked, pick.chunk, event.prepareAt), event,
                  BeginDispatch(config, going, pick.chunk, event.prepareAt, event.startAt, event.batchID, event.sentAt,
                                event.times), batch);
  }

  lemma {:induction false} LaunchedFrame(config: Config, a: State, b: State, prep: Prep, event: Event, after: State,
                                         batch: RequestBatch)
    requires event.Proceed? && Launched(config, a, prep, event, after, batch) && a.dispatches == b.dispatches
    ensures Launched(config, b, prep, event, after, batch)
  {
    hide BatchOK, BatchSizeBytes, Composed, AllTold, UnitItems;
  }

  lemma {:induction false} PickedCache(config: Config, state: State)
    ensures PickChunk(config, state.core, state.pending).core.cache == state.core.cache
  {
    PickErrors(config, state.core, state.pending);
  }

  // ----- answers from the cache -----

  /** The log of stores answers this request: it is a GET or a HEAD without a body, and its key is alive. */
  ghost predicate AliveFor(config: Config, stores: seq<Store>, request: RequestItem, now: int) {
    && request.httpMethod in {"GET", "HEAD"} && (request.body.Some? ==> request.body.value.data == "")
    && config.settings.cacheTTL > 0 && config.settings.cacheMaxEntries > 0
    && Alive(config.settings, stores, CacheKey(request), now)
  }

  ghost function AliveItems(config: Config, stores: seq<Store>, items: seq<Pending>, now: int): seq<Pending> {
    if items == [] then []
    else
      var last := |items| - 1;
      AliveItems(config, stores, items[..last], now)
      + if AliveFor(config, stores, items[last].request, now) then [items[last]] else []
  }

  ghost predicate FromLastStore(send: Send, stores: seq<Store>) {
    var last := LastStore(stores, CacheKey(send.item.request));
    && last.Some? && send.origin.FromCache? && send.origin.store == last.value
    && send.result == stores[last.value].result.(requestID := send.item.request.requestID)
  }

  lemma {:induction false} AliveIsFresh(config: Config, start: int, events: seq<Event>, state: State,
                                        request: RequestItem, now: int)
    requires config.settings.Valid() && LeadsTo(config, start, events, state) && state.clock <= now
    ensures Fresh(config.settings, state.core.cache, request, now)
            <==> AliveFor(config, state.core.stores, request, now)
    ensures Fresh(config.settings, state.core.cache, request, now) ==>
              var last := LastStore(state.core.stores, CacheKey(request));
              last.Some? && FindEntry(state.core.cache, config.settings, CacheKey(request), now)
                            == Some(state.core.stores[last.value].result)
  {
    hide LeadsTo, FindEntry, LastStore, EvictedSince, KeyText;
    if CacheKey(request) != "" {
      CacheAnswers(config, start, events, state, CacheKey(request), now);
    }
  }

  lemma {:induction false} HitsAreAlive(config: Config, start: int, events: seq<Event>, state: State,
                                        items: seq<Pending>, now: int)
    requires config.settings.Valid() && LeadsTo(config, start, events, state) && state.clock <= now
    ensures Hits(config.settings, state.core.cache, items, now) == AliveItems(config, state.core.stores, items, now)
  {
    hide LeadsTo, Fresh, AliveFor;
    if items != [] {
      var last := |items| - 1;
      HitsAreAlive(config, start, events, state, items[..last], now);
      AliveIsFresh(config, start, events, state, items[last].request, now);
    }
  }

  /** Every send that preparing a chunk makes carries what the cache found for its request. */
  lemma {:induction false} HitResults(config: Config, core: Core, items: seq<Pending>, now: int, i: nat)
    requires config.settings.CacheEnabled() || core.cache == map[]
    requires |core.outbox| <= i < |Prepare(config, core, items, now).core.outbox|
    ensures var send := Prepare(config, core, items, now).core.outbox[i];
            var key := CacheKey(send.item.request);
            var found := FindEntry(core.cache, config.settings, key, now);
            && found.Some? && send.result == CloneFor(found.value, send.item.request.requestID)
            && send.origin.FromCache? && send.origin.store == LastStore(core.stores, key).GetOr(0)
  {
    hide CacheKey, FindEntry, AfterLookup, LastStore, UnitsOK, IndexOK, KeysAbsent, SubCache;
    if items != [] {
      var last := |items| - 1;
      var before := Prepare(config, core, items[..last], now);
      PrepareGroups(config, core, items[..last], now);
      PrepareKeepsLog(config, core, items[..last], now);
      if i < |before.core.outbox| {
        HitResults(config, core, items[..last], now, i);
      } else {
        var key := CacheKey(items[last].request);
        assert FindEntry(before.core.cache, config.settings, key, now)
               == FindEntry(core.cache, config.settings, key, now);
      }
    }
  }

  lemma {:induction false} PrepareKeepsLog(config: Config, core: Core, items: seq<Pending>, now: int)
    ensures var after := Prepare(config, core, items, now).core;
            core.outbox <= after.outbox && after.stores == core.stores
  {
    hide CacheKey, FindEntry, AfterLookup, LastStore;
    if items != [] {
      PrepareKeepsLog(config, core, items[..|items| - 1], now);
    }
  }

  /** The requests of a chunk that the log of stores can answer are answered from the cache, in order, with what was
      last stored under their keys; the others make up the units. */
  lemma {:induction false} HitsSettled(config: Config, start: int, events: seq<Event>, state: State, core: Core,
                                       chunk: seq<Pending>, now: int)
    requires config.settings.Valid() && start >= 0 && LeadsTo(config, start, events, state) && state.clock <= now
    requires core.cache == state.core.cache && core.stores == state.core.stores
    ensures var prep, alive := Prepare(config, core, chunk, now), AliveItems(config, core.stores, chunk, now);
            && core.outbox <= prep.core.outbox && Sent(prep.core.outbox) == Sent(core.outbox) + alive
            && (forall i :: |core.outbox| <= i < |prep.core.outbox| ==> FromLastStore(prep.core.outbox[i], core.stores))
            && multiset(alive) + UnitItems(prep.units) == multiset(chunk)
            && prep.core.stores == core.stores
  {
    hide IsRun, After, Inv, Prepare, Hits, AliveItems, UnitsOK, IndexOK, KeysAbsent, SameLookups, UnitItems, FindEntry,
         LastStore, CacheKey, Misses, Fresh;
    RunInv(config, start, events);
    Backpressure.CacheOff(config, state);
    HitsAreAlive(config, start, events, state, chunk, now);
    PrepareKeepsLog(config, core, chunk, now);
    UnitsAreMisses(config, core, chunk, now);
    HitsAndMisses(config.settings, core.cache, chunk, now);
    var prep := Prepare(config, core, chunk, now);
    forall i | |core.outbox| <= i < |prep.core.outbox| ensures FromLastStore(prep.core.outbox[i], core.stores) {
      HitResults(config, core, chunk, now, i);
      var send := prep.core.outbox[i];
      assert Sent(prep.core.outbox)[i] == Hits(config.settings, core.cache, chunk, now)[i - |core.outbox|];
      assert send.item in Hits(config.settings, core.cache, chunk, now);
      AliveIsFresh(config, start, events, state, send.item.request, now);
    }
  }

  // ----- an accepted package -----

  /** The units whose results are cached: they can be, and the result is a 2xx response. */
  ghost predicate Keeps(unit: Unit, results: map<string, RequestResult>) {
    && unit.cacheable && unit.primary.request.requestID in results
    && var result := results[unit.primary.request.requestID];
       result.ok && result.response.Some? && 200 <= result.response.value.status <= 299
  }

  ghost function Keepers(units: seq<Unit>, results: map<string, RequestResult>): seq<nat> {
    if units == [] then []
    else
      var last := |units| - 1;
      Keepers(units[..last], results) + if Keeps(units[last], results) then [last] else []
  }

  ghost predicate StoreFor(config: Config, store: Store, unit: Unit, results: map<string, RequestResult>, batch: nat,
                           at: int) {
    var request := unit.primary.request;
    && request.requestID in results && store.raw == results[request.requestID]
    && store.key == unit.cacheKey && store.at == at && store.batch == batch && store.asked == request
    && store.result == CloneFor(Sanitize(config.redaction, store.raw), request.requestID)
  }

  ghost predicate StoredFor(config: Config, before: seq<Store>, after: seq<Store>, units: seq<Unit>,
                            results: map<string, RequestResult>, batch: nat, env: seq<UnitEnv>) {
    var keepers := Keepers(units, results);
    && |env| >= |units| && before <= after && |after| == |before| + |keepers|
    && forall j :: 0 <= j < |keepers| ==>
         keepers[j] < |units|
         && StoreFor(config, after[|before| + j], units[keepers[j]], results, batch, env[keepers[j]].storeAt)
  }

  lemma {:induction false} OneStored(config: Config, core: Core, unit: Unit, results: map<string, RequestResult>,
                                     batch: nat, env: UnitEnv)
    requires config.settings.CacheEnabled() && unit.primary.request.requestID in results
    requires unit.cacheable ==> unit.cacheKey != ""
    ensures var after := DeliverUnit(config, core, unit, results, batch, env);
            if Keeps(unit, results) then
              && |after.stores| == |core.stores| + 1 && core.stores <= after.stores
              && StoreFor(config, after.stores[|core.stores|], unit, results, batch, env.storeAt)
            else after.stores == core.stores
  {
    hide StoreEntry, Evicts, AnswerDuplicates;
    var raw := results[unit.primary.request.requestID];
    var result, origin := Sanitize(config.redaction, raw), FromBatch(batch, unit.primary.request, raw);
    var sent := Answer(core, unit.primary, result, origin);
    DuplicatesKeep(StoreResult(config, sent, unit, CloneFor(result, unit.primary.request.requestID), batch, raw, env),
                   unit.duplicates, result, origin);
  }

  lemma {:induction false} UnitsStored(config: Config, core: Core, units: seq<Unit>,
                                       results: map<string, RequestResult>, batch: nat, env: seq<UnitEnv>)
    requires config.settings.CacheEnabled() && |units| <= |env|
    requires forall i :: 0 <= i < |units| ==>
               units[i].primary.request.requestID in results && (units[i].cacheable ==> units[i].cacheKey != "")
    ensures StoredFor(config, core.stores, DeliverUnits(config, core, units, results, batch, env).stores, units,
                      results, batch, env)
  {
    hide Keeps, StoreFor, StoredFor, DeliverUnit;
    if units == [] {
      NoneStored(config, core.stores, results, batch, env);
    } else {
      var last := |units| - 1;
      UnitsStored(config, core, units[..last], results, batch, env);
      var before := DeliverUnits(config, core, units[..last], results, batch, env);
      OneStored(config, before, units[last], results, batch, env[last]);
      StoredOn(config, core.stores, before.stores, DeliverUnits(config, core, units, results, batch, env).stores, units,
               results, batch, env);
    }
  }

  lemma {:induction false} NoneStored(config: Config, stores: seq<Store>, results: map<string, RequestResult>,
                                      batch: nat, env: seq<UnitEnv>)
    ensures StoredFor(config, stores, stores, [], results, batch, env)
  {
  }

  lemma {:induction false} StoredOn(config: Config, a: seq<Store>, b: seq<Store>, c: seq<Store>, units: seq<Unit>,
                                    results: map<string, RequestResult>, batch: nat, env: seq<UnitEnv>)
    requires units != [] && |units| <= |env|
    requires StoredFor(config, a, b, units[..|units| - 1], results, batch, env)
    requires var last := |units| - 1;
             if Keeps(units[last], results) then
               && |c| == |b| + 1 && b <= c && StoreFor(config, c[|b|], units[last], results, batch, env[last].storeAt)
             else c == b
    ensures StoredFor(config, a, c, units, results, batch, env)
  {
    hide Keeps, StoreFor;
    var last := |units| - 1;
    var earlier, keepers := Keepers(units[..last], results), Keepers(units, results);
    forall j | 0 <= j < |keepers|
      ensures keepers[j] < |units|
              && StoreFor(config, c[|a| + j], units[keepers[j]], results, batch, env[keepers[j]].storeAt)
    {
      if j < |earlier| {
        assert earlier[j] < last && units[..last][earlier[j]] == units[earlier[j]];
        assert StoreFor(config, b[|a| + j], units[..last][earlier[j]], results, batch, env[earlier[j]].storeAt);
      }
    }
  }

  lemma {:induction false} DeliveryFacts(config: Config, state: State, event: Event)
    requires Inv(config, state) && event.Return? && state.phase.InFlight? && state.dispatches != []
    requires event.reply.Package?
    requires var batch := state.dispatches[|state.dispatches| - 1].batch;
             Accepted(event.reply.pkg, batch.batchID, RequestIDs(batch.requests))
    ensures forall i :: 0 <= i < |state.phase.units| ==>
              var unit := state.phase.units[i];
              unit.primary.request.requestID in ResultsByID(event.reply.pkg.results)
              && (unit.cacheable ==> unit.cacheKey != "")
  {
    hide Flow, GaugesOK, Calls, CoreOK, Accepted, ResultsByID, DistinctKeys;
    forall i | 0 <= i < |state.phase.units|
      ensures state.phase.units[i].primary.request.requestID in ResultsByID(event.reply.pkg.results)
              && (state.phase.units[i].cacheable ==> state.phase.units[i].cacheKey != "")
    {
      AcceptedAnswers(state, event, i);
      assert UnitOK(state.phase.units[i]);
    }
  }

  /** A package that is accepted: every request of the batch is answered once with a result of this package, its own or
      that of the request it duplicates, as it was sanitized; what can be cached is, and nothing else. */
  lemma {:induction false} DeliverySettled(config: Config, start: int, events: seq<Event>, state: State, event: Event)
    requires config.settings.Valid() && start >= 0 && LeadsTo(config, start, events, state)
    requires Enabled(config, state, event) && event.Return? && event.reply.Package? && state.dispatches != []
    requires var batch := state.dispatches[|state.dispatches| - 1].batch;
             Accepted(event.reply.pkg, batch.batchID, RequestIDs(batch.requests))
    ensures var after, index := Next(config, state, event), |state.dispatches| - 1;
            var units, results := state.dispatches[index].units, ResultsByID(event.reply.pkg.results);
            && Untouched(state, after) && after.phase.Idle? && after.clock == event.endAt
            && after.backpressureUntil == state.backpressureUntil && after.activations == state.activations
            && state.core.outbox <= after.core.outbox
            && multiset(Sent(after.core.outbox)) == multiset(Sent(state.core.outbox)) + UnitItems(units)
            && (forall i :: |state.core.outbox| <= i < |after.core.outbox| ==>
                  && SendOfPackage(after.core.outbox[i], results, index)
                  && SendOK(config, after.core.outbox[i], after.core.stores, after.dispatches))
            && if config.settings.cacheTTL > 0 && config.settings.cacheMaxEntries > 0
               then StoredFor(config, state.core.stores, after.core.stores, units, results, index, event.env)
               else after.core.stores == state.core.stores
  {
    hide IsRun, After, Inv, DeliverUnits, StoredFor, Accepted, ResultsByID, SendOfPackage, SendOK, UnitItems, Ledger,
         CacheLogged;
    RunInv(config, start, events);
    InFlightFacts(config, state);
    DeliveryFacts(config, state, event);
    var units, results, index := state.phase.units, ResultsByID(event.reply.pkg.results), |state.dispatches| - 1;
    var after := DeliverUnits(config, state.core, units, results, index, event.env);
    DeliverUnitsLedger(config, state.core, units, results, index, event.env);
    TakeLedger(state.core, after, UnitItems(units));
    DeliveredSends(config, state, event);
    if config.settings.CacheEnabled() {
      UnitsStored(config, state.core, units, results, index, event.env);
    } else {
      UnitsNotStored(config, state.core, units, results, index, event.env);
    }
  }

  lemma {:induction false} DeliveredSends(config: Config, state: State, event: Event)
    requires Inv(config, state) && Enabled(config, state, event) && event.Return? && event.reply.Package?
    requires state.dispatches != []
    requires var batch := state.dispatches[|state.dispatches| - 1].batch;
             Accepted(event.reply.pkg, batch.batchID, RequestIDs(batch.requests))
    ensures var after, index := Next(config, state, event), |state.dispatches| - 1;
            && state.core.outbox <= after.core.outbox
            && forall i :: |state.core.outbox| <= i < |after.core.outbox| ==>
                 && SendOfPackage(after.core.outbox[i], ResultsByID(event.reply.pkg.results), index)
                 && SendOK(config, after.core.outbox[i], after.core.stores, after.dispatches)
  {
    hide Flow, GaugesOK, FlightOK, Calls, StoresOK, CacheLogged, SendOK, DeliverUnits, Accepted, ResultsByID,
         SendOfPackage, StoreOfPackage;
    DeliveredReturnInv(config, state, event);
  }

  lemma {:induction false} UnitsNotStored(config: Config, core: Core, units: seq<Unit>,
                                          results: map<string, RequestResult>, batch: nat, env: seq<UnitEnv>)
    requires !config.settings.CacheEnabled()
    ensures DeliverUnits(config, core, units, results, batch, env).stores == core.stores
  {
    hide Sanitize, ErrorResult, RecoverStale, AnswerDuplicates;
    if units != [] {
      var last := |units| - 1;
      UnitsNotStored(config, core, units[..last], results, batch, env);
      forall c: Core, result, origin {
        DuplicatesKeep(c, units[last].duplicates, result, origin);
      }
    }
  }
}
