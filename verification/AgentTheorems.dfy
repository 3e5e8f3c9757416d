/** The whole-run guarantees of the agent. */
module AgentTheorems {
  import opened Text
  import opened Protocol
  import opened Validation
  import opened Wire
  import opened AgentModel
  import opened AgentLedger
  import opened AgentCache
  import opened AgentOrigins
  import opened AgentRuns
  import opened BatchReader

  // ----- delivery -----

  lemma {:induction false} AcceptedOnce(accepted: seq<Pending>)
    requires AcceptedOK(accepted)
    ensures forall item :: multiset(accepted)[item] == if item in accepted then 1 else 0
    ensures forall a, b :: a in accepted && b in accepted && a.channel == b.channel ==> a == b
  {
    assert Distinct(accepted);
    DistinctMultiset(accepted);
  }

  /** At every moment an accepted request is in exactly one place. */
  lemma {:induction false} InOnePlace(config: Config, start: int, events: seq<Event>, item: Pending)
    requires config.settings.Valid() && start >= 0 && IsRun(config, start, events)
    requires item in After(config, start, events).accepted
    ensures var state := After(config, start, events);
            multiset(Sent(state.core.outbox))[item] + multiset(state.queue)[item] + multiset(state.pending)[item]
            + Working(state.phase)[item] == 1
  {
    hide After, IsRun, GaugesOK, FlightOK, Calls, CoreOK, CountersOK, UnitItems;
    RunInv(config, start, events);
    var state := After(config, start, events);
    AcceptedOnce(state.accepted);
    assert multiset(state.accepted)[item] == 1;
  }

  lemma {:induction false} TwiceInMultiset<T>(s: seq<T>, i: nat, j: nat)
    requires i < j < |s| && s[i] == s[j]
    ensures multiset(s)[s[i]] >= 2
  {
    assert s == s[..j] + [s[j]] + s[j + 1..];
    assert s[i] in s[..j];
    assert multiset(s) == multiset(s[..j]) + multiset{s[j]} + multiset(s[j + 1..]);
  }

  /** Each result channel is sent at most one answer, so a send into its one-place buffer never waits. */
  lemma {:induction false} NoSendBlocks(config: Config, start: int, events: seq<Event>, i: nat, j: nat)
    requires config.settings.Valid() && start >= 0 && IsRun(config, start, events)
    requires i < j < |After(config, start, events).core.outbox|
    ensures var outbox := After(config, start, events).core.outbox;
            outbox[i].item.channel != outbox[j].item.channel
  {
    hide After, IsRun, GaugesOK, FlightOK, Calls, CoreOK, CountersOK, UnitItems, AcceptedOK;
    RunInv(config, start, events);
    var state := After(config, start, events);
    var sent := Sent(state.core.outbox);
    AcceptedOnce(state.accepted);
    forall item | item in sent ensures item in state.accepted && multiset(sent)[item] <= 1 {
      assert multiset(sent)[item] >= 1;
      assert multiset(state.accepted)[item] >= multiset(sent)[item];
    }
    assert sent[i] in sent && sent[j] in sent;
    if sent[i] == sent[j] {
      TwiceInMultiset(sent, i, j);
    }
  }

  /** When Run has returned, the answered requests are the accepted ones less those still queued. */
  lemma {:induction false} StoppedAnswersAllButQueue(config: Config, start: int, events: seq<Event>)
    requires config.settings.Valid() && start >= 0 && IsRun(config, start, events)
    requires After(config, start, events).phase.Stopped?
    ensures var state := After(config, start, events);
            && multiset(state.accepted) == multiset(Sent(state.core.outbox)) + multiset(state.queue)
            && (multiset(state.accepted) == multiset(Sent(state.core.outbox)) <==> state.queue == [])
  {
    hide After, IsRun, FlightOK, Calls, CoreOK, CountersOK, AcceptedOK;
    RunInv(config, start, events);
    var state := After(config, start, events);
    if state.queue != [] {
      assert state.queue[0] in multiset(state.queue);
      assert multiset(state.accepted)[state.queue[0]] > multiset(Sent(state.core.outbox))[state.queue[0]];
    }
  }

  /** A request accepted just before the agent stops is never answered. */
  lemma {:induction false} StopForgetsQueued(config: Config, item: RequestItem)
    requires config.settings.Valid() && Normalized(item)
    ensures var events := [Check(item, None, 1), Enqueue(0), Stop];
            && IsRun(config, 1, events)
            && var state := After(config, 1, events);
               state.phase.Stopped? && state.accepted == [Pending(item, 0)] == state.queue && state.core.outbox == []
  {
    var check, enqueue, stop := Check(item, None, 1), Enqueue(0), Event.Stop;
    assert [check, enqueue, stop][..2] == [check, enqueue] && [check, enqueue][..1] == [check] && [check][..0] == [];
    assert IsRun(config, 1, []) && After(config, 1, []) == Init(1);
    assert IsRun(config, 1, [check]);
    var checked := After(config, 1, [check]);
    assert checked == CheckStep(Init(1), item, None, 1);
    assert IsRun(config, 1, [check, enqueue]);
    assert After(config, 1, [check, enqueue]) == EnqueueStep(config, checked, 0);
    assert IsRun(config, 1, [check, enqueue, stop]);
  }

  // ----- counters -----

  /** With the agent between dispatches and every acceptance recorded, submitted requests are those waiting plus
      those answered. */
  lemma {:induction false} CountersBalance(config: Config, start: int, events: seq<Event>)
    requires config.settings.Valid() && start >= 0 && IsRun(config, start, events)
    requires !After(config, start, events).phase.InFlight? && After(config, start, events).unrecorded == 0
    ensures var state := After(config, start, events); var counters := state.core.counters;
            && counters.submitted == |state.queue| + |state.pending|
               + (counters.completed + counters.failed - counters.localRejected)
            && counters.completed == CountOK(state.core.outbox)
            && !state.dispatchInFlight
            && state.chunked == counters.cacheHits + counters.deduplicated + counters.dispatchedRequests
               + state.failedEarly
  {
    hide After, IsRun, FlightOK, Calls, CoreOK, AcceptedOK, CountOK;
    RunInv(config, start, events);
    var state := After(config, start, events);
    assert |multiset(state.accepted)|
           == |multiset(Sent(state.core.outbox)) + multiset(state.queue) + multiset(state.pending) + multiset{}
              + multiset{}|;
    assert |multiset(state.accepted)| == |state.accepted|;
  }

  // ----- the dispatcher -----

  /** Every batch given to the dispatcher is valid and within both limits, its bodies included. */
  lemma {:induction false} BatchesBounded(config: Config, start: int, events: seq<Event>, i: nat)
    requires config.settings.Valid() && start >= 0 && IsRun(config, start, events)
    requires i < |After(config, start, events).dispatches|
    ensures var batch := After(config, start, events).dispatches[i].batch;
            && BatchOK(batch, config.validTime)
            && 0 < |batch.requests| <= config.settings.maxBatchRequests
            && BatchSizeBytes(batch) <= config.settings.maxBatchBytes
            && BodyLengths(batch.requests) <= config.settings.maxBatchBytes
  {
    hide After, IsRun, Flow, GaugesOK, FlightOK, SpacingOK, CoreOK, BatchSizeBytes, BodyLengths;
    RunInv(config, start, events);
    var dispatch := After(config, start, events).dispatches[i];
    assert DispatchOK(config, dispatch, After(config, start, events).clock);
    BodiesWithin(dispatch.batch, config.settings.maxBatchBytes);
  }

  /** After backpressure is activated no dispatch starts before the cooldown is over, whatever Submit calls do to
      the deadline in the meantime. */
  lemma {:induction false} BackpressureSpacing(config: Config, start: int, events: seq<Event>, k: nat, j: nat)
    requires config.settings.Valid() && start >= 0 && IsRun(config, start, events)
    requires k < |After(config, start, events).activations|
    requires After(config, start, events).activations[k].after <= j < |After(config, start, events).dispatches|
    ensures var state := After(config, start, events);
            state.dispatches[j].startedAt >= state.activations[k].at + config.settings.backpressureCooldown
  {
    hide After, IsRun, Flow, GaugesOK, FlightOK, DispatchesOK, CoreOK;
    RunInv(config, start, events);
  }

  lemma {:induction false} AnswerErrorSends(config: Config, core: Core, items: seq<Pending>, code: Code,
                                            message: Message)
    ensures var after := AnswerError(core, items, config.redaction, code, message);
            && core.outbox <= after.outbox && Sent(after.outbox) == Sent(core.outbox) + items
            && forall i :: |core.outbox| <= i < |after.outbox| ==> IsError(config, after.outbox[i], code, message)
  {
    hide ErrorResult;
    if items != [] {
      var last := |items| - 1;
      AnswerErrorSends(config, core, items[..last], code, message);
      var before := AnswerError(core, items[..last], config.redaction, code, message);
      var after := AnswerError(core, items, config.redaction, code, message);
      assert Sent(after.outbox) == Sent(before.outbox) + [items[last]];
      assert items == items[..last] + [items[last]];
    }
  }

  // ----- cache and answers -----

  /** The cache is a bounded view of the log of stores, every stored result is a 2xx response that the worker gave to
      a request with that key, and "" is never a key. */
  lemma {:induction false} CacheIsLog(config: Config, start: int, events: seq<Event>)
    requires config.settings.Valid() && start >= 0 && IsRun(config, start, events)
    ensures var state := After(config, start, events);
            && CacheLogged(config.settings, state.core.cache, state.core.stores)
            && "" !in state.core.cache
            && StoresOK(config, state.core.stores, state.dispatches, state.clock)
            && forall j :: 0 <= j < |state.core.stores| ==> StoredSafely(state.core.stores[j])
  {
    hide After, IsRun, Flow, GaugesOK, FlightOK, Calls, StoresOK, LastStore;
    RunInv(config, start, events);
    var state := After(config, start, events);
    forall j | 0 <= j < |state.core.stores| ensures StoredSafely(state.core.stores[j]) {
      StoreIsSafe(config, state.core.stores, state.dispatches, state.clock, j);
    }
  }

  /** Only successful responses to bodyless GET and HEAD requests are cached. */
  ghost predicate StoredSafely(store: Store) {
    && store.asked.httpMethod in {"GET", "HEAD"} && store.asked.body.None?
    && store.result.ok && store.result.response.Some? && 200 <= store.result.response.value.status < 300
  }

  lemma {:induction false} StoreIsSafe(config: Config, stores: seq<Store>, dispatches: seq<Dispatch>, clock: int,
                                       j: nat)
    requires StoresOK(config, stores, dispatches, clock) && j < |stores|
    ensures StoredSafely(stores[j])
  {
    hide Sanitize, CacheKey, AnsweredBy;
    assert StoreOK(config, stores[j], dispatches, clock);
  }

  /** What a sanitized result no longer shows. */
  ghost predicate Clean(redaction: Redaction, raw: RequestResult, result: RequestResult) {
    && result.ok == raw.ok && (result.response.Some? <==> raw.response.Some?)
       && (result.error.Some? <==> raw.error.Some?)
    && (raw.error.Some? ==>
          result.error.value.code == raw.error.value.code
          && result.error.value.message == redaction.text(raw.error.value.message))
    && (raw.response.Some? ==>
          var was, response := raw.response.value, result.response.value;
          && response.status == was.status && response.body == was.body && response.timingMS == was.timingMS
          && response.url == redaction.url(was.url) && response.headers.Keys == was.headers.Keys
          && forall key :: key in was.headers ==>
               response.headers[key]
               == if redaction.headerName(key)
                     in {"authorization", "proxy-authorization", "cookie", "set-cookie", "x-api-key"} then "[REDACTED]"
                  else was.headers[key])
  }

  /** No secret passes the agent: whatever it relays, OK or not, directly or by way of the cache, is the result that an
      accepted package held for the request asked, with its sensitive header values, its URL and its error message
      redacted, and is otherwise what the worker said. */
  lemma {:induction false} RelayedClean(config: Config, start: int, events: seq<Event>, i: nat)
    returns (asked: RequestItem, raw: RequestResult, batch: nat)
    requires config.settings.Valid() && start >= 0 && IsRun(config, start, events)
    requires i < |After(config, start, events).core.outbox|
    requires !After(config, start, events).core.outbox[i].origin.Local?
    ensures var state := After(config, start, events); var send := state.core.outbox[i];
            && Clean(config.redaction, raw, send.result)
            && batch < |state.dispatches| && AnsweredBy(state.dispatches[batch], asked, raw)
            && match send.origin
               case FromBatch(b, a, r) => b == batch && a == asked && r == raw
               case FromCache(j, _, _) =>
                 j < |state.core.stores|
                 && var store := state.core.stores[j]; store.batch == batch && store.asked == asked && store.raw == raw
               case _ => false
  {
    hide After, IsRun, Flow, GaugesOK, FlightOK, Calls, CacheLogged, AnsweredBy, CarriedAs, Sanitize, CacheKey,
         Cacheable,
         Clean, LastStore;
    RunInv(config, start, events);
    var state := After(config, start, events);
    var send := state.core.outbox[i];
    assert SendOK(config, send, state.core.stores, state.dispatches);
    match send.origin
    case FromCache(j, _, _) =>
      var store := state.core.stores[j];
      assert StoreOK(config, store, state.dispatches, state.clock);
      asked, raw, batch := store.asked, store.raw, store.batch;
      SanitizedClean(config.redaction, raw, send.item.request.requestID);
    case FromBatch(b, a, r) =>
      asked, raw, batch := a, r, b;
      SanitizedClean(config.redaction, raw, send.item.request.requestID);
  }

  lemma {:induction false} SanitizedClean(redaction: Redaction, raw: RequestResult, requestID: string)
    ensures Clean(redaction, raw, CloneFor(Sanitize(redaction, raw), requestID))
  {
    SensitiveNames();
  }

  lemma {:induction false} SensitiveNames()
    ensures forall name :: name in SENSITIVE_HEADERS
                           <==> name in {"authorization", "proxy-authorization", "cookie", "set-cookie", "x-api-key"}
  {
    var names := SENSITIVE_HEADERS;
    assert names[0] == "authorization" && names[1] == "proxy-authorization" && names[2] == "cookie"
           && names[3] == "set-cookie" && names[4] == "x-api-key";
  }

  /** No run ever serves a stale entry: the counter stays at zero and no answer has that origin. */
  lemma {:induction false} FailOpenNeverServes(config: Config, start: int, events: seq<Event>)
    requires config.settings.Valid() && start >= 0 && IsRun(config, start, events)
    ensures var core := After(config, start, events).core;
            core.counters.failOpenServed == 0 && forall i :: 0 <= i < |core.outbox|
                                                   ==> !core.outbox[i].origin.FromStale?
  {
    hide After, IsRun, Flow, GaugesOK, FlightOK, Calls, StoresOK, CacheLogged;
    RunInv(config, start, events);
    var state := After(config, start, events);
    forall i | 0 <= i < |state.core.outbox| ensures !state.core.outbox[i].origin.FromStale? {
      assert SendOK(config, state.core.outbox[i], state.core.stores, state.dispatches);
    }
  }

  /** What an OK answer carries: a sanitized worker result, bearing the caller's identifier, that an accepted package
      held for a request that is the same call. */
  ghost predicate Carries(config: Config, state: State, send: Send, asked: RequestItem, raw: RequestResult,
                          batch: nat) {
    && batch < |state.dispatches| && AnsweredBy(state.dispatches[batch], asked, raw)
    && SameCall(asked, send.item.request)
    && send.result == CloneFor(Sanitize(config.redaction, raw), send.item.request.requestID)
  }

  /** The batch carried the caller's own request, or one that the caller's had been found to duplicate; a request that
      cannot be cached is answered for itself alone. */
  ghost predicate FromOwnBatch(state: State, send: Send, asked: RequestItem, raw: RequestResult, batch: nat) {
    && send.origin == FromBatch(batch, asked, raw) && batch < |state.dispatches|
    && CarriedAs(state.dispatches[batch], asked, send.item)
    && send.item in UnitItems(state.dispatches[batch].units)
    && (!Cacheable(send.item.request) ==> asked == send.item.request)
  }

  /** It is what was last stored under the caller's key when that was looked up, no more than the TTL after. */
  ghost predicate StoredInTime(config: Config, state: State, send: Send, asked: RequestItem, raw: RequestResult,
                               batch: nat) {
    && send.origin.FromCache? && send.origin.store < send.origin.seen <= |state.core.stores|
    && LastStore(state.core.stores[..send.origin.seen], CacheKey(send.item.request)) == Some(send.origin.store)
    && var store := state.core.stores[send.origin.store];
       && store.asked == asked && store.raw == raw && store.batch == batch
       && store.at <= send.origin.lookedUpAt <= store.at + config.settings.cacheTTL
  }

  lemma {:induction false} AnswersAreRelayed(config: Config, start: int, events: seq<Event>, i: nat)
    returns (asked: RequestItem, raw: RequestResult, batch: nat)
    requires config.settings.Valid() && start >= 0 && IsRun(config, start, events)
    requires i < |After(config, start, events).core.outbox|
    ensures var state := After(config, start, events); var send := state.core.outbox[i];
            && send.result.requestID == send.item.request.requestID
            && (send.result.ok ==>
                  Carries(config, state, send, asked, raw, batch)
                  && (FromOwnBatch(state, send, asked, raw, batch)
                      || StoredInTime(config, state, send, asked, raw, batch)))
  {
    hide After, IsRun, Flow, GaugesOK, FlightOK, Calls, CacheLogged, AnsweredBy, CarriedAs, Sanitize, CacheKey,
         Cacheable,
         UnitItems, LastStore;
    RunInv(config, start, events);
    var state := After(config, start, events);
    var send := state.core.outbox[i];
    assert SendOK(config, send, state.core.stores, state.dispatches);
    asked, raw, batch := send.item.request, send.result, 0;
    match send.origin
    case Local =>
    case FromStale(_) =>
    case FromCache(j, at, _) =>
      var store := state.core.stores[j];
      assert StoreOK(config, store, state.dispatches, state.clock);
      asked, raw, batch := store.asked, store.raw, store.batch;
    case FromBatch(b, a, r) =>
      asked, raw, batch := a, r, b;
      CarriedInUnits(state.dispatches[b], asked, send.item);
  }

  lemma {:induction false} CarriedInUnits(dispatch: Dispatch, asked: RequestItem, item: Pending)
    requires CarriedAs(dispatch, asked, item)
    ensures item in UnitItems(dispatch.units)
  {
    hide UnitItems;
    var k :| 0 <= k < |dispatch.units| && dispatch.units[k].primary.request == asked
             && (item == dispatch.units[k].primary || item in dispatch.units[k].duplicates);
    UnitItemsHave(dispatch.units, k);
  }
}
