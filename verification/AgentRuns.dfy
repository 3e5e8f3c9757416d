/** What every run of the agent keeps, whatever the interleaving of callers, ticks and dispatcher replies. */
module AgentRuns {
  import opened Text
  import opened Protocol
  import opened Validation
  import opened Wire
  import opened AgentModel
  import opened AgentLedger
  import opened AgentCache
  import opened AgentOrigins

  /** The requests inside the dispatcher call. */
  function Working(phase: Phase): multiset<Pending> {
    if phase.InFlight? then UnitItems(phase.units) else multiset{}
  }

  /** Every accepted request is in one place, once: answered, queued, buffered, in hand or with the dispatcher. */
  ghost predicate Conserved(state: State, inHand: multiset<Pending>) {
    multiset(state.accepted)
    == multiset(Sent(state.core.outbox)) + multiset(state.queue) + multiset(state.pending) + inHand
       + Working(state.phase)
  }

  /** Result channels are numbered in order of acceptance, so no two accepted requests share one. */
  ghost predicate AcceptedOK(accepted: seq<Pending>) {
    forall i :: 0 <= i < |accepted| ==> accepted[i].channel == i && Normalized(accepted[i].request)
  }

  ghost predicate CountersOK(state: State) {
    var counters := state.core.counters;
    && counters.completed == CountOK(state.core.outbox)
    && counters.completed + counters.failed == |state.core.outbox| + counters.localRejected
    && counters.submitted + state.unrecorded == |state.accepted|
    && state.chunked == counters.cacheHits + counters.deduplicated + counters.dispatchedRequests + state.failedEarly
    && counters.dispatchedBatches == |state.dispatches|
  }

  ghost predicate GaugesOK(config: Config, state: State) {
    && |state.queue| <= config.settings.maxQueueRequests
    && state.pendingInBatchBuffer == |state.pending|
    && (state.dispatchInFlight <==> state.phase.InFlight?)
    && (state.phase.Stopped? ==> state.pending == [])
    && (state.phase.Ticking? ==> state.pending != [] && state.phase.readAt <= state.clock)
    && forall i :: 0 <= i < |state.offered| ==> Normalized(state.offered[i])
  }

  ghost predicate FlightOK(state: State) {
    state.phase.InFlight? ==>
      var units := state.phase.units;
      && UnitsOK(units) && KeysAbsent(units, state.core.cache)
      && state.dispatches != []
      && var last := state.dispatches[|state.dispatches| - 1];
         last.reply.None? && last.batch.requests == Primaries(units) && last.units == units
  }

  /** What the dispatcher is ever given. */
  ghost predicate DispatchOK(config: Config, dispatch: Dispatch, clock: int) {
    && BatchOK(dispatch.batch, config.validTime)
    && |dispatch.batch.requests| <= config.settings.maxBatchRequests
    && BatchSizeBytes(dispatch.batch) <= config.settings.maxBatchBytes
    && dispatch.batch.requests == Primaries(dispatch.units) && dispatch.startedAt <= clock
  }

  ghost predicate DispatchesOK(config: Config, dispatches: seq<Dispatch>, clock: int) {
    forall i :: 0 <= i < |dispatches| ==> DispatchOK(config, dispatches[i], clock)
  }

  /** After an activation no dispatch starts before the cooldown is over, and until then the deadline stands. */
  ghost predicate SpacingOK(config: Config, state: State) {
    && state.clock >= 0
    && forall k :: 0 <= k < |state.activations| ==>
         var activation, cooldown := state.activations[k], config.settings.backpressureCooldown;
         && 0 <= activation.at <= state.clock && activation.after <= |state.dispatches|
         && (state.phase.InFlight? ==> activation.after < |state.dispatches|)
         && (state.clock >= activation.at + cooldown || state.backpressureUntil == activation.at + cooldown)
         && forall j :: activation.after <= j < |state.dispatches|
              ==> state.dispatches[j].startedAt >= activation.at + cooldown
  }

  /** Requests and counters. */
  ghost predicate Flow(state: State, inHand: multiset<Pending>) {
    Conserved(state, inHand) && AcceptedOK(state.accepted) && CountersOK(state)
  }

  /** The dispatcher's view. */
  ghost predicate Calls(config: Config, state: State) {
    DispatchesOK(config, state.dispatches, state.clock) && SpacingOK(config, state)
  }

  ghost predicate Inv(config: Config, state: State) {
    && Flow(state, multiset{}) && GaugesOK(config, state) && FlightOK(state) && Calls(config, state)
    && CoreOK(config, state.core, state.dispatches, state.clock)
  }

  lemma {:induction false} InitInv(config: Config, start: int)
    requires config.settings.Valid() && start >= 0
    ensures Inv(config, Init(start))
  {
  }

  /** The fields that Calls looks at. */
  ghost predicate SameCalls(a: State, b: State) {
    && a.clock == b.clock && a.dispatches == b.dispatches && a.activations == b.activations
    && a.phase.InFlight? == b.phase.InFlight? && a.backpressureUntil == b.backpressureUntil
  }

  lemma {:induction false} CallsFrame(config: Config, a: State, b: State)
    requires Calls(config, a) && SameCalls(a, b)
    ensures Calls(config, b)
  {
    hide BatchOK, BatchSizeBytes;
  }

  lemma {:induction false} FlightFrame(a: State, b: State)
    requires FlightOK(a) && a.phase == b.phase && a.core.cache == b.core.cache && a.dispatches == b.dispatches
    ensures FlightOK(b)
  {
  }

  // ----- Submit -----

  lemma {:induction false} ClearCalls(config: Config, state: State, at: int)
    requires Calls(config, state) && at <= state.clock
    ensures Calls(config, AfterBackpressureCheck(state, at))
  {
    hide BatchOK, BatchSizeBytes;
  }

  lemma {:induction false} ClockCalls(config: Config, state: State, later: int)
    requires Calls(config, state) && state.clock <= later
    ensures Calls(config, state.(clock := later))
  {
    hide BatchOK, BatchSizeBytes;
    forall i | 0 <= i < |state.dispatches| ensures DispatchOK(config, state.dispatches[i], later) {
      assert DispatchOK(config, state.dispatches[i], state.clock);
    }
  }

  lemma {:induction false} CheckFlow(state: State, item: RequestItem, verdict: Option<ResultError>, at: int)
    requires Flow(state, multiset{})
    ensures Flow(CheckStep(state, item, verdict, at), multiset{})
  {
    hide Flow;
    var now := state.(clock := Later(state.clock, at));
    var checked := if verdict.Some? then now else AfterBackpressureCheck(now, at);
    FlowFrame(state, checked, multiset{});
    FlowFrame(state, checked.(offered := checked.offered + [item]), multiset{});
    RejectFlow(checked);
  }

  lemma {:induction false} CheckInv(config: Config, state: State, item: RequestItem, verdict: Option<ResultError>,
                                    at: int)
    requires Inv(config, state) && Normalized(item)
    ensures Inv(config, CheckStep(state, item, verdict, at))
  {
    hide Flow, CoreOK, Calls, UnitsOK, KeysAbsent;
    var after := CheckStep(state, item, verdict, at);
    var now := state.(clock := Later(state.clock, at));
    CheckFlow(state, item, verdict, at);
    ClockCalls(config, state, now.clock);
    ClearCalls(config, now, at);
    CallsFrame(config, if verdict.Some? then now else AfterBackpressureCheck(now, at), after);
    CoreOKLater(config, state.core, state.dispatches, state.dispatches, state.clock, now.clock);
    CoreOKCounters(config, state.core, after.core, state.dispatches, now.clock);
  }

  lemma {:induction false} CoreOKCounters(config: Config, a: Core, b: Core, dispatches: seq<Dispatch>, clock: int)
    requires CoreOK(config, a, dispatches, clock)
    requires b == a.(counters := b.counters) && b.counters.failOpenServed == a.counters.failOpenServed
    ensures CoreOK(config, b, dispatches, clock)
  {
    hide SendsOK, StoresOK, CacheLogged;
  }

  lemma {:induction false} AcceptFlow(state: State, item: Pending)
    requires Flow(state, multiset{}) && item.channel == |state.accepted| && Normalized(item.request)
    ensures Flow(state.(queue := state.queue + [item], accepted := state.accepted + [item],
                        unrecorded := state.unrecorded + 1), multiset{})
  {
    hide CountOK, UnitItems, Normalized;
    AppendMultiset(state.queue, item);
    AppendMultiset(state.accepted, item);
  }

  lemma {:induction false} FlowFrame(a: State, b: State, inHand: multiset<Pending>)
    requires Flow(a, inHand)
    requires a.accepted == b.accepted && a.queue == b.queue && a.pending == b.pending
    requires Working(a.phase) == Working(b.phase)
    requires a.unrecorded == b.unrecorded && a.chunked == b.chunked && a.failedEarly == b.failedEarly
             && |a.dispatches| == |b.dispatches|
    requires a.core.outbox == b.core.outbox && a.core.counters == b.core.counters
    ensures Flow(b, inHand)
  {
    hide CountOK, Working;
  }

  lemma {:induction false} RejectFlow(state: State)
    requires Flow(state, multiset{})
    ensures Flow(RejectLocally(state), multiset{})
  {
    hide CountOK, UnitItems;
  }

  lemma {:induction false} EnqueueFlow(config: Config, state: State, offer: nat)
    requires Flow(state, multiset{}) && offer < |state.offered| && Normalized(state.offered[offer])
    ensures Flow(EnqueueStep(config, state, offer), multiset{})
  {
    hide Flow;
    var item := Pending(state.offered[offer], |state.accepted|);
    var left := state.(offered := state.offered[..offer] + state.offered[offer + 1..]);
    FlowFrame(state, left, multiset{});
    AcceptFlow(left, item);
    RejectFlow(left);
  }

  lemma {:induction false} EnqueueInv(config: Config, state: State, offer: nat)
    requires config.settings.Valid() && Inv(config, state) && offer < |state.offered|
    ensures Inv(config, EnqueueStep(config, state, offer))
  {
    hide Flow, CoreOK, Calls, UnitsOK, KeysAbsent, Normalized;
    var after := EnqueueStep(config, state, offer);
    EnqueueFlow(config, state, offer);
    CallsFrame(config, state, after);
    CoreOKCounters(config, state.core, after.core, state.dispatches, state.clock);
  }

  lemma {:induction false} RecordInv(config: Config, state: State)
    requires Inv(config, state) && state.unrecorded > 0
    ensures Inv(config, RecordStep(state))
  {
    hide CoreOK, Calls, UnitsOK, KeysAbsent, Normalized, CountOK, UnitItems;
    CallsFrame(config, state, RecordStep(state));
    CoreOKCounters(config, state.core, RecordStep(state).core, state.dispatches, state.clock);
  }

  // ----- Run: receiving and stopping -----

  lemma {:induction false} FirstMultiset<T>(s: seq<T>)
    requires s != []
    ensures multiset(s) == multiset{s[0]} + multiset(s[1..])
  {
    assert s == [s[0]] + s[1..];
  }

  lemma {:induction false} ReceiveInv(config: Config, state: State)
    requires Inv(config, state) && state.phase.Idle? && state.queue != []
    ensures Inv(config, ReceiveStep(state))
  {
    hide CoreOK, Calls, FlightOK, Normalized, CountOK, UnitItems, Working;
    FlightFrame(state, ReceiveStep(state));
    AppendMultiset(state.pending, state.queue[0]);
    FirstMultiset(state.queue);
    CallsFrame(config, state, ReceiveStep(state));
  }

  lemma {:induction false} LedgerFlow(a: State, b: State, items: multiset<Pending>, inHand: multiset<Pending>)
    requires Flow(a, inHand + items) && Ledger(a.core, b.core, items) && SameDispatchCounters(a.core, b.core)
    requires b == a.(core := b.core)
    ensures Flow(b, inHand)
  {
    hide CountOK, UnitItems;
  }

  /** All pending requests are answered with one local error. */
  lemma {:induction false} AnswerAllFlow(config: Config, state: State, code: Code, message: Message)
    requires Flow(state, multiset{}) && state.phase.Idle?
    ensures var core := AnswerError(state.core, state.pending, config.redaction, code, message);
            && Flow(state.(core := core, pending := [], pendingInBatchBuffer := 0), multiset{})
            && Flow(state.(core := core, pending := [], pendingInBatchBuffer := 0, phase := Stopped), multiset{})
  {
    hide AnswerError, CountOK, Ledger, AcceptedOK, Sent;
    var core := AnswerError(state.core, state.pending, config.redaction, code, message);
    var after := state.(core := core, pending := [], pendingInBatchBuffer := 0);
    ErrorsLedger(state.core, state.pending, config.redaction, code, message);
    LedgerFlow(state.(pending := [], pendingInBatchBuffer := 0), after, multiset(state.pending), multiset{});
    FlowFrame(after, after.(phase := Stopped), multiset{});
  }

  lemma {:induction false} AnswerAllInv(config: Config, state: State, code: Code, message: Message)
    requires Inv(config, state) && state.phase.Idle?
    ensures var core := AnswerError(state.core, state.pending, config.redaction, code, message);
            && Inv(config, state.(core := core, pending := [], pendingInBatchBuffer := 0))
            && Inv(config, state.(core := core, pending := [], pendingInBatchBuffer := 0, phase := Stopped))
  {
    hide CoreOK, Calls, AnswerError, Flow;
    var core := AnswerError(state.core, state.pending, config.redaction, code, message);
    var after := state.(core := core, pending := [], pendingInBatchBuffer := 0);
    AnswerAllFlow(config, state, code, message);
    ErrorsOK(config, state.core, state.pending, code, message, state.dispatches, state.clock);
    CallsFrame(config, state, after);
    CallsFrame(config, state, after.(phase := Stopped));
  }

  // ----- Run: a tick -----

  lemma {:induction false} EvictCore(config: Config, core: Core, dispatches: seq<Dispatch>, clock: int, tickAt: int)
    requires CoreOK(config, core, dispatches, clock) && clock <= tickAt
    ensures CoreOK(config, core.(cache := EvictExpired(core.cache, config.settings, tickAt)), dispatches, tickAt)
  {
    var evicted := core.(cache := EvictExpired(core.cache, config.settings, tickAt));
    SubCacheOK(config, core, evicted.cache, dispatches, clock);
    hide CoreOK, EvictExpired;
    CoreOKLater(config, evicted, dispatches, dispatches, clock, tickAt);
  }

  /** The reading of the clock and the eviction. */
  lemma {:induction false} TickInv(config: Config, state: State, tickAt: int)
    requires Inv(config, state) && state.phase.Idle? && state.clock <= tickAt
    ensures Inv(config, TickStep(config, state, tickAt))
  {
    hide CoreOK, Calls, EvictExpired, Flow;
    EvictCore(config, state.core, state.dispatches, state.clock, tickAt);
    ClockCalls(config, state, tickAt);
    CallsFrame(config, state.(clock := tickAt), TickStep(config, state, tickAt));
    FlowFrame(state, TickStep(config, state, tickAt), multiset{});
  }

  lemma {:induction false} TakeFlow(state: State, kept: seq<Pending>, taken: multiset<Pending>)
    requires Flow(state, multiset{}) && multiset(state.pending) == multiset(kept) + taken
    ensures Flow(state.(pending := kept, pendingInBatchBuffer := |kept|), taken)
  {
    hide CountOK, UnitItems, AcceptedOK;
  }

  lemma {:induction false} PickFlow(config: Config, state: State)
    requires Flow(state, multiset{})
    ensures var pick := PickChunk(config, state.core, state.pending);
            Flow(state.(core := pick.core, pending := pick.remaining, pendingInBatchBuffer := |pick.remaining|),
                 multiset(pick.chunk))
  {
    var pick := PickChunk(config, state.core, state.pending);
    var rejected := PickLedger(config, state.core, state.pending);
    hide Flow, PickChunk, Ledger;
    var before := state.(pending := pick.remaining, pendingInBatchBuffer := |pick.remaining|);
    TakeFlow(state, pick.remaining, multiset(pick.chunk) + rejected);
    LedgerFlow(before, before.(core := pick.core), rejected, multiset(pick.chunk));
  }

  lemma {:induction false} ChunkBound(config: Config, core: Core, pending: seq<Pending>)
    requires config.settings.maxBatchRequests > 0
    ensures |PickChunk(config, core, pending).chunk| <= config.settings.maxBatchRequests
  {
    hide EstimatedSize, ErrorResult;
    if pending != [] {
      ChunkBound(config, core, pending[..|pending| - 1]);
    }
  }

  lemma {:induction false} InHandNormalized(state: State, inHand: multiset<Pending>)
    requires Conserved(state, inHand) && AcceptedOK(state.accepted)
    ensures forall item :: item in inHand || item in Working(state.phase) ==> Normalized(item.request)
  {
    forall item | item in inHand || item in Working(state.phase) ensures Normalized(item.request) {
      assert item in multiset(state.accepted);
      assert item in state.accepted;
    }
  }

  // ----- Run: dispatching -----

  /** Everything about a prepared chunk but where its units go next. */
  lemma {:induction false} PrepareFlow(config: Config, state: State, chunk: seq<Pending>, prepareAt: int)
    requires Flow(state, multiset(chunk)) && state.phase.Idle?
    ensures var prep := Prepare(config, state.core, chunk, prepareAt);
            && |prep.units| <= |chunk|
            && Flow(state.(core := prep.core, chunked := state.chunked + |chunk| - |prep.units|), UnitItems(prep.units))
  {
    var prep := Prepare(config, state.core, chunk, prepareAt);
    var hits := PrepareLedger(config, state.core, chunk, prepareAt);
    AbsorbedGrows(config, state.core, chunk, prepareAt);
    hide CountOK, UnitItems, Prepare;
    assert state.chunked + |chunk| - |prep.units|
           == prep.core.counters.cacheHits + prep.core.counters.deduplicated + prep.core.counters.dispatchedRequests
              + state.failedEarly;
  }

  lemma {:induction false} AbsorbedGrows(config: Config, core: Core, items: seq<Pending>, now: int)
    ensures Absorbed(Prepare(config, core, items, now).core) >= Absorbed(core)
  {
    hide CacheKey, FindEntry, AfterLookup;
    if items != [] {
      AbsorbedGrows(config, core, items[..|items| - 1], now);
    }
  }

  lemma {:induction false} PrepareCore(config: Config, state: State, chunk: seq<Pending>, prepareAt: int)
    requires Flow(state, multiset(chunk)) && state.phase.Idle?
    requires CoreOK(config, state.core, state.dispatches, prepareAt)
    ensures var prep := Prepare(config, state.core, chunk, prepareAt);
            && UnitsOK(prep.units) && KeysAbsent(prep.units, prep.core.cache)
            && CoreOK(config, prep.core, state.dispatches, prepareAt)
  {
    InHandNormalized(state, multiset(chunk));
    PrepareGroups(config, state.core, chunk, prepareAt);
    forall i | 0 <= i < |chunk| ensures Normalized(chunk[i].request) {
      assert chunk[i] in multiset(chunk);
    }
    PrepareOK(config, state.core, chunk, prepareAt, state.dispatches, prepareAt);
  }

  lemma {:induction false} FailFlow(config: Config, state: State, units: seq<Unit>, code: Code, message: Message,
                                    times: seq<int>)
    requires Flow(state, UnitItems(units))
    ensures Flow(state.(core := FailUnits(config, state.core, units, code, message, times)), multiset{})
  {
    var core := FailUnits(config, state.core, units, code, message, times);
    FailUnitsLedger(config, state.core, units, code, message, times);
    hide FailUnits;
    assert multiset{} + UnitItems(units) == UnitItems(units);
    LedgerFlow(state, state.(core := core), UnitItems(units), multiset{});
  }

  lemma {:induction false} FailCore(config: Config, core: Core, units: seq<Unit>, code: Code, message: Message,
                                    times: seq<int>, dispatches: seq<Dispatch>, clock: int)
    requires CoreOK(config, core, dispatches, clock) && KeysAbsent(units, core.cache)
    ensures CoreOK(config, FailUnits(config, core, units, code, message, times), dispatches, clock)
  {
    FailUnitsErrors(config, core, units, code, message, times);
    OnlyErrorsOK(config, core, FailUnits(config, core, units, code, message, times), code, Redacted(message),
                 dispatches, clock);
  }

  /** No backpressure deadline is still ahead. */
  ghost predicate Cooled(config: Config, state: State, at: int) {
    forall k :: 0 <= k < |state.activations| ==> at >= state.activations[k].at + config.settings.backpressureCooldown
  }

  lemma {:induction false} LaunchFlow(state: State, units: seq<Unit>, dispatch: Dispatch)
    requires Flow(state, UnitItems(units)) && state.phase.Idle?
    ensures var counters := state.core.counters.(
              dispatchedBatches := state.core.counters.dispatchedBatches + 1,
              dispatchedRequests := state.core.counters.dispatchedRequests + |units|);
            Flow(state.(core := state.core.(counters := counters), chunked := state.chunked + |units|,
                        phase := InFlight(units),
                        dispatchInFlight := true, dispatches := state.dispatches + [dispatch]), multiset{})
  {
    hide CountOK, UnitItems, AcceptedOK;
  }

  lemma {:induction false} LaunchCalls(config: Config, state: State, after: State, dispatch: Dispatch)
    requires after.clock == state.clock && after.activations == state.activations
             && after.backpressureUntil == state.backpressureUntil
    requires after.phase.InFlight? && after.dispatches == state.dispatches + [dispatch]
    requires Calls(config, state) && DispatchOK(config, dispatch, state.clock)
             && Cooled(config, state, dispatch.startedAt)
    requires dispatch.startedAt == state.clock
    ensures Calls(config, after)
  {
    hide BatchOK, BatchSizeBytes;
  }

  lemma {:induction false} GiveUpFlow(state: State, units: seq<Unit>)
    requires Flow(state, UnitItems(units))
    ensures Flow(state.(chunked := state.chunked + |units|, failedEarly := state.failedEarly + |units|),
                 UnitItems(units))
  {
    hide CountOK, UnitItems, AcceptedOK;
  }

  lemma {:induction false} FailEarlyInv(config: Config, state: State, units: seq<Unit>, code: Code, message: Message,
                                        times: seq<int>)
    requires Flow(state, UnitItems(units)) && GaugesOK(config, state) && Calls(config, state) && state.phase.Idle?
    requires CoreOK(config, state.core, state.dispatches, state.clock) && KeysAbsent(units, state.core.cache)
    ensures Inv(config, state.(core := FailUnits(config, state.core, units, code, message, times),
                               chunked := state.chunked + |units|, failedEarly := state.failedEarly + |units|))
  {
    hide Flow, Calls, CoreOK, FailUnits, KeysAbsent;
    var counted := state.(chunked := state.chunked + |units|, failedEarly := state.failedEarly + |units|);
    GiveUpFlow(state, units);
    FailFlow(config, counted, units, code, message, times);
    FailCore(config, state.core, units, code, message, times, state.dispatches, state.clock);
    CallsFrame(config, state, counted.(core := FailUnits(config, state.core, units, code, message, times)));
  }

  lemma {:induction false} LaunchInv(config: Config, state: State, units: seq<Unit>, batch: RequestBatch)
    requires Flow(state, UnitItems(units)) && GaugesOK(config, state) && Calls(config, state) && state.phase.Idle?
    requires CoreOK(config, state.core, state.dispatches, state.clock)
    requires UnitsOK(units) && KeysAbsent(units, state.core.cache) && batch.requests == Primaries(units)
    requires DispatchOK(config, Dispatch(batch, units, state.clock, None), state.clock)
             && Cooled(config, state, state.clock)
    ensures var counters := state.core.counters.(
              dispatchedBatches := state.core.counters.dispatchedBatches + 1,
              dispatchedRequests := state.core.counters.dispatchedRequests + |units|);
            Inv(config, state.(core := state.core.(counters := counters), chunked := state.chunked + |units|,
                               phase := InFlight(units),
                               dispatchInFlight := true, dispatches := state.dispatches
                                 + [Dispatch(batch, units, state.clock, None)]))
  {
    hide Flow, Calls, CoreOK, DispatchOK, UnitsOK, KeysAbsent, Cooled, BatchOK, BatchSizeBytes;
    var dispatch := Dispatch(batch, units, state.clock, None);
    var counters := state.core.counters.(
      dispatchedBatches := state.core.counters.dispatchedBatches + 1,
      dispatchedRequests := state.core.counters.dispatchedRequests + |units|);
    var after := state.(core := state.core.(counters := counters), chunked := state.chunked + |units|,
                        phase := InFlight(units),
                        dispatchInFlight := true, dispatches := state.dispatches + [dispatch]);
    LaunchFlow(state, units, dispatch);
    LaunchCalls(config, state, after, dispatch);
    CoreOKLater(config, state.core, state.dispatches, after.dispatches, state.clock, state.clock);
    CoreOKCounters(config, state.core, after.core, after.dispatches, state.clock);
  }

  lemma {:induction false} BeginDispatchInv(config: Config, state: State, chunk: seq<Pending>, prepareAt: int,
                                            startAt: int, batchID: string, sentAt: string, times: seq<int>)
    requires Flow(state, multiset(chunk)) && GaugesOK(config, state) && Calls(config, state) && state.phase.Idle?
    requires CoreOK(config, state.core, state.dispatches, prepareAt) && prepareAt <= startAt == state.clock
    requires |chunk| <= config.settings.maxBatchRequests && Cooled(config, state, startAt)
    ensures Inv(config, BeginDispatch(config, state, chunk, prepareAt, startAt, batchID, sentAt, times))
  {
    hide Flow, Calls, CoreOK, UnitsOK, KeysAbsent, Prepare, FailUnits, BatchOK, BatchSizeBytes, MakeBatch, Cooled,
         UnitItems;
    var prep := Prepare(config, state.core, chunk, prepareAt);
    var units := prep.units;
    PrepareFlow(config, state, chunk, prepareAt);
    PrepareCore(config, state, chunk, prepareAt);
    var prepared := state.(core := prep.core, chunked := state.chunked + |chunk| - |units|);
    CallsFrame(config, state, prepared);
    CoreOKLater(config, prep.core, state.dispatches, state.dispatches, prepareAt, startAt);
    var batch := MakeBatch(Primaries(units), config.settings, batchID, sentAt);
    MakeBatchRequests(Primaries(units), config.settings, batchID, sentAt);
    if units == [] {
      NoUnits();
      assert prepared == BeginDispatch(config, state, chunk, prepareAt, startAt, batchID, sentAt, times);
    } else if !BatchOK(batch, config.validTime) {
      FailEarlyInv(config, prepared, units, WorkerError, BatchInvalid, times);
    } else if BatchSizeBytes(batch) > config.settings.maxBatchBytes {
      FailEarlyInv(config, prepared, units, BatchTooLarge, BatchTooBig, times);
    } else {
      CooledFrame(config, state, prepared, startAt);
      LaunchInv(config, prepared, units, batch);
    }
  }

  lemma {:induction false} MakeBatchRequests(items: seq<RequestItem>, settings: Settings, batchID: string,
                                             sentAt: string)
    ensures var batch := MakeBatch(items, settings, batchID, sentAt);
            batch.requests == items && batch.batchID == batchID && batch.sentAt == sentAt
  {
  }

  lemma {:induction false} CooledFrame(config: Config, a: State, b: State, at: int)
    requires Cooled(config, a, at) && a.activations == b.activations
    ensures Cooled(config, b, at)
  {
  }

  /** A tick that is not rejected goes on after every cooldown: its own reading may be older, but then a later reading
      had cleared the deadline. */
  lemma {:induction false} InactiveIsCooled(config: Config, state: State, readAt: int, startAt: int)
    requires Calls(config, state) && readAt <= state.clock <= startAt && !BackpressureActive(state, readAt)
    requires config.settings.backpressureCooldown > 0
    ensures Cooled(config, state, startAt)
  {
    hide DispatchOK;
  }

  /** The part of a tick that picks a chunk and dispatches it. */
  lemma {:induction false} PickTickInv(config: Config, state: State, event: Event)
    requires config.settings.Valid() && event.Proceed? && event.prepareAt <= event.startAt == state.clock
    requires Inv(config, state) && state.phase.Idle? && Cooled(config, state, event.startAt)
    requires CoreOK(config, state.core, state.dispatches, event.prepareAt)
    ensures var pick := PickChunk(config, state.core, state.pending);
            var picked := state.(core := pick.core, pending := pick.remaining,
                                 pendingInBatchBuffer := |pick.remaining|);
            Inv(config, if pick.chunk == [] then picked
                        else BeginDispatch(config, picked, pick.chunk, event.prepareAt, event.startAt, event.batchID,
                                           event.sentAt, event.times))
  {
    hide Flow, Calls, CoreOK, UnitsOK, KeysAbsent, PickChunk, BeginDispatch, Cooled;
    var pick := PickChunk(config, state.core, state.pending);
    var picked := state.(core := pick.core, pending := pick.remaining, pendingInBatchBuffer := |pick.remaining|);
    PickFlow(config, state);
    PickOK(config, state.core, state.pending, state.dispatches, event.prepareAt);
    PickOK(config, state.core, state.pending, state.dispatches, state.clock);
    ChunkBound(config, state.core, state.pending);
    CallsFrame(config, state, picked);
    CooledFrame(config, state, picked, event.startAt);
    if pick.chunk == [] {
      assert multiset(pick.chunk) == multiset{};
    } else {
      BeginDispatchInv(config, picked, pick.chunk, event.prepareAt, event.startAt, event.batchID, event.sentAt,
                       event.times);
    }
  }

  lemma {:induction false} ReadyInv(config: Config, state: State, startAt: int)
    requires Inv(config, state) && state.phase.Ticking? && state.clock <= startAt
    ensures Inv(config, state.(clock := startAt, phase := Idle))
  {
    hide CoreOK, Calls, Flow;
    var ready := state.(clock := startAt, phase := Idle);
    ClockCalls(config, state, startAt);
    CallsFrame(config, state.(clock := startAt), ready);
    FlowFrame(state, ready, multiset{});
    CoreOKLater(config, state.core, state.dispatches, state.dispatches, state.clock, startAt);
  }

  /** The rest of a tick: rejection, or the choice of a chunk and its dispatch. */
  lemma {:induction false} ProceedInv(config: Config, state: State, event: Event)
    requires event.Proceed? && state.phase.Ticking?
    requires config.settings.Valid() && Inv(config, state) && Enabled(config, state, event)
    ensures Inv(config, ProceedStep(config, state, event))
  {
    hide Flow, Calls, CoreOK, UnitsOK, KeysAbsent, AnswerError, PickChunk, BeginDispatch, FlightOK, Cooled;
    var readAt, ready := state.phase.readAt, state.(clock := event.startAt, phase := Idle);
    ReadyInv(config, state, event.startAt);
    var checked := AfterBackpressureCheck(ready, readAt);
    ClearCalls(config, ready, readAt);
    FlowFrame(ready, checked, multiset{});
    FlightFrame(ready, checked);
    if BackpressureActive(ready, readAt) {
      AnswerAllInv(config, checked, RunDelayed, RunStartDelayed);
    } else {
      InactiveIsCooled(config, state, readAt, event.startAt);
      CooledFrame(config, state, checked, event.startAt);
      CoreOKLater(config, state.core, state.dispatches, state.dispatches, state.clock, event.prepareAt);
      PickTickInv(config, checked, event);
    }
  }

  // ----- Run: the dispatcher returns -----

  lemma {:induction false} LandFlow(state: State, units: seq<Unit>)
    requires Flow(state, multiset{}) && state.phase == InFlight(units)
    ensures Flow(state.(phase := Idle), UnitItems(units))
  {
    hide CountOK, UnitItems, AcceptedOK;
  }

  /** The fields that a returning dispatcher call changes first. */
  ghost function Returned(state: State, event: Event): State
    requires event.Return? && state.dispatches != []
  {
    var index := |state.dispatches| - 1;
    state.(clock := event.endAt, phase := Idle, dispatchInFlight := false,
           dispatches := state.dispatches[index := state.dispatches[index].(reply := Some(event.reply))])
  }

  lemma {:induction false} ReturnedCalls(config: Config, state: State, event: Event)
    requires Calls(config, state) && event.Return? && state.dispatches != [] && state.clock <= event.endAt
    ensures Calls(config, Returned(state, event))
  {
    hide BatchOK, BatchSizeBytes;
    var after := Returned(state, event);
    forall i | 0 <= i < |after.dispatches| ensures DispatchOK(config, after.dispatches[i], after.clock) {
      assert DispatchOK(config, state.dispatches[i], state.clock);
    }
  }

  lemma {:induction false} ActivateCalls(config: Config, state: State, event: Event)
    requires Calls(config, state) && state.phase.InFlight? && event.Return? && state.dispatches != []
    requires state.clock <= event.returnAt <= event.endAt
    ensures Calls(config, Returned(state, event).(
              backpressureUntil := event.returnAt + config.settings.backpressureCooldown,
              activations := state.activations + [Activation(event.returnAt, |state.dispatches|)]))
  {
    hide BatchOK, BatchSizeBytes;
    ReturnedCalls(config, state, event);
    var last := |state.dispatches| - 1;
    forall k | 0 <= k < |state.activations|
      ensures event.endAt >= state.activations[k].at + config.settings.backpressureCooldown
    {
      assert state.activations[k].after <= last;
      assert state.dispatches[last].startedAt >= state.activations[k].at + config.settings.backpressureCooldown;
      assert DispatchOK(config, state.dispatches[last], state.clock);
    }
  }

  lemma {:induction false} ReturnedExtends(state: State, event: Event)
    requires event.Return? && FlightOK(state) && state.phase.InFlight?
    ensures Extends(state.dispatches, Returned(state, event).dispatches)
  {
  }

  lemma {:induction false} FailedReturnInv(config: Config, state: State, event: Event, after: State, code: Code,
                                           message: Message, times: seq<int>)
    requires Inv(config, state) && event.Return? && state.phase.InFlight? && Enabled(config, state, event)
    requires Calls(config, after)
    requires after == Returned(state, event).(
               backpressureUntil := after.backpressureUntil, activations := after.activations,
               core := FailUnits(config, state.core, state.phase.units, code, message, times))
    ensures Inv(config, after)
  {
    hide Flow, Calls, CoreOK, UnitsOK, KeysAbsent, FailUnits, UnitItems;
    var units := state.phase.units;
    var returned := Returned(state, event);
    ReturnedExtends(state, event);
    LandFlow(state, units);
    FlowFrame(state.(phase := Idle), returned, UnitItems(units));
    FailFlow(config, returned, units, code, message, times);
    FlowFrame(returned.(core := after.core), after, multiset{});
    CoreOKLater(config, state.core, state.dispatches, returned.dispatches, state.clock, event.endAt);
    FailCore(config, state.core, units, code, message, times, returned.dispatches, event.endAt);
  }

  lemma {:induction false} UnitsNormalized(state: State, units: seq<Unit>, k: nat)
    requires Flow(state, multiset{}) && state.phase == InFlight(units) && k < |units|
    ensures UnitNormalized(units[k])
  {
    InHandNormalized(state, multiset{});
    UnitItemsHave(units, k);
  }

  lemma {:induction false} UnitItemsHave(units: seq<Unit>, k: nat)
    requires k < |units|
    ensures units[k].primary in UnitItems(units)
    ensures forall d :: d in units[k].duplicates ==> d in UnitItems(units)
  {
    if k < |units| - 1 {
      UnitItemsHave(units[..|units| - 1], k);
    }
  }

  /** After an accepted reply each unit's primary has its own result in the package. */
  lemma {:induction false} AcceptedAnswers(state: State, event: Event, k: nat)
    requires FlightOK(state) && state.phase.InFlight? && event.Return? && event.reply.Package?
    requires k < |state.phase.units|
    requires var batch := state.dispatches[|state.dispatches| - 1].batch;
             Accepted(event.reply.pkg, batch.batchID, RequestIDs(batch.requests))
    ensures var request := state.phase.units[k].primary.request;
            var results := ResultsByID(event.reply.pkg.results);
            && request.requestID in results
            && AnsweredBy(Returned(state, event).dispatches[|state.dispatches| - 1], request,
                          results[request.requestID])
  {
    hide UnitsOK, KeysAbsent, PackageOK, ResultsByID;
    var index := |state.dispatches| - 1;
    var batch := state.dispatches[index].batch;
    var request := state.phase.units[k].primary.request;
    AcceptedCoversBatch(event.reply.pkg, batch.batchID, RequestIDs(batch.requests));
    assert batch.requests[k] == request;
    assert RequestIDs(batch.requests)[k] == request.requestID;
    assert request.requestID in RequestIDs(batch.requests);
    assert request in batch.requests;
  }

  lemma {:induction false} DeliveredFlow(config: Config, state: State, units: seq<Unit>,
                                         results: map<string, RequestResult>, index: nat, env: seq<UnitEnv>)
    requires Flow(state, UnitItems(units))
    ensures Flow(state.(core := DeliverUnits(config, state.core, units, results, index, env)), multiset{})
  {
    var core := DeliverUnits(config, state.core, units, results, index, env);
    DeliverUnitsLedger(config, state.core, units, results, index, env);
    hide DeliverUnits;
    assert multiset{} + UnitItems(units) == UnitItems(units);
    LedgerFlow(state, state.(core := core), UnitItems(units), multiset{});
  }

  lemma {:induction false} DeliveredReturnInv(config: Config, state: State, event: Event)
    requires Inv(config, state) && event.Return? && state.phase.InFlight? && Enabled(config, state, event)
             && event.reply.Package?
    requires var batch := state.dispatches[|state.dispatches| - 1].batch;
             Accepted(event.reply.pkg, batch.batchID, RequestIDs(batch.requests))
    ensures Inv(config, Returned(state, event).(
              core := DeliverUnits(config, state.core, state.phase.units, ResultsByID(event.reply.pkg.results),
                                   |state.dispatches| - 1, event.env)))
    ensures var results, index := ResultsByID(event.reply.pkg.results), |state.dispatches| - 1;
            OfPackage(state.core, DeliverUnits(config, state.core, state.phase.units, results, index, event.env),
                      results, index)
  {
    hide Flow, Calls, CoreOK, OfPackage, KeysAbsent, DeliverUnits, UnitItems, Accepted, ResultsByID, UnitOK,
         UnitNormalized, AnsweredBy, DistinctKeys;
    var units, index, results := state.phase.units, |state.dispatches| - 1, ResultsByID(event.reply.pkg.results);
    var returned := Returned(state, event);
    var after := returned.(core := DeliverUnits(config, state.core, units, results, index, event.env));
    ReturnedCalls(config, state, event);
    CallsFrame(config, returned, after);
    ReturnedExtends(state, event);
    LandFlow(state, units);
    FlowFrame(state.(phase := Idle), returned, UnitItems(units));
    DeliveredFlow(config, returned, units, results, index, event.env);
    CoreOKLater(config, state.core, state.dispatches, returned.dispatches, state.clock, event.endAt);
    forall k | 0 <= k < |units|
      ensures UnitNormalized(units[k])
      ensures units[k].primary.request.requestID in results
      ensures AnsweredBy(returned.dispatches[index], units[k].primary.request,
                         results[units[k].primary.request.requestID])
    {
      UnitsNormalized(state, units, k);
      AcceptedAnswers(state, event, k);
    }
    DeliverUnitsOK(config, state.core, units, results, index, event.env, returned.dispatches, event.endAt);
  }

  lemma {:induction false} FailureInv(config: Config, state: State, event: Event)
    requires event.Return? && state.phase.InFlight? && state.dispatches != []
    requires Inv(config, state) && Enabled(config, state, event) && event.reply.Failure?
    ensures Inv(config, ReturnStep(config, state, event))
  {
    hide Inv, Flow, GaugesOK, Calls, CoreOK, UnitsOK, KeysAbsent, FailUnits, IsRunDelayed, UnitItems;
    CallsOfInv(config, state);
    var after := ReturnStep(config, state, event);
    if IsRunDelayed(event.reply.message) {
      ActivateCalls(config, state, event);
      CallsFrame(config, after.(core := state.core), after);
      FailedReturnInv(config, state, event, after, RunDelayed, Reason(event.reply.message), Times(event.env));
    } else {
      ReturnedCalls(config, state, event);
      CallsFrame(config, Returned(state, event), after);
      FailedReturnInv(config, state, event, after, DispatchFailed, Reason(event.reply.message), Times(event.env));
    }
  }

  lemma {:induction false} RefusedInv(config: Config, state: State, event: Event)
    requires event.Return? && state.phase.InFlight? && state.dispatches != []
    requires Inv(config, state) && Enabled(config, state, event)
    ensures Inv(config, Returned(state, event).(
              core := FailUnits(config, state.core, state.phase.units, ResultPackageNotFound, VerificationFailed,
                                Times(event.env))))
  {
    hide Inv, Flow, GaugesOK, Calls, CoreOK, UnitsOK, KeysAbsent, FailUnits, UnitItems;
    CallsOfInv(config, state);
    var after := Returned(state, event).(
      core := FailUnits(config, state.core, state.phase.units, ResultPackageNotFound, VerificationFailed,
                        Times(event.env)));
    ReturnedCalls(config, state, event);
    CallsFrame(config, Returned(state, event), after);
    FailedReturnInv(config, state, event, after, ResultPackageNotFound, VerificationFailed, Times(event.env));
  }

  lemma {:induction false} ReturnInv(config: Config, state: State, event: Event)
    requires event.Return? && state.phase.InFlight? && state.dispatches != []
    requires Inv(config, state) && Enabled(config, state, event)
    ensures Inv(config, ReturnStep(config, state, event))
  {
    hide Inv, Flow, GaugesOK, Calls, CoreOK, UnitsOK, KeysAbsent, FailUnits, DeliverUnits, Accepted, ResultsByID,
         IsRunDelayed, UnitItems;
    if event.reply.Failure? {
      FailureInv(config, state, event);
    } else {
      RefusedInv(config, state, event);
      var batch := state.dispatches[|state.dispatches| - 1].batch;
      if Accepted(event.reply.pkg, batch.batchID, RequestIDs(batch.requests)) {
        DeliveredReturnInv(config, state, event);
      }
    }
  }

  lemma {:induction false} CallsOfInv(config: Config, state: State)
    requires Inv(config, state)
    ensures Calls(config, state) && FlightOK(state)
  {
  }

  // ----- every run -----

  lemma {:induction false} NextInv(config: Config, state: State, event: Event)
    requires config.settings.Valid() && Inv(config, state) && Enabled(config, state, event)
    ensures Inv(config, Next(config, state, event))
  {
    hide Inv, CheckStep, EnqueueStep, RecordStep, ReceiveStep, TickStep, ProceedStep, ReturnStep, StopStep;
    match event
    case Check(item, verdict, at) => CheckInv(config, state, item, verdict, at);
    case Enqueue(offer) => EnqueueInv(config, state, offer);
    case Record => RecordInv(config, state);
    case Receive => ReceiveInv(config, state);
    case Tick(tickAt) => TickInv(config, state, tickAt);
    case Proceed(_, _, _, _, _) => ProceedInv(config, state, event);
    case Return(_, _, _, _) =>
      if state.dispatches != [] {
        ReturnInv(config, state, event);
      }
    case Stop => StopInv(config, state);
  }

  lemma {:induction false} StopInv(config: Config, state: State)
    requires Inv(config, state) && state.phase.Idle?
    ensures Inv(config, StopStep(config, state))
  {
    AnswerAllInv(config, state, WorkerError, AgentStopped);
  }

  /** The invariant holds after every run. */
  lemma {:induction false} RunInv(config: Config, start: int, events: seq<Event>)
    requires config.settings.Valid() && start >= 0 && IsRun(config, start, events)
    ensures Inv(config, After(config, start, events))
  {
    hide Inv, Next, Enabled;
    if events == [] {
      InitInv(config, start);
    } else {
      var last := |events| - 1;
      RunInv(config, start, events[..last]);
      NextInv(config, After(config, start, events[..last]), events[last]);
    }
  }
}
