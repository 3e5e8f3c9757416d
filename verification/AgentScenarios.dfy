/** Runs that show where the agent does less than one might expect: an outage in fail-open mode, a chunk that is
    admitted and then found too large, and a tick that dispatches although it read the clock within the cooldown. */
module AgentScenarios {
  import opened Text
  import opened Protocol
  import opened Json
  import opened Validation
  import opened Wire
  import opened AgentModel
  import opened AgentOrigins
  import opened AgentRuns
  import opened Chunk

  /** No Submit is under way, and no deadline is set. */
  ghost predicate Quiet(state: State) {
    state.queue == [] && state.offered == [] && state.unrecorded == 0 && state.backpressureUntil == 0
  }

  ghost predicate SameHistory(a: State, b: State) {
    && a.core.cache == b.core.cache && a.core.outbox == b.core.outbox && a.core.stores == b.core.stores
    && a.dispatches == b.dispatches && a.activations == b.activations
  }

  function UnitFor(item: Pending): Unit {
    Unit(item, [], CacheKey(item.request), Cacheable(item.request))
  }

  function BatchFor(config: Config, item: Pending, go: Event): RequestBatch
    requires go.Proceed?
  {
    MakeBatch([item.request], config.settings, go.batchID, go.sentAt)
  }

  /** A batch of this one request passes every check. */
  ghost predicate FitsAlone(config: Config, item: Pending, go: Event) {
    && go.Proceed? && EstimatedSize([item.request], config.settings) <= config.settings.maxBatchBytes
    && BatchOK(BatchFor(config, item, go), config.validTime)
    && BatchSizeBytes(BatchFor(config, item, go)) <= config.settings.maxBatchBytes
  }

  ghost predicate FitsAt(config: Config, item: Pending, at: int, batchID: string, sentAt: string) {
    forall times: seq<int> :: FitsAlone(config, item, Proceed(at, at, batchID, sentAt, times))
  }

  // ----- the stretches that the runs are made of -----

  function Arrival(item: RequestItem, at: int): seq<Event> {
    [Check(item, None, at), Enqueue(0), Record, Receive]
  }

  /** A request is submitted, accepted and received into the buffer. */
  lemma {:induction false} Arrives(config: Config, start: int, events: seq<Event>, state: State, item: RequestItem,
                                   at: int)
    returns (next: State)
    requires config.settings.Valid() && LeadsTo(config, start, events, state)
    requires state.phase.Idle? && Quiet(state) && Normalized(item)
    ensures LeadsTo(config, start, events + Arrival(item, at), next)
    ensures next.phase.Idle? && Quiet(next) && SameHistory(state, next) && next.clock == Later(state.clock, at)
    ensures next.accepted == state.accepted + [Pending(item, |state.accepted|)]
    ensures next.pending == state.pending + [Pending(item, |state.accepted|)]
  {
    hide LeadsTo, Normalized;
    var checked := CheckStep(state, item, None, at);
    LeadsOn(config, start, events, state, Check(item, None, at));
    var queued := EnqueueStep(config, checked, 0);
    LeadsOn(config, start, events + [Check(item, None, at)], checked, Enqueue(0));
    var counted := RecordStep(queued);
    LeadsOn(config, start, events + [Check(item, None, at)] + [Enqueue(0)], queued, Record);
    next := ReceiveStep(counted);
    LeadsOn(config, start, events + [Check(item, None, at)] + [Enqueue(0)] + [Record], counted, Receive);
    assert events + [Check(item, None, at)] + [Enqueue(0)] + [Record] + [Receive] == events + Arrival(item, at);
  }

  lemma {:induction false} PicksOne(config: Config, core: Core, item: Pending)
    requires config.settings.maxBatchRequests > 0
    requires EstimatedSize([item.request], config.settings) <= config.settings.maxBatchBytes
    ensures PickChunk(config, core, [item]) == Pick(core, [item], [])
  {
    hide EstimatedSize, ErrorResult;
    assert [item][..0] == [] && [] + [item] == [item];
    assert Requests([item]) == [item.request];
  }

  lemma {:induction false} PreparesOne(config: Config, core: Core, item: Pending, now: int)
    requires core.cache == map[]
    ensures Prepare(config, core, [item], now).core == core
    ensures Prepare(config, core, [item], now).units == [UnitFor(item)]
  {
    hide LastStore;
    assert [item][..0] == [];
  }

  /** A tick that finds one request, an empty cache and no deadline sends it. */
  lemma {:induction false} GoesOn(config: Config, start: int, events: seq<Event>, state: State, item: Pending,
                                  go: Event)
    returns (next: State)
    requires config.settings.Valid() && LeadsTo(config, start, events, state)
    requires state.phase.Ticking? && state.pending == [item] && state.core.cache == map[]
             && state.backpressureUntil == 0
    requires FitsAlone(config, item, go) && state.clock <= go.prepareAt <= go.startAt
    ensures LeadsTo(config, start, events + [go], next)
    ensures next.phase == InFlight([UnitFor(item)]) && next.clock == go.startAt && next.pending == []
    ensures next.core.cache == map[] && next.core.outbox == state.core.outbox && next.core.stores == state.core.stores
    ensures next.dispatches == state.dispatches
            + [Dispatch(BatchFor(config, item, go), [UnitFor(item)], go.startAt, None)]
    ensures next.activations == state.activations && next.backpressureUntil == 0 && next.accepted == state.accepted
    ensures next.queue == state.queue && next.offered == state.offered && next.unrecorded == state.unrecorded
  {
    hide LeadsTo, BatchOK, BatchSizeBytes, EstimatedSize, MakeBatch, PickChunk, Prepare, FailUnits;
    PicksOne(config, state.core, item);
    PreparesOne(config, state.core, item, go.prepareAt);
    LeadsOn(config, start, events, state, go);
    assert Primaries([UnitFor(item)]) == [item.request];
    next := ProceedStep(config, state, go);
  }

  lemma {:induction false} TicksOver(config: Config, start: int, events: seq<Event>, state: State, tickAt: int)
    returns (next: State)
    requires LeadsTo(config, start, events, state)
    requires state.phase.Idle? && state.pending != [] && state.clock <= tickAt
    requires EvictExpired(state.core.cache, config.settings, tickAt) == map[]
    ensures LeadsTo(config, start, events + [Tick(tickAt)], next)
    ensures next == state.(clock := tickAt, core := state.core.(cache := map[]), phase := Ticking(tickAt))
  {
    hide LeadsTo, EvictExpired;
    LeadsOn(config, start, events, state, Tick(tickAt));
    next := TickStep(config, state, tickAt);
  }

  /** An empty cache, one unit: a failed dispatch gives its request an error, in either reliability mode. */
  lemma {:induction false} FailsOne(config: Config, core: Core, item: Pending, code: Code, message: Message,
                                    times: seq<int>)
    requires core.cache == map[]
    ensures var after := FailUnits(config, core, [UnitFor(item)], code, message, times);
            && after.cache == map[] && after.stores == core.stores && |after.outbox| == |core.outbox| + 1
            && after.outbox[..|core.outbox|] == core.outbox
            && after.outbox[|core.outbox|].item == item && !after.outbox[|core.outbox|].result.ok
  {
    hide ErrorResult;
    assert [UnitFor(item)][..0] == [];
  }

  /** The dispatcher fails; a failure to start sets the deadline. */
  lemma {:induction false} ReturnsError(config: Config, start: int, events: seq<Event>, state: State, item: Pending,
                                        message: string, at: int)
    returns (next: State)
    requires LeadsTo(config, start, events, state) && state.dispatches != []
    requires state.phase == InFlight([UnitFor(item)]) && state.core.cache == map[] && state.clock <= at
    ensures LeadsTo(config, start, events + [Return(Failure(message), at, at, [UnitEnv(at, at, "")])], next)
    ensures next.phase.Idle? && next.clock == at && next.core.cache == map[] && next.pending == state.pending
    ensures next.queue == state.queue && next.offered == state.offered && next.unrecorded == state.unrecorded
    ensures next.accepted == state.accepted && |next.dispatches| == |state.dispatches|
    ensures IsRunDelayed(message) ==>
              next.backpressureUntil == at + config.settings.backpressureCooldown
              && next.activations == state.activations + [Activation(at, |state.dispatches|)]
    ensures !IsRunDelayed(message) ==> next.backpressureUntil == state.backpressureUntil
    ensures |next.core.outbox| == |state.core.outbox| + 1
            && next.core.outbox[..|state.core.outbox|] == state.core.outbox
    ensures next.core.outbox[|state.core.outbox|].item == item && !next.core.outbox[|state.core.outbox|].result.ok
  {
    hide LeadsTo, FailUnits, IsRunDelayed;
    var event := Return(Failure(message), at, at, [UnitEnv(at, at, "")]);
    LeadsOn(config, start, events, state, event);
    next := ReturnStep(config, state, event);
    FailsOne(config, state.core, item, if IsRunDelayed(message) then RunDelayed else DispatchFailed, Reason(message),
             Times(event.env));
  }

  // ----- an admitted chunk that is too large -----

  /** A request whose estimated batch fills the limit exactly is admitted to a chunk, and its batch of one byte more is
      then refused: the caller of a request within the limit is told that it is too large. */
  lemma {:induction false} AdmittedThenRefused(config: Config, item: RequestItem, go: Event) returns (state: State)
    requires config.settings.Valid() && Normalized(item) && go.Proceed? && 0 <= go.prepareAt <= go.startAt
    requires config.settings.maxBatchBytes == EstimatedSize([item], config.settings)
    requires PlainAscii(go.batchID) && |go.batchID| == RANDOM_ID_LENGTH && PlainAscii(go.sentAt) && |go.sentAt| == 20
    requires BatchOK(MakeBatch([item], config.settings, go.batchID, go.sentAt), config.validTime)
    ensures LeadsTo(config, 0, Arrival(item, 0) + [Tick(0)] + [go], state)
    ensures PickChunk(config, Init(0).core, [Pending(item, 0)]).chunk == [Pending(item, 0)]
    ensures state.dispatches == [] && |state.core.outbox| == 1 && state.core.outbox[0].item == Pending(item, 0)
    ensures state.core.outbox[0].result.error.Some?
            && state.core.outbox[0].result.error.value.code == CodeText(BatchTooLarge)
  {
    hide LeadsTo, Normalized, BatchOK, BatchSizeBytes, EstimatedSize, MakeBatch, PickChunk, Prepare, FailUnits,
         CodeText;
    StartLeads(config);
    var arrived := Arrives(config, 0, [], Init(0), item, 0);
    assert [] + Arrival(item, 0) == Arrival(item, 0);
    var ticking := TicksOver(config, 0, Arrival(item, 0), arrived, 0);
    var one := Pending(item, 0);
    PicksOne(config, Init(0).core, one);
    PicksOne(config, ticking.core, one);
    PreparesOne(config, ticking.core, one, go.prepareAt);
    SizeGap([item], config.settings, go.batchID, go.sentAt);
    assert Primaries([UnitFor(one)]) == [item];
    LeadsOn(config, 0, Arrival(item, 0) + [Tick(0)], ticking, go);
    state := ProceedStep(config, ticking, go);
    assert ticking.pending == [one];
    TooLargeError(config, ticking.core, one, go.times);
  }

  lemma {:induction false} StartLeads(config: Config)
    ensures LeadsTo(config, 0, [], Init(0))
    ensures EvictExpired(map[], config.settings, 0) == map[]
  {
  }

  lemma {:induction false} TooLargeError(config: Config, core: Core, item: Pending, times: seq<int>)
    ensures var after := FailUnits(config, core, [UnitFor(item)], BatchTooLarge, BatchTooBig, times);
            && |after.outbox| == |core.outbox| + 1 && after.outbox[|core.outbox|].item == item
            && after.outbox[|core.outbox|].result.error.Some?
            && after.outbox[|core.outbox|].result.error.value.code == CodeText(BatchTooLarge)
  {
    hide CodeText, MessageText;
    assert [UnitFor(item)][..0] == [];
  }

  // ----- an outage in fail-open mode -----

  /** What the cache keeps of a result for this item. */
  function Kept(config: Config, item: Pending, raw: RequestResult): RequestResult {
    CloneFor(Sanitize(config.redaction, raw), item.request.requestID)
  }

  /** An empty cache, one cacheable unit, a successful result: it is answered and stored. */
  lemma {:induction false} DeliversOne(config: Config, core: Core, item: Pending, raw: RequestResult, batch: nat,
                                       at: int)
    requires config.settings.CacheEnabled() && core.cache == map[] && Cacheable(item.request)
    requires raw.requestID == item.request.requestID && ShouldCache(raw)
    ensures var after := DeliverUnits(config, core, [UnitFor(item)], ResultsByID([raw]), batch, [UnitEnv(at, at, "")]);
            && after.cache == map[CacheKey(item.request) := CacheEntry(at + config.settings.cacheTTL,
                Kept(config, item, raw), at)]
            && |after.outbox| == |core.outbox| + 1
  {
    hide CacheKey, RedactHeaders, Cacheable;
    assert [UnitFor(item)][..0] == [] && [raw][..0] == [];
    assert ResultsByID([raw]) == map[raw.requestID := raw];
  }

  lemma {:induction false} ReturnsResult(config: Config, start: int, events: seq<Event>, state: State, item: Pending,
                                         pkg: ResultPackage, at: int) returns (next: State)
    requires LeadsTo(config, start, events, state) && state.dispatches != []
    requires state.phase == InFlight([UnitFor(item)]) && state.core.cache == map[] && state.clock <= at
    requires config.settings.CacheEnabled() && Cacheable(item.request)
    requires |pkg.results| == 1 && pkg.results[0].requestID == item.request.requestID && ShouldCache(pkg.results[0])
    requires var batch := state.dispatches[|state.dispatches| - 1].batch;
             Accepted(pkg, batch.batchID, RequestIDs(batch.requests))
    ensures LeadsTo(config, start, events + [Return(Package(pkg), at, at, [UnitEnv(at, at, "")])], next)
    ensures next.phase.Idle? && next.clock == at && next.pending == state.pending && next.accepted == state.accepted
    ensures next.queue == state.queue && next.offered == state.offered && next.unrecorded == state.unrecorded
    ensures next.backpressureUntil == state.backpressureUntil && next.activations == state.activations
    ensures next.core.cache
            == map[CacheKey(item.request) := CacheEntry(at + config.settings.cacheTTL,
                                                        Kept(config, item, pkg.results[0]), at)]
    ensures |next.core.outbox| == |state.core.outbox| + 1
  {
    hide LeadsTo, DeliverUnits, FailUnits, Accepted, ResultsByID, CacheKey, Cacheable, ShouldCache, Kept;
    var event := Return(Package(pkg), at, at, [UnitEnv(at, at, "")]);
    LeadsOn(config, start, events, state, event);
    next := ReturnStep(config, state, event);
    assert pkg.results == [pkg.results[0]];
    DeliversOne(config, state.core, item, pkg.results[0], |state.dispatches| - 1, at);
  }

  lemma {:induction false} OneExpires(config: Config, key: string, result: RequestResult, at: int, later: int)
    requires config.settings.CacheEnabled() && later > at + config.settings.cacheTTL
    ensures EvictExpired(map[key := CacheEntry(at + config.settings.cacheTTL, result, at)], config.settings, later)
            == map[]
  {
  }

  /** The first half of the outage: a request is answered by the worker, stored at time 1, and asked for again. */
  lemma {:induction false} StoredAndAskedAgain(config: Config, first: RequestItem, second: RequestItem,
                                               pkg: ResultPackage,
                                               batchID: string, sentAt: string)
    returns (events: seq<Event>, held: State)
    requires config.settings.Valid() && config.settings.CacheEnabled()
    requires Normalized(first) && Normalized(second) && Cacheable(first)
    requires FitsAt(config, Pending(first, 0), 0, batchID, sentAt)
    requires |pkg.results| == 1 && pkg.results[0].requestID == first.requestID && ShouldCache(pkg.results[0])
    requires Accepted(pkg, batchID, [first.requestID])
    ensures LeadsTo(config, 0, events, held)
    ensures held.phase.Idle? && Quiet(held) && held.clock == 1 && held.pending == [Pending(second, 1)]
    ensures held.core.cache
            == map[CacheKey(first) := CacheEntry(1 + config.settings.cacheTTL,
                                                 Kept(config, Pending(first, 0), pkg.results[0]), 1)]
    ensures |held.core.outbox| == 1
  {
    hide LeadsTo, Normalized, FitsAlone, Accepted, ShouldCache, Kept, CacheKey, Cacheable, EvictExpired;
    StartLeads(config);
    var one, go := Pending(first, 0), Proceed(0, 0, batchID, sentAt, []);
    var arrived := Arrives(config, 0, [], Init(0), first, 0);
    var ticking := TicksOver(config, 0, [] + Arrival(first, 0), arrived, 0);
    assert ticking.pending == [one];
    var flying := GoesOn(config, 0, [] + Arrival(first, 0) + [Tick(0)], ticking, one, go);
    events := [] + Arrival(first, 0) + [Tick(0)] + [go];
    BatchForOne(config, one, go);
    var stored := ReturnsResult(config, 0, events, flying, one, pkg, 1);
    events := events + [Return(Package(pkg), 1, 1, [UnitEnv(1, 1, "")])];
    held := Arrives(config, 0, events, stored, second, 1);
    events := events + Arrival(second, 1);
  }

  lemma {:induction false} BatchForOne(config: Config, item: Pending, go: Event)
    requires go.Proceed?
    ensures BatchFor(config, item, go).batchID == go.batchID
    ensures RequestIDs(BatchFor(config, item, go).requests) == [item.request.requestID]
  {
  }

  /** A run in fail-open mode with a stale limit beyond the TTL: a response was stored at time 1, and one nanosecond
      after it expired the dispatcher fails for the same call, made again. The cache had held a response that the guard
      would have served, and the caller is given the error. */
  lemma {:induction false} StaleResponseNotServed(config: Config, first: RequestItem, second: RequestItem,
                                                  pkg: ResultPackage, batchID: string, otherID: string, sentAt: string,
                                                  message: string)
    returns (events: seq<Event>, held: State, after: State)
    requires config.settings.Valid() && config.settings.CacheEnabled() && config.settings.failOpen
    requires config.settings.staleIfErrorTTL > config.settings.cacheTTL
    requires Normalized(first) && Cacheable(first) && second == first.(requestID := second.requestID)
    requires FitsAt(config, Pending(first, 0), 0, batchID, sentAt)
    requires var late := config.settings.cacheTTL + 2;
             FitsAt(config, Pending(second, 1), late, otherID, sentAt)
    requires |pkg.results| == 1 && pkg.results[0].requestID == first.requestID && ShouldCache(pkg.results[0])
    requires Accepted(pkg, batchID, [first.requestID])
    ensures var late := config.settings.cacheTTL + 2;
            && LeadsTo(config, 0, events, held)
            && LeadsTo(config, 0, events + [Tick(late)] + [Proceed(late, late, otherID, sentAt, [])]
                                  + [Return(Failure(message), late, late, [UnitEnv(late, late, "")])], after)
            && FindStale(held.core.cache, config.settings, CacheKey(second), late)
               == Some(Kept(config, Pending(first, 0), pkg.results[0]))
            && |after.core.outbox| == 2 && after.core.outbox[1].item == Pending(second, 1)
               && !after.core.outbox[1].result.ok
  {
    hide LeadsTo, Normalized, FitsAlone, Accepted, ShouldCache, Kept, EvictExpired, IsRunDelayed;
    SameCallSameKey(first, second);
    hide CacheKey, Cacheable;
    events, held := StoredAndAskedAgain(config, first, second, pkg, batchID, sentAt);
    var late, two := config.settings.cacheTTL + 2, Pending(second, 1);
    var go := Proceed(late, late, otherID, sentAt, []);
    OneExpires(config, CacheKey(first), Kept(config, Pending(first, 0), pkg.results[0]), 1, late);
    var ticking := TicksOver(config, 0, events, held, late);
    var flying := GoesOn(config, 0, events + [Tick(late)], ticking, two, go);
    after := ReturnsError(config, 0, events + [Tick(late)] + [go], flying, two, message, late);
  }

  lemma {:induction false} SameCallSameKey(a: RequestItem, b: RequestItem)
    requires b == a.(requestID := b.requestID) && Cacheable(a) && Normalized(a)
    ensures CacheKey(a) == CacheKey(b) && CacheKey(a) != "" && Normalized(b)
  {
  }

  // ----- a tick that dispatches within the cooldown -----

  /** The first half: one request's dispatch fails to start at time 2, which sets the deadline, and another waits. */
  lemma {:induction false} DelayedWithOneWaiting(config: Config, first: RequestItem, second: RequestItem,
                                                 batchID: string,
                                                 sentAt: string) returns (events: seq<Event>, state: State)
    requires config.settings.Valid() && Normalized(first) && Normalized(second)
    requires FitsAt(config, Pending(first, 0), 1, batchID, sentAt)
    ensures LeadsTo(config, 0, events, state)
    ensures state.phase.Idle? && state.clock == 2 && state.pending == [Pending(second, 1)] && state.core.cache == map[]
    ensures state.offered == [] && |state.dispatches| == 1
    ensures state.activations == [Activation(2, 1)]
            && state.backpressureUntil == 2 + config.settings.backpressureCooldown
  {
    hide LeadsTo, Normalized, FitsAlone, EvictExpired, IsRunDelayed;
    StartLeads(config);
    EmptyEvicts(config, 1);
    var one, go := Pending(first, 0), Proceed(1, 1, batchID, sentAt, []);
    var arrived := Arrives(config, 0, [], Init(0), first, 0);
    var ticking := TicksOver(config, 0, [] + Arrival(first, 0), arrived, 1);
    assert ticking.pending == [one];
    var flying := GoesOn(config, 0, [] + Arrival(first, 0) + [Tick(1)], ticking, one, go);
    events := [] + Arrival(first, 0) + [Tick(1)] + [go];
    var checked := CheckStep(flying, second, None, 1);
    LeadsOn(config, 0, events, flying, Check(second, None, 1));
    var queued := EnqueueStep(config, checked, 0);
    LeadsOn(config, 0, events + [Check(second, None, 1)], checked, Enqueue(0));
    events := events + [Check(second, None, 1)] + [Enqueue(0)];
    DelayedText();
    var failed := ReturnsError(config, 0, events, queued, one, CodeText(RunDelayed), 2);
    events := events + [Return(Failure(CodeText(RunDelayed)), 2, 2, [UnitEnv(2, 2, "")])];
    state := ReceiveStep(failed);
    LeadsOn(config, 0, events, failed, Receive);
    events := events + [Receive];
  }

  lemma {:induction false} EmptyEvicts(config: Config, at: int)
    ensures EvictExpired(map[], config.settings, at) == map[]
  {
  }

  lemma {:induction false} DelayedText()
    ensures IsRunDelayed(CodeText(RunDelayed))
  {
    assert OccursAt(CodeText(RunDelayed), CodeText(RunDelayed), 0);
  }

  /** A tick reads the clock one nanosecond before the deadline; before it looks at the deadline a Submit reads the
      deadline's own time and clears it; the tick dispatches. The dispatch itself starts at the deadline. */
  lemma {:induction false} DispatchesWithinCooldown(config: Config, first: RequestItem, second: RequestItem,
                                                    third: RequestItem, batchID: string, otherID: string,
                                                    sentAt: string)
    returns (events: seq<Event>, after: State)
    requires config.settings.Valid() && Normalized(first) && Normalized(second) && Normalized(third)
    requires FitsAt(config, Pending(first, 0), 1, batchID, sentAt)
    requires var deadline := 2 + config.settings.backpressureCooldown;
             FitsAt(config, Pending(second, 1), deadline, otherID, sentAt)
    ensures var deadline := 2 + config.settings.backpressureCooldown;
            && LeadsTo(config, 0, events + [Tick(deadline - 1)] + [Check(third, None, deadline)]
                                  + [Proceed(deadline, deadline, otherID, sentAt, [])], after)
            && after.activations == [Activation(2, 1)] && |after.dispatches| == 2
            && after.dispatches[1].units == [UnitFor(Pending(second, 1))] && after.dispatches[1].startedAt == deadline
  {
    hide LeadsTo, Normalized, FitsAlone, EvictExpired, IsRunDelayed;
    var state;
    events, state := DelayedWithOneWaiting(config, first, second, batchID, sentAt);
    var deadline := 2 + config.settings.backpressureCooldown;
    var go := Proceed(deadline, deadline, otherID, sentAt, []);
    EmptyEvicts(config, deadline - 1);
    var ticking := TicksOver(config, 0, events, state, deadline - 1);
    LeadsOn(config, 0, events + [Tick(deadline - 1)], ticking, Check(third, None, deadline));
    var cleared := CheckStep(ticking, third, None, deadline);
    after := GoesOn(config, 0, events + [Tick(deadline - 1)] + [Check(third, None, deadline)], cleared,
                    Pending(second, 1), go);
  }
}
