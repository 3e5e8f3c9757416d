/** The agent of client/internal/agent/agent.go as a state machine: every goroutine step is a function of the
    state and of what the environment supplies (clock readings, identifiers, the dispatcher's reply). */
module AgentModel {
  import opened Text
  import opened Protocol
  import opened Validation
  import opened Wire

  /** Text helpers whose rules (regular expressions, URL parsing, Unicode case) are not modelled. */
  datatype Redaction = Redaction(text: string -> string, url: string -> string, headerName: string -> string)

  datatype Config = Config(settings: Settings, redaction: Redaction, validTime: string -> bool)

  /** A request and its result channel, named by a number. */
  datatype Pending = Pending(request: RequestItem, channel: nat)

  datatype Unit = Unit(primary: Pending, duplicates: seq<Pending>, cacheKey: string, cacheable: bool)

  datatype CacheEntry = CacheEntry(expiresAt: int, result: RequestResult, storedAt: int)

  datatype Counters = Counters(
    submitted: nat, localRejected: nat, dispatchedBatches: nat, dispatchedRequests: nat,
    completed: nat, failed: nat, cacheHits: nat, deduplicated: nat, failOpenServed: nat)

  /** History: why an answer was sent. A cache hit records the store it found, when, and how many stores there were. */
  datatype Origin =
    | Local
    | FromCache(store: nat, lookedUpAt: int, seen: nat)
    | FromStale(staleAt: int)
    | FromBatch(batch: nat, asked: RequestItem, raw: RequestResult)

  /** History: one send on a result channel. */
  datatype Send = Send(item: Pending, result: RequestResult, origin: Origin)

  /** History: one write to the cache, and the key that made room for it. */
  datatype Store = Store(key: string, result: RequestResult, at: int, batch: nat, asked: RequestItem,
                         raw: RequestResult, evicted: Option<string>)

  /** What the Run goroutine updates while it handles a chunk. */
  datatype Core = Core(cache: map<string, CacheEntry>, counters: Counters, outbox: seq<Send>, stores: seq<Store>)

  // ----- results -----

  const REDACTED_VALUE := "[REDACTED]"
  const SENSITIVE_HEADERS := ["authorization", "proxy-authorization", "cookie", "set-cookie", "x-api-key"]

  /** The error codes that the agent gives of its own accord to requests that it had accepted. */
  datatype Code = RunDelayed | DispatchFailed | WorkerError | ResultPackageNotFound | BatchTooLarge

  function CodeText(code: Code): string {
    match code
    case RunDelayed => "RUN_DELAYED"
    case DispatchFailed => "DISPATCH_FAILED"
    case WorkerError => "WORKER_ERROR"
    case ResultPackageNotFound => "RESULT_PACKAGE_NOT_FOUND"
    case BatchTooLarge => "BATCH_TOO_LARGE"
  }

  datatype Message =
    | RequestTooBig | BatchTooBig | BatchInvalid | RunStartDelayed | AgentStopped | VerificationFailed | ResultMissing
    | Reason(text: string)
    | Redacted(message: Message)

  function MessageText(redaction: Redaction, message: Message): string {
    match message
    case RequestTooBig => "request exceeds max batch bytes"
    case BatchTooBig => "request batch exceeds max bytes"
    case BatchInvalid => "request batch validation failed"
    case RunStartDelayed => "GitHub Actions run start delayed"
    case AgentStopped => "agent stopped before dispatch"
    case VerificationFailed => "result package verification failed"
    case ResultMissing => "request result missing from package"
    case Reason(text) => text
    case Redacted(inner) => redaction.text(MessageText(redaction, inner))
  }

  function ErrorResult(redaction: Redaction, requestID: string, code: Code, message: Message): (r: RequestResult)
    ensures r.requestID == requestID && !r.ok && r.response.None? && r.error.Some?
  {
    RequestResult(requestID, false, None,
                  Some(ResultError(CodeText(code), redaction.text(MessageText(redaction, message)))))
  }

  function CloneFor(result: RequestResult, requestID: string): RequestResult {
    result.(requestID := requestID)
  }

  function RedactHeaders(redaction: Redaction, headers: map<string, string>): map<string, string> {
    map key | key in headers :: if redaction.headerName(key) in SENSITIVE_HEADERS then REDACTED_VALUE else headers[key]
  }

  function Sanitize(redaction: Redaction, result: RequestResult): RequestResult {
    result.(
      error := if result.error.None? then None
               else Some(result.error.value.(message := redaction.text(result.error.value.message))),
      response := if result.response.None? then None
                  else
                    var response := result.response.value;
                    Some(response.(headers := RedactHeaders(redaction, response.headers),
                                   url := redaction.url(response.url))))
  }

  predicate ShouldCache(result: RequestResult) {
    result.ok && result.response.Some? && 200 <= result.response.value.status <= 299
  }

  // ----- cache -----

  function FindEntry(cache: map<string, CacheEntry>, settings: Settings, key: string, now: int): Option<RequestResult> {
    if settings.CacheEnabled() && key != "" && key in cache && now <= cache[key].expiresAt
    then Some(cache[key].result) else None
  }

  /** The cache after a lookup: an entry found expired is deleted. */
  function AfterLookup(cache: map<string, CacheEntry>, settings: Settings, key: string,
                       now: int): map<string, CacheEntry> {
    if settings.CacheEnabled() && key != "" && key in cache && now > cache[key].expiresAt then cache - {key} else cache
  }

  function FindStale(cache: map<string, CacheEntry>, settings: Settings, key: string, now: int): Option<RequestResult> {
    if settings.CacheEnabled() && key != "" && settings.staleIfErrorTTL > 0 && key in cache
       && cache[key].storedAt != 0 && now - cache[key].storedAt <= settings.staleIfErrorTTL
    then Some(cache[key].result) else None
  }

  function EvictExpired(cache: map<string, CacheEntry>, settings: Settings, now: int): map<string, CacheEntry> {
    if settings.CacheEnabled() then map key | key in cache && now <= cache[key].expiresAt :: cache[key] else cache
  }

  ghost predicate IsVictim(cache: map<string, CacheEntry>, key: string) {
    key in cache && forall other :: other in cache ==> cache[key].expiresAt <= cache[other].expiresAt
  }

  lemma {:induction false} VictimExists(keys: set<string>, cache: map<string, CacheEntry>)
    requires keys != {} && keys <= cache.Keys
    ensures exists key :: key in keys && forall other :: other in keys
                                           ==> cache[key].expiresAt <= cache[other].expiresAt
  {
    var some :| some in keys;
    if keys != {some} {
      VictimExists(keys - {some}, cache);
      var key :| key in keys - {some}
        && forall other :: other in keys - {some} ==> cache[key].expiresAt <= cache[other].expiresAt;
      var best := if cache[some].expiresAt < cache[key].expiresAt then some else key;
      assert forall other :: other in keys ==> other == some || other in keys - {some};
      assert best in keys;
    }
  }

  /** Some entry that expires first; the hint stands for the order in which Go happens to walk the map. */
  ghost function Victim(cache: map<string, CacheEntry>, hint: string): (key: string)
    requires cache != map[]
    ensures IsVictim(cache, key)
    ensures IsVictim(cache, hint) ==> key == hint
  {
    if IsVictim(cache, hint) then hint
    else
      VictimExists(cache.Keys, cache);
      var key :| key in cache.Keys && forall other :: other in cache.Keys
                                        ==> cache[key].expiresAt <= cache[other].expiresAt;
      key
  }

  /** The entry that a store gives up: one if the cache is full, even for a key that it holds. */
  ghost function Evicts(cache: map<string, CacheEntry>, settings: Settings, hint: string): Option<string> {
    if |cache| >= settings.cacheMaxEntries && cache != map[] then Some(Victim(cache, hint)) else None
  }

  ghost function StoreEntry(cache: map<string, CacheEntry>, settings: Settings, key: string, result: RequestResult,
                            now: int, hint: string): map<string, CacheEntry>
  {
    if !settings.CacheEnabled() || key == "" then cache
    else
      var victim := Evicts(cache, settings, hint);
      var kept := if victim.Some? then cache - {victim.value} else cache;
      kept[key := CacheEntry(now + settings.cacheTTL, result, now)]
  }

  /** The most recent store of a key. */
  function LastStore(stores: seq<Store>, key: string): (r: Option<nat>)
    ensures r.Some? ==> r.value < |stores| && stores[r.value].key == key
    ensures r.Some? ==> forall j :: r.value < j < |stores| ==> stores[j].key != key
    ensures r.None? ==> forall j :: 0 <= j < |stores| ==> stores[j].key != key
  {
    if stores == [] then None
    else
      var last := |stores| - 1;
      if stores[last].key == key then Some(last) else LastStore(stores[..last], key)
  }

  // ----- answering -----

  function RecordResult(counters: Counters, result: RequestResult): Counters {
    if result.ok then counters.(completed := counters.completed + 1) else counters.(failed := counters.failed + 1)
  }

  /** recordResult and the send on the request's channel. */
  function Answer(core: Core, item: Pending, result: RequestResult, origin: Origin): Core {
    core.(counters := RecordResult(core.counters, result), outbox := core.outbox + [Send(item, result, origin)])
  }

  function AnswerDuplicates(core: Core, duplicates: seq<Pending>, result: RequestResult, origin: Origin): Core {
    if duplicates == [] then core
    else
      var last := |duplicates| - 1;
      var before := AnswerDuplicates(core, duplicates[..last], result, origin);
      Answer(before, duplicates[last], CloneFor(result, duplicates[last].request.requestID), origin)
  }

  /** The same local error for every item. */
  function AnswerError(core: Core, items: seq<Pending>, redaction: Redaction, code: Code, message: Message): Core {
    if items == [] then core
    else
      var last := |items| - 1;
      var item := items[last];
      Answer(AnswerError(core, items[..last], redaction, code, message), item,
             ErrorResult(redaction, item.request.requestID, code, message), Local)
  }

  // ----- choosing a chunk -----

  function Requests(items: seq<Pending>): (r: seq<RequestItem>)
    ensures |r| == |items| && forall i :: 0 <= i < |r| ==> r[i] == items[i].request
  {
    seq(|items|, i requires 0 <= i < |items| => items[i].request)
  }

  datatype Pick = Pick(core: Core, chunk: seq<Pending>, remaining: seq<Pending>)

  function PickItem(config: Config, pick: Pick, item: Pending): Pick {
    if |pick.chunk| >= config.settings.maxBatchRequests then pick.(remaining := pick.remaining + [item])
    else if EstimatedSize(Requests(pick.chunk + [item]), config.settings) <= config.settings.maxBatchBytes then
      pick.(chunk := pick.chunk + [item])
    else if pick.chunk == [] then
      pick.(core := Answer(pick.core, item,
                           ErrorResult(config.redaction, item.request.requestID, BatchTooLarge, RequestTooBig),
                           Local))
    else pick.(remaining := pick.remaining + [item])
  }

  function PickChunk(config: Config, core: Core, pending: seq<Pending>): Pick {
    if pending == [] then Pick(core, [], [])
    else PickItem(config, PickChunk(config, core, pending[..|pending| - 1]), pending[|pending| - 1])
  }

  // ----- cache hits and duplicates -----

  datatype Prep = Prep(core: Core, units: seq<Unit>, dedupeIndex: map<string, nat>)

  /** What one item of a chunk can be: a cache hit, a duplicate of an earlier item, or a request to send. */
  function PrepareItem(config: Config, prep: Prep, item: Pending, now: int): Prep {
    var core, settings, key := prep.core, config.settings, CacheKey(item.request);
    if !Cacheable(item.request) then prep.(units := prep.units + [Unit(item, [], "", false)])
    else
      var found := FindEntry(core.cache, settings, key, now);
      if found.Some? then
        var counted := core.(counters := core.counters.(cacheHits := core.counters.cacheHits + 1));
        var store := LastStore(core.stores, key).GetOr(0);
        prep.(core := Answer(counted, item, CloneFor(found.value, item.request.requestID),
                             FromCache(store, now, |core.stores|)))
      else
        var looked := core.(cache := AfterLookup(core.cache, settings, key, now));
        if key in prep.dedupeIndex && prep.dedupeIndex[key] < |prep.units| then
          var idx := prep.dedupeIndex[key];
          var unit := prep.units[idx];
          prep.(core := looked.(counters := looked.counters.(deduplicated := looked.counters.deduplicated + 1)),
                units := prep.units[idx := unit.(duplicates := unit.duplicates + [item])])
        else
          Prep(looked, prep.units + [Unit(item, [], key, true)], prep.dedupeIndex[key := |prep.units|])
  }

  function Prepare(config: Config, core: Core, items: seq<Pending>, now: int): Prep {
    if items == [] then Prep(core, [], map[])
    else PrepareItem(config, Prepare(config, core, items[..|items| - 1], now), items[|items| - 1], now)
  }

  function Primaries(units: seq<Unit>): (r: seq<RequestItem>)
    ensures |r| == |units| && forall i :: 0 <= i < |r| ==> r[i] == units[i].primary.request
  {
    seq(|units|, i requires 0 <= i < |units| => units[i].primary.request)
  }

  // ----- failing a batch -----

  predicate Recoverable(code: Code) {
    code != BatchTooLarge
  }

  function RecoverStale(config: Config, core: Core, unit: Unit, at: int): Option<RequestResult> {
    if config.settings.failOpen && unit.cacheable then FindStale(core.cache, config.settings, unit.cacheKey, at)
      else None
  }

  function CountFailOpen(core: Core): Core {
    core.(counters := core.counters.(failOpenServed := core.counters.failOpenServed + 1))
  }

  function TimeAt(times: seq<int>, i: nat): int {
    if i < |times| then times[i] else 0
  }

  function FailUnit(config: Config, core: Core, unit: Unit, code: Code, message: Message, at: int): Core {
    var requestID := unit.primary.request.requestID;
    var stale := if Recoverable(code) then RecoverStale(config, core, unit, at) else None;
    if stale.Some? then
      var result := CloneFor(stale.value, requestID);
      AnswerDuplicates(Answer(CountFailOpen(core), unit.primary, result, FromStale(at)), unit.duplicates, result,
                       FromStale(at))
    else
      var result := ErrorResult(config.redaction, requestID, code, Redacted(message));
      AnswerDuplicates(Answer(core, unit.primary, result, Local), unit.duplicates, result, Local)
  }

  function FailUnits(config: Config, core: Core, units: seq<Unit>, code: Code, message: Message,
                     times: seq<int>): Core {
    if units == [] then core
    else
      var last := |units| - 1;
      FailUnit(config, FailUnits(config, core, units[..last], code, message, times), units[last], code, message,
               TimeAt(times, last))
  }

  // ----- delivering a result package -----

  /** What the environment supplies while one unit is answered: two clock readings and the map walk of an eviction. */
  datatype UnitEnv = UnitEnv(lookupAt: int, storeAt: int, hint: string)

  function EnvAt(env: seq<UnitEnv>, i: nat): UnitEnv {
    if i < |env| then env[i] else UnitEnv(0, 0, "")
  }

  ghost function StoreResult(config: Config, core: Core, unit: Unit, result: RequestResult, batch: nat,
                             raw: RequestResult,
                             env: UnitEnv): Core
  {
    if unit.cacheable && ShouldCache(result) && config.settings.CacheEnabled() && unit.cacheKey != "" then
      core.(cache := StoreEntry(core.cache, config.settings, unit.cacheKey, result, env.storeAt, env.hint),
            stores := core.stores + [Store(unit.cacheKey, result, env.storeAt, batch, unit.primary.request, raw,
                                           Evicts(core.cache, config.settings, env.hint))])
    else core
  }

  ghost function DeliverResult(config: Config, core: Core, unit: Unit, raw: RequestResult, origin: Origin, batch: nat,
                               env: UnitEnv): Core
  {
    var result := Sanitize(config.redaction, raw);
    var sent := Answer(core, unit.primary, result, origin);
    var stored := StoreResult(config, sent, unit, CloneFor(result, unit.primary.request.requestID), batch, raw, env);
    AnswerDuplicates(stored, unit.duplicates, result, origin)
  }

  ghost function DeliverUnit(config: Config, core: Core, unit: Unit, results: map<string, RequestResult>, batch: nat,
                             env: UnitEnv): Core
  {
    var request := unit.primary.request;
    if request.requestID in results then
      var raw := results[request.requestID];
      DeliverResult(config, core, unit, raw, FromBatch(batch, request, raw), batch, env)
    else
      var stale := RecoverStale(config, core, unit, env.lookupAt);
      if stale.Some? then
        DeliverResult(config, CountFailOpen(core), unit, CloneFor(stale.value, request.requestID),
                      FromStale(env.lookupAt), batch, env)
      else
        var missing := ErrorResult(config.redaction, request.requestID, ResultPackageNotFound, ResultMissing);
        DeliverResult(config, core, unit, missing, Local, batch, env)
  }

  ghost function DeliverUnits(config: Config, core: Core, units: seq<Unit>, results: map<string, RequestResult>,
                              batch: nat,
                              env: seq<UnitEnv>): Core
  {
    if units == [] then core
    else
      var last := |units| - 1;
      DeliverUnit(config, DeliverUnits(config, core, units[..last], results, batch, env), units[last], results, batch,
                  EnvAt(env, last))
  }

  // ----- the whole agent -----

  datatype Reply = Failure(message: string) | Package(pkg: ResultPackage)

  /** History: one call of the dispatcher, the units whose primaries it sends and, once it has returned, its reply. */
  datatype Dispatch = Dispatch(batch: RequestBatch, units: seq<Unit>, startedAt: int, reply: Option<Reply>)

  /** History: one activation of backpressure and the number of dispatches made by then. */
  datatype Activation = Activation(at: int, after: nat)

  /** Where the Run goroutine is: in its select, between a tick's clock reading and its look at backpressure, inside the
      dispatcher call, or returned. */
  datatype Phase = Idle | Ticking(readAt: int) | InFlight(units: seq<Unit>) | Stopped

  datatype State = State(
    clock: int, offered: seq<RequestItem>, accepted: seq<Pending>, unrecorded: nat,
    queue: seq<Pending>, pending: seq<Pending>, phase: Phase, core: Core,
    backpressureUntil: int, dispatchInFlight: bool, pendingInBatchBuffer: nat,
    dispatches: seq<Dispatch>, activations: seq<Activation>, chunked: nat, failedEarly: nat)

  /** What an item looks like once Submit has normalised it: a body, if any, is not empty. */
  predicate Normalized(item: RequestItem) {
    item.body.Some? ==> item.body.value.data != ""
  }

  datatype Event =
    | Check(item: RequestItem, verdict: Option<ResultError>, at: int)
    | Enqueue(offer: nat)
    | Record
    | Receive
    | Tick(tickAt: int)
    | Proceed(prepareAt: int, startAt: int, batchID: string, sentAt: string, times: seq<int>)
    | Return(reply: Reply, returnAt: int, endAt: int, env: seq<UnitEnv>)
    | Stop

  function Init(start: int): State {
    State(start, [], [], 0, [], [], Idle, Core(map[], Counters(0, 0, 0, 0, 0, 0, 0, 0, 0), [], []),
          0, false, 0, [], [], 0, 0)
  }

  // Submit reads the clock before it takes the lock, so its reading may be older than the state's clock.
  ghost predicate Enabled(config: Config, state: State, event: Event) {
    match event
    case Check(item, _, at) => Normalized(item)
    case Enqueue(offer) => offer < |state.offered|
    case Record => state.unrecorded > 0
    case Receive => state.phase.Idle? && state.queue != []
    case Tick(tickAt) => state.phase.Idle? && state.clock <= tickAt
    case Proceed(prepareAt, startAt, _, _, _) => state.phase.Ticking? && state.clock <= prepareAt <= startAt
    case Return(_, returnAt, endAt, env) =>
      && state.phase.InFlight? && state.clock <= returnAt <= endAt
      && |env| == |state.phase.units|
      && forall i :: 0 <= i < |env| ==> returnAt <= env[i].storeAt <= endAt
    case Stop => state.phase.Idle?
  }

  /** backpressureState: an expired deadline is cleared. */
  function AfterBackpressureCheck(state: State, now: int): State {
    if state.backpressureUntil != 0 && now >= state.backpressureUntil
    then state.(backpressureUntil := 0) else state
  }

  predicate BackpressureActive(state: State, now: int) {
    state.backpressureUntil != 0 && now < state.backpressureUntil
  }

  function RejectLocally(state: State): State {
    var counters := state.core.counters;
    state.(core := state.core.(counters := counters.(localRejected := counters.localRejected + 1,
                                                     failed := counters.failed + 1)))
  }

  function Later(a: int, b: int): int {
    if a < b then b else a
  }

  function CheckStep(state: State, item: RequestItem, verdict: Option<ResultError>, at: int): State {
    var now := state.(clock := Later(state.clock, at));
    if verdict.Some? then RejectLocally(now)
    else
      var checked := AfterBackpressureCheck(now, at);
      if BackpressureActive(now, at) then RejectLocally(checked) else checked.(offered := checked.offered + [item])
  }

  function EnqueueStep(config: Config, state: State, offer: nat): State
    requires offer < |state.offered|
  {
    var left := state.(offered := state.offered[..offer] + state.offered[offer + 1..]);
    if |state.queue| < config.settings.maxQueueRequests then
      var item := Pending(state.offered[offer], |state.accepted|);
      left.(queue := state.queue + [item], accepted := state.accepted + [item], unrecorded := state.unrecorded + 1)
    else RejectLocally(left)
  }

  function RecordStep(state: State): State
    requires state.unrecorded > 0
  {
    var counters := state.core.counters;
    state.(unrecorded := state.unrecorded - 1,
           core := state.core.(counters := counters.(submitted := counters.submitted + 1)))
  }

  function ReceiveStep(state: State): State
    requires state.queue != []
  {
    state.(queue := state.queue[1..], pending := state.pending + [state.queue[0]],
           pendingInBatchBuffer := |state.pending| + 1)
  }

  /** dispatchBatch up to the dispatcher call. */
  ghost function BeginDispatch(config: Config, state: State, chunk: seq<Pending>, prepareAt: int, startAt: int,
                               batchID: string, sentAt: string, times: seq<int>): State
  {
    var prep := Prepare(config, state.core, chunk, prepareAt);
    var units := prep.units;
    var prepared := state.(core := prep.core, chunked := state.chunked + |chunk|);
    var batch := MakeBatch(Primaries(units), config.settings, batchID, sentAt);
    if units == [] then prepared
    else if !BatchOK(batch, config.validTime) then
      prepared.(core := FailUnits(config, prep.core, units, WorkerError, BatchInvalid, times),
                failedEarly := state.failedEarly + |units|)
    else if BatchSizeBytes(batch) > config.settings.maxBatchBytes then
      prepared.(core := FailUnits(config, prep.core, units, BatchTooLarge, BatchTooBig, times),
                failedEarly := state.failedEarly + |units|)
    else
      var counters := prep.core.counters;
      prepared.(
        core := prep.core.(counters := counters.(
          dispatchedBatches := counters.dispatchedBatches + 1,
          dispatchedRequests := counters.dispatchedRequests + |units|)),
        phase := InFlight(units), dispatchInFlight := true,
        dispatches := state.dispatches + [Dispatch(batch, units, startAt, None)])
  }

  /** A tick reads the clock and evicts; with requests pending it goes on to look at backpressure. */
  function TickStep(config: Config, state: State, tickAt: int): State {
    state.(
      clock := tickAt,
      core := state.core.(cache := EvictExpired(state.core.cache, config.settings, tickAt)),
      phase := if state.pending == [] then Idle else Ticking(tickAt))
  }

  /** A tick from its look at backpressure on, which still goes by the clock reading at its start. */
  ghost function ProceedStep(config: Config, state: State, event: Event): State
    requires event.Proceed? && state.phase.Ticking?
  {
    var now, ready := state.phase.readAt, state.(clock := event.startAt, phase := Idle);
    var checked := AfterBackpressureCheck(ready, now);
    if BackpressureActive(ready, now) then
      checked.(core := AnswerError(state.core, state.pending, config.redaction, RunDelayed, RunStartDelayed),
               pending := [], pendingInBatchBuffer := 0)
    else
      var pick := PickChunk(config, state.core, state.pending);
      var picked := checked.(core := pick.core, pending := pick.remaining, pendingInBatchBuffer := |pick.remaining|);
      if pick.chunk == [] then picked
      else BeginDispatch(config, picked, pick.chunk, event.prepareAt, event.startAt, event.batchID, event.sentAt,
                         event.times)
  }

  predicate IsRunDelayed(message: string) {
    Contains(message, CodeText(RunDelayed))
  }

  function Times(env: seq<UnitEnv>): (r: seq<int>)
    ensures |r| == |env| && forall i :: 0 <= i < |r| ==> r[i] == env[i].lookupAt
  {
    seq(|env|, i requires 0 <= i < |env| => env[i].lookupAt)
  }

  /** dispatchBatch from the dispatcher's return. */
  ghost function ReturnStep(config: Config, state: State, event: Event): State
    requires event.Return? && state.phase.InFlight? && state.dispatches != []
  {
    var units, index := state.phase.units, |state.dispatches| - 1;
    var batch := state.dispatches[index].batch;
    var returned := state.(
      clock := event.endAt, phase := Idle, dispatchInFlight := false,
      dispatches := state.dispatches[index := state.dispatches[index].(reply := Some(event.reply))]);
    match event.reply
    case Failure(message) =>
      if IsRunDelayed(message) then
        returned.(
          backpressureUntil := event.returnAt + config.settings.backpressureCooldown,
          activations := state.activations + [Activation(event.returnAt, |state.dispatches|)],
          core := FailUnits(config, state.core, units, RunDelayed, Reason(message), Times(event.env)))
      else
        returned.(core := FailUnits(config, state.core, units, DispatchFailed, Reason(message), Times(event.env)))
    case Package(pkg) =>
      if Accepted(pkg, batch.batchID, RequestIDs(batch.requests)) then
        returned.(core := DeliverUnits(config, state.core, units, ResultsByID(pkg.results), index, event.env))
      else
        returned.(core := FailUnits(config, state.core, units, ResultPackageNotFound, VerificationFailed,
                                    Times(event.env)))
  }

  function StopStep(config: Config, state: State): State {
    state.(core := AnswerError(state.core, state.pending, config.redaction, WorkerError, AgentStopped),
           pending := [], pendingInBatchBuffer := 0, phase := Stopped)
  }

  ghost function Next(config: Config, state: State, event: Event): State
    requires Enabled(config, state, event)
  {
    match event
    case Check(item, verdict, at) => CheckStep(state, item, verdict, at)
    case Enqueue(offer) => EnqueueStep(config, state, offer)
    case Record => RecordStep(state)
    case Receive => ReceiveStep(state)
    case Tick(tickAt) => TickStep(config, state, tickAt)
    case Proceed(_, _, _, _, _) => ProceedStep(config, state, event)
    case Return(_, _, _, _) => if state.dispatches == [] then state else ReturnStep(config, state, event)
    case Stop => StopStep(config, state)
  }

  /** The runs of the agent: any interleaving of enabled events. */
  ghost predicate IsRun(config: Config, start: int, events: seq<Event>)
    decreases |events|, 0
  {
    events == []
    || (IsRun(config, start, events[..|events| - 1])
        && Enabled(config, After(config, start, events[..|events| - 1]), events[|events| - 1]))
  }

  ghost function After(config: Config, start: int, events: seq<Event>): State
    requires IsRun(config, start, events)
    decreases |events|, 1
  {
    if events == [] then Init(start)
    else Next(config, After(config, start, events[..|events| - 1]), events[|events| - 1])
  }

  /** These events are a run that ends in this state. */
  ghost predicate LeadsTo(config: Config, start: int, events: seq<Event>, state: State) {
    IsRun(config, start, events) && After(config, start, events) == state
  }

  /** The last step of a run that goes on for a while. */
  lemma {:induction false} LeadsBack(config: Config, start: int, events: seq<Event>, more: seq<Event>, after: State)
    returns (before: State)
    requires more != [] && LeadsTo(config, start, events + more, after)
    ensures LeadsTo(config, start, events + more[..|more| - 1], before)
    ensures Enabled(config, before, more[|more| - 1]) && after == Next(config, before, more[|more| - 1])
  {
    hide Enabled, Next;
    assert (events + more)[..|events + more| - 1] == events + more[..|more| - 1];
    before := After(config, start, events + more[..|more| - 1]);
  }

  lemma {:induction false} LeadsOn(config: Config, start: int, events: seq<Event>, state: State, event: Event)
    requires LeadsTo(config, start, events, state) && Enabled(config, state, event)
    ensures LeadsTo(config, start, events + [event], Next(config, state, event))
  {
    hide Enabled, Next;
    assert (events + [event])[..|events|] == events;
  }
}
