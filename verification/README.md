# ActionRelay: a verified model

ActionRelay batches HTTP requests. Callers hand requests to a local agent; the agent queues, chunks, deduplicates and
caches them and ships one batch at a time to a GitHub Actions workflow; a worker there processes the batch with a
bounded pool and follows redirects under guardrails; the result package is checked and fanned back out to the callers.

This project models that protocol in Dafny 4.11 and proves what it keeps. Run `dafny verify dfyconfig.toml` here.

## How it is laid out

- `AgentModel` is the agent as a state machine. Its events are the stretches of code that run without another goroutine
  coming between: the checks of `Submit`, its send on the queue, its counter; and `Run` receiving, reading the clock at a
  tick, going on from its look at backpressure to the dispatcher call, handling the reply, stopping. A run is any
  interleaving of enabled events, with arbitrary clock readings (never going back for `Run`, possibly late for
  `Submit`), identifiers, map-walk orders and dispatcher replies. The state carries its history: every send on a result
  channel with its origin, every cache store, every dispatch with the requests it carried, every activation of
  backpressure.
- `Agent` is the same agent as a class with the source's fields and loops. Each method is proved to take exactly the
  model's step; `AgentService` drives an object by an arbitrary schedule.
- `AgentLedger`, `AgentCache`, `AgentOrigins` and `AgentRuns` build the invariant of all runs, and `AgentTheorems` states
  what follows. `AgentDispatches`, `AgentProgress` and `AgentBackpressure` add what takes a run of its own: no request is
  sent twice, none starves in queue or buffer, and when a tick is rejected. `AgentSubmissions`, `AgentReplies` and
  `AgentRetention` say what each event does in the words of callers: who is accepted, who is told what, and what the
  cache keeps. `Chunk` and `Outage` look into choosing a chunk and failing a batch, and `AgentScenarios` gives runs in
  which the agent does less than one might expect.
- `Validation` holds the package validators of both ends, `Json`, `Wire` and `BatchReader` the encoded texts (cache key,
  batch size).
- `WorkerPool`, `Redirect`, `Worker` and `Base64` are the worker: the concurrent pool, the redirect loop, one request
  from batch item to result, and the two base64 decoders.
- `ServerClock` and `GitHub` are the dispatcher: the clock estimate and the three polling loops.
- `EndToEnd` joins agent and worker.

Times are integers of nanoseconds, except in the worker, where they are milliseconds; the zero time of Go is 0.

## Where the code and a natural claim part

- `docs/usage.md` lines 552-556 promise that `fail_open` returns recent stale responses. It never does: expired entries
  are deleted when a chunk is prepared, unit keys are distinct, and `Run` is the only writer, so the stale lookup always
  misses (`AgentTheorems.FailOpenNeverServes`). What a failed batch answers is settled exactly by
  `Outage.OutageAnswers`; `AgentScenarios.StaleResponseNotServed` is a run with such an outage.
- A tick that reads the clock within the cooldown need not reject: a `Submit` may clear the deadline between that reading
  and the tick's look at it. `AgentBackpressure.RejectedWhileCooling` says exactly when it rejects,
  `AgentScenarios.DispatchesWithinCooldown` is a run in which it does not; even then no dispatch starts before the
  cooldown is over (`AgentTheorems.BackpressureSpacing`).
- Requests still queued when `Run` stops are never answered: exactly those
  (`AgentTheorems.StoppedAnswersAllButQueue`, `StopForgetsQueued`).
- The batch identifier used for sizing has 29 characters, a real one 30. `Chunk.RecheckFailsIff` says exactly when the
  check before sending rejects a chunk that was admitted, and `AgentScenarios.AdmittedThenRefused` is a run in which it
  does.
- The worker sends `utf8` bodies, which the proxy refuses; `Worker.ResponseBytesArrive` says exactly which bodies
  survive, and by `JsonBodiesRefused` no JSON reply does.
- URLs that are not UTF-8 can share a cache key though they differ; `Wire.StrayKeysCollide` says exactly when.
- The two ends disagree on what is blank: U+0085 is white space to Go only. `Validation.SelfCheckedAcceptedIff` says
  exactly when a package that passes the worker's check is accepted; `NextLineURLRefused` is one that is not. The worker
  itself writes serialised ASCII URLs, and such packages are accepted (`EndToEnd.PoolAccepted`).
- On 303 the worker turns HEAD into GET, which section 15.4 of RFC 9110 does not ask for.
  `Redirect.MethodsAsStandard` says exactly when a chain keeps to the standard, `HeadBecomesGet` is one that does not.
- Without a Date header in the dispatch reply the run filter can pass over the batch's own run
  (`ServerClock.UndatedFilter`, `UndatedLosesRun`).

## Model

| member | source | states |
|---|---|---|
| EndToEnd.AnswersAreProduced | client/internal/agent/agent.go:411-552 | In every run whose packages were made by finished pools, an OK answer bears its caller's identifier and is the sanitized form of what the k-th request of one dispatch turned into, given the servers, guardrails and clock that the processing of that request met: a request with equal method, URL, headers and body, in the dispatch that carried the caller's (the caller's own, unless it can be cached), or in the one that made what was last stored under its key, at most the TTL before its lookup |
| EndToEnd.AnswersAreReplies | worker/run-batch.mjs:286-334 | Such an answer comes of the chain of at most six guarded fetches that was made for that k-th request, whose first had the caller's own method, URL, headers and bytes, as the worker's libraries read them; it carries the status of the last reply that this processing met, which is none of 301, 302, 303, 307 and 308, its URL, its headers with exactly the sensitive values redacted, the true body length, and the first bytes of its body: encoded, or as their UTF-8 text if the type names json, text or xml |
| EndToEnd.PackageInOrder | worker/run-batch.mjs:263-284 | For every schedule of the pool the i-th result is what the i-th request turned into, given what its own processing met, under its identifier |
| EndToEnd.PoolSelfChecks | worker/run-batch.mjs:187-261 | The package of a finished pool passes the worker's own check if and only if no OK response has a blank URL or a negative time |
| EndToEnd.PoolAccepted | client/internal/protocol/validate.go:71-149 | The package of a finished pool with serialised ASCII URLs that are not blank and proper header names passes the worker's check and is accepted by the client |
| EndToEnd.AnswerProduced | client/internal/protocol/validate.go:124-149 | The result indexed under a request of an accepted package is the one that the processing of that very request made |
| AgentTheorems.InOnePlace | client/internal/agent/agent.go:280-360 | At every moment an accepted request is in exactly one place: answered, queued, buffered, or with the dispatcher |
| AgentTheorems.NoSendBlocks | client/internal/agent/agent.go:340-358 | No result channel is sent two answers in any run, so no send into its one-place buffer waits |
| AgentTheorems.StoppedAnswersAllButQueue | client/internal/agent/agent.go:288-295 | When Run has returned, the answered requests are the accepted ones less those still queued; all are answered if and only if the queue is empty |
| AgentTheorems.StopForgetsQueued | client/internal/agent/agent.go:288-295 | A run in which an accepted request is never answered |
| AgentTheorems.CountersBalance | client/internal/agent/agent.go:1055-1130 | Between dispatches, submitted = queued + buffered + completed + failed - locally rejected; chunked requests = cache hits + deduplicated + dispatched + failed before dispatch |
| AgentTheorems.BatchesBounded | client/internal/agent/agent.go:440-458 | Every batch given to the dispatcher is valid, not empty, within the count and byte limits, and holds no more characters of body data than the byte limit |
| AgentTheorems.BackpressureSpacing | client/internal/agent/agent.go:1132-1154 | After an activation of backpressure no dispatch starts before the cooldown has passed, whatever Submit does to the deadline meanwhile, even between a tick's clock reading and its look at it |
| AgentBackpressure.RejectedWhileCooling | client/internal/agent/agent.go:299-309 | A tick that reads the clock within the cooldown, with requests buffered, answers all of them RUN_DELAYED, in order, and dispatches nothing, if and only if no Submit with a reading at or past the deadline cleared it between that reading and the tick's look at it |
| AgentScenarios.DispatchesWithinCooldown | client/internal/agent/agent.go:1142-1154 | A run in which a tick reads the clock one nanosecond before the deadline and dispatches |
| AgentDispatches.CarriedOnce | client/internal/agent/agent.go:434-458 | In every run a dispatch carries accepted requests only, each once, and no two dispatches carry the same one |
| AgentProgress.LeavesWithinTicks | client/internal/agent/agent.go:299-316 | In every run a request with k others ahead of it in the buffer is answered or with the dispatcher once k+1 ticks have gone through, with or without backpressure |
| AgentProgress.AnsweredInTime | client/internal/agent/agent.go:286-319 | In every run a request with q others ahead of it in the queue is answered, exactly once, after q+1 receives, as many ticks gone through as were then buffered, and with no batch at the dispatcher |
| AgentTheorems.CacheIsLog | client/internal/agent/agent.go:979-1024 | In every run the cache is a bounded view of the log of stores, every stored result is the 2xx result that an accepted package gave to a bodyless GET or HEAD with that key, and "" is never a key |
| AgentTheorems.FailOpenNeverServes | client/internal/agent/agent.go:1185-1209 | In every run the fail-open counter is zero and no answer came from a stale entry |
| AgentTheorems.AnswersAreRelayed | client/internal/agent/agent.go:472-516 | Every answer bears its caller's identifier, and an OK answer is the sanitized result that an accepted package held for a request that is the same call: from the dispatch that carried the caller's request, which is the one asked unless it was cacheable and a duplicate, or as the last store of its key at the lookup, no older than the TTL |
| AgentTheorems.RelayedClean | client/internal/agent/agent.go:777-815 | In every run, whatever is relayed, directly or by way of the cache, is the very result that an accepted package held for the request asked, with its sensitive header values, URL and error message redacted and nothing else changed |
| AgentReplies.FailureSettled | client/internal/agent/agent.go:460-470 | When the dispatcher fails, in every run, each request of the batch is told once: RUN_DELAYED if the error contains that text and DISPATCH_FAILED otherwise, with the redacted error as message. Backpressure is activated, until the cooldown after that, in the first case only; nothing else changes |
| AgentReplies.RefusalSettled | client/internal/agent/agent.go:474-479 | A package that fails verification: each request of the batch is told RESULT_PACKAGE_NOT_FOUND once, nothing is cached and no deadline set |
| AgentReplies.DeliverySettled | client/internal/agent/agent.go:481-517 | An accepted package: each request of the batch is answered once with a result of this package, its own or that of the one it duplicates; exactly the 2xx results of cacheable units are stored, in order, under their keys and at their readings |
| AgentReplies.ProceedSettled | client/internal/agent/agent.go:305-317 | A tick without backpressure takes, leaves or refuses each buffered request as the limits say, tells exactly the refused ones BATCH_TOO_LARGE, and dispatches what the cache does not answer as one batch made of the settings if and only if that is valid and within the byte limit; otherwise its requests are told WORKER_ERROR or BATCH_TOO_LARGE |
| AgentReplies.HitsSettled | client/internal/agent/agent.go:519-551 | In every run exactly those requests of a chunk are answered from the cache that are GET or HEAD without a body and whose key is alive, in order, with what was last stored; the others make up the units |
| AgentReplies.RejectionSettled | client/internal/agent/agent.go:305-309 | A tick under backpressure tells every buffered request RUN_DELAYED in order of arrival and dispatches nothing |
| AgentReplies.StopSettled | client/internal/agent/agent.go:287-296 | When Run stops, every buffered request is told WORKER_ERROR in order of arrival |
| AgentRetention.CacheAnswers | client/internal/agent/agent.go:979-997 | In every run the cache answers a key if and only if its last store has not expired and has not made room for another since, and with what was stored then |
| AgentRetention.EvictsOldest | client/internal/agent/agent.go:999-1024 | In every run a store makes room only when the cache is full, and by a key that was stored no later than any other that is still alive |
| AgentRetention.TickKeeps | client/internal/agent/agent.go:1042-1053 | A tick removes exactly the entries whose expiry is before its reading, changes no other, and goes on if and only if a request is buffered |
| AgentRetention.RoomKeepsAll | client/internal/agent/agent.go:999-1024 | While there is room a store changes nothing but the entry of its key, which expires the TTL later |
| AgentRetention.RunKeeps | client/internal/agent/agent.go:979-1053 | The invariant behind it, kept by every event: all that is alive is in the cache, all that is in the cache is held, and evictions were due |
| AgentSubmissions.CheckSettled | client/internal/agent/agent.go:321-338 | A submission goes on to the queue if and only if classification lets it pass and no deadline is later than its reading; otherwise it is counted as rejected |
| AgentSubmissions.QueueSettled | client/internal/agent/agent.go:340-354 | It is accepted, at the end of the queue, if and only if the queue has room; otherwise it is counted as rejected |
| AgentSubmissions.AcceptedWereAdmitted | client/internal/agent/agent.go:321-354 | In every run each accepted request was submitted, let pass by classification, and found no backpressure when it was checked |
| AgentSubmissions.SubmissionsBalance | client/internal/agent/agent.go:321-354 | In every run each submission is accepted, on its way to the queue, or counted once as rejected |
| AgentRuns.RunInv | client/internal/agent/agent.go:280-586 | The invariant of all runs: conservation of requests, counters, gauges, absence of the keys in flight, bounds on batches, spacing and the origin of every answer |
| AgentRuns.NextInv | client/internal/agent/agent.go:280-360 | Every enabled event of any goroutine keeps that invariant |
| AgentRuns.TickInv | client/internal/agent/agent.go:299-304 | The reading of the clock and the eviction keep it |
| AgentRuns.ProceedInv | client/internal/agent/agent.go:305-316 | The rest of a tick keeps it on each of its paths: rejection, oversize, all hits, invalid batch, dispatch |
| AgentRuns.ReturnInv | client/internal/agent/agent.go:458-516 | The dispatcher's return keeps it for every reply: error, refused start, refused package, delivery |
| AgentRuns.EnqueueInv | client/internal/agent/agent.go:340-352 | A send on the queue keeps it, accepted or rejected |
| AgentOrigins.DeliverUnitsOK | client/internal/agent/agent.go:488-516 | Delivering an accepted package answers and stores results of that package only, each for the request it was asked for or one it carried as the same call |
| AgentOrigins.SameKeySameCall | client/internal/agent/agent.go:707-728 | Two cacheable normalised requests with one cache key have equal method, URL, headers and body |
| AgentOrigins.PrepareOK | client/internal/agent/agent.go:519-552 | Cache hits carry results stored for the same call, no longer than the TTL ago |
| AgentLedger.PrepareLedger | client/internal/agent/agent.go:519-552 | Hits and unit members together are a permutation of the chunk, and hits, duplicates and units are counted as such |
| AgentLedger.DeliverUnitsLedger | client/internal/agent/agent.go:488-516 | Delivery answers every request of the units exactly once and counts each answer |
| AgentLedger.FailUnitsLedger | client/internal/agent/agent.go:1168-1183 | Failing the units answers every request of the units exactly once and counts each answer |
| AgentLedger.PickLedger | client/internal/agent/agent.go:554-586 | Chunk, remaining and rejected requests together are a permutation of the buffer |
| AgentCache.HitIsLastStore | client/internal/agent/agent.go:979-997 | A hit is the most recent store of its key, no older than the TTL |
| AgentCache.EvictsEarliest | client/internal/agent/agent.go:1009-1022 | A full store gives up exactly one entry, which expires no later than any survivor, whatever the order of the map walk |
| AgentCache.StoreEntryLogged | client/internal/agent/agent.go:999-1024 | A store keeps the cache a bounded view of the log that ends with it |
| AgentCache.PrepareGroups | client/internal/agent/agent.go:519-552 | A chunk splits into hits, decided by the cache at the start alone, and units with distinct keys, none of which the cache still holds; the index points at the unit with its key |
| Chunk.PickFates | client/internal/agent/agent.go:554-586 | A pick splits the buffer in three, each part in order of arrival: only a request too large alone is refused, the head never stays, and nothing that stays would still fit |
| Chunk.LeavesWithin | client/internal/agent/agent.go:299-316 | A request with k others ahead is out of the buffer within k+1 picks, whatever arrives behind or overtakes it |
| Chunk.RecheckFailsIff | client/internal/agent/agent.go:445-453 | With a 30-character identifier the check before sending fails an admitted chunk if and only if its estimate filled the limit and nothing in it was a hit or a duplicate |
| Chunk.PrimariesCost | client/internal/agent/agent.go:434-438 | Each hit or duplicate makes the batch smaller than its estimate |
| Outage.OutageAnswers | client/internal/agent/agent.go:1168-1196 | A failed batch leaves exactly one answer for each request of the chunk, and it is OK if and only if the cache held an unexpired entry when the chunk was prepared |
| Outage.UnitsAreMisses | client/internal/agent/agent.go:519-552 | The units hold exactly the requests that the cache could not answer |
| Outage.StaleGuardSound | client/internal/agent/agent.go:1026-1040 | The stale guard serves exactly what the cache holds under the key of a cacheable unit in fail-open mode, no older than the stale limit, and that is the last store of the key |
| Outage.StaleUnlessTooLarge | client/internal/agent/agent.go:1168-1218 | Failing a unit gives its primary what that guard serves, unless the code is BATCH_TOO_LARGE, and the redacted error otherwise |
| AgentScenarios.StaleResponseNotServed | docs/usage.md:552-556 | A run in fail-open mode: a response is stored, expires, is still recent enough for the guard, the dispatcher fails, and the caller is given the error |
| AgentScenarios.AdmittedThenRefused | client/internal/agent/agent.go:445-453 | A run in which a request whose estimated batch fills the limit exactly is admitted to a chunk and then answered BATCH_TOO_LARGE |
| Agent.Agent.LoadCacheEntry | client/internal/agent/agent.go:979-997 | Finds an unexpired entry, and deletes an expired one |
| Agent.Agent.StoreCacheEntry | client/internal/agent/agent.go:999-1024 | The map walk with "" for "none yet" evicts an entry that expires first and stores the new one |
| Agent.Agent.EvictExpiredCache | client/internal/agent/agent.go:1042-1053 | Keeps exactly the unexpired entries |
| Agent.Agent.PickBatchChunk | client/internal/agent/agent.go:554-586 | The loop refines the model's choice of a chunk and answers what it refuses |
| Agent.Agent.PrepareDispatchUnits | client/internal/agent/agent.go:519-552 | The loop over chunk, units and index refines the model's preparation |
| Agent.Agent.FailUnits | client/internal/agent/agent.go:1168-1183 | The nested loops refine the model's failing of units |
| Agent.Agent.DeliverUnits | client/internal/agent/agent.go:488-516 | The nested loops refine the model's delivery, for the walk orders that occurred |
| Agent.Agent.IndexResults | client/internal/agent/agent.go:479-486 | The index keeps the first result of each identifier |
| Agent.Agent.BackpressureState | client/internal/agent/agent.go:1142-1154 | Tells whether the deadline lies ahead, and clears one that has passed |
| Agent.Agent.CheckSubmission | client/internal/agent/agent.go:321-338 | The checks of Submit take the model's step; a request is admitted if and only if it is not classified and backpressure is not active |
| Agent.Agent.Enqueue | client/internal/agent/agent.go:340-352 | The send on the queue takes the model's step and gives the accepted request a fresh channel |
| Agent.Agent.Receive | client/internal/agent/agent.go:296-298 | Run's receive takes the model's step |
| Agent.Agent.Tick | client/internal/agent/agent.go:299-304 | A tick up to its look at backpressure takes the model's step |
| Agent.Agent.Proceed | client/internal/agent/agent.go:305-316 | The rest of a tick takes the model's step, through rejection, choice, preparation and the start of a dispatch |
| Agent.Agent.BeginDispatch | client/internal/agent/agent.go:411-457 | dispatchBatch up to the dispatcher call takes the model's step |
| Agent.Agent.Return | client/internal/agent/agent.go:458-516 | dispatchBatch from the dispatcher's return takes the model's step |
| Agent.Agent.Stop | client/internal/agent/agent.go:288-295 | Stopping answers the buffered requests and nothing else |
| AgentService.Perform | client/internal/agent/agent.go:280-360 | Whatever the object does next is one enabled event of the model |
| AgentService.Serve | client/internal/agent/agent.go:280-360 | After any schedule the object is where a run of the model leads; each answered channel holds the right answer to its own request (an error of the agent's own, or the sanitized result of an accepted package for that request) and none was overwritten, nothing stale was served, answers and waiting requests add up, the cache is within its bound |
| AgentService.BuffersHold | client/internal/agent/agent.go:340-358 | When no channel is sent to twice, each channel holds exactly what was sent on it |
| Validation.ValidateRequestBatch | client/internal/protocol/validate.go:11-69 | Succeeds if and only if the shape rules hold and the identifiers are distinct; an item error names the first bad item |
| Validation.ValidateResultPackage | client/internal/protocol/validate.go:71-122 | Succeeds if and only if the shape rules hold and the identifiers are distinct; a result error names the first bad result |
| Validation.VerifyResultPackageForBatch | client/internal/protocol/validate.go:124-149 | Succeeds if and only if the package is well formed, bears the batch's identifier and answers exactly the requested identifiers |
| Validation.ValidateGeneratedResultPackage | worker/run-batch.mjs:187-261 | Succeeds if and only if the worker's own rules hold |
| Validation.AcceptedIffPermutation | client/internal/protocol/validate.go:124-149 | For distinct request identifiers, acceptance is the shape rules plus a permutation of the identifiers |
| Validation.AcceptedCoversBatch | client/internal/agent/agent.go:479-497 | After acceptance no result is suppressed as a duplicate and none is missing |
| Validation.FirstResultWins | client/internal/agent/agent.go:481-488 | Of several results with one identifier the agent keeps the first |
| Validation.SelfCheckedAcceptedIff | worker/run-batch.mjs:187-261 | A package that passed the worker's check is accepted by the client if and only if its header names, URLs and codes are not blank to Go |
| Validation.SelfCheckedAccepted | worker/run-batch.mjs:187-261 | Enough for that: proper header names and no next-line character in URLs and codes |
| Validation.NextLineURLRefused | worker/run-batch.mjs:644-646 | A package that passes the worker's self-check and that the client refuses |
| Text.SpacesApart | client/internal/protocol/validate.go:13-40 | Both ends agree on white space but for U+0085, which only Go takes for it, and U+FEFF, which only JavaScript does |
| Wire.KeyRoundTrip | client/internal/agent/agent.go:707-728 | A cache key determines method, URL and headers: they can be read back from it |
| Wire.CacheKeyInjective | client/internal/agent/agent.go:707-728 | Two cacheable requests have one key if and only if method, URL and headers are equal |
| Wire.StrayKeysCollide | client/internal/agent/agent.go:723-727 | Keys whose URLs may hold stray bytes are equal if and only if method and headers are equal and the URLs agree but for which bytes the stray ones are; a stray byte and a character U+FFFD give different keys |
| Wire.StrayReadsReplaced | client/internal/agent/agent.go:862-866 | A reader of the encoded text gets U+FFFD for every stray byte, as for the character itself |
| Wire.ScalarsEncode | client/internal/agent/agent.go:723-727 | Without stray bytes that encoding is the one of a string of characters |
| Wire.CacheKey | client/internal/agent/agent.go:707-713 | A key is not empty if and only if the request is a GET or HEAD without body data |
| Wire.SizeGap | client/internal/agent/agent.go:838-867 | The encoded batch is longer than its estimate by the length of its identifier less 29 |
| Wire.EstimateMonotone | client/internal/agent/agent.go:838-867 | More items never make an estimate smaller, and one more makes it strictly larger |
| BatchReader.BatchRoundTrip | client/internal/agent/agent.go:861-867 | The text whose bytes are counted and sent reads back as the batch, with every field of it |
| BatchReader.BatchBytes | client/internal/agent/agent.go:861-867 | How many bytes it has, field by field and character by character |
| BatchReader.BodiesWithin | client/internal/agent/agent.go:861-867 | A batch within a byte limit holds no more characters of body data than that |
| Wire.MakesComposed | client/internal/agent/agent.go:418-434 | Which setting a batch carries in which field, durations in whole milliseconds |
| Wire.SizingComposed | client/internal/agent/agent.go:838-859 | The estimate is the size of a batch of the same settings under the placeholder identifier and time |
| Json.StringRoundTrip | client/internal/agent/agent.go:723-727 | A JSON string with Go's escapes reads back as the string and leaves the rest of the text |
| Json.MapRoundTrip | client/internal/agent/agent.go:714-727 | A JSON object of strings with sorted keys reads back as the map |
| Text.LexByFirstDifference | client/internal/agent/agent.go:723-727 | The order of keys in the encoded headers: by the first character in which they differ |
| WorkerPool.PoolCompletes | worker/run-batch.mjs:263-284 | For every interleaving: when all coroutines have returned, each request has a result of its own processing, each index was claimed once and in order, and the shared index is total plus the number of workers |
| WorkerPool.InFlightBounded | worker/run-batch.mjs:263-284 | Never more requests in flight than the clamped concurrency, 8, or the number of requests, and no two workers hold one |
| WorkerPool.RunInv | worker/run-batch.mjs:263-284 | The invariant of every interleaving; each step leaves exactly one fewer to take |
| WorkerPool.NeverStuck | worker/run-batch.mjs:263-284 | Until all coroutines have returned one of them can go on |
| WorkerPool.ProcessRequests | worker/run-batch.mjs:263-284 | The event loop fills the results array with the outcome of each request in its place |
| WorkerPool.ClampConcurrency | worker/run-batch.mjs:640-642 | The clamped concurrency is between 1 and 8, and the value given where that lies in between |
| Redirect.FetchWithGuardrails | worker/run-batch.mjs:380-446 | The loop over URL, method, body and headers refines the recursive chain |
| Redirect.RedirectsFollowed | worker/run-batch.mjs:380-446 | The whole chain, fetch by fetch: a reply with status 301, 302, 303, 307 or 308 is followed to the URL that its location names if fewer than five were followed before, guardrails pass it and the clock allows; without a location, or after five, the chain ends as URL_REJECTED; every other reply is handed back |
| Redirect.FetchesGuarded | worker/run-batch.mjs:388-446 | At most six fetches, each to a URL that had just passed the guardrails and before the deadline |
| Redirect.ChainCarries | worker/run-batch.mjs:434-467 | Each fetch carries the original method and body unless a redirect before it rewrote them, and exactly the original headers less the body headers after a rewrite and the sensitive ones after leaving an origin |
| Redirect.CredentialsStayHome | worker/run-batch.mjs:458-467 | A sensitive header is in the k-th fetch if and only if the caller set it and fetches 0 to k share one origin |
| Redirect.PreservingAndRewriting | worker/run-batch.mjs:448-456 | 307 and 308 chains repeat method and body; a rewritten request stays a GET without body |
| Redirect.MethodsAsStandard | worker/run-batch.mjs:448-456 | A chain gives every redirected request the standard's method if and only if no HEAD in it is answered with 303 |
| Redirect.HeadBecomesGet | worker/run-batch.mjs:448-456 | A chain in which a HEAD answered with 303 becomes a GET |
| Redirect.FinalIsLastReply | worker/run-batch.mjs:412-414 | The response handed back is the reply to the last fetch, and its status is none of 301, 302, 303, 307 and 308 |
| Worker.RequestBytesArrive | client/internal/agent/agent.go:682-685 | The worker decodes exactly the bytes that the client encoded, and none from an empty body |
| Worker.RequestBytesSent | worker/run-batch.mjs:359-377 | For a method that carries a body the first fetch sends exactly the caller's bytes |
| Worker.ResponseBytesArrive | client/internal/proxy/server.go:349-357 | The proxy decodes a response body to the first min(n, cap) bytes if and only if its type names no json, text or xml, and refuses it otherwise; the length is n, truncated if and only if n > cap |
| Worker.TextualTypes | worker/run-batch.mjs:300-306 | A body is text if and only if its type names json, text or xml in letters of either case |
| Worker.BodyHolds | worker/run-batch.mjs:297-306 | A textual body holds the UTF-8 text of the first min(n, cap) bytes, any other those bytes in base64 |
| Worker.JsonBodiesRefused | client/internal/proxy/server.go:349-357 | Every reply of type application/json is refused by the proxy, whatever its bytes |
| Worker.DecodedEncodings | client/internal/proxy/server.go:349-357 | Which encodings of a body the proxy reads, and how |
| Worker.ProcessSingleRequest | worker/run-batch.mjs:286-334 | A request comes out as the response at the end of its chain or as the failure that ended it, under its identifier |
| Worker.ResultShape | worker/run-batch.mjs:286-334 | A result echoes its request's identifier and passes the worker's check, but for a blank URL or a clock that ran backwards |
| Worker.FailuresNamed | worker/run-batch.mjs:324-333 | A result is OK if and only if its chain ended in a response whose body could be read; otherwise its code names the cause: the shape, the method, the URL, what the guardrails said, the clock, or a fault |
| Worker.OKResultIsReply | worker/run-batch.mjs:293-324 | An OK result has the status and, up to decoding, the body of the reply to the last guarded fetch |
| Base64.GoRoundTrip | client/internal/proxy/server.go:356-356 | Go's decoder reads back what was encoded (section 4 of RFC 4648) |
| Base64.NodeRoundTrip | worker/run-batch.mjs:365-365 | Node's forgiving decoder reads back what was encoded |
| Base64.EncodesGroups | client/internal/agent/agent.go:955-957 | Each group of four characters holds the 24 bits of three bytes, the missing ones as zero, with padding (section 4 of RFC 4648) |
| Base64.StandardAlphabet | client/internal/agent/agent.go:955-957 | The alphabet is the one of table 1 of RFC 4648 |
| Base64.GoAccepts | client/internal/proxy/server.go:356-356 | Go decodes exactly the texts in whole groups of the alphabet with one or two characters of padding at the end |
| Base64.BreaksIgnored | client/internal/proxy/server.go:356-356 | Line breaks in the text make no difference to it |
| ServerClock.OffsetError | client/internal/githubapi/dispatcher.go:388-402 | The stored offset errs by more than minus one second less half the round trip and by at most half the round trip rounded up |
| ServerClock.OffsetErrorTight | client/internal/githubapi/dispatcher.go:388-402 | Both ends of that interval are reached for every round trip |
| ServerClock.LocalInvertsServer | client/internal/githubapi/dispatcher.go:410-422 | The two conversions are inverse for one offset |
| ServerClock.DatedFilter | client/internal/githubapi/dispatcher.go:207-218 | With a Date header a run is passed over if and only if it was created in an earlier second; none created at or after acceptance is |
| ServerClock.UndatedFilter | client/internal/githubapi/dispatcher.go:145-148 | Without one, from the readings the client has: no run is lost, for any server clock that fits the last exchange, if and only if the estimated second is not later than the second of the earliest acceptance that the exchange allows |
| ServerClock.UndatedLateness | client/internal/githubapi/dispatcher.go:410-415 | The estimate is later than that earliest acceptance by exactly the time since the dispatch was sent plus half the round trip of the exchange, rounded up |
| ServerClock.UndatedLosesRun | client/internal/githubapi/dispatcher.go:145-148 | A clock exchange after which the fallback passes over the batch's own run |
| GitHub.Dispatcher.UpdateServerClock | client/internal/githubapi/dispatcher.go:388-402 | A dated response sets offset and flag, any other leaves them |
| GitHub.Dispatcher.FindRunForBatch | client/internal/githubapi/dispatcher.go:185-230 | Gives the first run named after the batch and not too old, waits if and only if a good listing has none |
| GitHub.Dispatcher.WaitForRun | client/internal/githubapi/dispatcher.go:164-183 | How the first loop ends, and what each of its calls met; the clock follows every response |
| GitHub.Dispatcher.WaitForRunCompletion | client/internal/githubapi/dispatcher.go:232-255 | How the second loop ends, and what each of its calls met |
| GitHub.Dispatcher.WaitForResultPackage | client/internal/githubapi/dispatcher.go:288-307 | How the third loop ends, which polls before it looks at its deadline |
| GitHub.Dispatcher.ProcessBatch | client/internal/githubapi/dispatcher.go:64-103 | A batch goes through the three loops as far as each finds something, and makes just their calls after the opening ones. A package is handed back if and only if, in this order, a listing gave the run chosen for this batch, a poll of that run found that it had succeeded, and a download of this batch's results gave the package, which is well formed and bears the batch's identifier; otherwise the error that ended the last loop: what went wrong in a call, WORKER_ERROR for a run that did not succeed, RUN_DELAYED for a run that took too long and RESULT_PACKAGE_NOT_FOUND for a package that did; the calls stay within the budget |
| GitHub.RunDelayedText | client/internal/githubapi/dispatcher.go:167-169 | The agent recognises the errors of both run timeouts as refused starts |
| GitHub.CheckedFirstBound | client/internal/githubapi/dispatcher.go:164-183 | At most floor(timeout / interval) + 1 calls when the clock is read first |
| GitHub.PolledFirstBound | client/internal/githubapi/dispatcher.go:288-307 | At most floor(timeout / interval) + 2 calls when the call comes first |
| GitHub.BoundsReached | client/internal/githubapi/dispatcher.go:164-307 | Both bounds are reached, by loops that succeed, for every interval and timeout |
| GitHub.ConfiguredBudget | client/internal/config/config.go:254-262 | Under a validated configuration the budget of a batch is at most 8406 calls, and exactly that at the extreme settings |
| GitHub.SlowBatch | client/internal/githubapi/dispatcher.go:64-103 | Whatever the settings, some batch costs exactly its budget and ends with its package |

## Left out

- HTTP servers and clients, DNS, timers, logging and the GitHub endpoints: they appear as arbitrary replies, functions and clock readings.
- The agent's constructor checks its settings; the model starts from settings that passed (`Settings.Valid`).
- Classification of a request and URL parsing: the verdict on a submission is supplied by the environment, so the codes that `classifyRequest` gives are not modelled, nor are the results that `Submit` itself returns for rejected requests.
- Regular-expression redaction, removal of URL credentials and lower-casing of header names: functions given from outside.
- The guardrail predicate of the worker (address ranges, blocked hosts, resolution): a function of the check's number and the URL.
- The text that follows the fixed part of a validation or verification error message.
- The runtime's status strings and times (last batch, last error, latency), which nothing else reads; counters are unbounded rather than 64-bit.
- Callers that give up: the channel keeps their answer, as in the source.
- Interleaving of `Submit` within the rest of a tick and within the handling of a reply: after its look at backpressure `Run` reads nothing that `Submit` writes but counters that each only adds to, and after an activation it writes nothing that `Submit` reads but counters, so that a `Submit` within either acts as one before or after it.
- The error branches of `json.Marshal`, which the encoded types cannot reach, and the JSON decoders.
- Strings that are not UTF-8: strings are sequences of Unicode scalar values, save in `Wire.StrayKeysCollide`, which says what becomes of a URL with other bytes in it.
- Node's base64 decoder on texts that no encoder produces is modelled as skipping every character outside its alphabet.
- The worker's `main` beyond the pool and its check: reading the batch from the environment, `validateBatch`, writing the file; limits overridden by the environment are a parameter of the theorems.
- EndToEnd.AnswersAreProduced: assumes that packages come from finished pools of one worker, with fixed libraries and limits, for the batch they name, and that each request of a dispatch was processed once; a repository whose results were tampered with is outside it.
- Agent.Agent.constructor: takes the place of `New` without its checks.
- The command line, configuration beyond the three polling settings, platform code, the tunnel writers of the proxy.
