/** Agent, worker pool and redirect loop together: an OK answer is a relayed response to the caller's own request. */
module EndToEnd {
  import opened Text
  import opened Protocol
  import opened Validation
  import opened Wire
  import opened AgentModel
  import opened AgentOrigins
  import opened AgentRuns
  import opened AgentTheorems
  import opened Base64
  import R = Redirect
  import W = Worker
  import P = WorkerPool

  /** The workers of one run: the libraries they run on, the limits they were given, and what the processing of each
      request met, by the number of the dispatch and the place in its batch. */
  datatype Worker = Worker(library: W.Library, limits: W.Limits, meets: (nat, nat) -> W.Encounter)

  /** What the k-th request of dispatch d turned into, given the servers, guardrails and clock that it met. */
  ghost predicate Produced(worker: Worker, d: nat, k: nat, request: RequestItem, result: RequestResult) {
    W.ResultOf(worker.library, worker.meets(d, k), request, worker.limits, result)
  }

  ghost function OutcomesOf(worker: Worker, d: nat, requests: seq<RequestItem>): P.Outcomes {
    (k: nat, result: RequestResult) => k < |requests| && Produced(worker, d, k, requests[k], result)
  }

  /** The package holds what some schedule of the pool left when all its coroutines had returned. */
  ghost predicate PoolMade(worker: Worker, d: nat, pkg: ResultPackage, batch: RequestBatch, concurrency: nat,
                           events: seq<P.Event>) {
    var outcomes, total := OutcomesOf(worker, d, batch.requests), |batch.requests|;
    && P.IsRun(outcomes, concurrency, total, events)
    && var pool := P.After(outcomes, concurrency, total, events);
       && P.AllFinished(pool)
       && |pkg.results| == |pool.results|
       && forall i :: 0 <= i < |pkg.results| ==> pool.results[i] == Some(pkg.results[i])
  }

  /** The worker's main: it writes the package of a finished pool once that has passed its own check. */
  ghost predicate WorkerMade(worker: Worker, d: nat, pkg: ResultPackage, batch: RequestBatch) {
    && pkg.batchID == batch.batchID && SelfChecked(pkg, batch.requests)
    && exists concurrency: nat, events: seq<P.Event> :: PoolMade(worker, d, pkg, batch, concurrency, events)
  }

  /** Every package that the dispatcher handed to the agent was made by a worker from the batch it was asked about, in
      that batch's own processing. */
  ghost predicate Honest(worker: Worker, state: State) {
    forall i :: 0 <= i < |state.dispatches| ==> HonestReply(worker, i, state.dispatches[i])
  }

  ghost predicate HonestReply(worker: Worker, d: nat, dispatch: Dispatch) {
    dispatch.reply.Some? && dispatch.reply.value.Package? ==>
      WorkerMade(worker, d, dispatch.reply.value.pkg, dispatch.batch)
  }

  // ----- the worker's package -----

  lemma {:induction false} ResultEchoes(worker: Worker, d: nat, k: nat, request: RequestItem, result: RequestResult)
    requires Produced(worker, d, k, request, result) && request.requestID != ""
    ensures result.requestID == request.requestID
  {
    hide W.Normalize, W.Chain, W.EncodeResponseBody, W.FailureText, W.RedactResponseHeaders;
  }

  /** Whatever the schedule, the i-th result is an outcome of the i-th request, under its identifier. */
  lemma {:induction false} PackageInOrder(worker: Worker, d: nat, pkg: ResultPackage, batch: RequestBatch,
                                          concurrency: nat, events: seq<P.Event>)
    requires PoolMade(worker, d, pkg, batch, concurrency, events)
    requires forall i :: 0 <= i < |batch.requests| ==> batch.requests[i].requestID != ""
    ensures |pkg.results| == |batch.requests|
    ensures forall i :: 0 <= i < |pkg.results| ==>
              Produced(worker, d, i, batch.requests[i], pkg.results[i])
                && pkg.results[i].requestID == batch.requests[i].requestID
  {
    hide P.IsRun, P.After, P.AllFinished, Produced;
    var outcomes, total := OutcomesOf(worker, d, batch.requests), |batch.requests|;
    P.PoolCompletes(outcomes, concurrency, total, events);
    var pool := P.After(outcomes, concurrency, total, events);
    forall i | 0 <= i < |pkg.results|
      ensures Produced(worker, d, i, batch.requests[i], pkg.results[i])
              && pkg.results[i].requestID == batch.requests[i].requestID
    {
      assert pool.results[i] == Some(pkg.results[i]);
      assert outcomes(i, pool.results[i].value);
      ResultEchoes(worker, d, i, batch.requests[i], pkg.results[i]);
    }
  }

  /** The package of a finished pool fails the worker's own check only over a blank response URL or a clock that ran
      backwards while a request was processed. */
  lemma {:induction false} PoolSelfChecks(worker: Worker, d: nat, pkg: ResultPackage, batch: RequestBatch,
                                          concurrency: nat, events: seq<P.Event>)
    requires PoolMade(worker, d, pkg, batch, concurrency, events)
    requires pkg.protocol == RESULT_PACKAGE_PROTOCOL && !JsBlank(pkg.batchID)
    requires Distinct(RequestIDs(batch.requests))
    requires forall i :: 0 <= i < |batch.requests| ==> !JsBlank(batch.requests[i].requestID)
    ensures SelfChecked(pkg, batch.requests)
            <==> forall i :: 0 <= i < |pkg.results| && pkg.results[i].ok && pkg.results[i].response.Some? ==>
                   !JsBlank(pkg.results[i].response.value.url) && pkg.results[i].response.value.timingMS >= 0
  {
    hide PoolMade, Produced, JsBlank, WorkerResultOK;
    forall i | 0 <= i < |batch.requests| ensures batch.requests[i].requestID != "" {
      BlankEmpty();
    }
    PackageInOrder(worker, d, pkg, batch, concurrency, events);
    assert ResultIDs(pkg.results) == RequestIDs(batch.requests);
    forall i | 0 <= i < |pkg.results|
      ensures WorkerResultOK(pkg.results[i])
              <==> (pkg.results[i].ok && pkg.results[i].response.Some? ==>
                      !JsBlank(pkg.results[i].response.value.url) && pkg.results[i].response.value.timingMS >= 0)
    {
      ProducedShape(worker, d, i, batch.requests[i], pkg.results[i]);
    }
  }

  ghost predicate IsAscii(s: string) {
    forall i :: 0 <= i < |s| ==> s[i] as int < 0x80
  }

  /** What the libraries make of a response URL and of header names: serialised URLs are ASCII and not blank, header
      names are tokens. */
  ghost predicate Proper(result: RequestResult) {
    result.response.Some? ==>
      && IsAscii(result.response.value.url) && !JsBlank(result.response.value.url)
         && result.response.value.timingMS >= 0
      && HeaderNamesOK(result.response.value.headers)
  }

  /** The client accepts what a worker makes of a valid batch: the package of a finished pool, if its response URLs are
      serialised ASCII and not blank, its header names are proper and its clock did not run backwards. */
  lemma {:induction false} PoolAccepted(worker: Worker, d: nat, pkg: ResultPackage, batch: RequestBatch,
                                        validTime: string -> bool,
                                        concurrency: nat, events: seq<P.Event>)
    requires PoolMade(worker, d, pkg, batch, concurrency, events) && BatchOK(batch, validTime)
    requires pkg.protocol == RESULT_PACKAGE_PROTOCOL && pkg.batchID == batch.batchID && !JsBlank(batch.batchID)
    requires forall i :: 0 <= i < |batch.requests| ==> !JsBlank(batch.requests[i].requestID)
    requires forall i :: 0 <= i < |pkg.results| ==> Proper(pkg.results[i])
    ensures SelfChecked(pkg, batch.requests) && Accepted(pkg, batch.batchID, RequestIDs(batch.requests))
  {
    hide PoolMade, Produced, JsBlank, WorkerResultOK, SelfChecked, Accepted, ItemOK, PreambleOK, Proper,
         ReadableByClient;
    forall i | 0 <= i < |batch.requests| ensures batch.requests[i].requestID != "" {
      BlankEmpty();
    }
    PoolSelfChecks(worker, d, pkg, batch, concurrency, events) by {
      ProperChecks(pkg);
    }
    ProperChecks(pkg);
    PackageInOrder(worker, d, pkg, batch, concurrency, events);
    forall i | 0 <= i < |pkg.results| ensures ReadableByClient(pkg.results[i]) {
      ProducedReadable(worker, d, i, batch.requests[i], pkg.results[i]);
    }
    SelfCheckedAcceptedIff(pkg, batch, validTime);
  }

  lemma {:induction false} ProperChecks(pkg: ResultPackage)
    requires forall i :: 0 <= i < |pkg.results| ==> Proper(pkg.results[i])
    ensures forall i :: 0 <= i < |pkg.results| && pkg.results[i].ok && pkg.results[i].response.Some? ==>
              !JsBlank(pkg.results[i].response.value.url) && pkg.results[i].response.value.timingMS >= 0
  {
    hide JsBlank, HeaderNamesOK, IsAscii;
  }

  lemma {:induction false} ProducedReadable(worker: Worker, d: nat, k: nat, request: RequestItem, result: RequestResult)
    requires Produced(worker, d, k, request, result) && Proper(result) && request.requestID != ""
    ensures ReadableByClient(result)
  {
    hide W.Normalize, W.Chain, W.EncodeResponseBody, W.RedactResponseHeaders, HeaderNamesOK, GoBlank, JsBlank,
         W.FailureText;
    if result.response.Some? {
      AsciiNotBlank(result.response.value.url);
    }
    if !result.ok {
      var failure := match W.Normalize(worker.library, request)
        case Rejected(failure) => failure
        case Start(hop) => W.FailureOf(W.Chain(worker.library, worker.meets(d, k), hop, worker.limits).outcome);
      assert W.IsFailure(request, result, failure);
      FailureCodeReadable(failure);
    }
  }

  lemma {:induction false} AsciiNotBlank(s: string)
    requires IsAscii(s) && !JsBlank(s)
    ensures !GoBlank(s)
  {
    var i :| 0 <= i < |s| && !IsJsSpace(s[i]);
    assert !IsGoSpace(s[i]);
  }

  lemma {:induction false} FailureCodeReadable(failure: W.Failure)
    ensures !GoBlank(W.FailureText(failure))
  {
    var code := W.FailureText(failure);
    assert code[0] in {'U', 'R', 'M', 'B', 'T', 'W'};
    assert !IsGoSpace(code[0]);
  }

  lemma {:induction false} BlankEmpty()
    ensures JsBlank("")
  {
  }

  lemma {:induction false} ProducedShape(worker: Worker, d: nat, k: nat, request: RequestItem, result: RequestResult)
    requires Produced(worker, d, k, request, result) && !JsBlank(request.requestID)
    ensures WorkerResultOK(result)
            <==> (result.ok && result.response.Some?
                  ==> !JsBlank(result.response.value.url) && result.response.value.timingMS >= 0)
  {
    hide JsBlank, WorkerResultOK, W.ResultOf;
    W.ResultShape(worker.library, worker.meets(d, k), request, worker.limits, result);
  }

  // ----- the whole way -----

  /** The answer that the worker made for this very request of the batch. */
  lemma {:induction false} AnswerProduced(worker: Worker, d: nat, dispatch: Dispatch, validTime: string -> bool,
                                          asked: RequestItem, raw: RequestResult)
    returns (k: nat)
    requires AnsweredBy(dispatch, asked, raw) && BatchOK(dispatch.batch, validTime) && HonestReply(worker, d, dispatch)
    ensures k < |dispatch.batch.requests| && dispatch.batch.requests[k] == asked && Produced(worker, d, k, asked, raw)
  {
    hide Accepted, PoolMade, SelfChecked, Produced, PreambleOK, GoBlank;
    var batch, pkg := dispatch.batch, dispatch.reply.value.pkg;
    var concurrency: nat, events: seq<P.Event> :| PoolMade(worker, d, pkg, batch, concurrency, events);
    forall i | 0 <= i < |batch.requests| ensures batch.requests[i].requestID != "" {
      assert ItemOK(batch.requests[i]);
      EmptyIsBlank();
    }
    PackageInOrder(worker, d, pkg, batch, concurrency, events);
    k :| 0 <= k < |pkg.results| && pkg.results[k] == raw;
    var j :| 0 <= j < |batch.requests| && batch.requests[j] == asked;
    assert RequestIDs(batch.requests)[k] == RequestIDs(batch.requests)[j];
  }

  lemma {:induction false} EmptyIsBlank()
    ensures GoBlank("")
  {
  }

  /** In every run with an honest dispatcher, an OK answer bears its caller's identifier and is the sanitized form of
      the result that the k-th request of one dispatch turned into: a request with the same method, URL, headers and
      body, either in the batch that carried the caller's request, or as what was last stored under its key, no more
      than the TTL before that was looked up. */
  lemma {:induction false} AnswersAreProduced(worker: Worker, config: Config, start: int, events: seq<Event>, i: nat)
    returns (asked: RequestItem, raw: RequestResult, batch: nat, k: nat)
    requires config.settings.Valid() && start >= 0 && IsRun(config, start, events)
    requires Honest(worker, After(config, start, events))
    requires i < |After(config, start, events).core.outbox| && After(config, start, events).core.outbox[i].result.ok
    ensures var state := After(config, start, events); var send := state.core.outbox[i];
            && batch < |state.dispatches| && k < |state.dispatches[batch].batch.requests|
            && state.dispatches[batch].batch.requests[k] == asked && AnsweredBy(state.dispatches[batch], asked, raw)
            && Produced(worker, batch, k, asked, raw) && SameCall(asked, send.item.request)
            && send.result == CloneFor(Sanitize(config.redaction, raw), send.item.request.requestID)
            && (FromOwnBatch(state, send, asked, raw, batch) || StoredInTime(config, state, send, asked, raw, batch))
  {
    hide After, IsRun, Flow, GaugesOK, FlightOK, SpacingOK, CoreOK, BatchOK, Produced, AnsweredBy, HonestReply,
         Sanitize,
         FromOwnBatch, StoredInTime, BatchSizeBytes;
    asked, raw, batch := AnswersAreRelayed(config, start, events, i);
    RunInv(config, start, events);
    var state := After(config, start, events);
    assert DispatchOK(config, state.dispatches[batch], state.clock);
    assert HonestReply(worker, batch, state.dispatches[batch]);
    k := AnswerProduced(worker, batch, state.dispatches[batch], config.validTime, asked, raw);
  }

  /** What a caller receives is what the server at the end of the redirect chain sent when one request was processed:
      the k-th of the dispatch that carried the caller's, or of the one that made what was last stored under its key.
      The first fetch of that chain had the caller's method, URL, headers and bytes; the answer has the status of the
      last reply, its headers, and a body that the proxy decodes to the first bytes of the reply's, provided that its
      content type names neither json, text nor xml, and the text of those bytes if it does. */
  lemma {:induction false} AnswersAreReplies(worker: Worker, config: Config, start: int, events: seq<Event>, i: nat)
    returns (batch: nat, k: nat, hop: R.Hop, response: R.Response)
    requires config.settings.Valid() && start >= 0 && IsRun(config, start, events)
    requires Honest(worker, After(config, start, events))
    requires i < |After(config, start, events).core.outbox| && After(config, start, events).core.outbox[i].result.ok
    ensures var state := After(config, start, events);
            var send, met := state.core.outbox[i], worker.meets(batch, k);
            var trace := W.Chain(worker.library, met, hop, worker.limits);
            && batch < |state.dispatches| && k < |state.dispatches[batch].batch.requests|
            && AnsweredFor(config, state, send, state.dispatches[batch].batch.requests[k], batch)
            && send.result.requestID == send.item.request.requestID
            && 0 < |trace.hops| <= 6 && trace.hops[0] == hop && AsksAs(worker.library, send.item.request, hop)
            && met.fetch(|trace.hops| - 1, trace.hops[|trace.hops| - 1]) == R.Replied(response)
            && response.status !in {301, 302, 303, 307, 308} && response.body.Some?
            && send.result.response.Some? && send.result.response.value.status == response.status
            && HeadersRelayed(config.redaction, response.headers, send.result.response.value.headers)
            && send.result.response.value.url == config.redaction.url(worker.library.outputURL(response.url))
            && var body := send.result.response.value.body;
               && W.Holds(worker.library, response.body.value, worker.limits.maxResponseBytes, response.contentType,
                          body)
               && body.bytes == |response.body.value|
               && (W.DecodeResponseBody(body) == W.Bytes(W.Prefix(response.body.value, worker.limits.maxResponseBytes))
                   <==> !W.IsTextual(response.contentType))
  {
    hide After, IsRun, Honest, FromOwnBatch, StoredInTime, W.ResultOf, W.Chain, W.Normalize, W.DecodeResponseBody,
         W.IsTextual, W.Holds,
         AsksAs, HeadersRelayed;
    var asked, raw;
    asked, raw, batch, k := AnswersAreProduced(worker, config, start, events, i);
    hop, response := W.OKResultIsReply(worker.library, worker.meets(batch, k), asked, worker.limits, raw);
    HeadersOnTheWay(config.redaction, response.headers, raw.response.value.headers);
    AskedAs(worker.library, asked, After(config, start, events).core.outbox[i].item.request, hop);
  }

  /** The answer came of this request of this dispatch, which is the one that carried the caller's own (and the same
      request, if that is not cacheable), or the one that made the last store under its key, in time. */
  ghost predicate AnsweredFor(config: Config, state: State, send: Send, asked: RequestItem, batch: nat) {
    && SameCall(asked, send.item.request)
    && exists raw :: FromOwnBatch(state, send, asked, raw, batch)
                     || StoredInTime(config, state, send, asked, raw, batch)
  }

  /** The hop asks what the caller asked: its method, URL and headers as the libraries read them and, for a method that
      carries a body, the very bytes that the client was given. */
  ghost predicate AsksAs(library: W.Library, request: RequestItem, hop: R.Hop) {
    && library.parseURL(request.url) == Some(hop.url)
    && hop.httpMethod == library.upper(request.httpMethod)
    && hop.httpMethod in {"GET", "HEAD", "POST", "PUT", "PATCH", "DELETE", "OPTIONS"}
    && library.makeHeaders(request.headers) == Some(hop.headers)
    && forall bytes :: request.body == W.EncodeRequestBody(bytes) ==>
         R.SentBody(hop) == if bytes == [] || hop.httpMethod in {"GET", "HEAD"} then None else Some(bytes)
  }

  lemma {:induction false} AskedAs(library: W.Library, asked: RequestItem, request: RequestItem, hop: R.Hop)
    requires W.Normalize(library, asked) == W.Start(hop) && SameCall(asked, request)
    ensures AsksAs(library, request, hop)
  {
    hide W.ShapeOK, W.EncodeRequestBody, R.SentBody, W.RequestBytes;
    forall bytes | request.body == W.EncodeRequestBody(bytes)
      ensures R.SentBody(hop) == if bytes == [] || hop.httpMethod in {"GET", "HEAD"} then None else Some(bytes)
    {
      W.RequestBytesSent(library, asked, bytes);
    }
  }

  /** Each header of the reply reaches the caller under its name: redacted if either end holds it to be sensitive, and
      otherwise with its value. */
  ghost predicate HeadersRelayed(redaction: Redaction, sent: map<string, string>, received: map<string, string>) {
    && received.Keys == sent.Keys
    && forall key :: key in sent ==>
         received[key]
         == if key in {"set-cookie", "www-authenticate", "proxy-authenticate"}
               || redaction.headerName(key)
                  in {"authorization", "proxy-authorization", "cookie", "set-cookie", "x-api-key"} then "[REDACTED]"
            else sent[key]
  }

  lemma {:induction false} HeadersOnTheWay(redaction: Redaction, sent: map<string, string>, raw: map<string, string>)
    requires raw.Keys == sent.Keys
    requires forall key :: key in sent ==>
               raw[key] == if key in {"set-cookie", "www-authenticate", "proxy-authenticate"} then "[REDACTED]"
                           else sent[key]
    ensures HeadersRelayed(redaction, sent, RedactHeaders(redaction, raw))
  {
    var received := RedactHeaders(redaction, raw);
    SensitiveNames();
    assert received.Keys == raw.Keys;
  }
}
