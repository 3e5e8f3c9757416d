/** How the worker turns one request into one result (processSingleRequest in worker/run-batch.mjs), and the two ends of
    the client that meet it: the encoder of request bodies and the decoder of response bodies. */
module Worker {
  import opened Text
  import opened Protocol
  import opened Validation
  import opened Base64
  import opened Redirect

  const ALLOWED_METHODS := {"GET", "HEAD", "POST", "PUT", "PATCH", "DELETE", "OPTIONS"}
  const SENSITIVE_RESPONSE_HEADERS := {"set-cookie", "www-authenticate", "proxy-authenticate"}
  const REDACTED_VALUE := "[REDACTED]"

  datatype Limits = Limits(maxResponseBytes: nat, requestTimeoutMS: int)

  /** What the worker leaves to its libraries. A request whose headers a Headers object refuses has none; resolve reads
      a location against the URL that answered with it. */
  datatype Library = Library(
    upper: string -> string, parseURL: string -> Option<URL>, resolve: (string, URL) -> Option<URL>,
    makeHeaders: map<string, string> -> Option<map<string, string>>,
    utf8: seq<Byte> -> string, redact: string -> string, outputURL: string -> string)

  /** What processing one request meets: name resolution, the clock, the servers. startedAt is the clock when the
      redirect loop begins and elapsed what processing took. */
  datatype Encounter = Encounter(
    guard: (nat, URL) -> Option<PolicyCode>, now: nat -> int, fetch: (nat, Hop) -> Reply, startedAt: int, elapsed: int)

  function WorldOf(library: Library, met: Encounter): World {
    World(met.guard, met.now, met.fetch, library.resolve)
  }

  // ----- bodies -----

  /** The client's normalizeRequest: an empty body is no body. */
  function EncodeRequestBody(bytes: seq<Byte>): Option<BodyData> {
    if bytes == [] then None else Some(BodyData("base64", Encode(bytes)))
  }

  /** The worker's normalizeRequest. */
  function RequestBytes(body: Option<BodyData>): Option<seq<Byte>> {
    match body
    case None => None
    case Some(data) => Some(NodeDecode(data.data))
  }

  lemma {:induction false} RequestBytesArrive(bytes: seq<Byte>)
    ensures RequestBytes(EncodeRequestBody(bytes)) == (if bytes == [] then None else Some(bytes))
    ensures EncodeRequestBody(bytes).Some? ==> EncodeRequestBody(bytes).value.data != ""
  {
    NodeRoundTrip(bytes);
    EncodedLength(bytes);
  }

  /** Lower case for the letters that the content-type test looks for; no other character maps onto them. */
  function LowerChar(c: char): char {
    if 'A' <= c <= 'Z' then 'a' + (c - 'A') else c
  }

  function Lower(s: string): string {
    seq(|s|, i requires 0 <= i < |s| => LowerChar(s[i]))
  }

  predicate IsTextual(contentType: string) {
    var lowered := Lower(contentType);
    Contains(lowered, "json") || Contains(lowered, "text") || Contains(lowered, "xml")
  }

  /** The word stands somewhere in the text, in letters of either case. */
  ghost predicate Names(text: string, word: string) {
    exists i :: 0 <= i <= |text| - |word| && NamedAt(text, word, i)
  }

  predicate NamedAt(text: string, word: string, i: nat) {
    i + |word| <= |text|
    && forall j :: 0 <= j < |word| ==> text[i + j] == word[j] || text[i + j] as int == word[j] as int - 32
  }

  lemma {:induction false} NamesLowered(text: string, word: string)
    requires forall j :: 0 <= j < |word| ==> 'a' <= word[j] <= 'z'
    ensures Names(text, word) <==> Contains(Lower(text), word)
  {
    var lowered := Lower(text);
    if Contains(lowered, word) {
      var i :| 0 <= i <= |lowered| && OccursAt(lowered, word, i);
      forall j | 0 <= j < |word| ensures text[i + j] == word[j] || text[i + j] as int == word[j] as int - 32 {
        assert lowered[i..i + |word|][j] == lowered[i + j];
      }
      assert NamedAt(text, word, i);
    }
    if Names(text, word) {
      var i :| 0 <= i <= |text| - |word| && NamedAt(text, word, i);
      assert lowered[i..i + |word|] == word;
      assert OccursAt(lowered, word, i);
    }
  }

  /** Which content types make a body text. */
  lemma {:induction false} TextualTypes(contentType: string)
    ensures IsTextual(contentType)
            <==> Names(contentType, "json") || Names(contentType, "text") || Names(contentType, "xml")
  {
    hide Lower, Contains, Names;
    NamesLowered(contentType, "json");
    NamesLowered(contentType, "text");
    NamesLowered(contentType, "xml");
  }

  function Prefix(bytes: seq<Byte>, cap: nat): seq<Byte> {
    if |bytes| <= cap then bytes else bytes[..cap]
  }

  function EncodeResponseBody(library: Library, raw: seq<Byte>, cap: nat, contentType: string): ResponseBody {
    var kept := Prefix(raw, cap);
    if IsTextual(contentType) then ResponseBody("utf8", library.utf8(kept), |raw|, |raw| > cap)
    else ResponseBody("base64", Encode(kept), |raw|, |raw| > cap)
  }

  datatype Decoded = Bytes(bytes: seq<Byte>) | Verbatim(text: string) | UnsupportedEncoding | CorruptData

  /** decodeResponseBody in client/internal/proxy/server.go; Verbatim stands for the bytes of the text itself. */
  function DecodeResponseBody(body: ResponseBody): Decoded {
    if body.encoding == "" then Verbatim(body.data)
    else if body.encoding != "base64" then UnsupportedEncoding
    else
      match GoDecode(body.data)
      case None => CorruptData
      case Some(bytes) => Bytes(bytes)
  }

  /** What a body holds: a textual one the text of the first bytes, as the library decodes them; any other those bytes,
      encoded. */
  ghost predicate Holds(library: Library, raw: seq<Byte>, cap: nat, contentType: string, body: ResponseBody) {
    var kept := if |raw| < cap then raw else raw[..cap];
    if Names(contentType, "json") || Names(contentType, "text") || Names(contentType, "xml")
    then body.encoding == "utf8" && body.data == library.utf8(kept)
    else body.encoding == "base64" && GoDecode(body.data) == Some(kept)
  }

  lemma {:induction false} BodyHolds(library: Library, raw: seq<Byte>, cap: nat, contentType: string)
    ensures Holds(library, raw, cap, contentType, EncodeResponseBody(library, raw, cap, contentType))
  {
    hide IsTextual, Encode, GoDecode, Names;
    TextualTypes(contentType);
    GoRoundTrip(Prefix(raw, cap));
    assert |raw| <= cap ==> raw == Prefix(raw, cap);
    assert |raw| == cap ==> raw[..cap] == raw;
  }

  /** The proxy recovers the kept bytes of exactly those bodies whose content type names neither json, text nor xml;
      every other body it refuses. */
  lemma {:induction false} ResponseBytesArrive(library: Library, raw: seq<Byte>, cap: nat, contentType: string)
    ensures var body := EncodeResponseBody(library, raw, cap, contentType);
            && (DecodeResponseBody(body) == Bytes(Prefix(raw, cap)) <==> !IsTextual(contentType))
            && (DecodeResponseBody(body) == UnsupportedEncoding <==> IsTextual(contentType))
            && body.bytes == |raw| && (body.truncated <==> |raw| > cap)
            && Prefix(raw, cap) <= raw && |Prefix(raw, cap)| == if |raw| < cap then |raw| else cap
  {
    hide IsTextual, Encode, GoDecode;
    GoRoundTrip(Prefix(raw, cap));
    assert "utf8"[0] != "base64"[0];
  }

  /** The proxy reads bodies of two encodings only: none at all, which is the text itself, and base64. */
  lemma {:induction false} DecodedEncodings(body: ResponseBody)
    ensures DecodeResponseBody(body).Verbatim? <==> body.encoding == ""
    ensures DecodeResponseBody(body).Verbatim? ==> DecodeResponseBody(body).text == body.data
    ensures DecodeResponseBody(body).UnsupportedEncoding? <==> body.encoding != "" && body.encoding != "base64"
    ensures body.encoding == "base64" ==>
              DecodeResponseBody(body) == if GoDecode(body.data).Some? then Bytes(GoDecode(body.data).value)
                                          else CorruptData
  {
    hide GoDecode;
  }

  /** Every JSON reply is refused, an empty one too. */
  lemma {:induction false} JsonBodiesRefused(library: Library, raw: seq<Byte>, cap: nat)
    ensures DecodeResponseBody(EncodeResponseBody(library, raw, cap, "application/json")) == UnsupportedEncoding
  {
    assert OccursAt(Lower("application/json"), "json", 12);
    ResponseBytesArrive(library, raw, cap, "application/json");
    hide Lower, EncodeResponseBody, DecodeResponseBody;
    assert IsTextual("application/json");
  }

  // ----- one request -----

  function PolicyCodeText(code: PolicyCode): string {
    match code
    case URLRejected => "URL_REJECTED"
    case RequestBlocked => "REQUEST_BLOCKED"
    case MethodRejected => "METHOD_REJECTED"
    case BodyTooLarge => "BODY_TOO_LARGE"
    case Timeout => "TIMEOUT"
  }

  /** validateRequestShape */
  ghost predicate ShapeOK(item: RequestItem) {
    && !JsBlank(item.requestID) && !JsBlank(item.httpMethod) && !JsBlank(item.url)
    && (forall key :: key in item.headers ==> !JsBlank(key))
    && (item.body.Some? ==> item.body.value.encoding == "base64")
  }

  /** Why no response came of a request. */
  datatype Failure = Policy(code: PolicyCode) | TimedOut | WorkerFault

  function FailureText(failure: Failure): string {
    match failure
    case Policy(code) => PolicyCodeText(code)
    case TimedOut => "TIMEOUT"
    case WorkerFault => "WORKER_ERROR"
  }

  datatype Start = Start(hop: Hop) | Rejected(failure: Failure)

  /** normalizeRequest. The shape check has already refused every body encoding but base64. */
  ghost function Normalize(library: Library, request: RequestItem): Start {
    var httpMethod := library.upper(request.httpMethod);
    var url, headers := library.parseURL(request.url), library.makeHeaders(request.headers);
    if !ShapeOK(request) then Rejected(WorkerFault)
    else if httpMethod !in ALLOWED_METHODS then Rejected(Policy(MethodRejected))
    else if url.None? then Rejected(Policy(URLRejected))
    else if headers.None? then Rejected(WorkerFault)
    else Start(Hop(url.value, httpMethod, RequestBytes(request.body), headers.value))
  }

  function RedactResponseHeaders(headers: map<string, string>): map<string, string> {
    map key | key in headers :: if key in SENSITIVE_RESPONSE_HEADERS then REDACTED_VALUE else headers[key]
  }

  function EchoedID(request: RequestItem): string {
    if request.requestID == "" then "unknown" else request.requestID
  }

  function Success(library: Library, met: Encounter, request: RequestItem, limits: Limits,
                   response: Response): RequestResult
    requires response.body.Some?
  {
    RequestResult(EchoedID(request), true, Some(HTTPResponse(
      response.status, RedactResponseHeaders(response.headers),
      EncodeResponseBody(library, response.body.value, limits.maxResponseBytes, response.contentType),
      library.outputURL(response.url), met.elapsed)), None)
  }

  /** A result without a response; its message is free text. */
  ghost predicate IsFailure(request: RequestItem, result: RequestResult, failure: Failure) {
    && result.requestID == EchoedID(request) && !result.ok && result.response.None? && result.error.Some?
    && result.error.value.code == FailureText(failure)
  }

  predicate Readable(outcome: Outcome) {
    outcome.Final? && outcome.response.body.Some?
  }

  function FailureOf(outcome: Outcome): Failure
    requires !Readable(outcome)
  {
    match outcome
    case Final(_) => WorkerFault
    case Refused(code) => Policy(code)
    case AbortedFetch => TimedOut
    case BrokenFetch(_) => WorkerFault
  }

  ghost function Chain(library: Library, met: Encounter, hop: Hop, limits: Limits): Trace {
    Follow(WorldOf(library, met), met.startedAt + limits.requestTimeoutMS, hop, 0)
  }

  /** What a request may turn into: the response at the end of its redirect chain, or the failure that ended it. */
  ghost predicate ResultOf(library: Library, met: Encounter, request: RequestItem, limits: Limits,
                           result: RequestResult) {
    match Normalize(library, request)
    case Rejected(failure) => IsFailure(request, result, failure)
    case Start(hop) =>
      var outcome := Chain(library, met, hop, limits).outcome;
      if Readable(outcome) then result == Success(library, met, request, limits, outcome.response)
      else IsFailure(request, result, FailureOf(outcome))
  }

  method ValidateRequestShape(item: RequestItem) returns (ok: bool)
    ensures ok <==> ShapeOK(item)
  {
    if JsBlank(item.requestID) || JsBlank(item.httpMethod) || JsBlank(item.url) {
      return false;
    }
    var left := item.headers.Keys;
    while left != {}
      invariant left <= item.headers.Keys
      invariant forall key :: key in item.headers && key !in left ==> !JsBlank(key)
      decreases left
    {
      var key :| key in left;
      if JsBlank(key) {
        return false;
      }
      left := left - {key};
    }
    return item.body.Some? ==> item.body.value.encoding == "base64";
  }

  function ErrorResult(library: Library, request: RequestItem, failure: Failure, message: string): RequestResult {
    RequestResult(EchoedID(request), false, None, Some(ResultError(FailureText(failure), library.redact(message))))
  }

  /** messages gives the wording of each failure. */
  method ProcessSingleRequest(library: Library, met: Encounter, request: RequestItem, limits: Limits,
                              messages: Failure -> string)
    returns (result: RequestResult)
    ensures ResultOf(library, met, request, limits, result)
  {
    hide ShapeOK, Success, FailureText, EchoedID, RequestBytes, Follow;
    var shaped := ValidateRequestShape(request);
    if !shaped {
      return ErrorResult(library, request, WorkerFault, messages(WorkerFault));
    }
    var httpMethod := library.upper(request.httpMethod);
    if httpMethod !in ALLOWED_METHODS {
      return ErrorResult(library, request, Policy(MethodRejected), messages(Policy(MethodRejected)));
    }
    var parsed := library.parseURL(request.url);
    if parsed.None? {
      return ErrorResult(library, request, Policy(URLRejected), messages(Policy(URLRejected)));
    }
    var headers := library.makeHeaders(request.headers);
    if headers.None? {
      return ErrorResult(library, request, WorkerFault, messages(WorkerFault));
    }
    var hop := Hop(parsed.value, httpMethod, RequestBytes(request.body), headers.value);
    var outcome, trace := FetchWithGuardrails(WorldOf(library, met), met.startedAt, limits.requestTimeoutMS, hop);
    if Readable(outcome) {
      return Success(library, met, request, limits, outcome.response);
    }
    var failure := FailureOf(outcome);
    return ErrorResult(library, request, failure, messages(failure));
  }

  // ----- what every result is like -----

  /** A result always passes the worker's own check, but for a blank response URL or a clock that ran backwards. */
  lemma {:induction false} ResultShape(library: Library, met: Encounter, request: RequestItem, limits: Limits,
                                       result: RequestResult)
    requires ResultOf(library, met, request, limits, result) && !JsBlank(request.requestID)
    ensures result.requestID == request.requestID
    ensures result.ok ==> result.response.Some? && result.error.None?
    ensures !result.ok ==> WorkerResultOK(result)
    ensures result.ok ==>
              (WorkerResultOK(result) <==> !JsBlank(result.response.value.url) && result.response.value.timingMS >= 0)
  {
    hide Normalize, Chain, EncodeResponseBody, FailureText, RedactResponseHeaders;
    assert JsBlank("");
    if !result.ok {
      var failure := match Normalize(library, request)
        case Rejected(failure) => failure
        case Start(hop) => FailureOf(Chain(library, met, hop, limits).outcome);
      assert IsFailure(request, result, failure);
      CodesNotBlank(failure);
    } else {
      ResponseBytesCount(library, met, request, limits, result);
    }
  }

  lemma {:induction false} ResponseBytesCount(library: Library, met: Encounter, request: RequestItem, limits: Limits,
                                              result: RequestResult)
    requires ResultOf(library, met, request, limits, result) && result.ok
    ensures result.response.Some? && result.response.value.body.bytes >= 0
  {
    hide Normalize, Chain, IsTextual, RedactResponseHeaders;
  }

  lemma {:induction false} CodesNotBlank(failure: Failure)
    ensures !JsBlank(FailureText(failure))
  {
    var code := FailureText(failure);
    assert code[0] in {'U', 'R', 'M', 'B', 'T', 'W'};
    assert !IsJsSpace(code[0]);
  }

  /** An OK result is the reply to the last of at most six guarded fetches: its status, and a body from which a reader
      of non-textual types recovers the first bytes that the server sent. */
  lemma {:induction false} OKResultIsReply(library: Library, met: Encounter, request: RequestItem, limits: Limits,
                                           result: RequestResult)
    returns (hop: Hop, response: Response)
    requires ResultOf(library, met, request, limits, result) && result.ok
    ensures Normalize(library, request) == Start(hop)
    ensures var trace := Chain(library, met, hop, limits);
            && 0 < |trace.hops| <= 6 && trace.hops[0] == hop
            && met.fetch(|trace.hops| - 1, trace.hops[|trace.hops| - 1]) == Replied(response)
            && response.status !in {301, 302, 303, 307, 308} && response.body.Some?
    ensures result.response.Some? && result.response.value.status == response.status
    ensures var body := result.response.value.body;
            && Holds(library, response.body.value, limits.maxResponseBytes, response.contentType, body)
            && (DecodeResponseBody(body) == Bytes(Prefix(response.body.value, limits.maxResponseBytes))
                <==> !IsTextual(response.contentType))
            && body.bytes == |response.body.value|
               && (body.truncated <==> |response.body.value| > limits.maxResponseBytes)
    ensures result.response.value.headers.Keys == response.headers.Keys
    ensures forall key :: key in response.headers ==>
              result.response.value.headers[key]
              == if key in {"set-cookie", "www-authenticate", "proxy-authenticate"} then "[REDACTED]"
                 else response.headers[key]
    ensures result.response.value.url == library.outputURL(response.url)
            && result.response.value.timingMS == met.elapsed
  {
    hide IsTextual, Holds, ShapeOK, Follow, DecodeResponseBody, EncodeResponseBody, FailureText;
    hop := Normalize(library, request).hop;
    var deadline := met.startedAt + limits.requestTimeoutMS;
    response := Chain(library, met, hop, limits).outcome.response;
    FollowSteps(WorldOf(library, met), deadline, hop, 0);
    FinalIsLastReply(WorldOf(library, met), deadline, hop, 0);
    ResponseBytesArrive(library, response.body.value, limits.maxResponseBytes, response.contentType);
    BodyHolds(library, response.body.value, limits.maxResponseBytes, response.contentType);
  }

  /** Why a request came out as it did, in the codes that the client sees. */
  ghost predicate NamedFailure(library: Library, met: Encounter, request: RequestItem, limits: Limits, code: string) {
    var httpMethod, url := library.upper(request.httpMethod), library.parseURL(request.url);
    var headers := library.makeHeaders(request.headers);
    if !ShapeOK(request) then code == "WORKER_ERROR"
    else if httpMethod !in {"GET", "HEAD", "POST", "PUT", "PATCH", "DELETE", "OPTIONS"} then code == "METHOD_REJECTED"
    else if url.None? then code == "URL_REJECTED"
    else if headers.None? then code == "WORKER_ERROR"
    else
      match Chain(library, met, Hop(url.value, httpMethod, RequestBytes(request.body), headers.value), limits).outcome
      case Final(response) => response.body.None? && code == "WORKER_ERROR"
      case Refused(URLRejected) => code == "URL_REJECTED"
      case Refused(RequestBlocked) => code == "REQUEST_BLOCKED"
      case Refused(MethodRejected) => code == "METHOD_REJECTED"
      case Refused(BodyTooLarge) => code == "BODY_TOO_LARGE"
      case Refused(Timeout) => code == "TIMEOUT"
      case AbortedFetch => code == "TIMEOUT"
      case BrokenFetch(_) => code == "WORKER_ERROR"
  }

  /** A result that is not OK names the cause in its code: what is wrong with the request, what the guardrails refused,
      the clock, or a fault. A result is OK if and only if its chain ended in a response whose body could be read. */
  lemma {:induction false} FailuresNamed(library: Library, met: Encounter, request: RequestItem, limits: Limits,
                                         result: RequestResult)
    requires ResultOf(library, met, request, limits, result)
    ensures !result.ok ==>
              result.error.Some? && result.response.None?
              && NamedFailure(library, met, request, limits, result.error.value.code)
    ensures result.ok ==> forall code :: !NamedFailure(library, met, request, limits, code)
    ensures result.requestID == if request.requestID == "" then "unknown" else request.requestID
  {
    hide ShapeOK, Chain, Success, RequestBytes, EchoedID;
    SuccessIsOK(library, met, request, limits);
    Echoes(request);
  }

  lemma {:induction false} SuccessIsOK(library: Library, met: Encounter, request: RequestItem, limits: Limits)
    ensures forall response: Response :: response.body.Some? ==>
              var result := Success(library, met, request, limits, response);
              result.ok && result.requestID == EchoedID(request)
  {
    hide EncodeResponseBody, RedactResponseHeaders, EchoedID;
  }

  lemma {:induction false} Echoes(request: RequestItem)
    ensures EchoedID(request) == if request.requestID == "" then "unknown" else request.requestID
  {
  }

  /** The bytes a caller hands to the agent are the bytes that the worker's first fetch sends, for every method that
      carries a body. */
  lemma {:induction false} RequestBytesSent(library: Library, request: RequestItem, bytes: seq<Byte>)
    requires request.body == EncodeRequestBody(bytes) && Normalize(library, request).Start?
    ensures var hop := Normalize(library, request).hop;
            SentBody(hop) == if bytes == [] || hop.httpMethod in {"GET", "HEAD"} then None else Some(bytes)
  {
    hide ShapeOK, EncodeRequestBody, RequestBytes;
    RequestBytesArrive(bytes);
  }
}
