/** The worker's redirect loop, fetchWithGuardrails in worker/run-batch.mjs. */
module Redirect {
  import opened Text
  import opened Base64

  const MAX_REDIRECTS := 5
  const SENSITIVE_REQUEST_HEADERS := {"authorization", "proxy-authorization", "cookie", "x-api-key"}
  const BODY_HEADERS := {"content-length", "content-type"}

  /** A parsed URL: its text and its serialised origin. */
  datatype URL = URL(href: string, origin: string)

  /** What the loop carries from fetch to fetch. Header names are in lower case, as in a Headers object. */
  datatype Hop = Hop(url: URL, httpMethod: string, body: Option<seq<Byte>>, headers: map<string, string>)

  datatype PolicyCode = URLRejected | RequestBlocked | MethodRejected | BodyTooLarge | Timeout

  /** location is "" when the header is missing, and the body is None when reading it fails. */
  datatype Response = Response(
    status: int, location: string, headers: map<string, string>, contentType: string, body: Option<seq<Byte>>,
    url: string)

  datatype Reply = Replied(response: Response) | Aborted | Broken(message: string)

  /** Everything the loop asks of its surroundings. The n-th guardrail check may resolve the host afresh, so its answer
      depends on n; now(k) is the clock before the k-th fetch. */
  datatype World = World(
    guard: (nat, URL) -> Option<PolicyCode>, now: nat -> int, fetch: (nat, Hop) -> Reply,
    parse: (string, URL) -> Option<URL>)

  datatype Outcome = Final(response: Response) | Refused(code: PolicyCode) | AbortedFetch | BrokenFetch(message: string)

  predicate IsRedirectStatus(status: int) {
    status in {301, 302, 303, 307, 308}
  }

  predicate AllowsBody(httpMethod: string) {
    httpMethod != "GET" && httpMethod != "HEAD"
  }

  /** The body handed to fetch. */
  function SentBody(hop: Hop): Option<seq<Byte>> {
    if AllowsBody(hop.httpMethod) then hop.body else None
  }

  predicate Rewrites(httpMethod: string, status: int) {
    status == 303 || ((status == 301 || status == 302) && httpMethod == "POST")
  }

  /** adjustRedirectMethodAndBody */
  function Adjust(hop: Hop, status: int): Hop {
    if Rewrites(hop.httpMethod, status) then
      hop.(httpMethod := "GET", body := None, headers := hop.headers - BODY_HEADERS)
    else hop
  }

  /** dropSensitiveHeadersOnCrossOriginRedirect */
  function DropSensitive(headers: map<string, string>, from: URL, to: URL): map<string, string> {
    if from.origin == to.origin then headers else headers - SENSITIVE_REQUEST_HEADERS
  }

  /** History: the fetches made, the redirects followed between them, and how the loop ended. */
  datatype Trace = Trace(hops: seq<Hop>, statuses: seq<int>, outcome: Outcome)

  /** Where a reply to the k-th fetch leads: the end, or the URL of a further hop. */
  datatype Turn = Ends(outcome: Outcome) | Moves(status: int, next: URL)

  function TurnOf(world: World, hop: Hop, k: nat): Turn {
    match world.fetch(k, hop)
    case Aborted => Ends(AbortedFetch)
    case Broken(message) => Ends(BrokenFetch(message))
    case Replied(response) =>
      if !IsRedirectStatus(response.status) then Ends(Final(response))
      else if k >= MAX_REDIRECTS || response.location == "" then Ends(Refused(URLRejected))
      else
        match world.parse(response.location, hop.url)
        case None => Ends(Refused(URLRejected))
        case Some(next) =>
          match world.guard(2 * k + 1, next)
          case Some(code) => Ends(Refused(code))
          case None => Moves(response.status, next)
  }

  function NextHop(hop: Hop, status: int, next: URL): Hop {
    var adjusted := Adjust(hop, status);
    adjusted.(url := next, headers := DropSensitive(adjusted.headers, hop.url, next))
  }

  function Follow(world: World, deadline: int, hop: Hop, k: nat): Trace
    requires k <= MAX_REDIRECTS
    decreases MAX_REDIRECTS - k
  {
    if world.guard(2 * k, hop.url).Some? then Trace([], [], Refused(world.guard(2 * k, hop.url).value))
    else if deadline - world.now(k) <= 0 then Trace([], [], Refused(Timeout))
    else
      match TurnOf(world, hop, k)
      case Ends(outcome) => Trace([hop], [], outcome)
      case Moves(status, next) =>
        var rest := Follow(world, deadline, NextHop(hop, status, next), k + 1);
        Trace([hop] + rest.hops, [status] + rest.statuses, rest.outcome)
  }

  lemma {:induction false} FollowTurn(world: World, deadline: int, hop: Hop, k: nat)
    requires k <= MAX_REDIRECTS
    ensures TurnOf(world, hop, k).Moves? ==> k < MAX_REDIRECTS
    ensures var refused := world.guard(2 * k, hop.url); var turn := TurnOf(world, hop, k);
            Follow(world, deadline, hop, k)
            == if refused.Some? then Trace([], [], Refused(refused.value))
               else if deadline <= world.now(k) then Trace([], [], Refused(Timeout))
               else if turn.Ends? then Trace([hop], [], turn.outcome)
               else
                 var rest := Follow(world, deadline, NextHop(hop, turn.status, turn.next), k + 1);
                 Trace([hop] + rest.hops, [turn.status] + rest.statuses, rest.outcome)
  {
    hide IsRedirectStatus, NextHop;
  }

  lemma {:induction false} NextHopFields(hop: Hop, status: int, next: URL)
    ensures var r := NextHop(hop, status, next); var rewrites := Rewrites(hop.httpMethod, status);
            && r.url == next && r.httpMethod == (if rewrites then "GET" else hop.httpMethod)
            && r.body == (if rewrites then None else hop.body)
            && r.headers == DropSensitive(if rewrites then hop.headers - BODY_HEADERS else hop.headers, hop.url, next)
  {
    hide Rewrites;
  }

  /** The loop as written; fetched and statuses are its history. */
  method FetchWithGuardrails(world: World, start: int, timeoutMS: int, request: Hop)
    returns (outcome: Outcome, ghost trace: Trace)
    ensures outcome == Follow(world, start + timeoutMS, request, 0).outcome
    ensures trace == Follow(world, start + timeoutMS, request, 0)
  {
    hide IsRedirectStatus, Rewrites, Follow, NextHop;
    var deadline := start + timeoutMS;
    var currentURL, currentMethod, currentBody, currentHeaders := request.url, request.httpMethod, request.body,
      request.headers;
    ghost var fetched, statuses: seq<int> := [], [];
    ghost var whole := Follow(world, deadline, request, 0);
    var redirectCount: nat := 0;
    while true
      invariant redirectCount <= MAX_REDIRECTS
      invariant var rest := Follow(world, deadline, Hop(currentURL, currentMethod, currentBody, currentHeaders),
                                   redirectCount);
                && whole.hops == fetched + rest.hops && whole.statuses == statuses + rest.statuses
                   && whole.outcome == rest.outcome
      decreases MAX_REDIRECTS - redirectCount
    {
      var current := Hop(currentURL, currentMethod, currentBody, currentHeaders);
      FollowTurn(world, deadline, current, redirectCount);
      var refused := world.guard(2 * redirectCount, currentURL);
      if refused.Some? {
        return Refused(refused.value), whole;
      }
      if deadline - world.now(redirectCount) <= 0 {
        return Refused(Timeout), whole;
      }
      var reply := world.fetch(redirectCount, current);
      if reply.Aborted? {
        return AbortedFetch, whole;
      }
      if reply.Broken? {
        return BrokenFetch(reply.message), whole;
      }
      var response := reply.response;
      if !IsRedirectStatus(response.status) {
        return Final(response), whole;
      }
      if redirectCount >= MAX_REDIRECTS || response.location == "" {
        return Refused(URLRejected), whole;
      }
      var parsed := world.parse(response.location, currentURL);
      if parsed.None? {
        return Refused(URLRejected), whole;
      }
      var nextURL := parsed.value;
      refused := world.guard(2 * redirectCount + 1, nextURL);
      if refused.Some? {
        return Refused(refused.value), whole;
      }
      ghost var rest := Follow(world, deadline, NextHop(current, response.status, nextURL), redirectCount + 1);
      assert TurnOf(world, current, redirectCount) == Moves(response.status, nextURL);
      assert whole.hops == (fetched + [current]) + rest.hops
             && whole.statuses == (statuses + [response.status]) + rest.statuses;
      NextHopFields(current, response.status, nextURL);
      if Rewrites(currentMethod, response.status) {
        currentHeaders := currentHeaders - BODY_HEADERS;
        currentMethod := "GET";
        currentBody := None;
      }
      if currentURL.origin != nextURL.origin {
        currentHeaders := currentHeaders - SENSITIVE_REQUEST_HEADERS;
      }
      currentURL := nextURL;
      fetched, statuses := fetched + [current], statuses + [response.status];
      redirectCount := redirectCount + 1;
    }
  }

  // ----- what holds of every chain -----

  /** Some redirect before the k-th fetch rewrote the request. */
  ghost predicate Rewritten(trace: Trace, k: nat) {
    exists j :: 0 <= j < k && j < |trace.hops| && j < |trace.statuses|
      && Rewrites(trace.hops[j].httpMethod, trace.statuses[j])
  }

  /** Some redirect before the k-th fetch left its origin. */
  ghost predicate Crossed(trace: Trace, k: nat) {
    exists j :: 0 <= j < k && j + 1 < |trace.hops| && trace.hops[j].url.origin != trace.hops[j + 1].url.origin
  }

  function Dropped(rewritten: bool, crossed: bool): set<string> {
    (if rewritten then {"content-length", "content-type"} else {})
    + if crossed then {"authorization", "proxy-authorization", "cookie", "x-api-key"} else {}
  }

  /** What the k-th fetch carries, in terms of the request and the redirects before it. */
  ghost predicate CarriedAt(trace: Trace, request: Hop, k: nat)
    requires k < |trace.hops|
  {
    var hop := trace.hops[k];
    && hop.httpMethod == (if Rewritten(trace, k) then "GET" else request.httpMethod)
    && hop.body == (if Rewritten(trace, k) then None else request.body)
    && hop.headers == request.headers - Dropped(Rewritten(trace, k), Crossed(trace, k))
  }

  /** The i-th fetch of a chain that began with the k-th: it passed its guardrail check in time, and a later one is what
      the redirect before it made of the fetch before it. */
  ghost predicate StepOK(world: World, deadline: int, trace: Trace, k: nat, i: nat)
    requires i < |trace.hops| <= |trace.statuses| + 1
  {
    && world.guard(2 * (k + i), trace.hops[i].url).None?
    && world.now(k + i) < deadline
    && (i > 0 ==>
          && world.guard(2 * (k + i) - 1, trace.hops[i].url).None?
          && trace.hops[i] == NextHop(trace.hops[i - 1], trace.statuses[i - 1], trace.hops[i].url))
  }

  lemma {:induction false} FollowSteps(world: World, deadline: int, hop: Hop, k: nat)
    requires k <= MAX_REDIRECTS
    ensures var trace := Follow(world, deadline, hop, k);
            && |trace.statuses| <= |trace.hops| <= |trace.statuses| + 1
            && |trace.hops| <= MAX_REDIRECTS + 1 - k
            && (trace.hops != [] ==> trace.hops[0] == hop)
            && forall i :: 0 <= i < |trace.hops| ==> StepOK(world, deadline, trace, k, i)
    decreases MAX_REDIRECTS - k
  {
    hide Follow, NextHop, TurnOf;
    FollowTurn(world, deadline, hop, k);
    var turn := TurnOf(world, hop, k);
    if world.guard(2 * k, hop.url).None? && world.now(k) < deadline && turn.Moves? {
      var next := NextHop(hop, turn.status, turn.next);
      FollowSteps(world, deadline, next, k + 1);
      NextHopFields(hop, turn.status, turn.next);
      MovesGuarded(world, hop, k);
      var rest := Follow(world, deadline, next, k + 1);
      var trace := Follow(world, deadline, hop, k);
      forall i | 0 <= i < |trace.hops| ensures StepOK(world, deadline, trace, k, i) {
        if i > 0 {
          assert trace.hops[i] == rest.hops[i - 1];
          assert StepOK(world, deadline, rest, k + 1, i - 1);
        }
      }
    }
  }

  lemma {:induction false} MovesGuarded(world: World, hop: Hop, k: nat)
    requires TurnOf(world, hop, k).Moves?
    ensures world.guard(2 * k + 1, TurnOf(world, hop, k).next).None?
  {
  }

  /** A response that is handed back is the reply to the last fetch, unaltered, and is not a redirect. */
  lemma {:induction false} FinalIsLastReply(world: World, deadline: int, hop: Hop, k: nat)
    requires k <= MAX_REDIRECTS && Follow(world, deadline, hop, k).outcome.Final?
    ensures var trace := Follow(world, deadline, hop, k);
            && trace.hops != [] && trace.outcome.response.status !in {301, 302, 303, 307, 308}
            && world.fetch(k + |trace.hops| - 1, trace.hops[|trace.hops| - 1]) == Replied(trace.outcome.response)
    decreases MAX_REDIRECTS - k
  {
    hide Follow, NextHop;
    FollowTurn(world, deadline, hop, k);
    var turn := TurnOf(world, hop, k);
    if turn.Moves? {
      FinalIsLastReply(world, deadline, NextHop(hop, turn.status, turn.next), k + 1);
    }
  }

  /** What comes of the reply to the i-th fetch of a chain that began with the k-th: it is handed back, followed to
      the place it names, or the end of the chain. */
  ghost predicate SettledAt(world: World, deadline: int, trace: Trace, k: nat, i: nat)
    requires i < |trace.hops|
  {
    var n, hop, last := k + i, trace.hops[i], i + 1 == |trace.hops|;
    match world.fetch(n, hop)
    case Aborted => last && trace.outcome == AbortedFetch
    case Broken(message) => last && trace.outcome == BrokenFetch(message)
    case Replied(response) =>
      if response.status !in {301, 302, 303, 307, 308} then last && trace.outcome == Final(response)
      else
        var next := world.parse(response.location, hop.url);
        if n >= 5 || response.location == "" || next.None? then last && trace.outcome == Refused(URLRejected)
        else
          var here, there := world.guard(2 * n + 1, next.value), world.guard(2 * n + 2, next.value);
          if here.Some? then last && trace.outcome == Refused(here.value)
          else if there.Some? then last && trace.outcome == Refused(there.value)
          else if deadline <= world.now(n + 1) then last && trace.outcome == Refused(Timeout)
          else !last && trace.hops[i + 1].url == next.value
               && i < |trace.statuses| && trace.statuses[i] == response.status
  }

  lemma {:induction false} FollowSettles(world: World, deadline: int, hop: Hop, k: nat)
    requires k <= MAX_REDIRECTS
    ensures var trace := Follow(world, deadline, hop, k); var refused := world.guard(2 * k, hop.url);
            && (refused.Some? ==> trace == Trace([], [], Refused(refused.value)))
            && (refused.None? && deadline <= world.now(k) ==> trace == Trace([], [], Refused(Timeout)))
            && (refused.None? && deadline > world.now(k) ==> trace.hops != [] && trace.hops[0] == hop)
            && forall i :: 0 <= i < |trace.hops| ==> SettledAt(world, deadline, trace, k, i)
    decreases MAX_REDIRECTS - k
  {
    hide Follow, NextHop, SettledAt;
    FollowTurn(world, deadline, hop, k);
    var trace, turn := Follow(world, deadline, hop, k), TurnOf(world, hop, k);
    if world.guard(2 * k, hop.url).None? && world.now(k) < deadline {
      if turn.Moves? {
        var next := NextHop(hop, turn.status, turn.next);
        var rest := Follow(world, deadline, next, k + 1);
        FollowSettles(world, deadline, next, k + 1);
        NextHopFields(hop, turn.status, turn.next);
        MoveSettles(world, deadline, hop, k, trace, rest);
        forall i | 0 < i < |trace.hops| ensures SettledAt(world, deadline, trace, k, i) {
          assert SettledAt(world, deadline, rest, k + 1, i - 1);
          SettledLater(world, deadline, trace, rest, hop, turn.status, k, i);
        }
      } else {
        EndSettles(world, deadline, hop, k, trace);
      }
    }
  }

  lemma {:induction false} EndSettles(world: World, deadline: int, hop: Hop, k: nat, trace: Trace)
    requires TurnOf(world, hop, k).Ends? && trace == Trace([hop], [], TurnOf(world, hop, k).outcome)
    ensures SettledAt(world, deadline, trace, k, 0)
  {
  }

  lemma {:induction false} MoveSettles(world: World, deadline: int, hop: Hop, k: nat, trace: Trace, rest: Trace)
    requires var turn := TurnOf(world, hop, k);
             && turn.Moves? && trace == Trace([hop] + rest.hops, [turn.status] + rest.statuses, rest.outcome)
             && var refused := world.guard(2 * k + 2, turn.next);
                && (refused.Some? ==> rest == Trace([], [], Refused(refused.value)))
                && (refused.None? && deadline <= world.now(k + 1) ==> rest == Trace([], [], Refused(Timeout)))
                && (refused.None? && deadline > world.now(k + 1) ==> rest.hops != [] && rest.hops[0].url == turn.next)
    ensures SettledAt(world, deadline, trace, k, 0)
  {
  }

  lemma {:induction false} SettledLater(world: World, deadline: int, trace: Trace, rest: Trace, hop: Hop, status: int,
                                        k: nat, i: nat)
    requires trace == Trace([hop] + rest.hops, [status] + rest.statuses, rest.outcome) && 0 < i < |trace.hops|
    requires SettledAt(world, deadline, rest, k + 1, i - 1)
    ensures SettledAt(world, deadline, trace, k, i)
  {
    assert trace.hops[i] == rest.hops[i - 1];
    assert i + 1 < |trace.hops| ==> trace.hops[i + 1] == rest.hops[i];
  }

  /** The whole chain, fetch by fetch: it begins with the request unless the guardrails or the clock forbid that; a
      reply with one of the five redirect statuses is followed to the URL that its location names, if there is one,
      guardrails and clock allow it and fewer than five were followed before; every other reply is handed back. */
  lemma {:induction false} RedirectsFollowed(world: World, deadline: int, request: Hop)
    ensures var trace := Follow(world, deadline, request, 0); var refused := world.guard(0, request.url);
            && (refused.Some? ==> trace == Trace([], [], Refused(refused.value)))
            && (refused.None? && deadline <= world.now(0) ==> trace == Trace([], [], Refused(Timeout)))
            && (refused.None? && deadline > world.now(0) ==> trace.hops != [] && trace.hops[0] == request)
            && forall i :: 0 <= i < |trace.hops| ==> SettledAt(world, deadline, trace, 0, i)
  {
    FollowSettles(world, deadline, request, 0);
    hide Follow;
  }

  /** At most six fetches, each to a URL that the guardrails had just passed and before the deadline. */
  lemma {:induction false} FetchesGuarded(world: World, deadline: int, request: Hop)
    ensures var trace := Follow(world, deadline, request, 0);
            && |trace.hops| <= 6
            && forall i :: 0 <= i < |trace.hops| ==>
                 world.guard(2 * i, trace.hops[i].url).None? && world.now(i) < deadline
  {
    hide Follow;
    FollowSteps(world, deadline, request, 0);
    var trace := Follow(world, deadline, request, 0);
    forall i | 0 <= i < |trace.hops| ensures world.guard(2 * i, trace.hops[i].url).None? && world.now(i) < deadline {
      assert StepOK(world, deadline, trace, 0, i);
    }
  }

  /** Every fetch carries the original method, body and headers, less what the redirects before it took away. */
  lemma {:induction false} ChainCarries(world: World, deadline: int, request: Hop, k: nat)
    requires k < |Follow(world, deadline, request, 0).hops|
    ensures CarriedAt(Follow(world, deadline, request, 0), request, k)
  {
    hide Follow, NextHop, Rewrites, Rewritten, Crossed, CarriedAt;
    FollowSteps(world, deadline, request, 0);
    var trace := Follow(world, deadline, request, 0);
    if k > 0 {
      ChainCarries(world, deadline, request, k - 1);
      assert StepOK(world, deadline, trace, 0, k);
      RewrittenStep(trace, k - 1);
      CrossedStep(trace, k - 1);
      NextCarries(trace, request, k);
    } else {
      FirstCarries(trace, request);
    }
  }

  lemma {:induction false} FirstCarries(trace: Trace, request: Hop)
    requires trace.hops != [] && trace.hops[0] == request
    ensures CarriedAt(trace, request, 0)
  {
    assert request.headers - Dropped(false, false) == request.headers;
  }

  lemma {:induction false} NextCarries(trace: Trace, request: Hop, k: nat)
    requires 0 < k < |trace.hops| && k - 1 < |trace.statuses|
    requires trace.hops[k] == NextHop(trace.hops[k - 1], trace.statuses[k - 1], trace.hops[k].url)
    requires Rewritten(trace, k)
             <==> Rewritten(trace, k - 1) || Rewrites(trace.hops[k - 1].httpMethod, trace.statuses[k - 1])
    requires Crossed(trace, k) <==> Crossed(trace, k - 1) || trace.hops[k - 1].url.origin != trace.hops[k].url.origin
    requires CarriedAt(trace, request, k - 1)
    ensures CarriedAt(trace, request, k)
  {
    hide Rewritten, Crossed, Rewrites;
    assert trace.hops[k].headers == request.headers - Dropped(Rewritten(trace, k), Crossed(trace, k));
  }

  lemma {:induction false} RewrittenStep(trace: Trace, k: nat)
    requires k < |trace.hops| && k < |trace.statuses|
    ensures Rewritten(trace, k + 1) <==> Rewritten(trace, k) || Rewrites(trace.hops[k].httpMethod, trace.statuses[k])
  {
    hide Rewrites;
    if Rewritten(trace, k) {
      var j :| 0 <= j < k && j < |trace.hops| && j < |trace.statuses|
        && Rewrites(trace.hops[j].httpMethod, trace.statuses[j]);
      assert j < k + 1;
    }
  }

  lemma {:induction false} CrossedStep(trace: Trace, k: nat)
    requires k + 1 < |trace.hops|
    ensures Crossed(trace, k + 1) <==> Crossed(trace, k) || trace.hops[k].url.origin != trace.hops[k + 1].url.origin
  {
    if Crossed(trace, k) {
      var j :| 0 <= j < k && j + 1 < |trace.hops| && trace.hops[j].url.origin != trace.hops[j + 1].url.origin;
      assert j < k + 1;
    }
  }

  /** A credential reaches the k-th fetch exactly when the caller set it and fetches 0 to k share one origin; coming
      back to the first origin does not restore it. */
  lemma {:induction false} CredentialsStayHome(world: World, deadline: int, request: Hop, k: nat, name: string)
    requires k < |Follow(world, deadline, request, 0).hops|
    requires name in {"authorization", "proxy-authorization", "cookie", "x-api-key"}
    ensures var hops := Follow(world, deadline, request, 0).hops;
            name in hops[k].headers
            <==> name in request.headers && forall j :: 0 <= j <= k ==> hops[j].url.origin == request.url.origin
  {
    hide Follow, Rewritten;
    FollowSteps(world, deadline, request, 0);
    ChainCarries(world, deadline, request, k);
    var trace := Follow(world, deadline, request, 0);
    OneOrigin(trace, k);
    assert name !in BODY_HEADERS;
  }

  lemma {:induction false} OneOrigin(trace: Trace, k: nat)
    requires k < |trace.hops|
    ensures !Crossed(trace, k) <==> forall j :: 0 <= j <= k ==> trace.hops[j].url.origin == trace.hops[0].url.origin
  {
    if k > 0 {
      OneOrigin(trace, k - 1);
      CrossedStep(trace, k - 1);
    }
  }

  /** A chain of 307 and 308 redirects repeats method and body to the end, and once rewritten a request stays a GET
      without a body. */
  lemma {:induction false} PreservingAndRewriting(world: World, deadline: int, request: Hop, k: nat)
    requires k < |Follow(world, deadline, request, 0).hops|
    ensures var trace := Follow(world, deadline, request, 0);
            && ((forall j :: 0 <= j < k && j < |trace.statuses| ==> trace.statuses[j] in {307, 308}) ==>
                  trace.hops[k].httpMethod == request.httpMethod && SentBody(trace.hops[k]) == SentBody(request))
            && forall m :: 0 <= m <= k && Rewritten(trace, m)
                 ==> trace.hops[k].httpMethod == "GET" && trace.hops[k].body.None?
  {
    hide Follow;
    ChainCarries(world, deadline, request, k);
    var trace := Follow(world, deadline, request, 0);
    forall m | 0 <= m <= k && Rewritten(trace, m) ensures Rewritten(trace, k) {
      var j :| 0 <= j < m && j < |trace.hops| && j < |trace.statuses|
        && Rewrites(trace.hops[j].httpMethod, trace.statuses[j]);
      assert j < k;
    }
  }

  /** The method that the Fetch standard and section 15.4 of RFC 9110 give to the request after a redirect. */
  function StandardMethod(httpMethod: string, status: int): string {
    if (status == 303 && httpMethod != "GET" && httpMethod != "HEAD")
       || ((status == 301 || status == 302) && httpMethod == "POST")
    then "GET" else httpMethod
  }

  lemma {:induction false} MethodAsStandard(hop: Hop, status: int, next: URL)
    ensures NextHop(hop, status, next).httpMethod == StandardMethod(hop.httpMethod, status)
            <==> !(status == 303 && hop.httpMethod == "HEAD")
  {
    assert "GET"[0] != "HEAD"[0];
  }

  /** The redirect after the i-th fetch gives the next one the standard's method. */
  ghost predicate StandardAt(trace: Trace, i: nat)
    requires i + 1 < |trace.hops| <= |trace.statuses| + 1
  {
    trace.hops[i + 1].httpMethod == StandardMethod(trace.hops[i].httpMethod, trace.statuses[i])
  }

  /** A chain keeps to the standard's method at every redirect if and only if no HEAD in it is answered with 303. */
  lemma {:induction false} MethodsAsStandard(world: World, deadline: int, request: Hop)
    ensures var trace := Follow(world, deadline, request, 0);
            && |trace.hops| <= |trace.statuses| + 1
            && ((forall i :: 0 <= i < |trace.hops| - 1 ==> StandardAt(trace, i))
                <==> forall i :: 0 <= i < |trace.hops| - 1
                       ==> !(trace.statuses[i] == 303 && trace.hops[i].httpMethod == "HEAD"))
  {
    hide Follow, NextHop, StandardMethod;
    FollowSteps(world, deadline, request, 0);
    var trace := Follow(world, deadline, request, 0);
    forall i | 0 <= i < |trace.hops| - 1
      ensures StandardAt(trace, i) <==> !(trace.statuses[i] == 303 && trace.hops[i].httpMethod == "HEAD")
    {
      assert StepOK(world, deadline, trace, 0, i + 1);
      MethodAsStandard(trace.hops[i], trace.statuses[i], trace.hops[i + 1].url);
    }
  }

  /** A server that answers HEAD with a 303 to another page, and anything else with that page. */
  function SeeOther(page: URL): World {
    World(
      (n: nat, url: URL) => None, (k: nat) => 0,
      (k: nat, hop: Hop) =>
        Replied(Response(if hop.httpMethod == "HEAD" then 303 else 200, page.href, map[], "", Some([]), hop.url.href)),
      (location: string, base: URL) => Some(page))
  }

  /** The worker fetches that page with GET, where the standard has it ask with HEAD again. */
  lemma {:induction false} HeadBecomesGet(request: Hop, page: URL)
    requires request.httpMethod == "HEAD" && page.href != ""
    ensures var trace := Follow(SeeOther(page), 1, request, 0);
            && |trace.hops| == 2 && trace.statuses == [303] && trace.outcome.Final?
            && trace.hops[0].httpMethod == "HEAD" && trace.hops[1].url == page && trace.hops[1].httpMethod == "GET"
            && StandardMethod("HEAD", 303) == "HEAD"
  {
    hide Follow, NextHop;
    var world := SeeOther(page);
    var next := NextHop(request, 303, page);
    assert "GET"[0] != "HEAD"[0];
    NextHopFields(request, 303, page);
    FollowTurn(world, 1, request, 0);
    FollowTurn(world, 1, next, 1);
  }
}
