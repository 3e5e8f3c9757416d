/** The package validators: client/internal/protocol/validate.go, and the worker's self-check in
    worker/run-batch.mjs. */
module Validation {
  import opened Text
  import opened Protocol

  datatype ItemFault =
    | RequestIDRequired | DuplicateRequestID | MethodRequired | URLRequired | EmptyRequestHeader | BadBodyEncoding

  datatype BatchError =
    | BadBatchProtocol | BatchIDRequired | BadSentAt | BadInterval | BadRouteMode
    | BadMaxResponseBytes | BadRequestTimeout | BadConcurrency | NoRequests
    | BadItem(index: nat, itemFault: ItemFault)

  datatype ResultFault =
    | ResultIDRequired | DuplicateResultID | NeedsResponseOnly | NeedsErrorOnly
    | ResponseURLRequired | NegativeBytes | NegativeTiming | EmptyResponseHeader | ErrorCodeRequired

  datatype PackageError =
    | BadPackageProtocol | PackageBatchIDRequired | BadResult(index: nat, resultFault: ResultFault)

  datatype VerifyError =
    | Malformed(packageError: PackageError) | BatchIDMismatch
    | MissingResult(requestID: string) | UnexpectedResult(requestID: string)

  // ----- what the validators promise -----

  ghost predicate HeaderNamesOK(headers: map<string, string>) {
    forall key :: key in headers ==> !GoBlank(key)
  }

  ghost predicate ItemOK(item: RequestItem) {
    && !GoBlank(item.requestID) && !GoBlank(item.httpMethod) && !GoBlank(item.url)
    && HeaderNamesOK(item.headers)
    && (item.body.Some? ==> item.body.value.encoding == "base64")
  }

  ghost predicate PreambleOK(batch: RequestBatch, validTime: string -> bool) {
    && batch.protocol == "actionrelay.request_batch.v1" && !GoBlank(batch.batchID) && validTime(batch.sentAt)
    && batch.client.batchIntervalMS > 0 && batch.client.routeMode == "whole_device"
    && batch.limits.maxResponseBytesPerRequest > 0 && batch.limits.requestTimeoutMS > 0
    && batch.limits.workerConcurrency > 0 && batch.requests != []
  }

  ghost predicate BatchOK(batch: RequestBatch, validTime: string -> bool) {
    && PreambleOK(batch, validTime)
    && Distinct(RequestIDs(batch.requests))
    && forall i :: 0 <= i < |batch.requests| ==> ItemOK(batch.requests[i])
  }

  ghost predicate ResultOK(result: RequestResult) {
    && !GoBlank(result.requestID)
    && (result.ok ==> result.response.Some? && result.error.None?)
    && (!result.ok ==> result.response.None? && result.error.Some?)
    && (result.response.Some? ==>
          var response := result.response.value;
          !GoBlank(response.url) && response.body.bytes >= 0 && response.timingMS >= 0
            && HeaderNamesOK(response.headers))
    && (result.error.Some? ==> !GoBlank(result.error.value.code))
  }

  ghost predicate PackageOK(pkg: ResultPackage) {
    && pkg.protocol == "actionrelay.result_package.v1" && !GoBlank(pkg.batchID)
    && Distinct(ResultIDs(pkg.results))
    && forall i :: 0 <= i < |pkg.results| ==> ResultOK(pkg.results[i])
  }

  /** What the client accepts as the answer to a batch. */
  ghost predicate Accepted(pkg: ResultPackage, batchID: string, requestIDs: seq<string>) {
    PackageOK(pkg) && pkg.batchID == batchID && Elements(ResultIDs(pkg.results)) == Elements(requestIDs)
  }

  /** One result, as the worker checks its own output. */
  ghost predicate WorkerResultOK(result: RequestResult) {
    && !JsBlank(result.requestID)
    && (result.ok ==>
          && result.response.Some? && result.error.None?
          && !JsBlank(result.response.value.url)
          && result.response.value.timingMS >= 0 && result.response.value.body.bytes >= 0)
    && (!result.ok ==> result.response.None? && result.error.Some? && !JsBlank(result.error.value.code))
  }

  ghost predicate SelfChecked(pkg: ResultPackage, requests: seq<RequestItem>) {
    && pkg.protocol == "actionrelay.result_package.v1" && !JsBlank(pkg.batchID)
    && Distinct(ResultIDs(pkg.results))
    && (forall i :: 0 <= i < |pkg.results| ==> WorkerResultOK(pkg.results[i]))
    && Elements(ResultIDs(pkg.results)) == Elements(RequestIDs(requests))
  }

  // ----- the loops -----

  method CheckHeaderNames(headers: map<string, string>) returns (ok: bool)
    ensures ok <==> HeaderNamesOK(headers)
  {
    var left := headers.Keys;
    while left != {}
      invariant left <= headers.Keys
      invariant forall key :: key in headers && key !in left ==> !GoBlank(key)
      decreases left
    {
      var key :| key in left;
      if GoBlank(key) {
        return false;
      }
      left := left - {key};
    }
    return true;
  }

  method CheckItem(item: RequestItem, seen: set<string>) returns (fault: Option<ItemFault>)
    ensures fault.None? <==> ItemOK(item) && item.requestID !in seen
    ensures fault == Some(DuplicateRequestID) <==> !GoBlank(item.requestID) && item.requestID in seen
  {
    if GoBlank(item.requestID) { return Some(RequestIDRequired); }
    if item.requestID in seen { return Some(DuplicateRequestID); }
    if GoBlank(item.httpMethod) { return Some(MethodRequired); }
    if GoBlank(item.url) { return Some(URLRequired); }
    var namesOK := CheckHeaderNames(item.headers);
    if !namesOK { return Some(EmptyRequestHeader); }
    if item.body.Some? && item.body.value.encoding != "base64" { return Some(BadBodyEncoding); }
    return None;
  }

  /** An error about an item names the first item that is bad on its own or repeats an earlier ID. */
  method ValidateRequestBatch(batch: RequestBatch, validTime: string -> bool) returns (error: Option<BatchError>)
    ensures error.None? <==> BatchOK(batch, validTime)
    ensures error.Some? && error.value.BadItem? ==>
              var i := error.value.index;
              && PreambleOK(batch, validTime) && i < |batch.requests|
              && (forall j :: 0 <= j < i ==> ItemOK(batch.requests[j]))
              && Distinct(RequestIDs(batch.requests)[..i])
              && (!ItemOK(batch.requests[i]) || batch.requests[i].requestID in RequestIDs(batch.requests)[..i])
  {
    if batch.protocol != REQUEST_BATCH_PROTOCOL { return Some(BadBatchProtocol); }
    if GoBlank(batch.batchID) { return Some(BatchIDRequired); }
    if !validTime(batch.sentAt) { return Some(BadSentAt); }
    if batch.client.batchIntervalMS <= 0 { return Some(BadInterval); }
    if batch.client.routeMode != ROUTE_MODE_WHOLE_DEVICE { return Some(BadRouteMode); }
    if batch.limits.maxResponseBytesPerRequest <= 0 { return Some(BadMaxResponseBytes); }
    if batch.limits.requestTimeoutMS <= 0 { return Some(BadRequestTimeout); }
    if batch.limits.workerConcurrency <= 0 { return Some(BadConcurrency); }
    if batch.requests == [] { return Some(NoRequests); }

    ghost var ids := RequestIDs(batch.requests);
    var seen: set<string> := {};
    for idx := 0 to |batch.requests|
      invariant seen == Elements(ids[..idx])
      invariant Distinct(ids[..idx])
      invariant forall j :: 0 <= j < idx ==> ItemOK(batch.requests[j])
    {
      var item := batch.requests[idx];
      var fault := CheckItem(item, seen);
      if fault.Some? {
        assert item.requestID in seen ==> !Distinct(ids);
        return Some(BadItem(idx, fault.value));
      }
      seen := seen + {item.requestID};
      assert ids[..idx + 1] == ids[..idx] + [item.requestID];
    }
    assert ids[..|ids|] == ids;
    return None;
  }

  method CheckResult(result: RequestResult, seen: set<string>) returns (fault: Option<ResultFault>)
    ensures fault.None? <==> ResultOK(result) && result.requestID !in seen
    ensures fault == Some(DuplicateResultID) <==> !GoBlank(result.requestID) && result.requestID in seen
  {
    if GoBlank(result.requestID) { return Some(ResultIDRequired); }
    if result.requestID in seen { return Some(DuplicateResultID); }
    if result.ok {
      if result.response.None? || result.error.Some? { return Some(NeedsResponseOnly); }
    } else {
      if result.response.Some? || result.error.None? { return Some(NeedsErrorOnly); }
    }
    if result.response.Some? {
      var response := result.response.value;
      if GoBlank(response.url) { return Some(ResponseURLRequired); }
      if response.body.bytes < 0 { return Some(NegativeBytes); }
      if response.timingMS < 0 { return Some(NegativeTiming); }
      var namesOK := CheckHeaderNames(response.headers);
      if !namesOK { return Some(EmptyResponseHeader); }
    }
    if result.error.Some? && GoBlank(result.error.value.code) { return Some(ErrorCodeRequired); }
    return None;
  }

  method ValidateResultPackage(pkg: ResultPackage) returns (error: Option<PackageError>)
    ensures error.None? <==> PackageOK(pkg)
    ensures error.Some? && error.value.BadResult? ==>
              var i := error.value.index;
              && i < |pkg.results|
              && (forall j :: 0 <= j < i ==> ResultOK(pkg.results[j]))
              && Distinct(ResultIDs(pkg.results)[..i])
              && (!ResultOK(pkg.results[i]) || pkg.results[i].requestID in ResultIDs(pkg.results)[..i])
  {
    if pkg.protocol != RESULT_PACKAGE_PROTOCOL { return Some(BadPackageProtocol); }
    if GoBlank(pkg.batchID) { return Some(PackageBatchIDRequired); }
    ghost var ids := ResultIDs(pkg.results);
    var seen: set<string> := {};
    for idx := 0 to |pkg.results|
      invariant seen == Elements(ids[..idx])
      invariant Distinct(ids[..idx])
      invariant forall j :: 0 <= j < idx ==> ResultOK(pkg.results[j])
    {
      var result := pkg.results[idx];
      var fault := CheckResult(result, seen);
      if fault.Some? {
        assert result.requestID in seen ==> !Distinct(ids);
        return Some(BadResult(idx, fault.value));
      }
      seen := seen + {result.requestID};
      assert ids[..idx + 1] == ids[..idx] + [result.requestID];
    }
    assert ids[..|ids|] == ids;
    return None;
  }

  method VerifyResultPackageForBatch(pkg: ResultPackage, expectedBatchID: string, requestIDs: seq<string>)
    returns (error: Option<VerifyError>)
    ensures error.None? <==> Accepted(pkg, expectedBatchID, requestIDs)
    ensures error.Some? && error.value.MissingResult? ==>
              error.value.requestID in requestIDs && error.value.requestID !in ResultIDs(pkg.results)
    ensures error.Some? && error.value.UnexpectedResult? ==>
              error.value.requestID in ResultIDs(pkg.results) && error.value.requestID !in requestIDs
  {
    var malformed := ValidateResultPackage(pkg);
    if malformed.Some? { return Some(Malformed(malformed.value)); }
    if pkg.batchID != expectedBatchID { return Some(BatchIDMismatch); }

    ghost var ids := ResultIDs(pkg.results);
    var resultsByID: set<string> := {};
    for i := 0 to |pkg.results|
      invariant resultsByID == Elements(ids[..i])
    {
      resultsByID := resultsByID + {pkg.results[i].requestID};
      assert ids[..i + 1] == ids[..i] + [pkg.results[i].requestID];
    }
    assert ids[..|ids|] == ids;
    var expected: set<string> := {};
    for i := 0 to |requestIDs|
      invariant expected == Elements(requestIDs[..i])
      invariant expected <= resultsByID
    {
      expected := expected + {requestIDs[i]};
      assert requestIDs[..i + 1] == requestIDs[..i] + [requestIDs[i]];
      if requestIDs[i] !in resultsByID {
        assert requestIDs[i] in Elements(requestIDs);
        return Some(MissingResult(requestIDs[i]));
      }
    }
    assert requestIDs[..|requestIDs|] == requestIDs;
    var left := resultsByID;
    while left != {}
      invariant left <= resultsByID
      invariant resultsByID - left <= expected
      decreases left
    {
      var resultID :| resultID in left;
      if resultID !in expected {
        return Some(UnexpectedResult(resultID));
      }
      left := left - {resultID};
    }
    return None;
  }

  /** The worker's check of its own package; an error stops the worker before it writes the package. */
  method ValidateGeneratedResultPackage(pkg: ResultPackage, requests: seq<RequestItem>) returns (ok: bool)
    ensures ok <==> SelfChecked(pkg, requests)
  {
    if pkg.protocol != RESULT_PACKAGE_PROTOCOL || JsBlank(pkg.batchID) { return false; }
    var expected := Elements(RequestIDs(requests));
    ghost var ids := ResultIDs(pkg.results);
    var seen: set<string> := {};
    for index := 0 to |pkg.results|
      invariant seen == Elements(ids[..index]) && seen <= expected
      invariant Distinct(ids[..index])
      invariant forall j :: 0 <= j < index ==> WorkerResultOK(pkg.results[j])
    {
      var result := pkg.results[index];
      assert ids[index] in Elements(ids);
      if JsBlank(result.requestID) { return false; }
      if result.requestID in seen { return false; }
      assert ids[..index + 1] == ids[..index] + [result.requestID];
      seen := seen + {result.requestID};
      if result.requestID !in expected { return false; }
      if result.ok {
        if result.response.None? || result.error.Some? { return false; }
        var response := result.response.value;
        if JsBlank(response.url) || response.timingMS < 0 || response.body.bytes < 0 { return false; }
      } else {
        if result.response.Some? || result.error.None? || JsBlank(result.error.value.code) { return false; }
      }
    }
    assert ids[..|ids|] == ids;
    var left := expected;
    while left != {}
      invariant left <= expected && expected - left <= seen
      decreases left
    {
      var requestID :| requestID in left;
      if requestID !in seen { return false; }
      left := left - {requestID};
    }
    return true;
  }

  // ----- what acceptance means for the agent -----

  lemma {:induction false} DistinctMultiset<T>(s: seq<T>)
    requires Distinct(s)
    ensures forall x :: multiset(s)[x] == if x in s then 1 else 0
  {
    if s != [] {
      var last := |s| - 1;
      assert s == s[..last] + [s[last]];
      DistinctMultiset(s[..last]);
      assert s[last] !in s[..last];
    }
  }

  /** For distinct request IDs, acceptance is the shape rules plus a permutation of the IDs. */
  lemma {:induction false} AcceptedIffPermutation(pkg: ResultPackage, batchID: string, requestIDs: seq<string>)
    requires Distinct(requestIDs)
    ensures Accepted(pkg, batchID, requestIDs)
            <==> PackageOK(pkg) && pkg.batchID == batchID && multiset(ResultIDs(pkg.results)) == multiset(requestIDs)
  {
    var ids := ResultIDs(pkg.results);
    DistinctMultiset(requestIDs);
    if PackageOK(pkg) {
      DistinctMultiset(ids);
      SameElements(ids, requestIDs);
      if multiset(ids) == multiset(requestIDs) {
        forall x ensures x in ids <==> x in requestIDs {
          assert x in ids <==> multiset(ids)[x] > 0;
        }
      }
    }
  }

  /** The agent's index of results: the first result with an ID wins, later ones are suppressed. */
  function ResultsByID(results: seq<RequestResult>): (m: map<string, RequestResult>)
    ensures forall id :: id in m ==> m[id].requestID == id && m[id] in results
  {
    if results == [] then map[]
    else
      var last := results[|results| - 1];
      var m := ResultsByID(results[..|results| - 1]);
      if last.requestID in m then m else m[last.requestID := last]
  }

  /** Of several results with one ID the first is kept. */
  lemma {:induction false} FirstResultWins(results: seq<RequestResult>, i: nat)
    requires i < |results| && forall j :: 0 <= j < i ==> results[j].requestID != results[i].requestID
    ensures results[i].requestID in ResultsByID(results) && ResultsByID(results)[results[i].requestID] == results[i]
  {
    var last := |results| - 1;
    if i < last {
      FirstResultWins(results[..last], i);
    } else {
      ResultsByIDKeys(results[..last]);
      assert results[i].requestID !in ResultIDs(results[..last]);
    }
  }

  lemma {:induction false} ResultsByIDStep(results: seq<RequestResult>, i: nat)
    requires i < |results|
    ensures var m := ResultsByID(results[..i]);
            ResultsByID(results[..i + 1])
            == if results[i].requestID in m then m else m[results[i].requestID := results[i]]
  {
    assert results[..i + 1][..i] == results[..i];
  }

  lemma {:induction false} ResultsByIDKeys(results: seq<RequestResult>)
    ensures forall id :: id in ResultsByID(results) <==> id in ResultIDs(results)
  {
    if results != [] {
      var n := |results| - 1;
      ResultsByIDKeys(results[..n]);
      assert ResultIDs(results) == ResultIDs(results[..n]) + [results[n].requestID];
    }
  }

  lemma {:induction false} NothingSuppressed(results: seq<RequestResult>)
    requires Distinct(ResultIDs(results))
    ensures |ResultsByID(results)| == |results|
    ensures forall i :: 0 <= i < |results| ==>
              results[i].requestID in ResultsByID(results) && ResultsByID(results)[results[i].requestID] == results[i]
  {
    if results != [] {
      var n := |results| - 1;
      var front, ids := results[..n], ResultIDs(results);
      assert ResultIDs(front) == ids[..n];
      NothingSuppressed(front);
      ResultsByIDKeys(front);
      assert results[n].requestID == ids[n] && ids[n] !in ids[..n];
      forall i | 0 <= i < n ensures results[i].requestID != results[n].requestID && results[i] == front[i] {
        assert results[i].requestID == ids[i];
      }
    }
  }

  lemma {:induction false} SameElements<T>(s: seq<T>, t: seq<T>)
    ensures Elements(s) == Elements(t) <==> forall x :: x in s <==> x in t
  {
    assert forall x :: x in s <==> x in Elements(s);
    assert forall x :: x in t <==> x in Elements(t);
  }

  /** After acceptance no result is suppressed as a duplicate and none is missing. */
  lemma {:induction false} AcceptedCoversBatch(pkg: ResultPackage, batchID: string, requestIDs: seq<string>)
    requires Accepted(pkg, batchID, requestIDs)
    ensures |ResultsByID(pkg.results)| == |pkg.results|
    ensures forall id :: id in ResultsByID(pkg.results) <==> id in requestIDs
    ensures forall i :: 0 <= i < |pkg.results| ==>
              && pkg.results[i].requestID in ResultsByID(pkg.results)
              && ResultsByID(pkg.results)[pkg.results[i].requestID] == pkg.results[i]
  {
    ResultsByIDKeys(pkg.results);
    NothingSuppressed(pkg.results);
    SameElements(ResultIDs(pkg.results), requestIDs);
  }

  // ----- the worker's check against the client's -----

  /** Only a next-line character can look blank to the client and not to the worker. */
  lemma {:induction false} BlankGap(s: string)
    requires GoBlank(s) && !JsBlank(s)
    ensures '\U{85}' in s
  {
    var i :| 0 <= i < |s| && !IsJsSpace(s[i]);
    assert s[i] == '\U{85}';
  }

  /** What the worker does not check about one of its results, and the client does. */
  ghost predicate ReadableByClient(result: RequestResult) {
    && (result.response.Some? ==> !GoBlank(result.response.value.url) && HeaderNamesOK(result.response.value.headers))
    && (result.error.Some? ==> !GoBlank(result.error.value.code))
  }

  lemma {:induction false} SelfCheckedAcceptedIff(pkg: ResultPackage, batch: RequestBatch, validTime: string -> bool)
    requires BatchOK(batch, validTime)
    requires SelfChecked(pkg, batch.requests) && pkg.batchID == batch.batchID
    ensures Accepted(pkg, batch.batchID, RequestIDs(batch.requests))
            <==> forall i :: 0 <= i < |pkg.results| ==> ReadableByClient(pkg.results[i])
  {
    var ids, requestIDs := ResultIDs(pkg.results), RequestIDs(batch.requests);
    forall i | 0 <= i < |pkg.results|
      ensures ResultOK(pkg.results[i]) <==> ReadableByClient(pkg.results[i])
    {
      assert ids[i] in Elements(ids);
      var j :| 0 <= j < |requestIDs| && requestIDs[j] == ids[i];
      assert ItemOK(batch.requests[j]);
      assert WorkerResultOK(pkg.results[i]);
    }
  }

  lemma {:induction false} SelfCheckedAccepted(pkg: ResultPackage, batch: RequestBatch, validTime: string -> bool)
    requires BatchOK(batch, validTime)
    requires SelfChecked(pkg, batch.requests) && pkg.batchID == batch.batchID
    requires forall i :: 0 <= i < |pkg.results| && pkg.results[i].response.Some? ==>
               '\U{85}' !in pkg.results[i].response.value.url && HeaderNamesOK(pkg.results[i].response.value.headers)
    requires forall i :: 0 <= i < |pkg.results| && pkg.results[i].error.Some? ==>
               '\U{85}' !in pkg.results[i].error.value.code
    ensures Accepted(pkg, batch.batchID, RequestIDs(batch.requests))
  {
    SelfCheckedAcceptedIff(pkg, batch, validTime);
    forall i | 0 <= i < |pkg.results| ensures ReadableByClient(pkg.results[i]) {
      var result := pkg.results[i];
      assert WorkerResultOK(result);
      if result.response.Some? && GoBlank(result.response.value.url) {
        BlankGap(result.response.value.url);
      }
      if result.error.Some? && GoBlank(result.error.value.code) {
        BlankGap(result.error.value.code);
      }
    }
  }

  /** The two trims differ: a package with this response URL passes the worker's self-check and is refused by the
      client. */
  lemma {:induction false} NextLineURLRefused(id: string, batchID: string, request: RequestItem)
    requires !GoBlank(id) && !JsBlank(id) && !JsBlank(batchID) && request.requestID == id
    ensures var response := HTTPResponse(200, map[], ResponseBody("base64", "", 0, false), "\U{85}", 0);
            var pkg := ResultPackage(RESULT_PACKAGE_PROTOCOL, batchID, true,
                                     [RequestResult(id, true, Some(response), None)]);
            SelfChecked(pkg, [request]) && !Accepted(pkg, batchID, [id])
  {
    var response := HTTPResponse(200, map[], ResponseBody("base64", "", 0, false), "\U{85}", 0);
    var result := RequestResult(id, true, Some(response), None);
    assert !IsJsSpace("\U{85}"[0]);
    assert ResultIDs([result]) == [id] == RequestIDs([request]);
    assert !ResultOK([result][0]);
  }
}
