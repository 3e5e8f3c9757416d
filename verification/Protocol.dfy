/** The packages that the agent and the worker exchange (client/internal/protocol/types.go). */
module Protocol {
  import opened Text

  const REQUEST_BATCH_PROTOCOL := "actionrelay.request_batch.v1"
  const RESULT_PACKAGE_PROTOCOL := "actionrelay.result_package.v1"
  const ROUTE_MODE_WHOLE_DEVICE := "whole_device"

  datatype BodyData = BodyData(encoding: string, data: string)

  /** Go's nil and empty header maps are the same value here: both are encoded as an absent field. */
  datatype RequestItem = RequestItem(
    requestID: string, httpMethod: string, url: string, headers: map<string, string>, body: Option<BodyData>)

  datatype ClientMeta = ClientMeta(batchIntervalMS: int, routeMode: string)

  datatype BatchLimits = BatchLimits(maxResponseBytesPerRequest: int, requestTimeoutMS: int, workerConcurrency: int)

  datatype RequestBatch = RequestBatch(
    protocol: string, batchID: string, sentAt: string, client: ClientMeta, limits: BatchLimits,
    requests: seq<RequestItem>)

  datatype ResponseBody = ResponseBody(encoding: string, data: string, bytes: int, truncated: bool)

  datatype HTTPResponse = HTTPResponse(
    status: int, headers: map<string, string>, body: ResponseBody, url: string, timingMS: int)

  datatype ResultError = ResultError(code: string, message: string)

  datatype RequestResult = RequestResult(
    requestID: string, ok: bool, response: Option<HTTPResponse>, error: Option<ResultError>)

  datatype ResultPackage = ResultPackage(protocol: string, batchID: string, ok: bool, results: seq<RequestResult>)

  function RequestIDs(requests: seq<RequestItem>): (ids: seq<string>)
    ensures |ids| == |requests| && forall i :: 0 <= i < |ids| ==> ids[i] == requests[i].requestID
  {
    seq(|requests|, i requires 0 <= i < |requests| => requests[i].requestID)
  }

  function ResultIDs(results: seq<RequestResult>): (ids: seq<string>)
    ensures |ids| == |results| && forall i :: 0 <= i < |ids| ==> ids[i] == results[i].requestID
  {
    seq(|results|, i requires 0 <= i < |results| => results[i].requestID)
  }

  function Elements<T>(s: seq<T>): set<T> {
    set x | x in s
  }

  predicate Distinct<T(==)>(s: seq<T>) {
    forall i, j :: 0 <= i < j < |s| ==> s[i] != s[j]
  }
}
