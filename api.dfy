/** The client's decisions around the HTTP API: which text to show for a
    failed call, when a 401 answer triggers the one refresh-and-retry of a
    request, and how the pending-requests query and the service endpoints
    are addressed. */
module Api {
  import opened Text

  // ---------------------------------------------------------------------------
  // Error messages

  /** The body of an error response, as far as the client reads it. */
  datatype ErrorResponse = ErrorResponse(status: int, error: Option<string>, message: Option<string>)

  /** What a failed call can throw: an HTTP-client error (with its error
      code, the response if one arrived, and its own message), another
      `Error`, or a thrown value that is not an `Error` at all. */
  datatype Failure =
    | ClientError(code: Option<string>, response: Option<ErrorResponse>, message: string)
    | PlainError(message: string)
    | NotAnError

  const CONNECTION_REFUSED := "Unable to connect to server. Please try again later."
  const RATE_LIMITED := "Too many requests. Please wait and try again."
  const UNEXPECTED := "An unexpected error occurred. Please try again."

  predicate Refused(f: Failure) {
    f.ClientError? && f.code == Some("ECONNREFUSED")
  }

  predicate RateLimited(f: Failure) {
    f.ClientError? && f.response.Some? && f.response.value.status == 429
  }

  /** The body's `error` field, when present and non-empty. */
  function BodyError(f: Failure): Option<string> {
    if f.ClientError? && f.response.Some? && Truthy(f.response.value.error) then f.response.value.error else None
  }

  /** The body's `message` field, when present and non-empty. */
  function BodyMessage(f: Failure): Option<string> {
    if f.ClientError? && f.response.Some? && Truthy(f.response.value.message) then f.response.value.message else None
  }

  /** `handleApiError`: a refused connection first, whatever the response;
      then a 429 status, before any body field; then the body's `error`, then
      its `message` (an empty one is skipped); then the error's own message,
      even an empty one. Only a thrown non-`Error` gets the generic text. */
  function HandleApiError(f: Failure): (msg: string)
    ensures Refused(f) ==> msg == CONNECTION_REFUSED
    ensures !Refused(f) && RateLimited(f) ==> msg == RATE_LIMITED
    ensures !Refused(f) && !RateLimited(f) && BodyError(f).Some? ==> msg == BodyError(f).value
    ensures !Refused(f) && !RateLimited(f) && BodyError(f).None? && BodyMessage(f).Some? ==> msg == BodyMessage(f).value
    ensures !Refused(f) && !RateLimited(f) && BodyError(f).None? && BodyMessage(f).None? && !f.NotAnError? ==> msg == f.message
    ensures f.NotAnError? ==> msg == UNEXPECTED
  {
    match f
    case ClientError(code, response, message) =>
      if code == Some("ECONNREFUSED") then CONNECTION_REFUSED
      else if response.Some? && response.value.status == 429 then RATE_LIMITED
      else if response.Some? && Truthy(response.value.error) then response.value.error.value
      else if response.Some? && Truthy(response.value.message) then response.value.message.value
      else message
    case PlainError(message) => message
    case NotAnError => UNEXPECTED
  }

  /** The text shown for an error is always one the error carries, or one of
      the three fixed texts; the generic one is never shown for an `Error`
      unless the error itself says so. */
  lemma ErrorTextComesFromTheError(f: Failure)
    ensures var msg := HandleApiError(f);
      || msg == CONNECTION_REFUSED || msg == RATE_LIMITED || msg == UNEXPECTED
      || (!f.NotAnError? && msg == f.message)
      || Some(msg) == BodyError(f) || Some(msg) == BodyMessage(f)
    ensures !f.NotAnError? && HandleApiError(f) == UNEXPECTED ==>
      f.message == UNEXPECTED || BodyError(f) == Some(UNEXPECTED) || BodyMessage(f) == Some(UNEXPECTED)
  {
  }

  /** A client error with an empty message and nothing else to say yields
      the empty text, not the generic one. */
  lemma EmptyClientErrorStaysEmpty(code: Option<string>)
    requires code != Some("ECONNREFUSED")
    ensures HandleApiError(ClientError(code, None, "")) == ""
  {
  }

  // ---------------------------------------------------------------------------
  // The 401 refresh-and-retry guard

  datatype Decision = RefreshAndRetry | Reject

  /** The response interceptor's choice for a failed response with the given
      status, and the request's `_retry` flag after it: a 401 on a request
      not yet retried marks it and retries; anything else is rejected
      unchanged. */
  function Intercept(retried: bool, status: Option<int>): (r: (Decision, bool))
    ensures r.0 == RefreshAndRetry <==> status == Some(401) && !retried
    ensures r.1 == (retried || r.0 == RefreshAndRetry)
  {
    if status == Some(401) && !retried then (RefreshAndRetry, true) else (Reject, retried)
  }

  /** How many refresh-and-retries a request goes through when its attempts
      fail with the given statuses, starting from the flag `retried`. */
  function Retries(retried: bool, statuses: seq<Option<int>>): nat
    decreases |statuses|
  {
    if statuses == [] then 0
    else
      var (d, flag) := Intercept(retried, statuses[0]);
      (if d == RefreshAndRetry then 1 else 0) + Retries(flag, statuses[1..])
  }

  /** A marked request is never retried again. */
  lemma {:induction false} NoRetryAfterMark(statuses: seq<Option<int>>)
    ensures Retries(true, statuses) == 0
  {
    if statuses != [] {
      NoRetryAfterMark(statuses[1..]);
    }
  }

  /** Whatever answers come back, a request is refreshed and retried at most
      once, and only when some answer is a 401. */
  lemma {:induction false} AtMostOneRetry(statuses: seq<Option<int>>)
    ensures Retries(false, statuses) <= 1
    ensures Retries(false, statuses) == 1 <==> Some(401) in statuses
  {
    if statuses != [] {
      if statuses[0] == Some(401) {
        NoRetryAfterMark(statuses[1..]);
      } else {
        AtMostOneRetry(statuses[1..]);
        assert Some(401) in statuses <==> Some(401) in statuses[1..] by {
          assert statuses == [statuses[0]] + statuses[1..];
        }
      }
    }
  }

  /** The request configuration the interceptor marks. */
  class RequestConfig {
    var retry: bool

    constructor()
      ensures !retry
    {
      retry := false;
    }

    /** The interceptor's handling of one failed response. */
    method OnError(status: Option<int>) returns (d: Decision)
      modifies this
      ensures (d, retry) == Intercept(old(retry), status)
    {
      var r := Intercept(retry, status);
      d := r.0;
      retry := r.1;
    }
  }

  // ---------------------------------------------------------------------------
  // Endpoints

  /** The query of `getPendingRequests`. */
  datatype PendingQuery = PendingQuery(path: string, reqStatus: string, page: int, limit: int)

  /** `getPendingRequests(page = 1, limit = 10)`: always filtered to
      pending requests; an omitted page or limit takes its default. */
  function GetPendingRequests(page: Option<int>, limit: Option<int>): (q: PendingQuery)
    ensures q.path == "/requests" && q.reqStatus == "pending"
    ensures q.page == (if page.Some? then page.value else 1)
    ensures q.limit == (if limit.Some? then limit.value else 10)
  {
    PendingQuery("/requests", "pending",
      match page case Some(p) => p case None => 1,
      match limit case Some(l) => l case None => 10)
  }

  datatype ServiceKind = VehicleService | GuesthouseService | OtherService

  function ServiceSegment(k: ServiceKind): string {
    match k
    case VehicleService => "vehicle-requests"
    case GuesthouseService => "guesthouse-requests"
    case OtherService => "other-requests"
  }

  /** `/requests/{requestId}/vehicle-requests` and its two siblings. */
  function ServicePath(k: ServiceKind, requestId: int): string {
    "/requests/" + IntToString(requestId) + "/" + ServiceSegment(k)
  }

  /** The path splits at its slashes into the fixed segments and the
      request id's digits. */
  lemma ServicePathSegments(k: ServiceKind, requestId: int)
    ensures SplitOn(ServicePath(k, requestId), '/') == ["", "requests", IntToString(requestId), ServiceSegment(k)]
  {
    var id, seg := IntToString(requestId), ServiceSegment(k);
    var requests := "requests";
    IntToStringChars(requestId, '/');
    assert '/' !in seg;
    assert '/' !in requests;
    var tail := id + ['/'] + seg;
    var rest := requests + ['/'] + tail;
    assert ServicePath(k, requestId) == [] + ['/'] + rest;
    SplitOnAbsent(seg, '/');
    SplitOnFirstPiece(id, '/', seg);
    SplitOnFirstPiece(requests, '/', tail);
    SplitOnFirstPiece([], '/', rest);
  }

  /** The path determines the request and the kind of service: no two
      calls share an endpoint. */
  lemma ServicePathInjective(k1: ServiceKind, id1: int, k2: ServiceKind, id2: int)
    requires ServicePath(k1, id1) == ServicePath(k2, id2)
    ensures k1 == k2 && id1 == id2
  {
    ServicePathSegments(k1, id1);
    ServicePathSegments(k2, id2);
    IntToStringInjective(id1, id2);
  }
}
