/** The agent's requests to the server (src/utils/request.ts): reading the
    caller's credentials, classifying failures, and deciding on retries. */
module Request {
  import opened Base
  import opened Model
  import opened Health
  import opened Headers
  import opened AgentAuth

  /** `extractAuthHeaderFromRequest`: the `Authorization` header verbatim
      when it is non-empty, otherwise `Bearer ` and the auth query
      parameter when that is non-empty, otherwise nothing. */
  function ExtractAuthHeader(authorization: Option<string>, queryAuth: Option<string>): (r: Option<string>)
    ensures Given(authorization) ==> r == authorization
    ensures !Given(authorization) && Given(queryAuth) ==> r == Some("Bearer " + queryAuth.value)
    ensures r.None? <==> !Given(authorization) && !Given(queryAuth)
  {
    if Given(authorization) then authorization
    else if Given(queryAuth) then Some("Bearer " + queryAuth.value)
    else None
  }

  /** The extraction as the `allowAuthInQueryParams` option of
      `verifyAuth` documents it: the auth query parameter is an alternative
      to the header only where the option allows it. */
  function ExtractAuthHeaderGated(authorization: Option<string>, queryAuth: Option<string>,
                                  allowAuthInQueryParams: bool): (r: Option<string>)
    ensures allowAuthInQueryParams ==> r == ExtractAuthHeader(authorization, queryAuth)
    ensures !allowAuthInQueryParams ==> r == ExtractAuthHeader(authorization, None)
    ensures !allowAuthInQueryParams ==> (r.Some? <==> Given(authorization))
  {
    if Given(authorization) then authorization
    else if allowAuthInQueryParams && Given(queryAuth) then Some("Bearer " + queryAuth.value)
    else None
  }

  /** The statuses a request is not retried on: 404, 401, 400, 409. */
  const NON_RETRYABLE: set<int> := {404, 401, 400, 409}

  /** `shouldRetry`. */
  function ShouldRetry(err: Fault): (b: bool)
    ensures !err.IsHttpError() ==> !b
    ensures err.IsHttpError() ==> (b <==> err.httpStatus.value !in NON_RETRYABLE)
  {
    err.IsHttpError() && err.httpStatus.value !in NON_RETRYABLE
  }

  /** What a failed request throws, as far as the agent reads it:
      `e.response?.status`, `e.response?.data?.responseMeta?.error` (its
      `message` and whether its `superblocksError` is `RbacUnauthorized`),
      and `e.message`. */
  datatype RequestFailure = RequestFailure(
    status: Option<int>,
    metaMessage: Option<string>,
    rbacPayload: bool,
    message: string)

  /** The message `parseAndRecordError` reports: the server's message in
      preference to the transport's. */
  function FailureMessage(e: RequestFailure): (m: string)
    ensures e.metaMessage.Some? ==> m == e.metaMessage.value
    ensures e.metaMessage.None? ==> m == e.message
  {
    e.metaMessage.GetOr(e.message)
  }

  /** The error `makeRequest` throws for a failure. */
  function FailureFault(e: RequestFailure): (f: Fault)
    ensures e.rbacPayload ==>
      f == Raise(RbacUnauthorized, if e.metaMessage.Some? then e.metaMessage.value else "Action is not permitted.")
    ensures !e.rbacPayload ==> f == RaiseHttp(e.status.GetOr(500), FailureMessage(e))
  {
    if e.rbacPayload then Raise(RbacUnauthorized, e.metaMessage.GetOr("Action is not permitted."))
    else RaiseHttp(e.status.GetOr(500), FailureMessage(e))
  }

  /** Every request failure surfaces as an HTTP error, and one without a
      status as a 500, which is retried. */
  lemma FailureIsHttpError(e: RequestFailure)
    ensures FailureFault(e).IsHttpError()
    ensures !e.rbacPayload && e.status.None? ==> FailureFault(e).httpStatus == Some(500) && ShouldRetry(FailureFault(e))
    ensures e.rbacPayload ==> !ShouldRetry(FailureFault(e))
  {
  }

  /** `parseAndRecordError`: records the failure in the health record unless
      error history is disabled, and returns its status and message. */
  method ParseAndRecordError(e: RequestFailure, health: AgentHealthManager, historyDisable: string, now: int)
    returns (errorCode: Option<int>, errorMessage: string)
    requires health.Valid()
    modifies health
    ensures health.Valid()
    ensures errorCode == e.status && errorMessage == FailureMessage(e)
    ensures historyDisable != "true" ==> health.recorded == old(health.recorded) + [AgentError(e.status, FailureMessage(e), now)]
    ensures historyDisable == "true" ==> health.recorded == old(health.recorded) && health.serverErrors == old(health.serverErrors)
    ensures health.registered == old(health.registered)
  {
    errorCode := e.status;
    errorMessage := FailureMessage(e);
    if historyDisable != "true" {
      health.RecordServerError(AgentError(errorCode, errorMessage, now));
    }
  }

  /** What the transport does with a request: a response body, or a failure. */
  datatype Delivery = Delivered(body: Value) | Failed(failure: RequestFailure)

  /** `makeRequest` without a relay: stamps the headers, sends the request
      through `transport` (which sees the stamped headers), and returns
      `res.data.data`, or records and throws the failure. */
  method MakeRequest(
    headers: HeaderDict, creds: AgentCredentials, names: HeaderNames, settings: AgentSettings,
    transport: map<string, string> -> Delivery,
    health: AgentHealthManager, historyDisable: string, now: int)
    returns (r: Result<Value>)
    requires health.Valid()
    modifies headers, health
    ensures health.Valid()
    ensures headers.entries == StampedHeaders(old(headers.entries), creds, names, settings)
    ensures transport(headers.entries).Delivered? ==>
      r == Ok(Member(transport(headers.entries).body, "data")) &&
      health.recorded == old(health.recorded) && health.serverErrors == old(health.serverErrors)
    ensures transport(headers.entries).Failed? ==>
      r == Err(FailureFault(transport(headers.entries).failure))
    ensures transport(headers.entries).Failed? ==>
      var e := transport(headers.entries).failure;
      health.recorded == old(health.recorded) + (if historyDisable != "true" then [AgentError(e.status, FailureMessage(e), now)] else [])
    ensures health.registered == old(health.registered)
  {
    var stamped := SetAgentHeaders(headers, creds, names, settings);
    var delivery := transport(stamped.entries);
    match delivery
    case Delivered(body) =>
      r := Ok(Member(body, "data"));
    case Failed(e) =>
      var _, _ := ParseAndRecordError(e, health, historyDisable, now);
      r := Err(FailureFault(e));
  }
}
