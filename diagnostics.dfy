/** The diagnostics the agent forwards to the server for an error
    (src/utils/diagnostics.ts). */
module Diagnostics {
  import opened Base

  /** `DiagnosticType.AGENT` and the `AgentMessageType` members; their
      string values are the shared library's, written here as the members'
      names. */
  const AGENT := "AGENT"
  const INTEGRATION_ERROR := "INTEGRATION_ERROR"
  const INTERNAL_ERROR := "INTERNAL_ERROR"
  const UNAUTHORIZED_ERROR := "UNAUTHORIZED_ERROR"

  /** The `messageType` of the diagnostic for `err`: the first `instanceof`
      test that holds decides. */
  function MessageType(err: Fault): (t: string)
    ensures err.cls == Integration || err.cls == BadRequest ==> t == INTEGRATION_ERROR
    ensures (err.cls != Integration && err.cls != BadRequest &&
             (err.cls == InternalServer || err.cls == NotFound || err.IsHttpError())) ==> t == INTERNAL_ERROR
    ensures t == UNAUTHORIZED_ERROR <==>
      err.cls == Unauthorized && !err.IsHttpError()
    ensures t in {INTEGRATION_ERROR, INTERNAL_ERROR, UNAUTHORIZED_ERROR}
  {
    if err.cls == Integration || err.cls == BadRequest then INTEGRATION_ERROR
    else if err.cls == InternalServer || err.cls == NotFound || err.IsHttpError() then INTERNAL_ERROR
    else if err.cls == Unauthorized then UNAUTHORIZED_ERROR
    else INTERNAL_ERROR
  }

  /** The payload `forwardAgentDiagnostics` sends: the tags, with `type`,
      `messageType` and `message` written over any tags of those names. */
  function DiagnosticPayload(err: Fault, tags: Tags): (p: map<string, string>)
    ensures "type" in p && p["type"] == AGENT
    ensures "messageType" in p && p["messageType"] == MessageType(err)
    ensures "message" in p && p["message"] == err.message
    ensures forall k :: k in tags && k !in {"type", "messageType", "message"} ==> k in p && p[k] == tags[k]
    ensures forall k :: k in p ==> k in tags || k in {"type", "messageType", "message"}
  {
    tags + map["type" := AGENT, "messageType" := MessageType(err), "message" := err.message]
  }

  /** Since the shared library's `UnauthorizedError` is an `HttpError`, an
      error raised as one is reported as an internal error; the
      unauthorized kind is left for errors of that name outside the
      `HttpError` family. */
  lemma RaisedUnauthorizedIsInternal(message: string)
    ensures MessageType(Raise(Unauthorized, message)) == INTERNAL_ERROR
  {
  }
}
