/** The agent's error responses (src/middleware/error.ts). */
module MiddlewareError {
  import opened Base
  import opened Diagnostics
  import opened Request

  /** `SuperblocksError.RbacUnauthorized`. */
  const RBAC_UNAUTHORIZED := "RbacUnauthorized"

  datatype ErrorDto = ErrorDto(code: int, message: string, errorType: Option<string>)

  datatype ResponseMeta = ResponseMeta(status: int, message: string, success: bool, error: ErrorDto)

  /** `getResponseMetaByError`. */
  function GetResponseMetaByError(err: Fault): (m: ResponseMeta)
    ensures !m.success
    ensures m.error.code == m.status && m.error.message == m.message
    ensures m.error.errorType.Some? <==> err.IsHttpError() && err.cls == RbacUnauthorized
    ensures m.error.errorType.Some? ==> m.error.errorType.value == RBAC_UNAUTHORIZED
    ensures err.IsHttpError() ==> m.status == err.httpStatus.value && m.message == err.message
    ensures !err.IsHttpError() && err.cls == Integration ==> m.status == 200 && m.message == err.message
    ensures !err.IsHttpError() && err.cls == Syntax ==>
      m.status == 400 && m.message == "Request body was not JSON parseable: " + err.message
    ensures !err.IsHttpError() && err.cls != Integration && err.cls != Syntax ==>
      m.status == 500 && m.message == "Internal Error"
  {
    var (status, message, errorType) :=
      if err.IsHttpError() then
        (err.httpStatus.value, err.message, if err.cls == RbacUnauthorized then Some(RBAC_UNAUTHORIZED) else None)
      else if err.cls == Integration then (200, err.message, None)
      else if err.cls == Syntax then (400, "Request body was not JSON parseable: " + err.message, None)
      else (500, "Internal Error", None);
    ResponseMeta(status, message, false, ErrorDto(status, message, errorType))
  }

  /** What `errorHandler` does: the response status and body, and the
      diagnostics it forwards (with the error's tags, or none). */
  datatype HandlerEffect = HandlerEffect(status: int, body: ResponseMeta, diagnostics: seq<map<string, string>>)

  function ErrorHandler(err: Fault): (e: HandlerEffect)
    ensures e.status == e.body.status == GetResponseMetaByError(err).status
    ensures e.body == GetResponseMetaByError(err)
    ensures |e.diagnostics| == 1 && e.diagnostics[0] == DiagnosticPayload(err, err.tags.GetOr(map[]))
  {
    var meta := GetResponseMetaByError(err);
    HandlerEffect(meta.status, meta, [DiagnosticPayload(err, err.tags.GetOr(map[]))])
  }

  /** A failed server request reaches the caller with the server's status
      (500 when it gave none) and message, and carries the RBAC type
      exactly when the server's payload said so. */
  lemma RequestFailureResponse(e: RequestFailure)
    ensures var m := GetResponseMetaByError(FailureFault(e));
      (m.error.errorType == Some(RBAC_UNAUTHORIZED) <==> e.rbacPayload) &&
      (e.rbacPayload ==> m.status == 401) &&
      (!e.rbacPayload ==> m.status == e.status.GetOr(500) && m.message == FailureMessage(e))
  {
    FailureIsHttpError(e);
  }
}
