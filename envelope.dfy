/**
  The response envelope of the REST API: every handler answers with an
  `ApiResponse` (success flag, optional data, optional message, timestamp,
  version) or, on failure, with the error structure raised as the detail of
  an HTTP exception (success forced to false, an error code, a message,
  timestamp and version). The HTTP status travels beside the body.
 */
module Envelope {
  import opened Wrappers

  /** The fixed API version every envelope carries. */
  const Version := "1.0.0"

  datatype ApiResponse<T> = ApiResponse(
    success: bool,
    data: Option<T>,
    message: Option<string>,
    timestamp: string,
    version: string)

  datatype ErrorResponse = ErrorResponse(
    success: bool,
    error: string,
    message: string,
    timestamp: string,
    version: string)

  /** What a handler hands back to the framework: a body and a status code. */
  datatype Reply<T> =
    | Ok(status: int, body: ApiResponse<T>)
    | Fail(status: int, detail: ErrorResponse)

  /**
    The envelope convention: a success reply says success, carries data and a
    2xx status; a failure reply says failure and carries a 4xx/5xx status and
    an error code; both carry the version and the time of the response.
   */
  ghost predicate WellFormed<T>(r: Reply<T>, now: string) {
    match r
    case Ok(status, body) =>
      && 200 <= status < 300
      && body.success && body.data.Some? && body.message.Some?
      && body.timestamp == now && body.version == Version
    case Fail(status, detail) =>
      && 400 <= status < 600
      && !detail.success && detail.error != ""
      && detail.timestamp == now && detail.version == Version
  }

  /** `ApiResponse(success=True, data=..., message=..., timestamp=now)`. */
  function Success<T>(status: int, data: T, message: string, now: string): (r: Reply<T>)
    requires 200 <= status < 300
    ensures WellFormed(r, now)
    ensures r.Ok? && r.status == status && r.body.data == Some(data)
  {
    Ok(status, ApiResponse(true, Some(data), Some(message), now, Version))
  }

  /** `HTTPException(status_code=..., detail={"success": False, ...})`. */
  function Failure<T>(status: int, code: string, message: string, now: string): (r: Reply<T>)
    requires 400 <= status < 600 && code != ""
    ensures WellFormed(r, now)
    ensures r.Fail? && r.status == status && r.detail.error == code && r.detail.message == message
  {
    Fail(status, ErrorResponse(false, code, message, now, Version))
  }
}
