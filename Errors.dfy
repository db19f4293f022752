/** The error classes and response records of src/lib/errors.ts. Trace ids
    and ISO timestamps are parameters; the structured logger only writes to
    the console and is not modelled. */
module Errors {
  import opened Common
  import opened Json

  /** The seven `ApiError` subclasses. */
  datatype ErrorKind = Validation | Authentication | Authorization | NotFound | Conflict | Internal | Unavailable

  /** An `ApiError` carries a code, a status and optional details; any other
      thrown `Error` only a message. */
  datatype Error =
    | ApiError(code: string, statusCode: int, message: string, details: Option<Json>)
    | PlainError(message: string)

  function KindCode(k: ErrorKind): string {
    match k
    case Validation => "VALIDATION_ERROR"
    case Authentication => "AUTHENTICATION_ERROR"
    case Authorization => "AUTHORIZATION_ERROR"
    case NotFound => "NOT_FOUND"
    case Conflict => "CONFLICT"
    case Internal => "INTERNAL_ERROR"
    case Unavailable => "SERVICE_UNAVAILABLE"
  }

  function KindStatus(k: ErrorKind): int {
    match k
    case Validation => 400
    case Authentication => 401
    case Authorization => 403
    case NotFound => 404
    case Conflict => 409
    case Internal => 500
    case Unavailable => 503
  }

  /** The message a subclass uses when none is given. */
  function DefaultMessage(k: ErrorKind, resource: string): string {
    match k
    case Authentication => "未經授權"
    case Authorization => "沒有權限訪問此資源"
    case NotFound => resource + " 不存在"
    case Internal => "內部服務器錯誤"
    case Unavailable => "服務暫時不可用"
    case _ => ""
  }

  /** `new XxxError(message?, details?)`; only the validation and internal
      errors keep details, and `NotFoundError` builds its message from the
      resource name. */
  function MakeError(k: ErrorKind, message: Option<string>, resource: string, details: Option<Json>): (e: Error)
    ensures e.ApiError? && e.code == KindCode(k) && e.statusCode == KindStatus(k)
    ensures k == NotFound ==> e.message == resource + " 不存在"
    ensures k != NotFound && message.Some? ==> e.message == message.value
    ensures (k == Validation || k == Internal) ==> e.details == details
    ensures !(k == Validation || k == Internal) ==> e.details == None
  {
    var msg := if k == NotFound then DefaultMessage(k, resource) else message.GetOr(DefaultMessage(k, resource));
    ApiError(KindCode(k), KindStatus(k), msg, if k == Validation || k == Internal then details else None)
  }

  /** Each subclass has its own code and its own status, and every status
      is a client or server error. */
  lemma Kinds_Distinct(a: ErrorKind, b: ErrorKind)
    ensures KindCode(a) == KindCode(b) <==> a == b
    ensures KindStatus(a) == KindStatus(b) <==> a == b
    ensures 400 <= KindStatus(a) < 600
  {}

  datatype ErrorBody = ErrorBody(code: string, message: string, details: Option<Json>, traceId: string)

  /** The `ApiResponse` record; `meta` holds only the timestamp. */
  datatype ApiResponse = ApiResponse(success: bool, data: Option<Json>, error: Option<ErrorBody>, timestamp: string)

  /** `successResponse(data)`. */
  function SuccessResponse(data: Json, timestamp: string): (r: ApiResponse)
    ensures r.success && r.data == Some(data) && r.error.None?
  {
    ApiResponse(true, Some(data), None, timestamp)
  }

  /** `errorResponse(error, traceId)`. */
  function ErrorResponse(e: Error, traceId: string, timestamp: string): (r: ApiResponse)
    ensures !r.success && r.data.None? && r.error.Some?
    ensures r.error.value.traceId == traceId && r.error.value.message == e.message
    ensures e.ApiError? ==> r.error.value.code == e.code && r.error.value.details == e.details
    ensures e.PlainError? ==> r.error.value.code == "INTERNAL_ERROR" && r.error.value.details.None?
  {
    var body := match e
      case ApiError(code, _, message, details) => ErrorBody(code, message, details, traceId)
      case PlainError(message) => ErrorBody("INTERNAL_ERROR", message, None, traceId);
    ApiResponse(false, None, Some(body), timestamp)
  }

  datatype HttpResponse = HttpResponse(status: int, body: ApiResponse, traceId: Option<string>)

  /** `createErrorResponse(error, traceId)`: the body of `errorResponse`,
      the error's own status or 500. */
  function CreateErrorResponse(e: Error, traceId: string, timestamp: string): (r: HttpResponse)
    ensures r.status == (if e.ApiError? then e.statusCode else 500)
    ensures r.body == ErrorResponse(e, traceId, timestamp) && r.traceId == Some(traceId)
  {
    HttpResponse(if e.ApiError? then e.statusCode else 500, ErrorResponse(e, traceId, timestamp), Some(traceId))
  }

  /** `createSuccessResponse(data, statusCode = 200)`. */
  function CreateSuccessResponse(data: Json, statusCode: Option<int>, timestamp: string): (r: HttpResponse)
    ensures r.body.success && r.body.data == Some(data)
    ensures r.status == statusCode.GetOr(200)
  {
    HttpResponse(statusCode.GetOr(200), SuccessResponse(data, timestamp), None)
  }

  /** The status and the body code of a subclass error agree, and an error
      of no subclass is answered exactly as an internal error would be. */
  lemma ErrorResponse_Agrees(k: ErrorKind, message: Option<string>, resource: string, details: Option<Json>,
                             text: string, traceId: string, timestamp: string)
    ensures var r := CreateErrorResponse(MakeError(k, message, resource, details), traceId, timestamp);
      r.status == KindStatus(k) && r.body.error.value.code == KindCode(k)
    ensures var p := CreateErrorResponse(PlainError(text), traceId, timestamp);
      var i := CreateErrorResponse(MakeError(Internal, Some(text), resource, None), traceId, timestamp);
      p.status == i.status && p.body.error.value.code == i.body.error.value.code
  {}
}
