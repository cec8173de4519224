/** The API's error taxonomy: error codes, their HTTP statuses and default
    messages, the `AppError` value, its response shape, and the global error
    handler that turns anything thrown by a route into a JSON reply. */
module Errors {
  import opened Js

  /** `ErrorCode`: the seventeen codes; each serialises as its upper-snake name. */
  datatype ErrorCode =
    | InternalError | ValidationError | NotFound | Unauthorized | Forbidden
    | PrNotFound | AnalysisFailed | RateLimitExceeded
    | ExternalApiError | DatabaseError | CacheError
    | InvalidInput | MissingRequiredField
    | AccessDenied | RepoNotFound
    | AiServiceUnavailable | AiRateLimit

  /** The statuses the taxonomy uses: 400, 401, 403, 404 and 429 (section 4 of
      RFC 6585) for client errors, 500, 502 and 503 for server errors. */
  const ErrorStatuses: set<int> := {400, 401, 403, 404, 429, 500, 502, 503}

  /** `ERROR_STATUS_MAP`, read the other way round: which codes share a status. */
  function Status(code: ErrorCode): (s: int)
    ensures s in ErrorStatuses
    ensures s == 400 <==> code in {ValidationError, InvalidInput, MissingRequiredField}
    ensures s == 401 <==> code == Unauthorized
    ensures s == 403 <==> code in {AccessDenied, Forbidden}
    ensures s == 404 <==> code in {NotFound, PrNotFound, RepoNotFound}
    ensures s == 429 <==> code in {RateLimitExceeded, AiRateLimit}
    ensures s == 500 <==> code in {InternalError, AnalysisFailed, DatabaseError, CacheError}
    ensures s == 502 <==> code == ExternalApiError
    ensures s == 503 <==> code == AiServiceUnavailable
  {
    match code
    case InternalError => 500
    case ValidationError => 400
    case NotFound => 404
    case Unauthorized => 401
    case Forbidden => 403
    case PrNotFound => 404
    case AnalysisFailed => 500
    case RateLimitExceeded => 429
    case ExternalApiError => 502
    case DatabaseError => 500
    case CacheError => 500
    case InvalidInput => 400
    case MissingRequiredField => 400
    case AccessDenied => 403
    case RepoNotFound => 404
    case AiServiceUnavailable => 503
    case AiRateLimit => 429
  }

  /** `ERROR_MESSAGES`: the user-facing default message of each code. */
  function DefaultMessage(code: ErrorCode): (m: string)
    ensures m != ""
  {
    match code
    case InternalError => "服务器内部错误"
    case ValidationError => "请求参数验证失败"
    case NotFound => "资源不存在"
    case Unauthorized => "未授权访问"
    case Forbidden => "禁止访问"
    case PrNotFound => "未找到指定的Pull Request"
    case AnalysisFailed => "分析失败，请重试"
    case RateLimitExceeded => "请求过于频繁，请稍后重试"
    case ExternalApiError => "外部服务暂时不可用"
    case DatabaseError => "数据库错误"
    case CacheError => "缓存服务错误"
    case InvalidInput => "输入参数无效"
    case MissingRequiredField => "缺少必填字段"
    case AccessDenied => "没有权限访问此资源"
    case RepoNotFound => "仓库不存在"
    case AiServiceUnavailable => "AI服务暂时不可用"
    case AiRateLimit => "AI服务调用频率过高"
  }

  /** The `details` an error may carry (`any` in the source), in the shapes the
      source builds. */
  datatype Details =
    | NoDetails
    | FieldDetails(field: string, message: string)
    | OperationDetails(operation: string)
    | Issues(issues: seq<string>)

  /** An `AppError`: its fields are readonly, so it is a value. */
  datatype AppError = AppError(code: ErrorCode, message: string, details: Details, cause: Option<Thrown>)

  /** What a `catch` block can receive. `Failure` is any `Error` instance that is
      not an `AppError` (a `status` is present on HTTP client errors, `errors` on
      validation errors); `Obj` is a plain object whose `message` property, if
      any, is given after `String(...)`; `Other` stands for every other value. */
  datatype Thrown =
    | App(app: AppError)
    | Failure(name: string, message: string, status: Option<int>, errors: Option<seq<string>>)
    | Str(s: string)
    | Obj(messageProperty: Option<string>)
    | Other

  predicate IsError(t: Thrown) {
    t.App? || t.Failure?
  }

  /** `error.status` as the catch blocks read it. */
  function StatusOf(t: Thrown): Option<int> {
    if t.Failure? then t.status else None
  }

  /** `${error.message}` in a template literal. */
  function MessageText(t: Thrown): string {
    match t
    case App(e) => e.message
    case Failure(_, m, _, _) => m
    case Obj(Some(m)) => m
    case _ => "undefined"
  }

  /** `new AppError(code, message, details, cause)`: the message falls back to
      the code's default when it is missing or empty. */
  function NewAppError(code: ErrorCode, message: Option<string>, details: Details, cause: Option<Thrown>): (e: AppError)
    ensures e.code == code && e.details == details && e.cause == cause
    ensures e.message != ""
    ensures message.Some? && message.value != "" ==> e.message == message.value
    ensures message.None? || message.value == "" ==> e.message == DefaultMessage(code)
  {
    AppError(code, Or(message, DefaultMessage(code)), details, cause)
  }

  /** The getter `statusCode`: the mapped status, 500 when the map has none;
      the map is total, so the fallback never applies. */
  function StatusCode(e: AppError): (s: int)
    ensures s == Status(e.code)
    ensures s in ErrorStatuses
  {
    var mapped := Status(e.code);
    if mapped != 0 then mapped else 500
  }

  /** What the process supplies to `toResponse`: `NODE_ENV`, the clock and the
      captured stack trace. */
  datatype Runtime = Runtime(nodeEnv: Option<string>, now: string, stack: string)

  datatype Debug = Debug(details: Details, stack: string)
  datatype ErrorBody = ErrorBody(code: ErrorCode, message: string, debug: Option<Debug>)
  datatype ErrorResponse = ErrorResponse(success: bool, error: ErrorBody, timestamp: string)

  /** `toResponse()`: always a failure body with the code and message; details
      and stack only in the development environment. */
  function ToResponse(e: AppError, rt: Runtime): (r: ErrorResponse)
    ensures !r.success
    ensures r.error.code == e.code && r.error.message == e.message
    ensures r.timestamp == rt.now
    ensures r.error.debug.Some? <==> rt.nodeEnv == Some("development")
    ensures r.error.debug.Some? ==> r.error.debug.value == Debug(e.details, rt.stack)
  {
    var base := ErrorResponse(false, ErrorBody(e.code, e.message, None), rt.now);
    if rt.nodeEnv == Some("development") then
      base.(error := base.error.(debug := Some(Debug(e.details, rt.stack))))
    else base
  }

  /** `createValidationError(field, message)`. */
  function CreateValidationError(field: string, message: string): (e: AppError)
    ensures e.code == ValidationError && StatusCode(e) == 400
    ensures e.message == field + ": " + message
    ensures e.details == FieldDetails(field, message) && e.cause == None
  {
    NewAppError(ValidationError, Some(field + ": " + message), FieldDetails(field, message), None)
  }

  /** `createDatabaseError(error, operation)`. */
  function CreateDatabaseError(error: Thrown, operation: string): (e: AppError)
    ensures e.code == DatabaseError && StatusCode(e) == 500
    ensures e.message == "数据库操作失败: " + operation
    ensures e.details == OperationDetails(operation) && e.cause == Some(error)
  {
    NewAppError(DatabaseError, Some("数据库操作失败: " + operation), OperationDetails(operation), Some(error))
  }

  /** `errorHandler(err, c)`: the framework hands it only `Error` instances.
      An `AppError` answers for itself, an error named `ZodError` becomes a
      validation error, anything else an internal error; the status always
      matches the code in the body. */
  function ErrorHandler(err: Thrown, rt: Runtime): (reply: (ErrorResponse, int))
    requires IsError(err)
    ensures !reply.0.success && reply.1 == Status(reply.0.error.code)
    ensures err.App? ==> reply == (ToResponse(err.app, rt), StatusCode(err.app))
    ensures err.Failure? && err.name == "ZodError" ==>
              reply.0.error.code == ValidationError && reply.1 == 400
              && reply.0.error.message == DefaultMessage(ValidationError)
    ensures err.Failure? && err.name == "ZodError" && rt.nodeEnv == Some("development") ==>
              reply.0.error.debug.Some?
              && reply.0.error.debug.value.details == (if err.errors.Some? then Issues(err.errors.value) else NoDetails)
    ensures err.Failure? && err.name != "ZodError" ==>
              reply.0.error.code == InternalError && reply.1 == 500
              && reply.0.error.message == DefaultMessage(InternalError)
  {
    if err.App? then
      (ToResponse(err.app, rt), StatusCode(err.app))
    else if err.name == "ZodError" then
      var details := if err.errors.Some? then Issues(err.errors.value) else NoDetails;
      var validation := NewAppError(ValidationError, Some("请求参数验证失败"), details, None);
      (ToResponse(validation, rt), StatusCode(validation))
    else
      var internal := NewAppError(InternalError, Some("服务器内部错误"), NoDetails, None);
      (ToResponse(internal, rt), StatusCode(internal))
  }

  /** No two codes share a default message, so a message-only log still tells
      the codes apart. */
  lemma DefaultMessagesDistinct(a: ErrorCode, b: ErrorCode)
    requires a != b
    ensures DefaultMessage(a) != DefaultMessage(b)
  {
  }
}
