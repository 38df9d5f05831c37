/** The service layer's error value (`AppError`), its normalisation of
    arbitrary thrown values, and the JSON error response built from it. */
module Errors {
  import opened Common

  /** What a `catch` clause can receive. */
  datatype Thrown =
    | App(app: AppError)       // an AppError instance
    | Plain(message: string)   // any other Error instance
    | NonError(truthy: bool)   // a thrown value that is not an Error object

  /** An AppError's observable fields; `details` and `cause` are absent when
      `None`. */
  datatype AppError = AppError(
    message: string,
    status: int,
    code: string,
    details: Option<Json>,
    cause: Option<Thrown>)

  /** The optional second argument of the AppError constructor. */
  datatype ErrorOptions = ErrorOptions(
    status: Option<int>,
    code: Option<string>,
    details: Option<Json>,
    cause: Option<Thrown>)

  /** The fallback describing how to wrap a value that is not an AppError. */
  datatype Fallback = Fallback(
    message: string,
    status: Option<int>,
    code: Option<string>,
    details: Option<Json>)

  const DefaultStatus: int := 500
  const DefaultCode: string := "internal_error"
  const DefaultFallback: Fallback := Fallback("Internal server error", None, None, None)

  /** Every Error object is truthy; other thrown values may not be. */
  predicate IsTruthy(t: Thrown)
  {
    !t.NonError? || t.truthy
  }

  /** `new AppError(message, options)`: `??` defaults for status and code,
      `details` copied, `cause` kept only when truthy. */
  function NewAppError(message: string, options: Option<ErrorOptions>): (e: AppError)
    ensures e.message == message
    ensures options.None? ==> e == AppError(message, DefaultStatus, DefaultCode, None, None)
    ensures e.cause.Some? ==> IsTruthy(e.cause.value)
  {
    match options
    case None => AppError(message, DefaultStatus, DefaultCode, None, None)
    case Some(o) =>
      AppError(
        message,
        if o.status.Some? then o.status.value else DefaultStatus,
        if o.code.Some? then o.code.value else DefaultCode,
        o.details,
        if o.cause.Some? && IsTruthy(o.cause.value) then o.cause else None)
  }

  /** Shorthand for the frequent `new AppError(message, { status, code })`. */
  function Fail(message: string, status: int, code: string): (e: AppError)
    ensures e.message == message && e.status == status && e.code == code
    ensures e.details.None? && e.cause.None?
  {
    NewAppError(message, Some(ErrorOptions(Some(status), Some(code), None, None)))
  }

  /** The AppError `wrapQuery` throws when a database call reports an error:
      the caller's message, status and code, the database message under
      `details.supabase`, and the database error kept as `cause`. */
  function QueryFailure(message: string, status: int, code: string, dbMessage: string): (e: AppError)
    ensures e.message == message && e.status == status && e.code == code
    ensures e.cause == Some(Plain(dbMessage))
  {
    NewAppError(message, Some(ErrorOptions(
      Some(status),
      Some(code),
      Some(JObject(map["supabase" := JObject(map["message" := JString(dbMessage)])])),
      Some(Plain(dbMessage)))))
  }

  /** `AppError.normalize(error, fallback)`. */
  function Normalize(error: Thrown, fallback: Fallback): (e: AppError)
    ensures error.App? ==> e == error.app
    ensures !error.App? ==> e.message == fallback.message && e.details == fallback.details
                            && (e.cause.Some? <==> error.Plain?)
  {
    if error.App? then error.app
    else
      NewAppError(fallback.message, Some(ErrorOptions(
        fallback.status,
        fallback.code,
        fallback.details,
        if error.Plain? then Some(error) else None)))
  }

  /** The constructor's defaults: status 500 and code `internal_error` when
      the options omit them, and no `cause` unless a truthy one is given. */
  lemma ConstructorDefaults(message: string, options: Option<ErrorOptions>)
    ensures NewAppError(message, options).message == message
    ensures options.None? || options.value.status.None? ==> NewAppError(message, options).status == 500
    ensures options.None? || options.value.code.None? ==> NewAppError(message, options).code == "internal_error"
    ensures options.Some? && options.value.status.Some? ==> NewAppError(message, options).status == options.value.status.value
    ensures options.Some? && options.value.code.Some? ==> NewAppError(message, options).code == options.value.code.value
    ensures NewAppError(message, options).details == (if options.Some? then options.value.details else None)
    ensures NewAppError(message, options).cause.Some? <==>
              options.Some? && options.value.cause.Some? && IsTruthy(options.value.cause.value)
    ensures NewAppError(message, options).cause.Some? ==> NewAppError(message, options).cause == options.value.cause
  {
  }

  /** An AppError passes through `normalize` unchanged, so normalising twice
      is the same as normalising once, whatever the second fallback. */
  lemma NormalizeIdempotent(error: Thrown, f: Fallback, g: Fallback)
    ensures Normalize(Thrown.App(Normalize(error, f)), g) == Normalize(error, f)
    ensures error.App? ==> Normalize(error, f) == error.app
  {
  }

  /** A value that is not an AppError is wrapped using the fallback's message,
      status and code (500 / `internal_error` when the fallback omits them);
      the original is kept as `cause` only when it is an Error object. */
  lemma NormalizeWraps(error: Thrown, f: Fallback)
    requires !error.App?
    ensures Normalize(error, f).message == f.message
    ensures Normalize(error, f).status == (if f.status.Some? then f.status.value else 500)
    ensures Normalize(error, f).code == (if f.code.Some? then f.code.value else "internal_error")
    ensures Normalize(error, f).details == f.details
    ensures Normalize(error, f).cause == (if error.Plain? then Some(error) else None)
  {
  }

  /** The default fallback yields the generic 500 error. */
  lemma DefaultFallbackIsInternalError(error: Thrown)
    requires !error.App?
    ensures Normalize(error, DefaultFallback).message == "Internal server error"
    ensures Normalize(error, DefaultFallback).status == 500
    ensures Normalize(error, DefaultFallback).code == "internal_error"
  {
  }

  datatype LogLevel = Warn | Error

  /** The JSON body of an error response. */
  datatype ErrorBody = ErrorBody(ok: bool, code: string, message: string, details: Json)

  datatype RouteResponse = RouteResponse(status: int, body: ErrorBody, level: LogLevel)

  /** `handleRouteError` without the Hono context: the response it sends and
      the level it logs at. */
  function HandleRouteError(error: Thrown, fallback: Fallback): (r: RouteResponse)
    ensures !r.body.ok
    ensures r.level == Error <==> r.status >= 500
    ensures error.App? ==> r.status == error.app.status && r.body.code == error.app.code
                           && r.body.message == error.app.message
    ensures !error.App? ==> r.body.message == fallback.message
    ensures !error.App? ==> r.status == (if fallback.status.Some? then fallback.status.value else DefaultStatus)
                            && r.body.code == (if fallback.code.Some? then fallback.code.value else DefaultCode)
    ensures r.status == Normalize(error, fallback).status && r.body.code == Normalize(error, fallback).code
            && r.body.message == Normalize(error, fallback).message
    ensures Normalize(error, fallback).details.Some? ==> r.body.details == Normalize(error, fallback).details.value
    ensures r.body.details == JNull <==>
              Normalize(error, fallback).details.None? || Normalize(error, fallback).details == Some(JNull)
  {
    var e := Normalize(error, fallback);
    RouteResponse(
      e.status,
      ErrorBody(false, e.code, e.message, if e.details.Some? then e.details.value else JNull),
      if e.status >= 500 then Error else Warn)
  }
}
