/** `AppError`, `handleError` and the error factories (lib/error-handling.ts). */
module ErrorHandling {
  import opened Wrappers

  const ValidationError := "VALIDATION_ERROR"
  const NotFound := "NOT_FOUND"
  const Unauthorized := "UNAUTHORIZED"
  const Forbidden := "FORBIDDEN"
  const RateLimited := "RATE_LIMITED"
  const InternalError := "INTERNAL_ERROR"

  /** An `AppError` (its `name` is always "AppError" and is not kept here). */
  datatype AppError = AppError(message: string, code: string, statusCode: int, isOperational: bool)

  /** What `handleError` can be given: an `AppError`, another `Error` (which may carry the
      optional `code` and `statusCode` of `ErrorWithCode`), or a thrown non-error value. */
  datatype Thrown =
    | ThrownAppError(error: AppError)
    | ThrownError(message: string, code: Option<string>, statusCode: Option<int>)
    | ThrownValue

  /** `new AppError(message, code?, statusCode?, isOperational?)`: an omitted argument takes
      its default. */
  function NewAppError(message: string, code: Option<string>, statusCode: Option<int>,
                       isOperational: Option<bool>): (e: AppError)
    ensures e.message == message
    ensures code.None? ==> e.code == InternalError
    ensures statusCode.None? ==> e.statusCode == 500
    ensures isOperational.None? ==> e.isOperational
    ensures code.Some? ==> e.code == code.value
    ensures statusCode.Some? ==> e.statusCode == statusCode.value
    ensures isOperational.Some? ==> e.isOperational == isOperational.value
  {
    AppError(message, code.GetOr(InternalError), statusCode.GetOr(500), isOperational.GetOr(true))
  }

  /** `handleError`: an `AppError` is returned as it is; anything else becomes an internal
      `AppError`. */
  function HandleError(thrown: Thrown): (e: AppError)
    ensures thrown.ThrownAppError? ==> e == thrown.error
    ensures thrown.ThrownError? ==> e == AppError(thrown.message, InternalError, 500, true)
    ensures thrown.ThrownValue? ==> e == AppError("An unknown error occurred", InternalError, 500, true)
  {
    match thrown
    case ThrownAppError(err) => err
    case ThrownError(message, _, _) => NewAppError(message, None, None, None)
    case ThrownValue => NewAppError("An unknown error occurred", None, None, None)
  }

  /** Normalising an already normalised error changes nothing. */
  lemma HandleErrorIdempotent(thrown: Thrown)
    ensures HandleError(ThrownAppError(HandleError(thrown))) == HandleError(thrown)
  {
  }

  /** The `code` and `statusCode` an ordinary error carries are dropped: every error that is
      not an `AppError` is reported as an operational internal error with status 500. */
  lemma HandleErrorDropsCodes(message: string, code: Option<string>, statusCode: Option<int>)
    ensures var e := HandleError(ThrownError(message, code, statusCode));
      e.code == InternalError && e.statusCode == 500 && e.isOperational && e.message == message
  {
  }

  /** `createHttpError(statusCode, message, code?)`. */
  function CreateHttpError(statusCode: int, message: string, code: Option<string>): (e: AppError)
    ensures e.statusCode == statusCode && e.message == message && e.isOperational
    ensures e.code == if code.Some? then code.value else InternalError
  {
    NewAppError(message, code, Some(statusCode), None)
  }

  function CreateNotFoundError(message: Option<string>): (e: AppError)
    ensures e.statusCode == 404 && e.code == NotFound && e.isOperational
    ensures e.message == message.GetOr("Resource not found")
  {
    CreateHttpError(404, message.GetOr("Resource not found"), Some(NotFound))
  }

  function CreateValidationError(message: string): (e: AppError)
    ensures e.statusCode == 400 && e.code == ValidationError && e.isOperational && e.message == message
  {
    CreateHttpError(400, message, Some(ValidationError))
  }

  function CreateUnauthorizedError(message: Option<string>): (e: AppError)
    ensures e.statusCode == 401 && e.code == Unauthorized && e.isOperational
    ensures e.message == message.GetOr("Unauthorized")
  {
    CreateHttpError(401, message.GetOr("Unauthorized"), Some(Unauthorized))
  }

  function CreateForbiddenError(message: Option<string>): (e: AppError)
    ensures e.statusCode == 403 && e.code == Forbidden && e.isOperational
    ensures e.message == message.GetOr("Forbidden")
  {
    CreateHttpError(403, message.GetOr("Forbidden"), Some(Forbidden))
  }

  function CreateRateLimitError(message: Option<string>): (e: AppError)
    ensures e.statusCode == 429 && e.code == RateLimited && e.isOperational
    ensures e.message == message.GetOr("Too many requests")
  {
    CreateHttpError(429, message.GetOr("Too many requests"), Some(RateLimited))
  }

  /** The status the factories pair with each entry of `errorCodes` (`errorCodes` itself
      carries no statuses; `INTERNAL_ERROR` goes with `handleError`'s 500). */
  function StatusFor(code: string): Option<int>
  {
    if code == ValidationError then Some(400)
    else if code == Unauthorized then Some(401)
    else if code == Forbidden then Some(403)
    else if code == NotFound then Some(404)
    else if code == RateLimited then Some(429)
    else if code == InternalError then Some(500)
    else None
  }

  /** An error whose status is the one its code stands for. */
  predicate Consistent(e: AppError)
  {
    StatusFor(e.code) == Some(e.statusCode)
  }

  /** Each factory, and `handleError` on anything but a foreign `AppError`, pairs its code
      with one fixed status, and no two codes share a status; `createHttpError` without a
      code agrees with that pairing only for 500. */
  lemma FactoriesAreConsistent(m: string, om: Option<string>, thrown: Thrown, status: int)
    ensures Consistent(CreateNotFoundError(om)) && Consistent(CreateValidationError(m))
    ensures Consistent(CreateUnauthorizedError(om)) && Consistent(CreateForbiddenError(om))
    ensures Consistent(CreateRateLimitError(om))
    ensures !thrown.ThrownAppError? ==> Consistent(HandleError(thrown))
    ensures Consistent(CreateHttpError(status, m, None)) <==> status == 500
    ensures forall a, b :: StatusFor(a).Some? && StatusFor(a) == StatusFor(b) ==> a == b
  {
  }
}
