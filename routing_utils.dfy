/** Error-to-response tables of the axum layer (src/routing_utils.rs): database errors,
    validation errors and JSON rejections become a status code and a `BasicErrorResponse`
    body. Only the status and the body are modelled, not the HTTP response object. */
module RoutingUtils {
  import opened Wrappers
  import Anyhow
  import opened Validator

  /** `DbError` as this file and src/route_error.rs match it: no rows, or a failed query
      with its cause (kept as its display text). */
  datatype DbError = NoResults | QueryFailure(cause: string)

  /** `ExtraInfo` */
  datatype ExtraInfo = ValidationIssues(issues: ValidationErrors) | Message(text: string)

  /** `BasicErrorResponse`, the JSON error body. */
  datatype BasicErrorResponse = BasicErrorResponse(errorCode: string, errorDescription: string, extraInfo: Option<ExtraInfo>)

  /** An error response: a status with a `BasicErrorResponse` body, or a
      `GenericErrorResponse` wrapping an anyhow error. `GenericErrorResponse` is not
      declared in this file; the handler tests expect it to answer 500 with the code
      `internal_error`. */
  datatype ErrorResponse =
    | Rendered(status: int, body: BasicErrorResponse)
    | Generic(cause: Anyhow.Error)

  const StatusBadRequest: int := 400
  const StatusNotFound: int := 404
  const StatusConflict: int := 409
  const StatusInternalServerError: int := 500

  const InternalErrorCode: string := "internal_error"

  /** The status an error response is sent with. */
  function Status(r: ErrorResponse): int {
    match r
    case Rendered(status, _) => status
    case Generic(_) => StatusInternalServerError
  }

  /** The `error_code` of an error response's body. */
  function ErrorCode(r: ErrorResponse): string {
    match r
    case Rendered(_, body) => body.errorCode
    case Generic(_) => InternalErrorCode
  }

  /** `DbErrorResponse` */
  datatype DbErrorResponse = NoResults | QueryFailure

  /** `From<DbError> for DbErrorResponse`: each variant to the one of the same name. */
  function DbErrorResponseFrom(e: DbError): (r: DbErrorResponse)
    ensures r.NoResults? <==> e.NoResults?
    ensures r.QueryFailure? <==> e.QueryFailure?
  {
    match e
    case NoResults => DbErrorResponse.NoResults
    case QueryFailure(_) => DbErrorResponse.QueryFailure
  }

  /** `IntoResponse for DbErrorResponse`: no results is 404 `not_found`, a failed query is
      500 `internal_error`, neither with extra information. */
  function DbErrorIntoResponse(e: DbErrorResponse): (r: ErrorResponse)
    ensures r.Rendered? && r.body.extraInfo.None?
    ensures e.NoResults? ==> Status(r) == StatusNotFound && ErrorCode(r) == "not_found"
    ensures e.QueryFailure? ==> Status(r) == StatusInternalServerError && ErrorCode(r) == InternalErrorCode
  {
    match e
    case NoResults =>
      Rendered(StatusNotFound, BasicErrorResponse("not_found", "The requested entity could not be found.", None))
    case QueryFailure =>
      Rendered(StatusInternalServerError,
               BasicErrorResponse(InternalErrorCode, "Could not access data to complete your request", None))
  }

  /** A database error is answered 404 exactly when it is a missing row, and 500 otherwise;
      the cause of a failed query never changes the response. */
  lemma DbErrorStatusClassifies(e: DbError, f: DbError)
    ensures Status(DbErrorIntoResponse(DbErrorResponseFrom(e))) == StatusNotFound <==> e.NoResults?
    ensures Status(DbErrorIntoResponse(DbErrorResponseFrom(e))) == StatusInternalServerError <==> e.QueryFailure?
    ensures e.QueryFailure? && f.QueryFailure? ==>
      DbErrorIntoResponse(DbErrorResponseFrom(e)) == DbErrorIntoResponse(DbErrorResponseFrom(f))
  {
  }

  /** `ValidationErrorResponse`, made by `From<ValidationErrors>`. */
  datatype ValidationErrorResponse = ValidationErrorResponse(issues: ValidationErrors)

  /** `IntoResponse for ValidationErrorResponse`: 400 `invalid_input`, carrying the same
      validation errors as extra information. */
  function ValidationErrorIntoResponse(v: ValidationErrorResponse): (r: ErrorResponse)
    ensures Status(r) == StatusBadRequest && ErrorCode(r) == "invalid_input"
    ensures r.Rendered? && r.body.extraInfo == Some(ValidationIssues(v.issues))
  {
    Rendered(StatusBadRequest,
             BasicErrorResponse("invalid_input", "Submitted data was invalid.", Some(ValidationIssues(v.issues))))
  }

  /** An axum `JsonRejection`, given by the text of its body. */
  datatype JsonRejection = JsonRejection(bodyText: string)

  /** `JsonErrorResponse` */
  datatype JsonErrorResponse = JsonErrorResponse(parseProblem: string)

  /** `From<JsonRejection> for JsonErrorResponse` */
  function JsonErrorFrom(rejection: JsonRejection): (r: JsonErrorResponse)
    ensures r.parseProblem == rejection.bodyText
  {
    JsonErrorResponse(rejection.bodyText)
  }

  /** `IntoResponse for JsonErrorResponse`: 400 `invalid_json` with the parse problem as the
      extra message. */
  function JsonErrorIntoResponse(j: JsonErrorResponse): (r: ErrorResponse)
    ensures Status(r) == StatusBadRequest && ErrorCode(r) == "invalid_json"
    ensures r.Rendered? && r.body.extraInfo == Some(Message(j.parseProblem))
  {
    Rendered(StatusBadRequest,
             BasicErrorResponse("invalid_json", "The passed request body contained malformed or unreadable JSON.",
                                Some(Message(j.parseProblem))))
  }

  /** A rejected body is answered with the rejection's own text, so two rejections give
      the same response exactly when they are the same rejection. */
  lemma JsonRejectionTextReachesClient(a: JsonRejection, b: JsonRejection)
    ensures JsonErrorIntoResponse(JsonErrorFrom(a)) == JsonErrorIntoResponse(JsonErrorFrom(b)) <==> a == b
  {
  }

  /** Every response this file builds is a client or server error. */
  lemma ResponsesAreErrors(e: DbError, v: ValidationErrors, j: JsonRejection)
    ensures 400 <= Status(DbErrorIntoResponse(DbErrorResponseFrom(e))) < 600
    ensures 400 <= Status(ValidationErrorIntoResponse(ValidationErrorResponse(v))) < 600
    ensures 400 <= Status(JsonErrorIntoResponse(JsonErrorFrom(j))) < 600
  {
  }
}
