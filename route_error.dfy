/** Error records of the actix layer (src/route_error.rs): a `BasicError` holds a numeric
    status and a JSON body, and turning it into an actix status code fails ("panics") on a
    number that is not a legal HTTP status. */
module RouteError {
  import opened Wrappers
  import RoutingUtils

  /** `BasicErrorResponse` of this file: the extra information is plain text. */
  datatype BasicErrorResponse = BasicErrorResponse(errorCode: string, errorDescription: string, extraInfo: Option<string>)

  /** `BasicError`; the `u16` status is kept as an integer. */
  datatype BasicError = BasicError(status: int, fullError: BasicErrorResponse)

  /** The `expect` in `status_code` failing on an illegal status. */
  datatype StatusPanic = IllegalHttpStatus(status: int)

  /** `StatusCode::from_u16` accepts exactly the three-digit numbers. */
  predicate LegalStatus(status: int) {
    100 <= status < 1000
  }

  /** `ResponseError::status_code` */
  function StatusCode(e: BasicError): (r: Result<int, StatusPanic>)
    ensures r.Ok? <==> LegalStatus(e.status)
    ensures r.Ok? ==> r.value == e.status
    ensures r.Err? ==> r.error == IllegalHttpStatus(e.status)
  {
    if LegalStatus(e.status) then Ok(e.status) else Err(IllegalHttpStatus(e.status))
  }

  /** `ResponseError::error_response`: the status, then the body as JSON. */
  function ErrorResponse(e: BasicError): (r: Result<(int, BasicErrorResponse), StatusPanic>)
    ensures r.Ok? <==> LegalStatus(e.status)
    ensures r.Ok? ==> r.value == (e.status, e.fullError)
  {
    match StatusCode(e)
    case Ok(status) => Ok((status, e.fullError))
    case Err(p) => Err(p)
  }

  /** `BasicError::from_db`: no results is 404 `not_found`, a failed query is 500
      `internal_error`, neither with extra information. */
  function FromDb(dbError: RoutingUtils.DbError): (e: BasicError)
    ensures e.fullError.extraInfo.None?
    ensures dbError.NoResults? ==> e.status == 404 && e.fullError.errorCode == "not_found"
    ensures dbError.QueryFailure? ==> e.status == 500 && e.fullError.errorCode == "internal_error"
  {
    match dbError
    case NoResults =>
      BasicError(404, BasicErrorResponse("not_found", "The requested entity could not be found.", None))
    case QueryFailure(_) =>
      BasicError(500, BasicErrorResponse("internal_error", "Could not access data to complete your request.", None))
  }

  const ValidationPrefix: string := "Input had the following validation errors: "
  const JsonPrefix: string := "The JSON was invalid for this reason: "

  /** `BasicError::from_validate`, given the display text of the validation errors: 400
      `invalid_input`, whose extra information ends with that text. */
  function FromValidate(validationText: string): (e: BasicError)
    ensures e.status == 400 && e.fullError.errorCode == "invalid_input"
    ensures e.fullError.extraInfo.Some?
    ensures |e.fullError.extraInfo.value| == |ValidationPrefix| + |validationText|
    ensures e.fullError.extraInfo.value[|ValidationPrefix|..] == validationText
  {
    BasicError(400, BasicErrorResponse("invalid_input", "Submitted data was invalid.",
                                       Some(ValidationPrefix + validationText)))
  }

  /** The error `default_json_error_handler` installs, given the display text of the payload
      error: 400 `incomplete_json`, whose extra information ends with that text. */
  function JsonErrorHandler(payloadText: string): (e: BasicError)
    ensures e.status == 400 && e.fullError.errorCode == "incomplete_json"
    ensures e.fullError.extraInfo.Some?
    ensures |e.fullError.extraInfo.value| == |JsonPrefix| + |payloadText|
    ensures e.fullError.extraInfo.value[|JsonPrefix|..] == payloadText
  {
    BasicError(400, BasicErrorResponse("incomplete_json", "You sent an incomplete request.",
                                       Some(JsonPrefix + payloadText)))
  }

  /** Every error this file builds has status 400, 404 or 500, so `status_code` never
      reaches its `expect` failure for them. */
  lemma BuiltErrorsNeverPanic(dbError: RoutingUtils.DbError, validationText: string, payloadText: string)
    ensures FromDb(dbError).status in {404, 500} && StatusCode(FromDb(dbError)).Ok?
    ensures FromValidate(validationText).status == 400 && StatusCode(FromValidate(validationText)).Ok?
    ensures JsonErrorHandler(payloadText).status == 400 && StatusCode(JsonErrorHandler(payloadText)).Ok?
  {
  }

  /** The actix and axum layers answer a database error with the same status and code;
      only the description text differs, by a final full stop on a failed query. */
  lemma FromDbAgreesWithAxumLayer(dbError: RoutingUtils.DbError)
    ensures FromDb(dbError).status ==
      RoutingUtils.Status(RoutingUtils.DbErrorIntoResponse(RoutingUtils.DbErrorResponseFrom(dbError)))
    ensures FromDb(dbError).fullError.errorCode ==
      RoutingUtils.ErrorCode(RoutingUtils.DbErrorIntoResponse(RoutingUtils.DbErrorResponseFrom(dbError)))
    ensures dbError.QueryFailure? ==>
      FromDb(dbError).fullError.errorDescription ==
        RoutingUtils.DbErrorIntoResponse(RoutingUtils.DbErrorResponseFrom(dbError)).body.errorDescription + "."
  {
  }
}
