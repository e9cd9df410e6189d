/**
 * `companyprofile.ResponseHandler`: classifies a failed call to the
 * downstream API. Both `handle` overloads always raise; the message of the
 * raised exception is the caller's message.
 */
module ResponseHandler {
  import opened Events

  const BadRequest: int := 400
  const Conflict: int := 409

  /** The two exception types the overloads accept. */
  datatype ClientFailure =
    | UriValidation                     // URIValidationException
    | ApiErrorResponse(statusCode: int) // ApiErrorResponseException with its HTTP status

  /**
   * `handle(message, ex)`: a URI-validation failure and the statuses 400 and
   * 409 are NonRetryable; every other status is Retryable. It never returns
   * normally.
   */
  function Handle(message: string, failure: ClientFailure): (r: Status)
    ensures r.Raised? && r.error.message == message
    ensures r.error.NonRetryable? <==>
              failure.UriValidation? || failure.statusCode == BadRequest || failure.statusCode == Conflict
    ensures r.error.Retryable? <==>
              failure.ApiErrorResponse? && failure.statusCode != BadRequest && failure.statusCode != Conflict
  {
    match failure
    case UriValidation => Raised(NonRetryable(message))
    case ApiErrorResponse(status) =>
      if status == BadRequest || status == Conflict then Raised(NonRetryable(message))
      else Raised(Retryable(message))
  }

  /**
   * On the company-profile patch path, server errors and "not found" are
   * both retried: this handler gives 404 no special treatment.
   */
  lemma ServerErrorsAndNotFoundAreRetryable(message: string, status: int)
    requires status == 404 || 500 <= status <= 599
    ensures Handle(message, ApiErrorResponse(status)) == Raised(Retryable(message))
  {
  }
}
