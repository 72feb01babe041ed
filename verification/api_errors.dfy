/** The errors the crud layer returns: a cause and the HTTP status code it is reported with. */
module ApiErrors {
  import opened Wrappers
  import opened Text

  const ERROR_DETAIL_INVALID := "Invalid value"
  const ERROR_DETAIL_MISSING := "Missing"

  /** One complaint about a request attribute. */
  datatype ValidationErrorDetail = ValidationErrorDetail(location: string, attr: string, detail: string)

  /** What went wrong. */
  datatype Cause =
    | Message(text: string)                              // an error built from a message
    | Invalid(details: seq<ValidationErrorDetail>)       // a ValidationError
    | EngineError                                        // an error returned by the database engine
    | CodecError                                         // an error returned by the JSON codec

  datatype ApiError = ApiError(err: Cause, statusCode: int)

  /** A value that a validator may have updated, with the error it reports. */
  datatype Checked<T> = Checked(value: T, err: Option<ApiError>)

  /** The "record not found" error of the database layer. */
  const ERR_NOT_FOUND: Cause := Message("Record not found")

  function NewSingleValidationError(loc: string, attr: string, detail: string): (c: Cause)
    ensures c.Invalid? && |c.details| == 1
    ensures c.details[0].location == loc && c.details[0].attr == attr && c.details[0].detail == detail
  {
    Invalid([ValidationErrorDetail(loc, attr, detail)])
  }

  function NewGenericClientError(msg: string): (e: ApiError)
    ensures e.statusCode == 400 && e.err == Message(msg)
  {
    ApiError(Message(msg), 400)
  }

  function NewNotImplementedError(): (e: ApiError)
    ensures e.statusCode == 500 && e.err == Message("Not implemented")
  {
    ApiError(Message("Not implemented"), 500)
  }

  function NewGenericServerError(err: Cause): (e: ApiError)
    ensures e.statusCode == 500 && e.err == err
  {
    ApiError(err, 500)
  }

  function NewValidationError(err: Cause): (e: ApiError)
    ensures e.statusCode == 422 && e.err == err
  {
    ApiError(err, 422)
  }

  function NewNotFoundError(err: Cause): (e: ApiError)
    ensures e.statusCode == 404 && e.err == err
  {
    ApiError(err, 404)
  }

  predicate IsClientError(e: ApiError)
  {
    400 <= e.statusCode < 500
  }

  /** The message Error() renders: "APIError with status code <code>: <cause>". */
  function ErrorText(e: ApiError, causeText: string): (s: string)
    ensures StartsWith("APIError with status code ", s)
  {
    "APIError with status code " + IntToString(e.statusCode) + ": " + causeText
  }

  /** Client mistakes are 4xx and server failures are not; every constructor keeps the cause it is given. */
  lemma ErrorTaxonomy(msg: string, c: Cause)
    ensures IsClientError(NewGenericClientError(msg)) && IsClientError(NewValidationError(c))
    ensures IsClientError(NewNotFoundError(c))
    ensures !IsClientError(NewGenericServerError(c)) && !IsClientError(NewNotImplementedError())
    ensures NewValidationError(c) != NewNotFoundError(c) && NewGenericClientError(msg) != NewNotFoundError(c)
  {
  }
}
