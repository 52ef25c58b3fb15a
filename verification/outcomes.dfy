/** The optional-value and result types shared by the three tool handlers,
    and the failures a handler returns to the host as an error instead of
    success text. */
module Outcomes {
  import Text

  datatype Option<+T> = None | Some(value: T)

  /** Every error a handler can return. Where the handler wraps a library
      error with `%w`, only the handler's own text is kept. */
  datatype Failure =
    | MissingApiKey
    | MissingSearchEngineId
    | EmptyQuery
    | InvalidUrl
    | RequestNotCreated
    | InvalidHeadersJson
    | RequestFailed
    | ReadFailure
    | UpstreamError(body: string, status: int)
    | InvalidApiResponse
    | InvalidTimezone(name: string)
    | InvalidTimeFormat(text: string)
  {
    /** The error text the handler returns for this failure. */
    function Message(): string {
      match this
      case MissingApiKey => "API key is not configured"
      case MissingSearchEngineId => "Search Engine ID is not configured"
      case EmptyQuery => "Search query cannot be empty"
      case InvalidUrl => "URL must begin with http:// or https://"
      case RequestNotCreated => "failed to create request"
      case InvalidHeadersJson => "invalid headers JSON"
      case RequestFailed => "request failed"
      case ReadFailure => "failed to read response body"
      case UpstreamError(body, status) =>
        "API error: " + body + " (status code: " + Text.IntToString(status) + ")"
      case InvalidApiResponse => "failed to parse API response"
      case InvalidTimezone(_) => "invalid timezone"
      case InvalidTimeFormat(_) =>
        "invalid time format (expected RFC3339, e.g. 2025-04-06T14:30:00Z)"
    }
  }

  /** A handler outcome: the success payload, or a failure that the host
      receives as an error (never embedded in success text). */
  datatype Result<+T> = Ok(value: T) | Err(failure: Failure)
}
