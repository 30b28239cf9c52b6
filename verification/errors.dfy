/** The failures a recognition call can surface to its caller, one per
    `?` or `return Err(..)` of `recognize_song_from_signature` and of the
    client factory it calls. */
module Errors {

  /** An HTTP status code as the client library represents it (three digits). */
  type StatusCode = c: int | 100 <= c <= 999 witness 200

  datatype Failure =
    | ClockBeforeEpoch              // the wall clock reads earlier than 1970-01-01
    | EncodingError(reason: string) // the signature could not be rendered as a URI
    | InvalidUserAgent              // the chosen User-Agent is not a legal header value
    | InvalidProxy(proxy: string)   // the selected proxy variable does not parse
    | ClientBuildError              // the HTTP client could not be constructed
    | TransportError                // the send itself failed (connection, timeout)
    | RateLimitExceeded(last: StatusCode)  // throttled on every allowed attempt
    | UnexpectedStatus(status: StatusCode) // any other non-success status
    | DecodeError                   // a success status whose body is not JSON
    | Unreachable                   // the retry loop ran out without deciding
}
