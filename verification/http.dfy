/** What one POST to the recognition endpoint can come back with, and how the
    retry loop sorts a response status. */
module Http {
  import opened Errors

  /** The parsed recognition document, kept as its JSON text. */
  type Document = string

  /** The outcome of parsing a response body as JSON. */
  datatype Payload = Json(doc: Document) | NotJson

  /** One send: either the transport failed, or a response with a status arrived. */
  datatype Send = TransportErr | Status(code: StatusCode, body: Payload)

  /** The three ways the loop treats a status. */
  datatype Class = Throttled | Succeeded | Rejected

  /** 2xx, the client library's notion of a successful status. */
  predicate IsSuccessStatus(code: StatusCode) {
    200 <= code <= 299
  }

  /** The throttling check comes first, then the 2xx check; everything else is fatal. */
  function Classify(code: StatusCode): (c: Class)
    ensures c == Throttled <==> code == 429 || code == 529
    ensures c == Succeeded <==> IsSuccessStatus(code)
    ensures c == Rejected <==> code != 429 && code != 529 && !IsSuccessStatus(code)
  {
    if code == 429 || code == 529 then Throttled
    else if IsSuccessStatus(code) then Succeeded
    else Rejected
  }

  /** A send that the loop answers by backing off and trying again (when attempts remain). */
  predicate Retryable(s: Send) {
    s.Status? && Classify(s.code) == Throttled
  }
}
