/** The JSON document posted to the recognition endpoint. */
module RequestBody {
  import opened Wrappers
  import opened Errors

  /** 2^32: the range of Rust's `u32`. */
  const U32Range: nat := 0x1_0000_0000

  /** Rust's `as u32` on an unsigned millisecond count: keep the low 32 bits. */
  function TruncateU32(x: nat): (t: nat)
    ensures t < U32Range
    ensures (x - t) % U32Range == 0
    ensures x < U32Range ==> t == x
  {
    x % U32Range
  }

  datatype Geolocation = Geolocation(altitude: int, latitude: int, longitude: int)

  /** The nested `signature` object (its `samplems` field is not modelled). */
  datatype SignaturePart = SignaturePart(timestamp: nat, uri: string)

  datatype Body = Body(
    geolocation: Geolocation,
    signature: SignaturePart,
    timestamp: nat,
    timezone: string)

  const FixedGeolocation := Geolocation(300, 45, 2)
  const FixedTimezone := "Europe/Paris"

  /** Build the body from one clock reading (milliseconds since the Unix
      epoch, negative when the clock is earlier) and the outcome of encoding
      the signature as a URI. The clock is consulted first. */
  function Build(clockMs: int, encodedUri: Result<string, string>): (r: Result<Body, Failure>)
    ensures clockMs < 0 <==> r == Failure(ClockBeforeEpoch)
    ensures clockMs >= 0 && encodedUri.Failure? ==> r == Failure(EncodingError(encodedUri.error))
    ensures r.Success? <==> clockMs >= 0 && encodedUri.Success?
    ensures r.Success? ==>
      && r.value.timestamp == r.value.signature.timestamp
      && r.value.timestamp < U32Range
      && (clockMs - r.value.timestamp) % U32Range == 0
      && r.value.signature.uri == encodedUri.value
      && r.value.geolocation == FixedGeolocation
      && r.value.timezone == FixedTimezone
  {
    if clockMs < 0 then Failure(ClockBeforeEpoch)
    else
      match encodedUri
      case Failure(reason) => Failure(EncodingError(reason))
      case Success(uri) =>
        var stamp := TruncateU32(clockMs);
        Success(Body(FixedGeolocation, SignaturePart(stamp, uri), stamp, FixedTimezone))
  }

  /** Only a reading below 2^32 ms (the first 49.7 days after the epoch) is
      sent unchanged; any later reading is sent modulo 2^32. */
  lemma TimestampExactBelowRange(clockMs: int, encodedUri: Result<string, string>)
    requires 0 <= clockMs < U32Range
    requires encodedUri.Success?
    ensures Build(clockMs, encodedUri).Success?
    ensures Build(clockMs, encodedUri).value.timestamp == clockMs
    ensures Build(clockMs, encodedUri).value.signature.timestamp == clockMs
  {
  }

  /** Two readings a multiple of 2^32 ms apart produce the same body. */
  lemma {:induction false} TimestampWraps(clockMs: nat, encodedUri: Result<string, string>)
    ensures Build(clockMs + U32Range, encodedUri) == Build(clockMs, encodedUri)
  {
  }
}
