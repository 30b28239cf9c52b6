# SongRec song recognition request: retry, backoff and request set-up

This project models the request side of SongRec's song recognition:
`recognize_song_from_signature`, which posts an audio fingerprint to the
Shazam discovery endpoint, and the client factory `reqwest_client` it uses.
The model is written in Dafny and all its properties are proved.

The network is modelled as a sequence of abstract send outcomes. Entry `i`
is the answer to the send made on attempt `i`. It is either a transport
failure, or a status code together with whether the body parses as JSON.
A call is a pure function of that sequence and of an `Environment`:

- the clock reading;
- the outcome of encoding the signature as a URI;
- whether the chosen User-Agent is a valid header value;
- the two proxy variables;
- whether the client library builds a client.

A call yields a `Trace`: the result, how many sends were made, and the
delays slept, in order.

Modules:

- `Http`: send outcomes, and the three status classes (throttled 429/529,
  success 2xx, anything else fatal).
- `Backoff`: the delay after a throttled attempt, `floor(1.5^i * 1000)` ms,
  computed exactly as `1000 * 3^i div 2^i`; the schedule and its total.
- `Retry`: the loop over attempts 0..=10. It has a recursive specification
  (`Attempt`, `RetryLoop`), a declarative reference for the final result
  (`Verdict`), and an imperative `while` loop (`RunRetryLoop`) proved equal
  to the specification.
- `RequestBody`: the posted JSON document. Both of its `timestamp` fields
  hold the clock reading truncated to 32 bits, as Rust's `as u32` does.
- `ClientFactory`: the proxy comes from `https_proxy` whenever that variable
  is set, otherwise from `HTTPS_PROXY`; with neither set the factory
  configures no proxy.
- `Recognition`: preparation (clock, body, header, client), then the loop.
  A preparation failure means zero sends.

The backoff in the source is `(1.5f64.powi(attempt) * 1000f64) as u64`. For
the attempts that sleep (0 to 9), every intermediate value is exactly
representable in `f64`, because 3^i * 1000 < 2^53. So the float computation
equals the integer formula used here.

Proxy selection decides on presence only. If `https_proxy` is set, its
value is used even when it is empty or does not parse, and an invalid value
is an error. There is no fallback to `HTTPS_PROXY`
(`ClientFactory.NoFallbackToUpper`). This is unlike the common convention
where the first non-empty value that parses wins.

## Model

| member | source | states |
|---|---|---|
| Http.Classify | src/fingerprinting/communication.rs:64-86 | 429 and 529 are throttling, exactly the 2xx codes are success, and every other status is fatal |
| Retry.Verdict | src/fingerprinting/communication.rs:62-91 | the result a final send produces: a transport error for a failed send, a rate-limit error carrying the send's own status for 429/529, an unexpected-status error carrying the status for other non-2xx codes, the document for a 2xx JSON body and a decode error for a 2xx non-JSON body; never the fall-through error |
| Retry.HandleResponse | src/fingerprinting/communication.rs:62-91 | one loop iteration sleeps exactly when the response is 429/529 and attempt < 10, for `Delay(attempt)`; otherwise it returns the `Verdict` of the response |
| Retry.Attempt | src/fingerprinting/communication.rs:45-92 | from attempt `a` the loop makes between `a`+1 and 11 sends, and sleeps once after every send but the last, with the delay of that send's attempt |
| Retry.AttemptDecidedByLastSend | src/fingerprinting/communication.rs:45-92 | every send before the last was throttled; the last was not, unless it was attempt 10; the last send's `Verdict` is the result |
| Retry.SleepsFollowSchedule | src/fingerprinting/communication.rs:66-74 | the delays slept in a call are the first `sends - 1` entries of the backoff schedule |
| Retry.RetryLoop | src/fingerprinting/communication.rs:43-94 | 1 to 11 sends; all but the last throttled; sleeps equal `Schedule(sends - 1)`; result is the last send's `Verdict`; never the "Unreachable" error |
| Retry.EndsAt | src/fingerprinting/communication.rs:45-91 | if attempts before `k` were throttled and the loop returns at `k`, the call makes `k`+1 sends, sleeps the first `k` delays and returns `Verdict(net[k])` |
| Retry.AllThrottledExhausts | src/fingerprinting/communication.rs:43-80 | 429/529 on every attempt gives exactly 11 sends, the 10 scheduled delays, and a rate-limit failure carrying the 11th status |
| Retry.RateLimitOnlyWhenAllThrottled | src/fingerprinting/communication.rs:65-80 | conversely, a rate-limit failure implies all 11 sends were made and all were throttled |
| Retry.FirstDecisiveSendEnds | src/fingerprinting/communication.rs:82-90 | the first non-throttled response ends the call at once; no later outcome is consumed |
| Retry.ImmediateSuccess | src/fingerprinting/communication.rs:82-83 | a 2xx JSON response on attempt 0 is returned after one send and no sleep |
| Retry.TransportErrorNotRetried | src/fingerprinting/communication.rs:88-90 | a transport error at attempt `k` is returned after `k`+1 sends, never retried |
| Retry.UnexpectedStatusNotRetried | src/fingerprinting/communication.rs:84-85 | a non-2xx, non-429/529 status at attempt `k` fails with that status after `k`+1 sends, with no sleep after it |
| Retry.DecodeErrorNotRetried | src/fingerprinting/communication.rs:82-83 | a 2xx response whose body is not JSON at attempt `k` fails with a decode error after `k`+1 sends, never retried |
| Retry.AttemptReadsOnlyConsumed | src/fingerprinting/communication.rs:45-91 | from any attempt on, the run depends only on the outcomes of the sends it makes |
| Retry.NoSendAfterDecision | src/fingerprinting/communication.rs:45-91 | replacing every answer after the deciding send by arbitrary other answers leaves the trace unchanged: nothing is sent after the deciding response |
| Retry.RunRetryLoop | src/fingerprinting/communication.rs:43-94 | the imperative counter loop, with its fall-through error, yields exactly the trace of `RetryLoop` |
| Backoff.Delay | src/fingerprinting/communication.rs:67 | the delay is `floor(1.5^i * 1000)` ms: the largest `ms` with `ms * 2^i <= 1000 * 3^i` |
| Backoff.Schedule | src/fingerprinting/communication.rs:66-73 | the first `n` delays, with attempt `i`'s delay at position `i` |
| Backoff.DelayAtLeastOneSecond | src/fingerprinting/communication.rs:67 | no backoff is shorter than 1000 ms |
| Backoff.DelayIncreases | src/fingerprinting/communication.rs:67 | each delay is strictly longer than the previous one |
| Backoff.DelayStrictlyMonotone | src/fingerprinting/communication.rs:66-73 | `i < j` implies `Delay(i) < Delay(j)` |
| Backoff.FullScheduleValues | src/fingerprinting/communication.rs:43-73 | the 10 delays of an exhausted call are 1000, 1500, 2250, 3375, 5062, 7593, 11390, 17085, 25628 and 38443 ms |
| Backoff.FullScheduleTotal | src/fingerprinting/communication.rs:43-73 | an exhausted call sleeps 113326 ms in total |
| RequestBody.TruncateU32 | src/fingerprinting/communication.rs:25 | `as u32` gives the unique value below 2^32 congruent to the input modulo 2^32; values already in range are unchanged |
| RequestBody.Build | src/fingerprinting/communication.rs:15-30 | the clock check fails first, then the URI encoding; on success the outer and nested timestamps are equal, below 2^32 and congruent to the reading; the fixed geolocation and timezone are used |
| RequestBody.TimestampExactBelowRange | src/fingerprinting/communication.rs:25-28 | a reading below 2^32 ms is sent unchanged in both fields |
| RequestBody.TimestampWraps | src/fingerprinting/communication.rs:25-28 | readings 2^32 ms apart produce the same body |
| ClientFactory.SelectProxy | src/fingerprinting/communication.rs:116-120 | a proxy is chosen iff either variable is set; `https_proxy` wins whenever it is set; `HTTPS_PROXY` is used only when it is not |
| ClientFactory.BuildClient | src/fingerprinting/communication.rs:114-122 | the client carries the selected proxy; building succeeds iff the selected proxy (if any) parses and the library builds; an unparsable selected proxy is an error naming it; otherwise a failed build is a build error |
| ClientFactory.UpperIgnoredWhenLowerSet | src/fingerprinting/communication.rs:116-118 | with `https_proxy` set, the value of `HTTPS_PROXY` has no effect |
| ClientFactory.NoFallbackToUpper | src/fingerprinting/communication.rs:116-119 | an invalid `https_proxy` is an error even if `HTTPS_PROXY` is valid |
| ClientFactory.DirectWithoutVariables | src/fingerprinting/communication.rs:114-121 | with neither variable set the factory configures no proxy |
| Recognition.Prepare | src/fingerprinting/communication.rs:15-42 | preparation fails at the first failing step, in source order (clock, encoding, User-Agent, client), with that step's own error; it succeeds iff every step does, with their body and client |
| Recognition.Recognize | src/fingerprinting/communication.rs:13-95 | zero sends iff preparation fails, and then that error and no sleeps; otherwise exactly the retry loop's trace |
| Recognition.EncodingFailureSendsNothing | src/fingerprinting/communication.rs:26-45 | a failed URI encoding fails the call with zero sends and zero sleeps |
| Recognition.InvalidProxySendsNothing | src/fingerprinting/communication.rs:42-45 | an unparsable `https_proxy` fails the call before any send |
| Recognition.RecognizeSongFromSignature | src/fingerprinting/communication.rs:13-95 | the step-by-step function with early returns yields exactly the trace of `Recognize` |

## Left out

- `obtain_raw_cover_image`: a single GET through the same client, with no decision logic of its own beyond the library calls.
- `samplems`: computed in `f32` arithmetic. The body has no `samplems` field.
- Request identity: the two random UUIDs, the URL built from them, and the random pick from the User-Agent pool. Only "the chosen User-Agent parses as a header value" is kept, as an input flag, because its failure ends the call before any send. The pool is not part of this model.
- HTTP plumbing: query parameters, headers, the 15-second timeout and JSON serialisation. A timeout appears as a transport failure outcome; JSON parsing of the response appears as the `Json`/`NotJson` payload.
- Side effects: the clock, environment variables and real sleeping are inputs, and sleeps are recorded as delays. The `eprintln!` notice before each sleep is not modelled. An environment variable that is not valid Unicode reads like an unset one, as `env::var` returning `Err` does.
- Retry.Answers: the outcome sequence must have at least 11 entries. This is the capacity the loop may need; the call never reads past the send that ends it (`Retry.NoSendAfterDecision`).
