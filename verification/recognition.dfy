/** `recognize_song_from_signature` end to end: the preparation steps that
    can fail before anything is sent, then the retry loop. */
module Recognition {
  import opened Wrappers
  import opened Errors
  import opened Http
  import opened RequestBody
  import opened ClientFactory
  import opened Retry

  /** Everything the call reads from outside, fixed for the call. */
  datatype Environment = Environment(
    clockMs: int,                        // wall clock, ms since the Unix epoch (negative: earlier)
    encodedUri: Result<string, string>,  // the signature's URI encoding, or why it failed
    userAgentIsHeaderValue: bool,        // the randomly chosen User-Agent parses as a header value
    httpsProxyLower: Option<string>,     // the `https_proxy` variable
    httpsProxyUpper: Option<string>,     // the `HTTPS_PROXY` variable
    clientBuilds: bool)                  // the HTTP client library builds a client

  /** What is ready once preparation succeeds: the body every send posts and the client. */
  datatype Prepared = Prepared(body: Body, client: Client)

  /** The steps before the first send, in source order: the clock, the body
      (with the URI encoding), the User-Agent header, then the client. The
      first failing step decides the error. */
  function Prepare(env: Environment, proxyParses: string -> bool): (r: Result<Prepared, Failure>)
    ensures env.clockMs < 0 ==> r == Failure(ClockBeforeEpoch)
    ensures env.clockMs >= 0 && env.encodedUri.Failure? ==> r == Failure(EncodingError(env.encodedUri.error))
    ensures Build(env.clockMs, env.encodedUri).Success? && !env.userAgentIsHeaderValue ==>
      r == Failure(InvalidUserAgent)
    ensures && Build(env.clockMs, env.encodedUri).Success?
            && env.userAgentIsHeaderValue
            && BuildClient(env.httpsProxyLower, env.httpsProxyUpper, proxyParses, env.clientBuilds).Failure?
            ==> r == Failure(BuildClient(env.httpsProxyLower, env.httpsProxyUpper, proxyParses, env.clientBuilds).error)
    ensures r.Success? <==>
      && Build(env.clockMs, env.encodedUri).Success?
      && env.userAgentIsHeaderValue
      && BuildClient(env.httpsProxyLower, env.httpsProxyUpper, proxyParses, env.clientBuilds).Success?
    ensures r.Success? ==>
      && r.value.body == Build(env.clockMs, env.encodedUri).value
      && r.value.client == BuildClient(env.httpsProxyLower, env.httpsProxyUpper, proxyParses, env.clientBuilds).value
  {
    match Build(env.clockMs, env.encodedUri)
    case Failure(e) => Failure(e)
    case Success(body) =>
      if !env.userAgentIsHeaderValue then Failure(InvalidUserAgent)
      else
        match BuildClient(env.httpsProxyLower, env.httpsProxyUpper, proxyParses, env.clientBuilds)
        case Failure(e) => Failure(e)
        case Success(client) => Success(Prepared(body, client))
  }

  /** The whole call. A failed preparation sends nothing and sleeps never;
      otherwise the call is exactly the retry loop over the network's answers. */
  function Recognize(env: Environment, proxyParses: string -> bool, net: seq<Send>): (t: Trace)
    requires Answers(net)
    ensures t.sends == 0 <==> Prepare(env, proxyParses).Failure?
    ensures t.sends == 0 ==> t == Trace(Failure(Prepare(env, proxyParses).error), 0, [])
    ensures t.sends > 0 ==> t == RetryLoop(net)
  {
    match Prepare(env, proxyParses)
    case Failure(e) => Trace(Failure(e), 0, [])
    case Success(_) => RetryLoop(net)
  }

  /** A signature that cannot be encoded fails the call before any send. */
  lemma EncodingFailureSendsNothing(env: Environment, proxyParses: string -> bool, net: seq<Send>)
    requires Answers(net)
    requires env.clockMs >= 0 && env.encodedUri.Failure?
    ensures Recognize(env, proxyParses, net) == Trace(Failure(EncodingError(env.encodedUri.error)), 0, [])
  {
  }

  /** An unparsable selected proxy fails the call before any send, even when
      the other variable holds a usable proxy. */
  lemma InvalidProxySendsNothing(env: Environment, proxyParses: string -> bool, net: seq<Send>)
    requires Answers(net)
    requires Build(env.clockMs, env.encodedUri).Success? && env.userAgentIsHeaderValue
    requires env.httpsProxyLower.Some? && !proxyParses(env.httpsProxyLower.value)
    ensures Recognize(env, proxyParses, net) == Trace(Failure(InvalidProxy(env.httpsProxyLower.value)), 0, [])
  {
  }

  /** The function as written: each fallible preparation step returns early,
      then the retry loop runs. */
  method RecognizeSongFromSignature(env: Environment, proxyParses: string -> bool, net: seq<Send>)
    returns (result: Result<Document, Failure>, sends: nat, sleeps: seq<nat>)
    requires Answers(net)
    ensures Trace(result, sends, sleeps) == Recognize(env, proxyParses, net)
  {
    var body := Build(env.clockMs, env.encodedUri);
    if body.Failure? {
      return Failure(body.error), 0, [];
    }
    if !env.userAgentIsHeaderValue {
      return Failure(InvalidUserAgent), 0, [];
    }
    var client := BuildClient(env.httpsProxyLower, env.httpsProxyUpper, proxyParses, env.clientBuilds);
    if client.Failure? {
      return Failure(client.error), 0, [];
    }
    result, sends, sleeps := RunRetryLoop(net);
  }
}
