/** The HTTP client factory: an optional HTTPS proxy taken from the
    environment, `https_proxy` before `HTTPS_PROXY`. */
module ClientFactory {
  import opened Wrappers
  import opened Errors

  datatype Client = Client(proxy: Option<string>)

  /** The variable that decides the proxy: the lower-case one whenever it is
      set (whatever its value), else the upper-case one. `None` stands for a
      variable that is unset (or not valid Unicode, which reads the same). */
  function SelectProxy(lower: Option<string>, upper: Option<string>): (p: Option<string>)
    ensures p.Some? <==> lower.Some? || upper.Some?
    ensures lower.Some? ==> p == lower
    ensures lower.None? ==> p == upper
  {
    if lower.Some? then lower else upper
  }

  /** Build the client. `proxyParses` stands for the library's HTTPS proxy URL
      parser and `builds` for whether the final build succeeds. */
  function BuildClient(lower: Option<string>, upper: Option<string>,
                       proxyParses: string -> bool, builds: bool): (r: Result<Client, Failure>)
    ensures r.Success? ==> r.value.proxy == SelectProxy(lower, upper)
    ensures r.Success? <==>
      builds && (SelectProxy(lower, upper).None? || proxyParses(SelectProxy(lower, upper).value))
    ensures SelectProxy(lower, upper).Some? && !proxyParses(SelectProxy(lower, upper).value) ==>
      r == Failure(InvalidProxy(SelectProxy(lower, upper).value))
    ensures !builds && (SelectProxy(lower, upper).None? || proxyParses(SelectProxy(lower, upper).value)) ==>
      r == Failure(ClientBuildError)
  {
    match SelectProxy(lower, upper)
    case Some(proxy) =>
      if !proxyParses(proxy) then Failure(InvalidProxy(proxy))
      else if builds then Success(Client(Some(proxy)))
      else Failure(ClientBuildError)
    case None =>
      if builds then Success(Client(None)) else Failure(ClientBuildError)
  }

  /** When `https_proxy` is set, `HTTPS_PROXY` has no influence at all. */
  lemma UpperIgnoredWhenLowerSet(lower: string, upper1: Option<string>, upper2: Option<string>,
                                 proxyParses: string -> bool, builds: bool)
    ensures BuildClient(Some(lower), upper1, proxyParses, builds)
         == BuildClient(Some(lower), upper2, proxyParses, builds)
  {
  }

  /** An unparsable `https_proxy` is an error even when `HTTPS_PROXY` would
      parse: there is no fallback to the second variable. */
  lemma NoFallbackToUpper(lower: string, upper: string, proxyParses: string -> bool, builds: bool)
    requires !proxyParses(lower)
    ensures BuildClient(Some(lower), Some(upper), proxyParses, builds) == Failure(InvalidProxy(lower))
  {
  }

  /** With neither variable set the factory configures no proxy. */
  lemma DirectWithoutVariables(proxyParses: string -> bool)
    ensures BuildClient(None, None, proxyParses, true) == Success(Client(None))
  {
  }
}
