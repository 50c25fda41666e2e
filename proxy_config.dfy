/**
 * The proxy configuration as the system proxy-state service reports it, and
 * `get_proxy_config`: the query's error check and the filtering that keeps
 * only the "http" and "https" protocol entries.
 */
module ProxyConfig {
  import opened Wrappers

  /** One protocol's proxy: its endpoint and the URL prefixes that bypass it. */
  datatype Entry = Entry(url: string, bypass: seq<string>)

  /** Protocol name -> entry, as parsed from the service's JSON object. */
  type Config = map<string, Entry>

  /** The only protocols the browser keeps. */
  predicate IsKnownProtocol(protocol: string) {
    protocol == "http" || protocol == "https"
  }

  /** Every key of the configuration is a known protocol. */
  predicate OnlyKnownProtocols(config: Config) {
    forall protocol :: protocol in config ==> IsKnownProtocol(protocol)
  }

  /**
   * The configuration with every unknown protocol dropped: the
   * specification of what the filtering loop leaves behind.
   */
  function Filtered(config: Config): (filtered: Config)
    ensures OnlyKnownProtocols(filtered)
    ensures forall protocol :: IsKnownProtocol(protocol) ==>
              (protocol in filtered <==> protocol in config)
    ensures forall protocol :: protocol in filtered ==> filtered[protocol] == config[protocol]
  {
    map protocol | protocol in config && IsKnownProtocol(protocol) :: config[protocol]
  }

  /**
   * Removes, one by one, every protocol that is not "http" or "https".
   * The keys to drop are collected first and popped afterwards, so the
   * map is never changed while its keys are being enumerated.
   */
  method FilterConfig(parsed: Config) returns (config: Config)
    ensures config == Filtered(parsed)
  {
    config := parsed;
    var unknown := set protocol | protocol in parsed && !IsKnownProtocol(protocol);
    while unknown != {}
      invariant unknown <= config.Keys
      invariant forall protocol :: protocol in config ==> protocol in parsed && config[protocol] == parsed[protocol]
      invariant forall protocol :: protocol in parsed ==>
                  (protocol in config <==> IsKnownProtocol(protocol) || protocol in unknown)
      invariant forall protocol :: protocol in unknown ==> !IsKnownProtocol(protocol)
      decreases unknown
    {
      var protocol :| protocol in unknown;
      config := config - {protocol};
      unknown := unknown - {protocol};
    }
    assert config.Keys == Filtered(parsed).Keys;
  }

  /** Filtering keeps the "http" and "https" entries exactly and drops everything else. */
  lemma FilterKeepsKnownEntries(config: Config, protocol: string)
    ensures protocol in Filtered(config) <==> protocol in config && IsKnownProtocol(protocol)
    ensures protocol in Filtered(config) ==> Filtered(config)[protocol] == config[protocol]
  {
  }

  /** A configuration holding only known protocols is left as it is. */
  lemma FilterFixesFiltered(config: Config)
    requires OnlyKnownProtocols(config)
    ensures Filtered(config) == config
  {
  }

  /** Filtering twice is filtering once. */
  lemma FilterIdempotent(config: Config)
    ensures Filtered(Filtered(config)) == Filtered(config)
  {
  }

  /** The result of running the proxy-state command, with its output already parsed. */
  datatype ProxyQuery = ProxyQuery(returncode: int, stdout: Option<Config>, stderr: string)

  datatype QueryError =
    | ProxyQueryError(detail: string)   // the command exited non-zero; carries its stderr
    | ProxyConfigParseError             // the output was not JSON, or JSON that is not an object

  /**
   * `get_proxy_config`: a non-zero exit code raises with the command's
   * standard error; otherwise the parsed configuration is filtered.
   */
  method GetProxyConfig(query: ProxyQuery) returns (r: Result<Config, QueryError>)
    ensures query.returncode != 0 ==> r == Failure(ProxyQueryError(query.stderr))
    ensures query.returncode == 0 && query.stdout.None? ==> r == Failure(ProxyConfigParseError)
    ensures query.returncode == 0 && query.stdout.Some? ==> r == Success(Filtered(query.stdout.value))
    ensures r.Success? ==> OnlyKnownProtocols(r.value)
  {
    if query.returncode != 0 {
      return Failure(ProxyQueryError(query.stderr));
    }
    if query.stdout.None? {
      return Failure(ProxyConfigParseError);
    }
    var config := FilterConfig(query.stdout.value);
    return Success(config);
  }
}
