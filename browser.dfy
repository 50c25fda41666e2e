/**
 * The request plan of the browser's `main`: which bypass list applies to the
 * target URL, whether the URL matches it, and, if not, which proxies the
 * single GET request is given.
 */
module Browser {
  import opened Wrappers
  import opened ProxyConfig

  /** The GET request that `main` issues: without proxies, or with this map. */
  datatype Fetch = Direct | Proxied(proxies: map<string, string>)

  /**
   * The bypass list for `url`: a literal prefix test, "https" before
   * "http", and the empty list when the URL has neither prefix or the
   * matching protocol has no entry.
   */
  function SelectBypass(url: string, config: Config): (bypass: seq<string>)
    ensures "https" <= url ==>
              bypass == (if "https" in config then config["https"].bypass else [])
    ensures !("https" <= url) && "http" <= url ==>
              bypass == (if "http" in config then config["http"].bypass else [])
    ensures !("http" <= url) ==> bypass == []
    ensures bypass != [] ==>
              exists protocol :: IsKnownProtocol(protocol) && protocol <= url &&
                protocol in config && bypass == config[protocol].bypass
  {
    if "https" <= url then
      if "https" in config then config["https"].bypass else []
    else if "http" <= url then
      if "http" in config then config["http"].bypass else []
    else
      []
  }

  /** The `any(...)` scan: some element of `bypass` is a prefix of `url`. */
  function AnyPrefix(bypass: seq<string>, url: string): (found: bool)
    ensures found <==> exists b :: b in bypass && b <= url
  {
    if bypass == [] then false
    else if bypass[0] <= url then
      assert bypass[0] in bypass;
      true
    else
      assert forall b :: b in bypass <==> b == bypass[0] || b in bypass[1..];
      AnyPrefix(bypass[1..], url)
  }

  /** The request goes direct iff the URL starts with an entry of its bypass list. */
  predicate ShouldBypass(url: string, config: Config)
    ensures ShouldBypass(url, config) <==> exists b :: b in SelectBypass(url, config) && b <= url
  {
    AnyPrefix(SelectBypass(url, config), url)
  }

  /** Every protocol in the configuration mapped to its proxy endpoint. */
  function ProxyMap(config: Config): (proxies: map<string, string>)
    ensures proxies.Keys == config.Keys
    ensures forall protocol :: protocol in config ==> proxies[protocol] == config[protocol].url
  {
    map protocol | protocol in config :: config[protocol].url
  }

  /** Direct when bypassing, otherwise through every proxy in the configuration. */
  function Decide(url: string, config: Config): (fetch: Fetch)
    ensures fetch.Direct? <==> exists b :: b in SelectBypass(url, config) && b <= url
    ensures fetch.Proxied? ==> fetch.proxies == ProxyMap(config)
  {
    if ShouldBypass(url, config) then Direct else Proxied(ProxyMap(config))
  }

  /**
   * `main` after argument parsing: query the proxy state (failing as
   * `get_proxy_config` fails), then decide the request for `url`.
   */
  method PlanRequest(url: string, query: ProxyQuery) returns (r: Result<Fetch, QueryError>)
    ensures query.returncode != 0 ==> r == Failure(ProxyQueryError(query.stderr))
    ensures query.returncode == 0 && query.stdout.None? ==> r == Failure(ProxyConfigParseError)
    ensures query.returncode == 0 && query.stdout.Some? ==>
              r == Success(Decide(url, Filtered(query.stdout.value)))
  {
    var config := GetProxyConfig(query);
    if config.Failure? {
      return Failure(config.error);
    }
    return Success(Decide(url, config.value));
  }

  /** An "https" URL never reads the "http" entry, although it also starts with "http". */
  lemma HttpsIgnoresHttpEntry(url: string, config: Config, other: Entry)
    requires "https" <= url
    ensures SelectBypass(url, config) == (if "https" in config then config["https"].bypass else [])
    ensures SelectBypass(url, config) == SelectBypass(url, config["http" := other])
    ensures SelectBypass(url, config) == SelectBypass(url, config - {"http"})
  {
  }

  /** An "http" URL that is not "https" reads only the "http" entry. */
  lemma HttpIgnoresHttpsEntry(url: string, config: Config, other: Entry)
    requires "http" <= url && !("https" <= url)
    ensures SelectBypass(url, config) == (if "http" in config then config["http"].bypass else [])
    ensures SelectBypass(url, config) == SelectBypass(url, config["https" := other])
    ensures SelectBypass(url, config) == SelectBypass(url, config - {"https"})
  {
  }

  /**
   * With no bypass list (neither prefix, or the protocol's entry absent)
   * the request always goes through the proxies map.
   */
  lemma NoBypassListMeansProxied(url: string, config: Config)
    requires || !("http" <= url)
             || ("https" <= url && "https" !in config)
             || (!("https" <= url) && "http" !in config)
    ensures Decide(url, config) == Proxied(ProxyMap(config))
  {
  }

  /** An empty-string bypass element makes every URL of that scheme go direct. */
  lemma EmptyPrefixBypassesScheme(url: string, config: Config, protocol: string)
    requires protocol in config && "" in config[protocol].bypass
    requires protocol == "https" ==> "https" <= url
    requires protocol == "http" ==> "http" <= url && !("https" <= url)
    requires IsKnownProtocol(protocol)
    ensures Decide(url, config) == Direct
  {
  }

  /**
   * The proxies of a proxied request do not depend on the URL: any two
   * proxied URLs get the same map, naming every configured protocol.
   */
  lemma ProxiesIndependentOfUrl(url1: string, url2: string, config: Config)
    requires Decide(url1, config).Proxied? && Decide(url2, config).Proxied?
    ensures Decide(url1, config).proxies == Decide(url2, config).proxies
    ensures Decide(url1, config).proxies.Keys == config.Keys
  {
  }

  /**
   * After filtering, a proxied request names at most the "http" and
   * "https" proxies, each with its own endpoint.
   */
  lemma FilteredProxiesAreKnown(url: string, parsed: Config)
    requires Decide(url, Filtered(parsed)).Proxied?
    ensures forall protocol :: protocol in Decide(url, Filtered(parsed)).proxies ==>
              IsKnownProtocol(protocol) && protocol in parsed &&
              Decide(url, Filtered(parsed)).proxies[protocol] == parsed[protocol].url
  {
  }

  /** Filtering never changes the bypass decision: only known entries are ever read. */
  lemma FilterPreservesBypass(url: string, parsed: Config)
    ensures SelectBypass(url, Filtered(parsed)) == SelectBypass(url, parsed)
    ensures ShouldBypass(url, Filtered(parsed)) == ShouldBypass(url, parsed)
  {
  }
}
