/** Concrete request plans, each derived from the general model. */
module Scenarios {
  import opened ProxyConfig
  import opened Browser

  /** An "https" URL under an "https" bypass prefix goes direct. */
  lemma HttpsPrefixGoesDirect()
    ensures Decide("https://example.com/page",
                   map["https" := Entry("https://p:8443", ["https://example.com"])]) == Direct
  {
  }

  /** An "http" URL with only an "https" entry has no bypass list and is proxied. */
  lemma HttpUrlWithOnlyHttpsEntryIsProxied()
    ensures Decide("http://example.com/", map["https" := Entry("https://p:8443", ["http://"])])
            == Proxied(map["https" := "https://p:8443"])
  {
    var config := map["https" := Entry("https://p:8443", ["http://"])];
    assert "http://example.com/"[4] != "https"[4];
    assert SelectBypass("http://example.com/", config) == [];
    assert ProxyMap(config) == map["https" := "https://p:8443"];
  }

  /** A proxied request carries both the "http" and the "https" proxy. */
  lemma ProxiedRequestCarriesBothProxies()
    ensures Decide("http://example.com/",
                   map["http" := Entry("http://p:8080", []), "https" := Entry("https://p:8443", [])])
            == Proxied(map["http" := "http://p:8080", "https" := "https://p:8443"])
  {
  }

  /**
   * A query whose "http" entry bypasses "http://blocked.test" and which
   * also reports an "ftp" entry: the "ftp" entry is dropped, and a path
   * under the bypassed prefix is fetched directly.
   */
  lemma BlockedHostGoesDirect()
    ensures Filtered(map["http" := Entry("http://p:8080", ["http://blocked.test"]),
                         "ftp" := Entry("ftp://p:2121", [])])
            == map["http" := Entry("http://p:8080", ["http://blocked.test"])]
    ensures Decide("http://blocked.test/bypassed-path",
                   Filtered(map["http" := Entry("http://p:8080", ["http://blocked.test"]),
                                "ftp" := Entry("ftp://p:2121", [])])) == Direct
  {
    var parsed := map["http" := Entry("http://p:8080", ["http://blocked.test"]),
                      "ftp" := Entry("ftp://p:2121", [])];
    var url := "http://blocked.test/bypassed-path";
    assert Filtered(parsed).Keys == {"http"};
    assert url[4] != "https"[4];
    assert "http" <= url;
    assert "http://blocked.test" <= url;
    assert SelectBypass(url, Filtered(parsed)) == ["http://blocked.test"];
  }
}
