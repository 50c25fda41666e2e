# Proxy selection of the snap browser demo

The `browser` command fetches one URL and prints it as terminal text. Before it
fetches, it asks the system's proxy-state service (`snapctl get --view
:network-proxy-state -d`) for the proxy configuration. The configuration maps
each protocol to an entry `{url, bypass}`. The command keeps only the `http` and
`https` entries, picks the bypass list that matches the URL's scheme, and then
issues the GET request. The request goes direct when the URL starts with a
bypass prefix. Otherwise it goes through a proxies map that holds every
remaining entry.

This project models that policy in Dafny:

- `ProxyConfig` (`proxy_config.dfy`) models `get_proxy_config`.
  - `Entry` and `Config` are the entry and the protocol-to-entry map.
  - `GetProxyConfig` fails with the command's standard error when the exit code is
    non-zero. It fails with `ProxyConfigParseError` when the output is not valid JSON,
    or is JSON that is not an object. The source raises in both cases: `json.loads`
    raises in the first, `config.keys()` in the second.
  - Otherwise it runs `FilterConfig`. This is a loop that pops every unknown
    protocol from the map, and it is proved equal to the specification function
    `Filtered`.
- `Browser` (`browser.dfy`) models `main` from line 33 on.
  - `SelectBypass` tests the literal prefix `"https"` first and `"http"` second.
  - `AnyPrefix` is the `any(...)` scan.
  - `ProxyMap` is the dict comprehension.
  - `Decide` gives the request `main` would issue: `Direct`, or `Proxied(proxies)`.
  - `PlanRequest` puts the query and the decision together.
- `Scenarios` (`scenarios.dfy`) derives concrete request plans from the general model.
- `Wrappers` holds the `Option` and `Result` types.

Python's `str.startswith(p)` is the sequence-prefix test `p <= url`.

## Model

| member | source | states |
|---|---|---|
| `ProxyConfig.Filtered` | browser/browser/main.py:17-22 | After filtering, every key is `"http"` or `"https"`. Those two keys are present exactly when they were present before. Every kept entry is unchanged. |
| `ProxyConfig.FilterConfig` | browser/browser/main.py:17-22 | The pop loop over the collected unknown protocols ends with exactly `Filtered(parsed)`. Its invariants: every remaining entry is the original one, and a key is still present iff it is known or not yet popped. |
| `ProxyConfig.FilterKeepsKnownEntries` | browser/browser/main.py:17-22 | A protocol survives filtering iff it was present and is `"http"` or `"https"`. Its entry is then the original one. |
| `ProxyConfig.FilterFixesFiltered` | browser/browser/main.py:17-22 | A configuration that holds only known protocols is not changed by filtering. |
| `ProxyConfig.FilterIdempotent` | browser/browser/main.py:17-22 | Filtering twice gives the same result as filtering once. |
| `ProxyConfig.GetProxyConfig` | browser/browser/main.py:10-24 | A non-zero return code gives `ProxyQueryError(stderr)` and no configuration. Output that is not valid JSON, or is JSON but not an object, gives `ProxyConfigParseError`. Otherwise the result is the filtered configuration, which holds only known protocols. |
| `Browser.SelectBypass` | browser/browser/main.py:33-41 | An `"https"` URL takes the `"https"` entry's list, or the empty list if that entry is absent. This test comes first. A URL that starts with `"http"` but not `"https"` takes the `"http"` entry's list, or the empty list. Any other URL takes the empty list. So a non-empty list always belongs to a known protocol whose name is a prefix of the URL. |
| `Browser.AnyPrefix` | browser/browser/main.py:43 | The scan finds a match iff some element of the bypass list is a prefix of the URL. |
| `Browser.ShouldBypass` | browser/browser/main.py:43 | The bypass condition holds iff some string in the selected bypass list is a prefix of the URL. |
| `Browser.ProxyMap` | browser/browser/main.py:48 | The proxies map has exactly the keys of the configuration. Each key maps to its entry's `url`. |
| `Browser.Decide` | browser/browser/main.py:43-48 | The request is direct iff some string in the selected bypass list is a prefix of the URL. Otherwise its proxies are `ProxyMap(config)`. |
| `Browser.PlanRequest` | browser/browser/main.py:33-48 | A failed query ends the run with that query's error, and no request is planned. A successful query plans `Decide(url, Filtered(parsed))`. |
| `Browser.HttpsIgnoresHttpEntry` | browser/browser/main.py:36-38 | An `"https"` URL takes its list only from the `"https"` entry, and takes the empty list when that entry is absent. Replacing or removing the `"http"` entry changes nothing, although the URL also starts with `"http"`. |
| `Browser.HttpIgnoresHttpsEntry` | browser/browser/main.py:39-41 | A URL that starts with `"http"` but not with `"https"` takes its list only from the `"http"` entry, or the empty list when that entry is absent. The `"https"` entry has no effect on it. |
| `Browser.NoBypassListMeansProxied` | browser/browser/main.py:33-48 | Suppose the URL has neither prefix, or its protocol's entry is missing. Then the request is never direct: it goes through `ProxyMap(config)`. |
| `Browser.EmptyPrefixBypassesScheme` | browser/browser/main.py:43-44 | An empty string in the selected protocol's bypass list makes every URL of that scheme go direct. |
| `Browser.ProxiesIndependentOfUrl` | browser/browser/main.py:46-48 | Any two proxied URLs get the same proxies map. That map has every configured protocol as a key, whatever the URL's scheme. |
| `Browser.FilteredProxiesAreKnown` | browser/browser/main.py:17-22 | After filtering, a proxied request names only `"http"` and `"https"` proxies. Each of them has the endpoint the service reported. |
| `Browser.FilterPreservesBypass` | browser/browser/main.py:34-43 | Filtering never changes the selected bypass list or the bypass decision, because only the `"http"` and `"https"` entries are ever read. |
| `Scenarios.HttpsPrefixGoesDirect` | browser/browser/main.py:36-44 | An `"https"` URL under an `"https"` bypass prefix is fetched directly. |
| `Scenarios.HttpUrlWithOnlyHttpsEntryIsProxied` | browser/browser/main.py:39-48 | Take an `"http"` URL and a configuration with only an `"https"` entry. The URL gets no bypass list, so the request is proxied with the `"https"` proxy. This holds even though that entry's bypass list would match the URL. |
| `Scenarios.ProxiedRequestCarriesBothProxies` | browser/browser/main.py:46-48 | A proxied `"http"` request carries both the `"http"` and the `"https"` proxy mappings. |
| `Scenarios.BlockedHostGoesDirect` | browser/browser/main.py:17-44 | Filtering drops an `"ftp"` entry. A path under the `"http"` bypass prefix `"http://blocked.test"` is then fetched directly. |

## Left out

- The `snapctl` subprocess (browser/browser/main.py:11-12) is an input, `ProxyQuery`, with the return code, the parsed output and the standard-error text.
- `json.loads` (browser/browser/main.py:16) is not modelled. The output is given already parsed. It is `Some(config)` for a JSON object. It is `None` for output that is not valid JSON, or valid JSON that is not an object such as `[]` or `null`. The source raises for such output: `json.loads` raises a `JSONDecodeError` for invalid JSON, and `config.keys()` at main.py:18 raises an `AttributeError` for a non-object.
- Entries are typed. `Config` holds only entries with a string `url` and a list-of-strings `bypass`, so it cannot represent a malformed entry. The source reads an entry's fields only where it uses them:
  - An unknown protocol's entry is popped without being read (main.py:21-22), so a malformed entry there passes silently.
  - A selected `bypass` that is a JSON string is scanned one character at a time by the `any(...)` at main.py:43, without error. For example, `"bypass": "h"` makes every `http…` URL go direct. A `bypass` that is not iterable raises a `TypeError`.
  - A missing `bypass` in the selected entry raises a `KeyError` at main.py:38 or main.py:41.
  - A kept entry's `url` is read only on the proxied path (main.py:48). A missing `url` raises a `KeyError` there, and raises nothing on the direct path.
- `requests.get` (browser/browser/main.py:44-49) is not modelled beyond which call is made (`Direct` or `Proxied(map)`). The transport, its errors, and the environment proxy settings that `requests` may merge in are outside the model.
- `html2text.html2text` and `render` (browser/browser/main.py:51-52) are not modelled. They are foreign libraries plus terminal output.
- `argparse` handling (browser/browser/main.py:28-31) is not modelled. The URL is a parameter.
- Python's dict is ordered and the model's `map` is not. The source removes unknown keys in list order. Order has no effect on the resulting key set, so the loop removes them in an arbitrary order.
- An empty configuration (no `http` or `https` entry) gives `Proxied(map[])`, as in the code, and not a separate "no proxy" outcome. Whether `requests` treats an empty proxies map like a direct request depends on the transport, which is not modelled.
