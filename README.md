# Alpha Vantage MCP tools — a Dafny model

The repository exposes Alpha Vantage market-data queries as MCP tools. Each
tool in `mcp-server/src/tools.py` builds one HTTP GET against
`https://www.alphavantage.co/query`, reads the decoded JSON answer and
returns either a piece of it or a fixed error value. The root `tools.py`
holds an earlier version of the stock-price tool.

This project models what the tools do with their inputs and with the
provider's answer. The HTTP call is replaced by a value: every tool takes
the API key (`Option<string>`, `None` standing for an unset variable), its
declared arguments, and a `Provider`, a total function from the `Request`
the tool builds to the `Exchange` it gets back. An exchange is either a
response (status, reason phrase, final URL, decoded body) or the message of
the exception `requests.get` raised. Because the provider is an argument,
the claim that a tool makes exactly one request, or none at all, can be
stated: the result depends on the provider only through that one request.

Python's evaluation is made explicit. `Py<T>` is `Returns(value)` or
`Raises(exception)`, and module `Python` gives CPython's behaviour on JSON
values:

- `in` means key membership on a dict, element membership on a list and
  substring on a str; on anything else it raises TypeError.
- Subscripts, `.keys()`, truthiness and `str()` follow CPython too.
- `sorted(keys)[-1]` is the greatest key in code-point lexicographic order,
  or IndexError when there are no keys.

Modules, one per component:

- `LexOrder` (lex_order.dfy): Python's string order. It is proved to be a
  total order, and a finite non-empty set has exactly one greatest member.
  `Latest` returns it.
- `Json`, `Python`, `Http` (json.dfy, python.dfy, http.dfy): the value types,
  the Python operations, the request/response values, and
  `raise_for_status`, which raises exactly for statuses 400 to 599.
- `Catalogue` (catalogue.dfy): the function identifier and the argument
  names of every tool, the success key of every keyed tool, and the
  `params` dict they build.
- `CurrentPrice` (current_price.dfy): `get_current_price` of
  mcp-server/src/tools.py.
- `SeriesTools` (series_tools.dfy): the keyed family (exchange rate, FX,
  digital currency) and the pass-through family (commodities, economic
  indicators).
- `LegacyPrice` (legacy_price.dfy): `get_current_price` of the root tools.py.

The tools are less uniform than a table-driven gateway would be, and the
model keeps each difference as the code has it:

- Only `get_current_price` checks the key. Every other tool sends `apikey`
  as Python `None` when it is unset.
- Only `get_current_price` looks for "Error Message" and "Note".
- The keyed tools answer an unexpected body with
  `{"error": "Invalid data returned"}`. They do not return the body itself.
- A failed status is handled three ways:
  - `get_current_price` turns 4xx/5xx into a connection-error text through
    `raise_for_status`. Any other status, 204 or 304 for example, goes on to
    the body checks.
  - The keyed tools return `{"error": "Failed to fetch data"}`.
  - The pass-through tools raise (see Findings).
- Only `get_current_price` passes a timeout (10 seconds).

## Model

| member | source | states |
|---|---|---|
| `LexOrder.LexLeReflexive` | mcp-server/src/tools.py:39 | every string is `<=` itself in Python's string order |
| `LexOrder.LexLeAntisymmetric` | mcp-server/src/tools.py:39 | two strings each `<=` the other are equal |
| `LexOrder.LexLeTransitive` | mcp-server/src/tools.py:39 | the string order is transitive |
| `LexOrder.LexLeTotal` | mcp-server/src/tools.py:39 | any two strings are comparable, so `sorted` of keys is well defined |
| `LexOrder.GreatestExists` | mcp-server/src/tools.py:39 | every non-empty key set has a greatest member |
| `LexOrder.GreatestUnique` | mcp-server/src/tools.py:39 | a key set has at most one greatest member |
| `LexOrder.Latest` | mcp-server/src/tools.py:39 | the chosen timestamp is in the key set and no key is greater |
| `LexOrder.LastOfAscendingIsLatest` | mcp-server/src/tools.py:39 | the last element of any strictly ascending listing of the keys, which is what `sorted(...)[-1]` reads, is `Latest` of the keys |
| `Python.IsSubstringAt` | mcp-server/src/tools.py:28 | `key in s` for a str body holds iff `key` occurs at some index of `s` |
| `Python.Contains` | mcp-server/src/tools.py:28-34 | `key in data` raises TypeError exactly when `data` is not a dict, list or str; otherwise it is key membership for a dict, element membership for a list and the substring test for a str |
| `Python.Subscript` | mcp-server/src/tools.py:38-41 | `data[key]` returns exactly when `data` is a dict holding `key`, and then returns its value; a dict without the key raises KeyError(key) |
| `Python.KeysOf` | mcp-server/src/tools.py:39 | `.keys()` succeeds exactly on a dict and gives its key set |
| `Python.LastOfSorted` | mcp-server/src/tools.py:39 | `sorted(keys)[-1]` raises IndexError iff there are no keys, returns iff there are some, and what it returns is the greatest key |
| `Http.RaiseForStatus` | mcp-server/src/tools.py:24 | `raise_for_status` raises iff the status is in 400..599, and what it raises is a RequestException |
| `Catalogue.KeyedArgNames` | mcp-server/src/tools.py:54-59 | each keyed tool declares two distinct argument names, neither being `function` or `apikey` |
| `Catalogue.PassThroughArgNames` | mcp-server/src/tools.py:226-230 | each pass-through tool's declared names are distinct and clash with neither fixed parameter |
| `Catalogue.KeyedIdRoundTrip` | mcp-server/src/tools.py:50-218 | looking a keyed tool up by the `function` identifier it sends gives back that tool |
| `Catalogue.SuccessKeyRoundTrip` | mcp-server/src/tools.py:62-218 | looking a keyed tool up by its success key gives back that tool, e.g. `"Time Series FX (Daily)"` gives FX_DAILY |
| `Catalogue.PassThroughIdRoundTrip` | mcp-server/src/tools.py:220-655 | looking a pass-through tool up by its identifier gives back that tool, and no keyed tool uses that identifier |
| `Catalogue.CatalogueInjective` | mcp-server/src/tools.py:50-218 | no two tools share a function identifier, and no two keyed tools share a success key |
| `Catalogue.ArgumentEntries` | mcp-server/src/tools.py:54-59 | the argument entries have exactly the declared names as keys, each mapped to its own argument |
| `Catalogue.QueryParams` | mcp-server/src/tools.py:54-59 | `params` holds exactly `function` (the tool's identifier), the declared arguments verbatim and `apikey` |
| `SeriesTools.KeyedRequest` | mcp-server/src/tools.py:52-60 | a keyed tool queries the base URL without timeout, with exactly `function`, its two arguments and `apikey` |
| `SeriesTools.HandleKeyed` | mcp-server/src/tools.py:62-71 | status other than 200 gives `{"error": "Failed to fetch data"}` whatever the body; for status 200 with a dict body, `data[key]` if the key is present, else `{"error": "Invalid data returned"}`; for status 200 with any other body it gives the invalid-data dict exactly when the body is a list without the key or a str without it as a substring, and otherwise raises TypeError; an unreachable provider raises |
| `SeriesTools.KeyedResultIsPayloadOrError` | mcp-server/src/tools.py:85-94 | every value a keyed tool returns is one of the two error dicts or the body's value under that tool's own success key |
| `SeriesTools.KeyedToolDependsOnOneRequest` | mcp-server/src/tools.py:83 | a keyed tool's result depends on the provider only through its one request |
| `SeriesTools.PassThroughRequest` | mcp-server/src/tools.py:476-482 | a pass-through tool sends exactly `function`, its declared arguments and `apikey`; zero-argument tools send only the two fixed ones |
| `SeriesTools.HandlePassThrough` | mcp-server/src/tools.py:233-239 | status 200 returns a truthy body unchanged and answers a falsy one with `{"error": "Failed to fetch data"}`; any other status raises UnboundLocalError on `data` |
| `SeriesTools.EmptyBodyIsFailedFetch` | mcp-server/src/tools.py:236-239 | an empty object under status 200 gives the failed-fetch dict |
| `SeriesTools.NonEmptyBodyPassesThrough` | mcp-server/src/tools.py:236-237 | a non-empty object under status 200 is returned as it is, provider error fields included |
| `SeriesTools.PassThroughRaisesOnBadStatus` | mcp-server/src/tools.py:504-512 | a pass-through tool raises whenever the provider answers with a status other than 200 |
| `SeriesTools.ServerErrorRaisesUnboundLocal` | mcp-server/src/tools.py:462-470 | concretely, status 500 makes the handler raise UnboundLocalError |
| `SeriesTools.HandlePassThroughIntended` | mcp-server/src/tools.py:233-239 | the corrected handler never raises on an answered request, gives the failed-fetch dict on a bad status, and agrees with the as-written handler under status 200 |
| `SeriesTools.IntendedMatchesKeyedOnBadStatus` | mcp-server/src/tools.py:62-71 | on a bad status, the corrected pass-through handler and the keyed handler give the same result |
| `CurrentPrice.MissingKeyBuildsNoRequest` | mcp-server/src/tools.py:13-15 | an unset or empty key gives `"Error: ALPHA_VANTAGE_API_KEY not configured"` for every provider |
| `CurrentPrice.KeyedCallDependsOnOneRequest` | mcp-server/src/tools.py:17-23 | with a key, the result depends on the provider only through the intraday URL request, sent with a 10-second timeout |
| `CurrentPrice.UnreachableIsConnectionError` | mcp-server/src/tools.py:45-46 | a `requests.get` failure gives `"Connection error: "` followed by its message |
| `CurrentPrice.HttpErrorStatusIsConnectionError` | mcp-server/src/tools.py:24-46 | a 4xx/5xx status gives `"Connection error: "` plus the HTTPError text, before any body key is read |
| `CurrentPrice.ErrorMessageComesFirst` | mcp-server/src/tools.py:28-29 | a dict body holding "Error Message" gives `"Error: Symbol {symbol} is not valid"`, even when it also holds "Note" or the series |
| `CurrentPrice.NoteComesSecond` | mcp-server/src/tools.py:31-32 | otherwise "Note" gives the API-limit message, even when the series is present |
| `CurrentPrice.MissingSeriesComesThird` | mcp-server/src/tools.py:34-35 | otherwise a missing "Time Series (5min)" gives `"Error: Could not get data for {symbol}"` |
| `CurrentPrice.QuoteIsLatestClose` | mcp-server/src/tools.py:38-43 | on success the text is exactly `"{symbol}: ${price} (updated: {time})"` with `time` the greatest series key and `price` that entry's "4. close" |
| `CurrentPrice.EmptySeriesIsProcessingError` | mcp-server/src/tools.py:39-48 | an empty series gives `"Data processing error: list index out of range"` |
| `CurrentPrice.MissingCloseIsProcessingError` | mcp-server/src/tools.py:41-48 | a latest entry that is not a dict holding "4. close" gives a `"Data processing error: "` text, for a dict exactly `"Data processing error: '4. close'"` |
| `CurrentPrice.UrlIsNotEncoded` | mcp-server/src/tools.py:17-20 | the URL is raw interpolation: two different symbol/key pairs can give the same URL |
| `LegacyPrice.LegacyUrlIsRawConcatenation` | tools.py:9-13 | the legacy URL is the same raw concatenation, and an unset key is sent as the text `None` |
| `LegacyPrice.StatusIsIgnored` | tools.py:14-17 | two responses with the same body give the same result whatever their status |
| `LegacyPrice.MissingSeriesHidesProviderErrors` | tools.py:17-18 | a dict body without "Time Series (5min)" gives the one Spanish message, whether or not it holds "Error Message" or "Note" |
| `LegacyPrice.LegacyMergesClassifiedErrors` | tools.py:17-18 | for a dict body without "Time Series (5min)" and a status below 400, the newer variant gives its invalid-symbol, API-limit or no-data text and the legacy variant gives its one Spanish message |
| `LegacyPrice.ErrorBesideSeriesDiverges` | tools.py:17-22 | a status-200 body holding both "Error Message" and a series is an invalid-symbol error for the newer variant but a quote for the legacy one |
| `LegacyPrice.LegacyQuoteIsLatestClose` | tools.py:20-22 | on success the result is `"Precio de {symbol} a las {time} es ${price}"` with the greatest key and its "4. close" |
| `LegacyPrice.EmptySeriesRaises` | tools.py:20 | an empty series raises IndexError out of the function |
| `LegacyPrice.VariantsAgreeOnQuote` | tools.py:20-22 | where both variants succeed on one answer they report the same time and price |

## Left out

- The transport: how `requests` serialises `params` is not modelled. That
  covers dropping `None` values, percent-encoding, parameter order,
  redirects and the effect of a timeout. Module `Http` keeps only the
  request as the tool builds it and the answer as the tool reads it.
- `response.json()` failing on a body that is not JSON. The body is always
  a decoded value.
- `load_dotenv` and `os.getenv`: the key is an argument.
- mcp-server/src/server.py is not part of this model. Its `try`/`except`
  wrappers are where the `Raises` outcomes of the dict tools are caught
  and turned into text. Also out: the root server.py (an `add` tool),
  client-stdio.py, and the backend and frontend code (transport and UI
  glue).
- JSON numbers are integers in `Json`, because no tool parses a price.
  Fractional numbers, and falsy `0.0`, are not represented.
- `Python.Display` renders a list or dict price as `<list>` or `<dict>`,
  not as Python's `repr`. The model's maps carry no key order to print.
- `Python.PyException.Str`: KeyError's text is the key between single
  quotes. Python's `repr` escaping is not modelled; the only key looked up
  this way is `4. close`.
- Exception texts are those of CPython 3.11 and later.
- Duplicate keys inside one JSON object. `json.loads` keeps the last one;
  the model's map holds one value per key.
- `CurrentPrice.GetCurrentPrice`, `LegacyPrice.LegacyGetCurrentPrice`,
  `SeriesTools.KeyedTool` and `SeriesTools.PassThroughTool` have no
  `ensures` of their own. Their behaviour is stated by the lemmas and the
  handler contracts in the table.

## Findings

| source | as written | input that shows it | evidently intended | confidence | as-written member | corrected member |
|---|---|---|---|---|---|---|
| mcp-server/src/tools.py:233-239 (same in all 21 pass-through tools) | `if data:` is outdented, so it runs after an `if status_code == 200` that is the only place `data` is assigned | any status other than 200, e.g. 500 with body `{}`: UnboundLocalError on `data` | return `{"error": "Failed to fetch data"}`, as the keyed tools do on a bad status | not executed; high | `SeriesTools.ServerErrorRaisesUnboundLocal` | `SeriesTools.HandlePassThroughIntended` |

`SeriesTools.PassThroughTool` keeps the code as written. The corrected handler
stands beside it, with its properties proved, and nothing else in the model
depends on either.
