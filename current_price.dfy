/**
 * `get_current_price` of mcp-server/src/tools.py: the latest 5-minute close
 * of a stock symbol, always returned as a string. Failures are reported in
 * the returned text; nothing escapes the function.
 */
module CurrentPrice {
  import opened Json
  import opened Python
  import opened Http
  import LexOrder

  const SeriesKey := "Time Series (5min)"
  const CloseKey := "4. close"
  const KeyNotConfigured := "Error: ALPHA_VANTAGE_API_KEY not configured"
  const ApiLimitReached := "Error: API limit reached. Try again later."

  function InvalidSymbol(symbol: string): string {
    "Error: Symbol " + symbol + " is not valid"
  }

  function NoData(symbol: string): string {
    "Error: Could not get data for " + symbol
  }

  function Quote(symbol: string, price: string, time: string): string {
    symbol + ": $" + price + " (updated: " + time + ")"
  }

  /** The query is written into the URL by plain interpolation, without encoding. */
  function IntradayUrl(symbol: string, apikey: string): string {
    BaseUrl + "?function=TIME_SERIES_INTRADAY&symbol=" + symbol + "&interval=5min&apikey=" + apikey
  }

  function IntradayRequest(symbol: string, apikey: string): Request {
    Request(IntradayUrl(symbol, apikey), map[], Some(10))
  }

  /** The body of the `try` block, from `requests.get` on. */
  function Attempt(symbol: string, exchange: Exchange): Py<string> {
    var fetched :- Get(exchange);
    var response :- RaiseForStatus(fetched);
    var data := response.body;
    var hasError :- Contains(data, "Error Message");
    if hasError then Returns(InvalidSymbol(symbol))
    else
      // `data` has passed one `in` test, so the next two cannot raise.
      match Contains(data, "Note")
      case Raises(e) => Raises(e)
      case Returns(hasNote) =>
        if hasNote then Returns(ApiLimitReached)
        else
          match Contains(data, SeriesKey)
          case Raises(e) => Raises(e)
          case Returns(hasSeries) =>
            if !hasSeries then Returns(NoData(symbol))
            else
              var series :- Subscript(data, SeriesKey);
              var keys :- KeysOf(series);
              var latestTime :- LastOfSorted(keys);
              var latestData := series.fields[latestTime];
              var latestPrice :- Subscript(latestData, CloseKey);
              Returns(Quote(symbol, Display(latestPrice), latestTime))
  }

  /** The `try`/`except` around `Attempt`: every exception becomes a message. */
  function Reply(symbol: string, exchange: Exchange): string {
    match Attempt(symbol, exchange)
    case Returns(text) => text
    case Raises(e) =>
      if e.IsRequestException() then "Connection error: " + e.Str()
      else "Data processing error: " + e.Str()
  }

  /** `get_current_price(symbol)` with the configured key and the provider as arguments. */
  function GetCurrentPrice(symbol: string, apikey: Option<string>, provider: Provider): string {
    if apikey.None? || apikey.value == "" then KeyNotConfigured
    else Reply(symbol, provider(IntradayRequest(symbol, apikey.value)))
  }

  /** Without a key the answer is fixed, whatever the provider would have said. */
  lemma MissingKeyBuildsNoRequest(symbol: string, apikey: Option<string>, provider: Provider)
    requires apikey == None || apikey == Some("")
    ensures GetCurrentPrice(symbol, apikey, provider) == KeyNotConfigured
  {
  }

  /** With a key, exactly one request is made: the intraday URL with a 10-second timeout. */
  lemma KeyedCallDependsOnOneRequest(symbol: string, apikey: string, p1: Provider, p2: Provider)
    requires apikey != ""
    requires p1(IntradayRequest(symbol, apikey)) == p2(IntradayRequest(symbol, apikey))
    ensures GetCurrentPrice(symbol, Some(apikey), p1) == GetCurrentPrice(symbol, Some(apikey), p2)
    ensures IntradayRequest(symbol, apikey).timeout == Some(10)
  {
  }

  /** A provider that cannot be reached is reported as a connection error. */
  lemma UnreachableIsConnectionError(symbol: string, message: string)
    ensures Reply(symbol, Unreachable(message)) == "Connection error: " + message
  {
  }

  /** A 4xx or 5xx status is reported before the body is looked at. */
  lemma HttpErrorStatusIsConnectionError(symbol: string, response: HttpResponse)
    requires 400 <= response.status < 600
    ensures Reply(symbol, Answered(response))
         == "Connection error: " + HTTPError(response.status, response.reason, response.url).Str()
  {
  }

  /** A status that `raise_for_status` lets through, with an object body. */
  predicate Inspected(response: HttpResponse) {
    (response.status < 400 || 600 <= response.status) && response.body.JObject?
  }

  /** "Error Message" wins over "Note" and over a present series. */
  lemma ErrorMessageComesFirst(symbol: string, response: HttpResponse)
    requires Inspected(response) && "Error Message" in response.body.fields
    ensures Reply(symbol, Answered(response)) == InvalidSymbol(symbol)
  {
  }

  /** "Note" wins over a present series. */
  lemma NoteComesSecond(symbol: string, response: HttpResponse)
    requires Inspected(response)
    requires "Error Message" !in response.body.fields && "Note" in response.body.fields
    ensures Reply(symbol, Answered(response)) == ApiLimitReached
  {
  }

  lemma MissingSeriesComesThird(symbol: string, response: HttpResponse)
    requires Inspected(response)
    requires "Error Message" !in response.body.fields && "Note" !in response.body.fields
    requires SeriesKey !in response.body.fields
    ensures Reply(symbol, Answered(response)) == NoData(symbol)
  {
  }

  /** The series a classified-as-data response carries. */
  predicate CarriesSeries(response: HttpResponse, series: map<string, Json>) {
    && Inspected(response)
    && "Error Message" !in response.body.fields
    && "Note" !in response.body.fields
    && SeriesKey in response.body.fields
    && response.body.fields[SeriesKey] == JObject(series)
  }

  /**
   * On success the timestamp reported is the greatest key of the series in
   * Python's string order, and the price is that entry's "4. close".
   */
  lemma QuoteIsLatestClose(symbol: string, response: HttpResponse, series: map<string, Json>, time: string)
    requires CarriesSeries(response, series)
    requires LexOrder.IsGreatest(time, series.Keys)
    requires series[time].JObject? && CloseKey in series[time].fields
    ensures Reply(symbol, Answered(response)) == Quote(symbol, Display(series[time].fields[CloseKey]), time)
  {
    LexOrder.GreatestUnique(series.Keys);
  }

  /** An empty series fails in `sorted(...)[-1]`. */
  lemma EmptySeriesIsProcessingError(symbol: string, response: HttpResponse)
    requires CarriesSeries(response, map[])
    ensures Reply(symbol, Answered(response)) == "Data processing error: list index out of range"
  {
  }

  /**
   * A latest entry that is not an object holding "4. close" never gives a
   * quote; for an object entry the text names the missing key.
   */
  lemma MissingCloseIsProcessingError(symbol: string, response: HttpResponse, series: map<string, Json>, time: string)
    requires CarriesSeries(response, series)
    requires LexOrder.IsGreatest(time, series.Keys)
    requires !(series[time].JObject? && CloseKey in series[time].fields)
    ensures "Data processing error: " <= Reply(symbol, Answered(response))
    ensures series[time].JObject? ==> Reply(symbol, Answered(response)) == "Data processing error: '4. close'"
  {
    LexOrder.GreatestUnique(series.Keys);
  }

  /** The unencoded URL cannot tell some symbol/key pairs apart. */
  lemma UrlIsNotEncoded()
    ensures IntradayUrl("A&interval=5min&apikey=B", "C") == IntradayUrl("A", "B&interval=5min&apikey=C")
  {
  }
}
