/**
 * The earlier `get_current_price` of the repository's root tools.py: the
 * same intraday query, but no key check, no status check, no error-field
 * checks, no exception handling, and a Spanish message.
 */
module LegacyPrice {
  import opened Json
  import opened Python
  import opened Http
  import LexOrder
  import CurrentPrice

  const MissingSeries := "Error al obtener datos. Verifica el símbolo o tu API key."

  function LegacyQuote(symbol: string, time: string, price: string): string {
    "Precio de " + symbol + " a las " + time + " es $" + price
  }

  /** The key is interpolated as it is, so a missing key is sent as the text "None". */
  function LegacyUrl(symbol: string, apikey: Option<string>): string {
    BaseUrl + "?function=TIME_SERIES_INTRADAY&symbol=" + symbol + "&interval=5min&apikey=" + FormatOptional(apikey)
  }

  /** `requests.get(url)`: no query dict and no timeout. */
  function LegacyRequest(symbol: string, apikey: Option<string>): Request {
    Request(LegacyUrl(symbol, apikey), map[], None)
  }

  /** Everything after the request; exceptions propagate to the caller. */
  function LegacyRespond(symbol: string, exchange: Exchange): Py<string> {
    var response :- Get(exchange);
    var data := response.body;
    var present :- Contains(data, CurrentPrice.SeriesKey);
    if !present then Returns(MissingSeries)
    else
      var series :- Subscript(data, CurrentPrice.SeriesKey);
      var keys :- KeysOf(series);
      var latestTime :- LastOfSorted(keys);
      var latestPrice :- Subscript(series.fields[latestTime], CurrentPrice.CloseKey);
      Returns(LegacyQuote(symbol, latestTime, Display(latestPrice)))
  }

  function LegacyGetCurrentPrice(symbol: string, apikey: Option<string>, provider: Provider): Py<string> {
    LegacyRespond(symbol, provider(LegacyRequest(symbol, apikey)))
  }

  /** The same intraday URL as the newer variant; a missing key reads as the key "None". */
  lemma LegacyUrlIsRawConcatenation(symbol: string, apikey: Option<string>)
    ensures apikey.Some? ==> LegacyUrl(symbol, apikey) == CurrentPrice.IntradayUrl(symbol, apikey.value)
    ensures LegacyUrl(symbol, None) == LegacyUrl(symbol, Some("None"))
  {
  }

  /** The status code plays no part: only the body decides. */
  lemma StatusIsIgnored(symbol: string, r1: HttpResponse, r2: HttpResponse)
    requires r1.body == r2.body
    ensures LegacyRespond(symbol, Answered(r1)) == LegacyRespond(symbol, Answered(r2))
  {
  }

  /** Without the series key there is one message, whatever else the body says. */
  lemma MissingSeriesHidesProviderErrors(symbol: string, response: HttpResponse)
    requires response.body.JObject? && CurrentPrice.SeriesKey !in response.body.fields
    ensures LegacyRespond(symbol, Answered(response)) == Returns(MissingSeries)
  {
  }

  /**
   * On an object body that the newer variant answers with its invalid-symbol,
   * API-limit or no-data message, the legacy variant gives its one Spanish
   * message whenever the series is missing.
   */
  lemma LegacyMergesClassifiedErrors(symbol: string, response: HttpResponse)
    requires response.status < 400 && response.body.JObject?
    requires CurrentPrice.SeriesKey !in response.body.fields
    ensures CurrentPrice.Reply(symbol, Answered(response))
            in {CurrentPrice.InvalidSymbol(symbol), CurrentPrice.ApiLimitReached, CurrentPrice.NoData(symbol)}
    ensures LegacyRespond(symbol, Answered(response)) == Returns(MissingSeries)
  {
  }

  /**
   * With the series present, the legacy variant quotes it even when the body
   * also holds "Error Message", which the newer variant reports first.
   */
  lemma ErrorBesideSeriesDiverges()
    ensures var body := JObject(map["Error Message" := JString("x"),
                                    CurrentPrice.SeriesKey := JObject(map["t" := JObject(map[CurrentPrice.CloseKey := JString("1")])])]);
            var response := HttpResponse(200, "OK", BaseUrl, body);
            && CurrentPrice.Reply("S", Answered(response)) == CurrentPrice.InvalidSymbol("S")
            && LegacyRespond("S", Answered(response)) == Returns(LegacyQuote("S", "t", "1"))
  {
    var series := map["t" := JObject(map[CurrentPrice.CloseKey := JString("1")])];
    var body := JObject(map["Error Message" := JString("x"), CurrentPrice.SeriesKey := JObject(series)]);
    assert CurrentPrice.SeriesKey in body.fields && body.fields[CurrentPrice.SeriesKey] == JObject(series);
    assert series.Keys == {"t"};
    LexOrder.LexLeReflexive("t");
    LegacyQuoteIsLatestClose("S", HttpResponse(200, "OK", BaseUrl, body), series, "t");
  }

  /** On success: the greatest timestamp and its "4. close", in the Spanish sentence. */
  lemma LegacyQuoteIsLatestClose(symbol: string, response: HttpResponse, series: map<string, Json>, time: string)
    requires response.body.JObject? && CurrentPrice.SeriesKey in response.body.fields
    requires response.body.fields[CurrentPrice.SeriesKey] == JObject(series)
    requires LexOrder.IsGreatest(time, series.Keys)
    requires series[time].JObject? && CurrentPrice.CloseKey in series[time].fields
    ensures LegacyRespond(symbol, Answered(response))
         == Returns(LegacyQuote(symbol, time, Display(series[time].fields[CurrentPrice.CloseKey])))
  {
    LexOrder.GreatestUnique(series.Keys);
  }

  /** An empty series raises IndexError out of the function. */
  lemma EmptySeriesRaises(symbol: string, response: HttpResponse)
    requires response.body.JObject? && CurrentPrice.SeriesKey in response.body.fields
    requires response.body.fields[CurrentPrice.SeriesKey] == JObject(map[])
    ensures LegacyRespond(symbol, Answered(response)) == Raises(IndexError("list index out of range"))
  {
  }

  /** Where both variants succeed on the same answer they report the same time and price. */
  lemma VariantsAgreeOnQuote(symbol: string, response: HttpResponse, series: map<string, Json>, time: string)
    requires CurrentPrice.CarriesSeries(response, series)
    requires LexOrder.IsGreatest(time, series.Keys)
    requires series[time].JObject? && CurrentPrice.CloseKey in series[time].fields
    ensures var price := Display(series[time].fields[CurrentPrice.CloseKey]);
            && CurrentPrice.Reply(symbol, Answered(response)) == CurrentPrice.Quote(symbol, price, time)
            && LegacyRespond(symbol, Answered(response)) == Returns(LegacyQuote(symbol, time, price))
  {
    CurrentPrice.QuoteIsLatestClose(symbol, response, series, time);
    LegacyQuoteIsLatestClose(symbol, response, series, time);
  }
}
