/**
 * The dict-returning tools of mcp-server/src/tools.py. The keyed family
 * (exchange rate, FX and digital-currency series) returns one sub-object of
 * the body; the pass-through family (commodities and economic indicators)
 * returns the whole body. Neither checks the API key, and neither catches
 * exceptions (the wrappers in mcp-server/src/server.py do).
 */
module SeriesTools {
  import opened Json
  import opened Python
  import opened Http
  import opened Catalogue

  const FailedToFetch := "Failed to fetch data"
  const InvalidData := "Invalid data returned"

  /** `requests.get(url, params=params)` as a keyed tool sends it. */
  function KeyedRequest(f: KeyedFunction, args: seq<string>, apikey: Option<string>): (r: Request)
    requires |args| == |KeyedArgNames(f)|
    ensures r.url == BaseUrl && r.timeout == None
    ensures r.params.Keys == {"function", "apikey"} + set n | n in KeyedArgNames(f)
    ensures r.params["function"] == Some(KeyedFunctionId(f)) && r.params["apikey"] == apikey
    ensures forall i :: 0 <= i < |args| ==> r.params[KeyedArgNames(f)[i]] == Some(args[i])
  {
    var values := seq(|args|, i requires 0 <= i < |args| => Some(args[i]));
    Request(BaseUrl, QueryParams(KeyedFunctionId(f), KeyedArgNames(f), values, apikey), None)
  }

  /** What a keyed tool does with the provider's answer: status first, then the key. */
  function HandleKeyed(key: string, exchange: Exchange): (r: Py<Json>)
    ensures exchange.Unreachable? ==> r == Raises(RequestFailure(exchange.message))
    ensures exchange.Answered? && exchange.response.status != 200 ==> r == Returns(ErrorDict(FailedToFetch))
    ensures exchange.Answered? && exchange.response.status == 200 && exchange.response.body.JObject? ==>
              r == if key in exchange.response.body.fields then Returns(exchange.response.body.fields[key])
                   else Returns(ErrorDict(InvalidData))
    ensures exchange.Answered? && exchange.response.status == 200 && !exchange.response.body.JObject? ==>
              && (r.Raises? ==> r.exception.TypeError?)
              && (r.Returns? <==>
                    || (exchange.response.body.JArray? && JString(key) !in exchange.response.body.items)
                    || (exchange.response.body.JString? && !IsSubstring(key, exchange.response.body.s)))
              && (r.Returns? ==> r == Returns(ErrorDict(InvalidData)))
  {
    var response :- Get(exchange);
    if response.status == 200 then
      var data := response.body;
      var present :- Contains(data, key);
      if present then Subscript(data, key) else Returns(ErrorDict(InvalidData))
    else
      Returns(ErrorDict(FailedToFetch))
  }

  /** A keyed tool such as `get_fx_daily_data(from_symbol, to_symbol)`. */
  function KeyedTool(f: KeyedFunction, args: seq<string>, apikey: Option<string>, provider: Provider): Py<Json>
    requires |args| == |KeyedArgNames(f)|
  {
    HandleKeyed(SuccessKey(f), provider(KeyedRequest(f, args, apikey)))
  }

  /**
   * Every value a keyed tool returns is one of the two error dicts or the
   * value stored under its own success key in the body.
   */
  lemma KeyedResultIsPayloadOrError(f: KeyedFunction, args: seq<string>, apikey: Option<string>, provider: Provider)
    requires |args| == |KeyedArgNames(f)|
    ensures var r := KeyedTool(f, args, apikey, provider);
            var exchange := provider(KeyedRequest(f, args, apikey));
            r.Returns? ==>
              || r.value == ErrorDict(FailedToFetch)
              || r.value == ErrorDict(InvalidData)
              || (&& exchange.Answered?
                  && exchange.response.status == 200
                  && exchange.response.body.JObject?
                  && SuccessKey(f) in exchange.response.body.fields
                  && r.value == exchange.response.body.fields[SuccessKey(f)])
  {
  }

  /** A keyed tool makes exactly one request, the one `KeyedRequest` describes. */
  lemma KeyedToolDependsOnOneRequest(f: KeyedFunction, args: seq<string>, apikey: Option<string>,
                                     p1: Provider, p2: Provider)
    requires |args| == |KeyedArgNames(f)|
    requires p1(KeyedRequest(f, args, apikey)) == p2(KeyedRequest(f, args, apikey))
    ensures KeyedTool(f, args, apikey, p1) == KeyedTool(f, args, apikey, p2)
  {
  }

  /** A pass-through tool's request: only `function`, its declared arguments and `apikey`. */
  function PassThroughRequest(f: PassThroughFunction, args: seq<Option<string>>, apikey: Option<string>): (r: Request)
    requires |args| == |PassThroughArgNames(f)|
    ensures r.url == BaseUrl && r.timeout == None
    ensures r.params.Keys == {"function", "apikey"} + set n | n in PassThroughArgNames(f)
    ensures r.params["function"] == Some(PassThroughFunctionId(f)) && r.params["apikey"] == apikey
    ensures forall i :: 0 <= i < |args| ==> r.params[PassThroughArgNames(f)[i]] == args[i]
  {
    Request(BaseUrl, QueryParams(PassThroughFunctionId(f), PassThroughArgNames(f), args, apikey), None)
  }

  /**
   * What a pass-through tool does with the provider's answer, as written:
   * `data` is assigned only under `status_code == 200`, but read afterwards
   * in every case.
   */
  function HandlePassThrough(exchange: Exchange): (r: Py<Json>)
    ensures exchange.Unreachable? ==> r == Raises(RequestFailure(exchange.message))
    ensures exchange.Answered? && exchange.response.status == 200 ==>
              r == if Truthy(exchange.response.body) then Returns(exchange.response.body)
                   else Returns(ErrorDict(FailedToFetch))
    ensures exchange.Answered? && exchange.response.status != 200 ==> r == Raises(UnboundLocalError("data"))
  {
    var response :- Get(exchange);
    if response.status == 200 then
      var data := response.body;
      if Truthy(data) then Returns(data) else Returns(ErrorDict(FailedToFetch))
    else
      Raises(UnboundLocalError("data"))
  }

  /** A pass-through tool such as `get_real_gdp(interval)`. */
  function PassThroughTool(f: PassThroughFunction, args: seq<Option<string>>, apikey: Option<string>,
                           provider: Provider): Py<Json>
    requires |args| == |PassThroughArgNames(f)|
  {
    HandlePassThrough(provider(PassThroughRequest(f, args, apikey)))
  }

  /** An empty object counts as no data even under status 200. */
  lemma EmptyBodyIsFailedFetch(response: HttpResponse)
    requires response.status == 200 && response.body == JObject(map[])
    ensures HandlePassThrough(Answered(response)) == Returns(ErrorDict(FailedToFetch))
  {
  }

  /** A non-empty object body, error fields included, is returned untouched. */
  lemma NonEmptyBodyPassesThrough(response: HttpResponse)
    requires response.status == 200 && response.body.JObject? && response.body.fields != map[]
    ensures HandlePassThrough(Answered(response)) == Returns(response.body)
  {
  }

  /** A pass-through tool raises on any status other than 200, whatever the body. */
  lemma PassThroughRaisesOnBadStatus(f: PassThroughFunction, args: seq<Option<string>>,
                                     apikey: Option<string>, provider: Provider)
    requires |args| == |PassThroughArgNames(f)|
    requires provider(PassThroughRequest(f, args, apikey)).Answered?
    requires provider(PassThroughRequest(f, args, apikey)).response.status != 200
    ensures PassThroughTool(f, args, apikey, provider).Raises?
  {
  }

  /** A concrete answer on which the pass-through handler raises. */
  lemma ServerErrorRaisesUnboundLocal()
    ensures HandlePassThrough(Answered(HttpResponse(500, "Internal Server Error", BaseUrl, JObject(map[]))))
         == Raises(UnboundLocalError("data"))
  {
  }

  /**
   * The pass-through handler as evidently intended: the truthiness test
   * inside the status check, a bad status answered with the same error dict
   * the keyed family uses.
   */
  function HandlePassThroughIntended(exchange: Exchange): (r: Py<Json>)
    ensures exchange.Answered? ==> r.Returns?
    ensures exchange.Answered? && exchange.response.status != 200 ==> r == Returns(ErrorDict(FailedToFetch))
    ensures exchange.Answered? && exchange.response.status == 200 ==> r == HandlePassThrough(exchange)
  {
    var response :- Get(exchange);
    if response.status == 200 && Truthy(response.body) then Returns(response.body)
    else Returns(ErrorDict(FailedToFetch))
  }

  /** The corrected handler agrees with the keyed family on every failed status. */
  lemma IntendedMatchesKeyedOnBadStatus(key: string, exchange: Exchange)
    requires exchange.Answered? && exchange.response.status != 200
    ensures HandlePassThroughIntended(exchange) == HandleKeyed(key, exchange)
  {
  }
}
