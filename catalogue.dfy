/**
 * The fixed facts each tool of mcp-server/src/tools.py hard-codes: the
 * provider `function` identifier, the names of its declared arguments, and,
 * for the keyed family, the key under which the provider wraps the payload.
 * Also the query-parameter dict every such tool builds from them.
 */
module Catalogue {
  import opened Python

  /** The tools that return one sub-object of the body. */
  datatype KeyedFunction =
    | CurrencyExchangeRate
    | FxDaily
    | FxWeekly
    | FxMonthly
    | DigitalCurrencyDaily
    | DigitalCurrencyWeekly
    | DigitalCurrencyMonthly

  /** The tools that return the whole body. */
  datatype PassThroughFunction =
    | Wti | Brent | NaturalGas | Copper | Aluminum | Wheat | Corn | Cotton | Sugar | Coffee
    | AllCommodities | RealGdp | RealGdpPerCapita | TreasuryYield | FederalFundsRate | Cpi
    | Inflation | RetailSales | Durables | Unemployment | NonfarmPayroll

  function KeyedFunctionId(f: KeyedFunction): string {
    match f
    case CurrencyExchangeRate => "CURRENCY_EXCHANGE_RATE"
    case FxDaily => "FX_DAILY"
    case FxWeekly => "FX_WEEKLY"
    case FxMonthly => "FX_MONTHLY"
    case DigitalCurrencyDaily => "DIGITAL_CURRENCY_DAILY"
    case DigitalCurrencyWeekly => "DIGITAL_CURRENCY_WEEKLY"
    case DigitalCurrencyMonthly => "DIGITAL_CURRENCY_MONTHLY"
  }

  /** The body key whose value a keyed tool returns. */
  function SuccessKey(f: KeyedFunction): string {
    match f
    case CurrencyExchangeRate => "Realtime Currency Exchange Rate"
    case FxDaily => "Time Series FX (Daily)"
    case FxWeekly => "Time Series FX (Weekly)"
    case FxMonthly => "Time Series FX (Monthly)"
    case DigitalCurrencyDaily => "Time Series (Digital Currency Daily)"
    case DigitalCurrencyWeekly => "Time Series (Digital Currency Weekly)"
    case DigitalCurrencyMonthly => "Time Series (Digital Currency Monthly)"
  }

  /** A keyed tool's arguments, in declaration order; each is a `str`. */
  function KeyedArgNames(f: KeyedFunction): (names: seq<string>)
    ensures DeclaredNames(names) && |names| == 2
  {
    match f
    case CurrencyExchangeRate => ["from_currency", "to_currency"]
    case FxDaily | FxWeekly | FxMonthly => ["from_symbol", "to_symbol"]
    case _ => ["symbol", "market"]
  }

  function PassThroughFunctionId(f: PassThroughFunction): string {
    match f
    case Wti => "WTI"
    case Brent => "BRENT"
    case NaturalGas => "NATURAL_GAS"
    case Copper => "COPPER"
    case Aluminum => "ALUMINUM"
    case Wheat => "WHEAT"
    case Corn => "CORN"
    case Cotton => "COTTON"
    case Sugar => "SUGAR"
    case Coffee => "COFFEE"
    case AllCommodities => "ALL_COMMODITIES"
    case RealGdp => "REAL_GDP"
    case RealGdpPerCapita => "REAL_GDP_PER_CAPITA"
    case TreasuryYield => "TREASURY_YIELD"
    case FederalFundsRate => "FEDERAL_FUNDS_RATE"
    case Cpi => "CPI"
    case Inflation => "INFLATION"
    case RetailSales => "RETAIL_SALES"
    case Durables => "DURABLES"
    case Unemployment => "UNEMPLOYMENT"
    case NonfarmPayroll => "NONFARM_PAYROLL"
  }

  /** A pass-through tool's arguments, in declaration order; each is an `Optional[str]`. */
  function PassThroughArgNames(f: PassThroughFunction): (names: seq<string>)
    ensures DeclaredNames(names)
  {
    match f
    case TreasuryYield => ["interval", "maturity"]
    case RealGdpPerCapita | Inflation | RetailSales | Durables | Unemployment | NonfarmPayroll => []
    case _ => ["interval"]
  }

  /** The keyed tool that sends a given `function` identifier, if any. */
  function KeyedByFunctionId(id: string): Option<KeyedFunction> {
    if id == "CURRENCY_EXCHANGE_RATE" then Some(CurrencyExchangeRate)
    else if id == "FX_DAILY" then Some(FxDaily)
    else if id == "FX_WEEKLY" then Some(FxWeekly)
    else if id == "FX_MONTHLY" then Some(FxMonthly)
    else if id == "DIGITAL_CURRENCY_DAILY" then Some(DigitalCurrencyDaily)
    else if id == "DIGITAL_CURRENCY_WEEKLY" then Some(DigitalCurrencyWeekly)
    else if id == "DIGITAL_CURRENCY_MONTHLY" then Some(DigitalCurrencyMonthly)
    else None
  }

  /** The keyed tool whose payload sits under a given body key, if any. */
  function KeyedBySuccessKey(key: string): Option<KeyedFunction> {
    if key == "Realtime Currency Exchange Rate" then Some(CurrencyExchangeRate)
    else if key == "Time Series FX (Daily)" then Some(FxDaily)
    else if key == "Time Series FX (Weekly)" then Some(FxWeekly)
    else if key == "Time Series FX (Monthly)" then Some(FxMonthly)
    else if key == "Time Series (Digital Currency Daily)" then Some(DigitalCurrencyDaily)
    else if key == "Time Series (Digital Currency Weekly)" then Some(DigitalCurrencyWeekly)
    else if key == "Time Series (Digital Currency Monthly)" then Some(DigitalCurrencyMonthly)
    else None
  }

  /** The pass-through tool that sends a given `function` identifier, if any. */
  function PassThroughByFunctionId(id: string): Option<PassThroughFunction> {
    if id == "WTI" then Some(Wti)
    else if id == "BRENT" then Some(Brent)
    else if id == "NATURAL_GAS" then Some(NaturalGas)
    else if id == "COPPER" then Some(Copper)
    else if id == "ALUMINUM" then Some(Aluminum)
    else if id == "WHEAT" then Some(Wheat)
    else if id == "CORN" then Some(Corn)
    else if id == "COTTON" then Some(Cotton)
    else if id == "SUGAR" then Some(Sugar)
    else if id == "COFFEE" then Some(Coffee)
    else if id == "ALL_COMMODITIES" then Some(AllCommodities)
    else if id == "REAL_GDP" then Some(RealGdp)
    else if id == "REAL_GDP_PER_CAPITA" then Some(RealGdpPerCapita)
    else if id == "TREASURY_YIELD" then Some(TreasuryYield)
    else if id == "FEDERAL_FUNDS_RATE" then Some(FederalFundsRate)
    else if id == "CPI" then Some(Cpi)
    else if id == "INFLATION" then Some(Inflation)
    else if id == "RETAIL_SALES" then Some(RetailSales)
    else if id == "DURABLES" then Some(Durables)
    else if id == "UNEMPLOYMENT" then Some(Unemployment)
    else if id == "NONFARM_PAYROLL" then Some(NonfarmPayroll)
    else None
  }

  /** Each keyed tool is recovered from its identifier. */
  lemma KeyedIdRoundTrip(f: KeyedFunction)
    ensures KeyedByFunctionId(KeyedFunctionId(f)) == Some(f)
  {
    match f
    case CurrencyExchangeRate =>
    case FxDaily =>
    case FxWeekly =>
    case FxMonthly =>
    case DigitalCurrencyDaily =>
    case DigitalCurrencyWeekly =>
    case DigitalCurrencyMonthly =>
  }

  /** Each keyed tool is recovered from its success key. */
  lemma SuccessKeyRoundTrip(f: KeyedFunction)
    ensures KeyedBySuccessKey(SuccessKey(f)) == Some(f)
  {
    match f
    case CurrencyExchangeRate =>
    case FxDaily =>
    case FxWeekly =>
    case FxMonthly =>
    case DigitalCurrencyDaily =>
    case DigitalCurrencyWeekly =>
    case DigitalCurrencyMonthly =>
  }

  /** Each pass-through tool is recovered from its identifier, which no keyed tool uses. */
  lemma PassThroughIdRoundTrip(f: PassThroughFunction)
    ensures PassThroughByFunctionId(PassThroughFunctionId(f)) == Some(f)
    ensures KeyedByFunctionId(PassThroughFunctionId(f)) == None
  {
    match f
    case Wti =>
    case Brent =>
    case NaturalGas =>
    case Copper =>
    case Aluminum =>
    case Wheat =>
    case Corn =>
    case Cotton =>
    case Sugar =>
    case Coffee =>
    case AllCommodities =>
    case RealGdp =>
    case RealGdpPerCapita =>
    case TreasuryYield =>
    case FederalFundsRate =>
    case Cpi =>
    case Inflation =>
    case RetailSales =>
    case Durables =>
    case Unemployment =>
    case NonfarmPayroll =>
  }

  /** Hence no two tools share an identifier and no two keyed tools a success key. */
  lemma CatalogueInjective(f: KeyedFunction, g: KeyedFunction, p: PassThroughFunction, q: PassThroughFunction)
    ensures KeyedFunctionId(f) == KeyedFunctionId(g) ==> f == g
    ensures SuccessKey(f) == SuccessKey(g) ==> f == g
    ensures PassThroughFunctionId(p) == PassThroughFunctionId(q) ==> p == q
    ensures KeyedFunctionId(f) != PassThroughFunctionId(p)
  {
    KeyedIdRoundTrip(f);
    KeyedIdRoundTrip(g);
    SuccessKeyRoundTrip(f);
    SuccessKeyRoundTrip(g);
    PassThroughIdRoundTrip(p);
    PassThroughIdRoundTrip(q);
  }

  /** The names are distinct and none clashes with the two fixed parameters. */
  predicate DeclaredNames(names: seq<string>) {
    && (forall i, j :: 0 <= i < j < |names| ==> names[i] != names[j])
    && "function" !in names
    && "apikey" !in names
  }

  /** The dict entries `name: value` for the declared arguments. */
  function ArgumentEntries(names: seq<string>, args: seq<Option<string>>): (m: map<string, Option<string>>)
    requires |names| == |args| && DeclaredNames(names)
    ensures m.Keys == set n | n in names
    ensures forall i :: 0 <= i < |names| ==> m[names[i]] == args[i]
  {
    if names == [] then map[]
    else
      var rest := ArgumentEntries(names[1..], args[1..]);
      assert (set n | n in names) == (set n | n in names[1..]) + {names[0]};
      assert forall i :: 1 <= i < |names| ==> names[i] == names[1..][i - 1];
      rest[names[0] := args[0]]
  }

  /**
   * The `params` dict: `function`, then each declared argument under its own
   * name, then `apikey` (which is `None` when the key is not configured).
   */
  function QueryParams(functionId: string, names: seq<string>, args: seq<Option<string>>,
                       apikey: Option<string>): (p: map<string, Option<string>>)
    requires |names| == |args| && DeclaredNames(names)
    ensures p.Keys == {"function", "apikey"} + set n | n in names
    ensures p["function"] == Some(functionId) && p["apikey"] == apikey
    ensures forall i :: 0 <= i < |names| ==> p[names[i]] == args[i]
  {
    map["function" := Some(functionId)] + ArgumentEntries(names, args) + map["apikey" := apikey]
  }
}
