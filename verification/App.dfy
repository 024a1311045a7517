/**
 The browser script's search flow: the click handler that cleans the symbol,
 and `fetchStockData`, which asks Alpha Vantage directly and hands the three
 arrays to the chart (or shows an alert).
 */
module App {
  import opened Wrappers
  import opened JsString
  import opened Json
  import opened Series
  import opened AlphaVantage
  import Server

  const InvalidSymbolMessage := "Please enter a valid stock symbol."
  const FetchErrorMessage := "Error fetching stock data." + " Check console for details."

  /** What the user ends up seeing. */
  datatype Outcome<D> =
    | Alert(message: string)
    | Render(symbol: string, timeframe: string, charts: Charts<D>)

  /** `stockSymbolInput.value.trim().toUpperCase()`, or None when nothing is
      left after trimming. */
  function CleanSymbol(input: string): (r: Option<string>)
    ensures r.None? <==> forall k | 0 <= k < |input| :: IsWhiteSpace(input[k])
    ensures r.Some? ==>
      && |r.value| == |Trim(input)| > 0
      && !IsWhiteSpace(r.value[0]) && !IsWhiteSpace(r.value[|r.value| - 1])
      && (forall k | 0 <= k < |r.value| :: !IsLowerAscii(r.value[k]))
      && forall k | 0 <= k < |r.value| :: r.value[k] == UpperChar(Trim(input)[k])
  {
    var trimmed := Trim(input);
    var symbol := ToUpper(trimmed);
    assert |trimmed| > 0 ==> !IsWhiteSpace(trimmed[0]) && !IsWhiteSpace(trimmed[|trimmed| - 1]);
    if |symbol| == 0 then None else Some(symbol)
  }

  /** `fetchStockData`, step by step as it is written: the same request,
      series key and normalisation as the server, ending in the chart or in
      one of two alerts. */
  function FetchStockData<D>(symbol: string, timeframe: string, apiKey: string,
                             fetchJson: string -> Option<Response>,
                             parse: string -> Number, date: string -> D): (r: Outcome<D>)
    ensures match Retrieve(symbol, timeframe, apiKey, fetchJson, parse, date)
      case FetchFailed => r == Alert(FetchErrorMessage)
      case NoSeries => r == Alert(NoDataMessage(symbol, timeframe))
      case Found(c) => r == Render(symbol, timeframe, c)
  {
    var p := SelectFunction(timeframe);
    var url := QueryUrl(p, symbol, apiKey);
    match fetchJson(url)
    case None => Alert(FetchErrorMessage)
    case Some(data) =>
      var timeSeriesKey := SelectSeriesKey(p.functionName, data.keys);
      match LookupSeries(data, timeSeriesKey)
      case None => Alert(NoDataMessage(symbol, timeframe))
      case Some(timeSeries) => Render(symbol, timeframe, Normalize(timeSeries, parse, date))
  }

  /** The search button's click handler. An input that is empty after
      trimming raises the alert and fetches nothing; otherwise the cleaned
      symbol is fetched with the selected timeframe. */
  function OnSearch<D>(input: string, timeframe: string, apiKey: string,
                       fetchJson: string -> Option<Response>,
                       parse: string -> Number, date: string -> D): (r: Outcome<D>)
    ensures (forall k | 0 <= k < |input| :: IsWhiteSpace(input[k])) ==> r == Alert(InvalidSymbolMessage)
    ensures !(forall k | 0 <= k < |input| :: IsWhiteSpace(input[k])) ==>
      r == FetchStockData(ToUpper(Trim(input)), timeframe, apiKey, fetchJson, parse, date)
  {
    match CleanSymbol(input)
    case None => Alert(InvalidSymbolMessage)
    case Some(symbol) => FetchStockData(symbol, timeframe, apiKey, fetchJson, parse, date)
  }

  /** The two call sites agree: for the same symbol, timeframe, key and
      provider, the server answers 200 with exactly the arrays the browser
      renders, 400 with the same "No data found" text the browser alerts, and
      500 exactly when the browser reports a failed fetch. */
  lemma ServerMatchesBrowser<D>(symbol: string, timeframe: string, apiKey: string,
                                fetchJson: string -> Option<Response>,
                                parse: string -> Number, date: string -> D)
    requires symbol != "" && timeframe != ""
    ensures var reply := Server.StockData(map["symbol" := symbol, "timeframe" := timeframe],
                                          apiKey, fetchJson, parse, date);
      var shown := FetchStockData(symbol, timeframe, apiKey, fetchJson, parse, date);
      && (reply.status == 200 <==> shown.Render?)
      && (shown.Render? ==> reply.body == Server.ChartBody(shown.charts.candles, shown.charts.volumes, shown.charts.closes))
      && (reply.status == 500 <==> shown == Alert(FetchErrorMessage))
      && (reply.body == Server.ErrorBody(NoDataMessage(symbol, timeframe)) <==>
          shown == Alert(NoDataMessage(symbol, timeframe)))
  {
    var message := NoDataMessage(symbol, timeframe);
    assert message[0] == 'N';
    assert FetchErrorMessage[0] == 'E';
    assert Server.InternalErrorMessage[0] == 'I';
    assert message != FetchErrorMessage && message != Server.InternalErrorMessage;
  }
}
