/**
 The server proxy's `GET /api/stock-data` handler: checks its query
 parameters, asks Alpha Vantage, and answers with the three chart arrays or
 with an error status.
 */
module Server {
  import opened Wrappers
  import opened Json
  import opened Series
  import opened AlphaVantage

  const MissingParamsMessage := "Missing symbol or timeframe parameter."
  const InternalErrorMessage := "Internal server error"

  datatype Body<D> =
    | ErrorBody(error: string)
    | ChartBody(candlestickDP: seq<Candle<D>>, volumeDP: seq<VolumePoint<D>>, closeDP: seq<ClosePoint<D>>)

  /** The status code and JSON body sent back. */
  datatype Reply<D> = Reply(status: nat, body: Body<D>)

  /** A query parameter is usable when it is present and not the empty
      string (both `undefined` and `""` are falsy). */
  predicate HasParam(query: map<string, string>, name: string) {
    name in query && query[name] != ""
  }

  /** The handler, step by step as the route is written. A missing or empty
      `symbol` or `timeframe` is answered with 400 before anything is fetched;
      otherwise the reply follows the shared retrieval: 500 when the fetch
      rejects, 400 "No data found" when there is no series, and 200 with
      exactly the normaliser's three arrays otherwise. */
  function StockData<D>(query: map<string, string>, apiKey: string,
                        fetchJson: string -> Option<Response>,
                        parse: string -> Number, date: string -> D): (r: Reply<D>)
    ensures r == Reply(400, ErrorBody(MissingParamsMessage)) <==>
      !HasParam(query, "symbol") || !HasParam(query, "timeframe")
    ensures HasParam(query, "symbol") && HasParam(query, "timeframe") ==>
      var symbol := query["symbol"];
      var timeframe := query["timeframe"];
      match Retrieve(symbol, timeframe, apiKey, fetchJson, parse, date)
      case FetchFailed => r == Reply(500, ErrorBody(InternalErrorMessage))
      case NoSeries => r == Reply(400, ErrorBody(NoDataMessage(symbol, timeframe)))
      case Found(c) => r == Reply(200, ChartBody(c.candles, c.volumes, c.closes))
  {
    if !HasParam(query, "symbol") || !HasParam(query, "timeframe") then
      Reply(400, ErrorBody(MissingParamsMessage))
    else
      var symbol := query["symbol"];
      var timeframe := query["timeframe"];
      var p := SelectFunction(timeframe);
      var url := QueryUrl(p, symbol, apiKey);
      match fetchJson(url)
      case None => Reply(500, ErrorBody(InternalErrorMessage))
      case Some(data) =>
        var timeSeriesKey := SelectSeriesKey(p.functionName, data.keys);
        match LookupSeries(data, timeSeriesKey)
        case None => Reply(400, ErrorBody(NoDataMessage(symbol, timeframe)))
        case Some(timeSeries) =>
          var c := Normalize(timeSeries, parse, date);
          Reply(200, ChartBody(c.candles, c.volumes, c.closes))
  }
}
