/**
 The Alpha Vantage side of a stock-data request, shared word for word by the
 browser and the server: choosing the query function from the timeframe,
 building the query URL, choosing the response key that holds the series,
 and reading the series out of the response.
 */
module AlphaVantage {
  import opened Wrappers
  import opened JsString
  import opened Json
  import opened Series

  const DailyTimeframe := "daily"
  const DailyFunction := "TIME_SERIES_DAILY"
  const IntradayFunction := "TIME_SERIES_INTRADAY"
  const IntervalPrefix := "&interval="
  const DailySeriesKey := "Time Series (Daily)"
  const SeriesMarker := "Time Series"
  const Endpoint := "https://www.alphavantage.co/query?function="

  /** A property value of the response object: an object of bars, or a
      string (the provider's "Information" and "Note" messages). */
  datatype Field = Bars(bars: JsObject<Record>) | Text(text: string)

  type Response = JsObject<Field>

  /** `functionName` and `intervalParam` of a request. */
  datatype RequestParams = RequestParams(functionName: string, interval: string)

  /** `'daily'` asks for the daily series with no interval; every other
      timeframe asks for the intraday series at that interval. */
  function SelectFunction(timeframe: string): (p: RequestParams)
    ensures timeframe == DailyTimeframe ==> p.functionName == DailyFunction && p.interval == ""
    ensures timeframe != DailyTimeframe ==>
      p.functionName == IntradayFunction && p.interval == IntervalPrefix + timeframe
  {
    if timeframe == DailyTimeframe then RequestParams(DailyFunction, "")
    else RequestParams(IntradayFunction, IntervalPrefix + timeframe)
  }

  /** Recovers the timeframe a request was made for. */
  function TimeframeOf(p: RequestParams): string {
    if p.functionName == DailyFunction then DailyTimeframe
    else if |p.interval| >= |IntervalPrefix| then p.interval[|IntervalPrefix|..]
    else p.interval
  }

  /** The request parameters lose nothing: the timeframe can be read back,
      so different timeframes give different requests. */
  lemma SelectFunctionRoundTrip(timeframe: string)
    ensures TimeframeOf(SelectFunction(timeframe)) == timeframe
  {
  }

  /** The query URL: the endpoint and function, then the interval, the
      symbol and the key. */
  function QueryUrl(p: RequestParams, symbol: string, apiKey: string): (url: string)
    ensures |url| >= |Endpoint| + |p.functionName| + |p.interval| + |apiKey|
    ensures url[..|Endpoint|] == Endpoint
    ensures url[|Endpoint|..|Endpoint| + |p.functionName| + |p.interval|] == p.functionName + p.interval
    ensures url[|Endpoint| + |p.functionName| + |p.interval|..|url| - |apiKey|] == "&symbol=" + symbol + "&apikey="
    ensures url[|url| - |apiKey|..] == apiKey
  {
    Endpoint + p.functionName + p.interval + "&symbol=" + symbol + "&apikey=" + apiKey
  }

  predicate IsSeriesKey(key: string) {
    Contains(key, SeriesMarker)
  }

  /** The `find` callback run over `keys[from..]`: the first index whose key
      contains "Time Series", if any. */
  function FirstSeriesIndex(keys: seq<string>, from: nat): (r: Option<nat>)
    requires from <= |keys|
    ensures r.Some? ==> from <= r.value < |keys| && IsSeriesKey(keys[r.value])
    ensures r.Some? ==> forall j | from <= j < r.value :: !IsSeriesKey(keys[j])
    ensures r.None? ==> forall j | from <= j < |keys| :: !IsSeriesKey(keys[j])
    decreases |keys| - from
  {
    if from == |keys| then None
    else if IsSeriesKey(keys[from]) then Some(from)
    else FirstSeriesIndex(keys, from + 1)
  }

  /** The key holding the series: the fixed daily key for a daily request,
      otherwise the first response key, in enumeration order, that contains
      "Time Series" (None when there is none). */
  function SelectSeriesKey(functionName: string, keys: seq<string>): (r: Option<string>)
    ensures functionName == DailyFunction ==> r == Some(DailySeriesKey)
    ensures functionName != DailyFunction ==>
      (r.None? <==> forall j | 0 <= j < |keys| :: !IsSeriesKey(keys[j]))
    ensures functionName != DailyFunction && r.Some? ==>
      exists i | 0 <= i < |keys| :: keys[i] == r.value && FirstSeriesKeyAt(keys, i)
  {
    if functionName == DailyFunction then Some(DailySeriesKey)
    else
      match FirstSeriesIndex(keys, 0)
      case None => None
      case Some(i) =>
        assert FirstSeriesKeyAt(keys, i);
        Some(keys[i])
  }

  /** `keys[i]` is the first key that contains "Time Series". */
  predicate FirstSeriesKeyAt(keys: seq<string>, i: nat)
    requires i < |keys|
  {
    IsSeriesKey(keys[i]) && forall j | 0 <= j < i :: !IsSeriesKey(keys[j])
  }

  /** The property name `data[timeSeriesKey]` reads: a missing key is
      `undefined`, which becomes the property name "undefined". */
  function PropertyName(key: Option<string>): string {
    key.GetOr("undefined")
  }

  /** `data[timeSeriesKey]` followed by the `!timeSeries` test. An absent
      property and the empty string are falsy and give None; an object of bars
      is the series; a non-empty string is walked like an object, one
      property per character index, each with no fields. */
  function LookupSeries(data: Response, key: Option<string>): (r: Option<JsObject<Record>>)
    ensures r.None? <==>
      PropertyName(key) !in data.values || data.values[PropertyName(key)] == Text("")
    ensures PropertyName(key) in data.values && data.values[PropertyName(key)].Bars? ==>
      r == Some(data.values[PropertyName(key)].bars)
    ensures PropertyName(key) in data.values && data.values[PropertyName(key)].Text? && r.Some? ==>
      |r.value.keys| == |data.values[PropertyName(key)].text|
      && forall k | k in r.value.values :: r.value.values[k] == map[]
  {
    var name := PropertyName(key);
    if name !in data.values then None
    else
      match data.values[name]
      case Bars(bars) => Some(bars)
      case Text(s) => if |s| == 0 then None else Some(IndexObject(|s|, map[]))
  }

  /** What a stock-data request comes to once the provider has been asked. */
  datatype Outcome<D> =
    | FetchFailed            // the request or the JSON decoding rejected
    | NoSeries               // the response holds no series under the chosen key
    | Found(charts: Charts<D>)

  /** The part both call sites share: from timeframe to request, request to
      response, response to series, series to the three arrays. `fetchJson`
      stands for `fetch(url).then(res => res.json())`: None when it rejects.
      The request fails exactly when the fetch rejects; there is no series
      exactly when the selected property is missing or the empty string; and
      otherwise each array has one point per property of the series (per
      character, when the property holds a string). */
  function Retrieve<D>(symbol: string, timeframe: string, apiKey: string,
                       fetchJson: string -> Option<Response>,
                       parse: string -> Number, date: string -> D): (r: Outcome<D>)
    ensures r.FetchFailed? <==> fetchJson(QueryUrl(SelectFunction(timeframe), symbol, apiKey)).None?
    ensures var p := SelectFunction(timeframe);
      fetchJson(QueryUrl(p, symbol, apiKey)).Some? ==>
        var data := fetchJson(QueryUrl(p, symbol, apiKey)).value;
        var name := PropertyName(SelectSeriesKey(p.functionName, data.keys));
        && (r.NoSeries? <==> name !in data.values || data.values[name] == Text(""))
        && (r.Found? && data.values[name].Bars? ==>
              && |r.charts.candles| == |data.values[name].bars.values|
              && |r.charts.volumes| == |data.values[name].bars.values|
              && |r.charts.closes| == |data.values[name].bars.values|)
        && (r.Found? && data.values[name].Text? ==>
              && |r.charts.candles| == |data.values[name].text|
              && |r.charts.volumes| == |data.values[name].text|
              && |r.charts.closes| == |data.values[name].text|)
  {
    var p := SelectFunction(timeframe);
    match fetchJson(QueryUrl(p, symbol, apiKey))
    case None => FetchFailed
    case Some(data) =>
      var series := LookupSeries(data, SelectSeriesKey(p.functionName, data.keys));
      if series.None? then NoSeries
      else
        NormalizeCount(series.value, parse, date);
        Found(Normalize(series.value, parse, date))
  }

  /** `No data found for symbol: ${symbol} with timeframe: ${timeframe}` */
  function NoDataMessage(symbol: string, timeframe: string): string {
    "No data found for symbol: " + symbol + " with timeframe: " + timeframe
  }

  /** An intraday response without any "Time Series" key is not necessarily
      rejected: the lookup falls back to a property literally named
      "undefined", and a series stored there is used. */
  lemma MissingKeyReadsUndefined(bars: JsObject<Record>)
    ensures var data: Response := Object(["undefined"], map["undefined" := Bars(bars)]);
      && SelectSeriesKey(IntradayFunction, data.keys) == None
      && LookupSeries(data, SelectSeriesKey(IntradayFunction, data.keys)) == Some(bars)
  {
  }
}
