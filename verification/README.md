# Market-IQ stock-data pipeline, modelled in Dafny

Market-IQ is a browser stock viewer with a small Express proxy. Its one
piece of real logic is the Alpha Vantage time-series normaliser, which
exists twice in nearly identical form: in the browser's `fetchStockData`
(`public/js/app.js`) and in the server's `GET /api/stock-data` route
(`server.js`). A request goes through these steps:

1. The timeframe picks the query function. `'daily'` gives
   `TIME_SERIES_DAILY`; anything else gives `TIME_SERIES_INTRADAY` with
   `&interval=<timeframe>`.
2. The response key holding the series is picked. Daily uses
   `'Time Series (Daily)'`. Intraday uses the first response key that
   contains `"Time Series"`.
3. A missing (falsy) series is an error. The browser shows an alert; the
   server answers 400 "No data found".
4. The bar keys are sorted lexicographically. For each key, one point is
   pushed onto each of three arrays: the candle `{x, y: [o, h, l, c], color}`,
   the volume `{x, y: volume, color}` and the close `{x, y: close}`. The colour
   is green exactly when `open < close`. The volume is `parseFloat(...) || 0`.

The server also rejects a missing or empty `symbol` or `timeframe` with 400.
The browser's click handler trims and upper-cases the symbol, and raises an
alert instead of fetching when nothing is left.

Modules:

- `JsString`: the default sort order on strings (`Less`, with its order
  lemmas), `includes`, `trim` and ASCII `toUpperCase`.
- `Seqs`: the `Distinct` predicate on sequences.
- `Sorting`: `sort()` modelled as an insertion sort, with permutation,
  sortedness and uniqueness of the sorted result.
- `Json`: JS objects as an `Object.keys` order plus a property map, and
  `parseFloat` results (`Number` = NaN or finite). It also has `<` and
  `|| 0` on such numbers, and the index property names of a string.
- `Series`: the normaliser itself (`Normalize`).
- `AlphaVantage`: request selection, the URL, series-key selection and
  series lookup. It also holds the shared pipeline `Retrieve`, which both
  call sites are proved to be instances of.
- `Server`: the `/api/stock-data` handler. `App`: the click handler and
  `fetchStockData`. `App.ServerMatchesBrowser` proves the two agree.

What the model keeps exactly as written:

- A missing field reads as `undefined`, and `parseFloat(undefined)` is NaN.
- NaN makes `open < close` false, so the colour is red.
- An unparseable open, high, low or close stays NaN in the arrays. Nothing
  is skipped and no error is raised. This follows the code.
- When `find` returns `undefined`, the lookup `data[undefined]` reads the
  property named `"undefined"`. `AlphaVantage.MissingKeyReadsUndefined`
  shows a response that gets through this way.
- A non-empty string stored under the series key is truthy. It is walked
  like an object with one property per index of the string, and none of
  those properties has any fields. (The model counts a string's length in
  code points; see "## Left out".)

## Model

| member | source | states |
|---|---|---|
| `JsString.LessIrreflexive` | public/js/app.js:75 | no key sorts strictly before itself |
| `JsString.LessTransitive` | public/js/app.js:75 | the sort order is transitive |
| `JsString.LessAtFirstDifference` | public/js/app.js:75 | keys that agree up to a position and differ there are ordered by their characters at that position |
| `JsString.LessTotal` | public/js/app.js:75 | any two different keys are ordered one way or the other, so sorting distinct keys gives a strict order |
| `Sorting.Sort` | public/js/app.js:75 | `sort()` returns a permutation of its input (same multiset, same length) in non-decreasing order |
| `Sorting.SortStrict` | public/js/app.js:75 | sorting pairwise-different keys gives a strictly increasing sequence |
| `Sorting.StrictlySortedUnique` | public/js/app.js:75 | two strictly increasing sequences with the same elements are equal, so the sorted key list does not depend on the sort algorithm |
| `Json.KeyCount` | public/js/app.js:75 | `Object.keys` lists every property exactly once, so its length is the number of properties |
| `Series.SortedKeys` | server.js:60 | `Object.keys(timeSeries).sort()` holds every property of the series exactly once, in strictly increasing lexicographic order |
| `Series.ColorOf` | public/js/app.js:88 | the colour is green exactly when `open < close`, so equal open and close (or a NaN) gives red |
| `Json.OrZero` | public/js/app.js:83 | `parseFloat(v) || 0` is the parsed value when it is a number, and 0 when it is NaN |
| `Series.Build` | public/js/app.js:76-96 | the loop's three arrays each have one point per key, and point i of each is built from key i's date and bar |
| `Series.Normalize` | public/js/app.js:70-96 | the three arrays have one point per key and share x at every index, with x the date of the i-th sorted key; the candle y is `[open, high, low, close]` of that bar and the close y equals candle y[3]; candle and volume share one colour, green iff open < close; the volume is the parsed `'5. volume'` or 0 |
| `Series.NormalizeIgnoresKeyOrder` | server.js:60-81 | the arrays depend only on the series' properties and values, not on the order the provider listed them in |
| `Series.NormalizeCount` | server.js:56-81 | each array's length is the number of properties of the series; an empty series, and only that, gives three empty arrays |
| `Series.NormalizeTimeAxisIncreasing` | public/js/app.js:74-78 | if the lexicographic order of the series' own keys matches the order of their dates, the candles' x values are strictly increasing |
| `Series.TwoDayExample` | public/js/app.js:75-95 | two days given newest first come out oldest first; the day with open equal to close is red, the rising day green, and both volumes are read through |
| `AlphaVantage.SelectFunction` | public/js/app.js:39-44 | `'daily'` gives `TIME_SERIES_DAILY` and an empty interval; any other timeframe gives `TIME_SERIES_INTRADAY` and `&interval=<timeframe>` |
| `AlphaVantage.SelectFunctionRoundTrip` | server.js:30-35 | the timeframe can be read back from the request parameters, so different timeframes never give the same request |
| `AlphaVantage.QueryUrl` | server.js:37 | the URL is the query endpoint, then the function and the interval, then `&symbol=<symbol>&apikey=`, then the API key |
| `AlphaVantage.FirstSeriesIndex` | server.js:47 | `find` returns the first index whose key contains "Time Series", or nothing when no key does |
| `AlphaVantage.SelectSeriesKey` | server.js:43-48 | daily uses `'Time Series (Daily)'`; intraday uses the first response key containing "Time Series", and none exactly when no key contains it |
| `AlphaVantage.LookupSeries` | server.js:50-51 | the series is absent exactly when the property is missing or is the empty string; an object of bars is returned unchanged; a non-empty string gives one empty bar per character |
| `AlphaVantage.MissingKeyReadsUndefined` | public/js/app.js:56-60 | an intraday response with no "Time Series" key but a series under the property "undefined" is accepted |
| `AlphaVantage.Retrieve` | server.js:27-81 | the request fails exactly when the fetch rejects; there is no series (and no arrays) exactly when the selected property is missing or is the empty string; otherwise each array has one point per property of the series, or per character when the property holds a string |
| `Server.StockData` | server.js:21-83 | a 400 "Missing symbol or timeframe parameter." is returned exactly when either parameter is missing or empty; otherwise 500 on a rejected fetch, 400 "No data found for symbol: … with timeframe: …" on a missing series, and 200 with exactly the normaliser's three arrays |
| `App.FetchStockData` | public/js/app.js:35-103 | the browser follows the same pipeline: it alerts on a rejected fetch, alerts "No data found…" on a missing series, and otherwise renders the normaliser's arrays for that symbol and timeframe |
| `App.CleanSymbol` | public/js/app.js:20-26 | the symbol is rejected exactly when the input is all white space; otherwise it is non-empty, has no white space at either end, has no lower-case ASCII letter, and character k is the upper-cased character k of the trimmed input |
| `App.OnSearch` | public/js/app.js:19-30 | an all-white-space input raises the "valid stock symbol" alert and its outcome does not depend on the provider at all; otherwise the outcome is that of fetching the trimmed, upper-cased symbol with the selected timeframe |
| `App.ServerMatchesBrowser` | server.js:50-83 | for the same symbol, timeframe, key and provider, the server replies 200 with the same arrays (before JSON serialisation) the browser renders, 500 exactly when the browser reports a fetch error, and the same "No data found" text the browser alerts |
| `JsString.Trim` | public/js/app.js:20 | `trim()` leaves a slice of the input with only white space outside it and none at either end; it is empty exactly when the input is all white space |
| `JsString.TrimOfUnique` | public/js/app.js:20 | at most one string satisfies that description, so it determines `trim()` completely |
| `JsString.TrimIdempotent` | public/js/app.js:20 | trimming twice is the same as trimming once |
| `JsString.ToUpper` | public/js/app.js:20 | upper-casing keeps the length, turns every lower-case ASCII letter into its capital, keeps every other character, and leaves no lower-case ASCII letter |
| `Json.IndexKeys` | server.js:60 | `Object.keys` of a string of length n is n different index names, "0" to "n-1" |
| `Json.DecimalRoundTrip` | server.js:60 | an index name reads back as its index |

## Left out

- Network calls: `fetch` and `res.json()` against Alpha Vantage are the parameter `fetchJson` (URL to decoded response, or None when the promise rejects). The Finnhub and OpenAI relays, the promise plumbing and console logging are not modelled.
- `parseFloat` is the parameter `parse` (string to NaN or a finite real). Infinities and the IEEE representation are not modelled; `<` is real comparison with NaN making it false.
- `new Date(key)` is the parameter `date`. Its dependence on the time zone is fixed per call, and the x value is otherwise opaque.
- Strings are sequences of code points, while JavaScript strings are sequences of UTF-16 code units. This affects two places. The sort compares code points, which orders differently only for characters outside the Basic Multilingual Plane against U+E000 to U+FFFF. The index walk over a string under the series key gives one index per code point, where `Object.keys` gives one per code unit, so a character outside the Basic Multilingual Plane yields one point in the model and two in the source.
- Server.StockData: the 200 body is the three arrays as handed to `res.json`, before `JSON.stringify` runs. Serialisation is not modelled: in the bytes sent, NaN prices become `null`, each date `x` becomes an ISO string, and an invalid date becomes `null`.
- `Object.keys` order is taken as given (the `keys` of a `Json.Object`). JavaScript's rule that integer-like names come first is not modelled; the series keys are sorted afterwards, and `Series.NormalizeIgnoresKeyOrder` shows their order does not matter there.
- JsString.ToUpper: maps only the ASCII letters a-z. The full Unicode case mapping of `toUpperCase` (for example "ß" to "SS") is not modelled.
- JSON values: a response property is either an object of bars or a string. Numbers, booleans, null and arrays are not modelled. The five fields of a bar are strings or absent, and a query parameter is a single string (Express can also produce arrays).
- Errors thrown inside the normalisation loop (for example a `null` bar), which the server's `catch` turns into 500, cannot arise with the types above and are not modelled.
- A malformed-record error: the code raises none. Unparseable prices stay NaN and an unparseable volume becomes 0, and the model does the same rather than skipping or rejecting such bars.
- Rendering with CanvasJS, the news cards and their date window, the chat bubbles, the typewriter animation, Express wiring, static files and `listen` are not part of this model. `fetchStockNews` is also not modelled; the click handler starts it alongside `fetchStockData`.
