/**
 The time-series normaliser: turns the object of bars under an Alpha Vantage
 "Time Series" key into the three index-aligned point arrays the chart draws
 (candlesticks, volume columns and the navigator's close line).
 */
module Series {
  import opened JsString
  import opened Sorting
  import opened Json

  /** One bar of the provider's response: field name to numeric string. */
  type Record = map<string, string>

  const OpenField := "1. open"
  const HighField := "2. high"
  const LowField := "3. low"
  const CloseField := "4. close"
  const VolumeField := "5. volume"

  /** `parseFloat(rec[name])`; an absent field reads as `undefined`, which
      `parseFloat` turns into NaN. */
  function FieldNumber(rec: Record, name: string, parse: string -> Number): Number {
    if name in rec then parse(rec[name]) else NaN
  }

  datatype Color = Green | Red {
    /** The colour string the chart receives. */
    function Name(): string {
      match this
      case Green => "green"
      case Red => "red"
    }
  }

  /** `open < close ? "green" : "red"`. */
  function ColorOf(open: Number, close: Number): (c: Color)
    ensures c == Green <==> LessThan(open, close)
  {
    if LessThan(open, close) then Green else Red
  }

  /** The parsed fields of one bar; the volume has already had `|| 0` applied. */
  datatype Bar = Bar(open: Number, high: Number, low: Number, close: Number, volume: real)

  function ReadBar(rec: Record, parse: string -> Number): Bar {
    Bar(FieldNumber(rec, OpenField, parse),
        FieldNumber(rec, HighField, parse),
        FieldNumber(rec, LowField, parse),
        FieldNumber(rec, CloseField, parse),
        OrZero(FieldNumber(rec, VolumeField, parse)))
  }

  /** `{x, y: [open, high, low, close], color}` */
  datatype Candle<D> = Candle(x: D, y: seq<Number>, color: Color)
  /** `{x, y: volume, color}` */
  datatype VolumePoint<D> = VolumePoint(x: D, y: real, color: Color)
  /** `{x, y: close}` */
  datatype ClosePoint<D> = ClosePoint(x: D, y: Number)

  /** The three arrays `candlestickDP`, `volumeDP` and `closeDP`. */
  datatype Charts<D> = Charts(candles: seq<Candle<D>>, volumes: seq<VolumePoint<D>>, closes: seq<ClosePoint<D>>)

  function CandleOf<D>(x: D, bar: Bar): Candle<D> {
    Candle(x, [bar.open, bar.high, bar.low, bar.close], ColorOf(bar.open, bar.close))
  }

  function VolumeOf<D>(x: D, bar: Bar): VolumePoint<D> {
    VolumePoint(x, bar.volume, ColorOf(bar.open, bar.close))
  }

  function CloseOf<D>(x: D, bar: Bar): ClosePoint<D> {
    ClosePoint(x, bar.close)
  }

  /** The `forEach` loop: for every key in turn, push one point onto each of
      the three arrays, all three built from the same bar and the same date. */
  function Build<D>(keys: seq<string>, values: map<string, Record>,
                    parse: string -> Number, date: string -> D): (c: Charts<D>)
    requires forall i | 0 <= i < |keys| :: keys[i] in values
    ensures |c.candles| == |keys| && |c.volumes| == |keys| && |c.closes| == |keys|
    ensures forall i | 0 <= i < |keys| ::
      var bar := ReadBar(values[keys[i]], parse);
      && c.candles[i] == CandleOf(date(keys[i]), bar)
      && c.volumes[i] == VolumeOf(date(keys[i]), bar)
      && c.closes[i] == CloseOf(date(keys[i]), bar)
    decreases |keys|
  {
    if |keys| == 0 then Charts([], [], [])
    else
      var front := Build(keys[..|keys| - 1], values, parse, date);
      var key := keys[|keys| - 1];
      var x := date(key);
      var bar := ReadBar(values[key], parse);
      Charts(front.candles + [CandleOf(x, bar)],
             front.volumes + [VolumeOf(x, bar)],
             front.closes + [CloseOf(x, bar)])
  }

  /** `Object.keys(timeSeries).sort()`: every property exactly once, in
      strictly increasing lexicographic order. */
  function SortedKeys<V>(o: JsObject<V>): (keys: seq<string>)
    ensures |keys| == |o.keys|
    ensures forall k :: k in keys <==> k in o.values
    ensures StrictlySorted(keys)
  {
    SortStrict(o.keys);
    var keys := Sort(o.keys);
    assert forall k :: k in keys <==> k in multiset(o.keys);
    keys
  }

  /** The normaliser. With `keys` the sorted property names, point `i` of
      every array comes from bar `keys[i]`; the arrays are as long as the
      object has properties; the candle is `[open, high, low, close]`; the
      close line repeats the candle's close; candle and volume share one colour,
      green exactly when open < close; and the volume is the parsed
      `'5. volume'` or 0 when it does not parse. */
  function Normalize<D>(series: JsObject<Record>, parse: string -> Number, date: string -> D): (c: Charts<D>)
    ensures |c.candles| == |series.keys| && |c.volumes| == |series.keys| && |c.closes| == |series.keys|
    ensures var keys := SortedKeys(series);
      forall i | 0 <= i < |keys| ::
        && keys[i] in series.values
        && c.candles[i].x == date(keys[i])
        && c.volumes[i].x == date(keys[i])
        && c.closes[i].x == date(keys[i])
    ensures var keys := SortedKeys(series);
      forall i | 0 <= i < |keys| :: keys[i] in series.values &&
        var rec := series.values[keys[i]];
        c.candles[i].y == [FieldNumber(rec, OpenField, parse), FieldNumber(rec, HighField, parse),
                           FieldNumber(rec, LowField, parse), FieldNumber(rec, CloseField, parse)]
    ensures forall i | 0 <= i < |c.closes| :: |c.candles[i].y| == 4 && c.closes[i].y == c.candles[i].y[3]
    ensures forall i | 0 <= i < |c.candles| ::
      && |c.candles[i].y| == 4
      && c.volumes[i].color == c.candles[i].color
      && (c.candles[i].color == Green <==> LessThan(c.candles[i].y[0], c.candles[i].y[3]))
    ensures var keys := SortedKeys(series);
      forall i | 0 <= i < |keys| :: keys[i] in series.values &&
        var v := FieldNumber(series.values[keys[i]], VolumeField, parse);
        c.volumes[i].y == (if v.Finite? then v.value else 0.0)
  {
    var keys := SortedKeys(series);
    Build(keys, series.values, parse, date)
  }

  /** The result depends only on the properties and their values, never on
      the order in which the provider listed them. */
  lemma NormalizeIgnoresKeyOrder<D>(a: JsObject<Record>, b: JsObject<Record>,
                                    parse: string -> Number, date: string -> D)
    requires a.values == b.values
    ensures Normalize(a, parse, date) == Normalize(b, parse, date)
  {
    StrictlySortedUnique(SortedKeys(a), SortedKeys(b));
  }

  /** The arrays have one point per property, and an empty series gives three
      empty arrays. */
  lemma NormalizeCount<D>(series: JsObject<Record>, parse: string -> Number, date: string -> D)
    ensures var c := Normalize(series, parse, date);
      && |c.candles| == |series.values|
      && |c.volumes| == |series.values|
      && |c.closes| == |series.values|
    ensures |series.values| == 0 <==> Normalize(series, parse, date) == Charts([], [], [])
  {
    KeyCount(series);
  }

  /** Under the format assumption that the lexicographic order of the
      series' own keys is their chronological order (`before` ordering the
      parsed dates), the time axis is strictly increasing. */
  lemma NormalizeTimeAxisIncreasing<D>(series: JsObject<Record>, parse: string -> Number,
                                       date: string -> D, before: (D, D) -> bool)
    requires forall a, b | a in series.values && b in series.values :: Less(a, b) ==> before(date(a), date(b))
    ensures var c := Normalize(series, parse, date);
      forall i, j | 0 <= i < j < |c.candles| :: before(c.candles[i].x, c.candles[j].x)
  {
    var keys := SortedKeys(series);
    assert forall i | 0 <= i < |keys| :: keys[i] in series.values;
  }

  function Bar5(o: string, h: string, l: string, c: string, v: string): Record {
    map[OpenField := o, HighField := h, LowField := l, CloseField := c, VolumeField := v]
  }

  /** Two days listed newest first; on the older one open equals close. */
  function TwoDays(): JsObject<Record> {
    var older, newer := "2024-01-01", "2024-01-02";
    assert older != newer by {
      assert older[9] != newer[9];
    }
    Object([newer, older], map[newer := Bar5("10", "12", "9", "11", "1000"),
                               older := Bar5("8", "9", "7", "8", "500")])
  }

  lemma TwoDaysSorted()
    ensures SortedKeys(TwoDays()) == ["2024-01-01", "2024-01-02"]
  {
    var older, newer := "2024-01-01", "2024-01-02";
    assert older[..9] == newer[..9];
    LessAtFirstDifference(older, newer, 9);
    StrictlySortedUnique(SortedKeys(TwoDays()), [older, newer]);
  }

  function DigitsNumber(s: string): Number {
    Finite(ParseDecimal(s) as real)
  }

  lemma DigitValues()
    ensures ParseDecimal("8") == 8 && ParseDecimal("10") == 10 && ParseDecimal("11") == 11
    ensures ParseDecimal("500") == 500 && ParseDecimal("1000") == 1000
  {
    assert "500"[..2] == "50";
    assert ParseDecimal("50") == 50;
    assert "1000"[..3] == "100" && "100"[..2] == "10";
    assert ParseDecimal("100") == 100;
  }

  lemma Bar5Fields(o: string, h: string, l: string, c: string, v: string)
    ensures var rec := Bar5(o, h, l, c, v);
      && rec[OpenField] == o && rec[CloseField] == c && rec[VolumeField] == v
  {
    assert OpenField[0] != HighField[0] && OpenField[0] != LowField[0];
    assert OpenField[0] != CloseField[0] && OpenField[0] != VolumeField[0];
    assert CloseField[0] != VolumeField[0];
  }

  /** The output runs oldest first, the day with equal open and close is
      red, the rising day is green, and the volumes are read through. */
  lemma TwoDayExample()
    ensures var c := Normalize(TwoDays(), DigitsNumber, (k: string) => k);
      && |c.candles| == 2
      && c.candles[0].x == "2024-01-01" && c.candles[1].x == "2024-01-02"
      && c.candles[0].color == Red && c.candles[1].color == Green
      && c.volumes[0].y == 500.0 && c.volumes[1].y == 1000.0
  {
    var series := TwoDays();
    var c := Normalize(series, DigitsNumber, (k: string) => k);
    TwoDaysSorted();
    DigitValues();
    var older, newer := "2024-01-01", "2024-01-02";
    var r0, r1 := series.values[older], series.values[newer];
    assert r0 == Bar5("8", "9", "7", "8", "500");
    assert r1 == Bar5("10", "12", "9", "11", "1000");
    Bar5Fields("8", "9", "7", "8", "500");
    Bar5Fields("10", "12", "9", "11", "1000");
    assert c.candles[0].y[0] == Finite(8.0) && c.candles[0].y[3] == Finite(8.0);
    assert c.candles[1].y[0] == Finite(10.0) && c.candles[1].y[3] == Finite(11.0);
  }
}
