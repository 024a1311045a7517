/**
 The JavaScript values the normaliser touches: plain objects (an enumeration
 order over distinct property names, plus the value of each property) and
 numbers as `parseFloat` produces them (NaN or a finite value).
 */
module Json {
  import opened Seqs

  /** A plain object: `keys` is the order `Object.keys` reports, `values` holds
      the property values. */
  datatype Object<V> = Object(keys: seq<string>, values: map<string, V>) {
    predicate Valid() {
      && Distinct(keys)
      && (forall i | 0 <= i < |keys| :: keys[i] in values)
      && (forall k | k in values :: k in keys)
    }
  }

  type JsObject<V> = o: Object<V> | o.Valid() witness Object([], map[])

  /** Every property is listed exactly once, so an object has as many
      entries in `Object.keys` as it has properties. */
  lemma {:induction false} KeyCount<V>(o: JsObject<V>)
    ensures |o.values| == |o.keys|
  {
    DistinctSetSize(o.keys);
    assert o.values.Keys == set k | k in o.keys;
  }

  lemma {:induction false} DistinctSetSize(s: seq<string>)
    requires Distinct(s)
    ensures |set k | k in s| == |s|
    decreases |s|
  {
    if |s| > 0 {
      var t := s[1..];
      assert Distinct(t);
      DistinctSetSize(t);
      assert (set k | k in s) == {s[0]} + (set k | k in t) by {
        assert s == [s[0]] + t;
      }
      assert s[0] !in t;
    }
  }

  /** A `parseFloat` result: NaN or a finite value. */
  datatype Number = NaN | Finite(value: real)

  /** The relational operator `a < b`: false whenever either side is NaN. */
  predicate LessThan(a: Number, b: Number) {
    a.Finite? && b.Finite? && a.value < b.value
  }

  /** The expression `n || 0`: NaN and zero are falsy and give 0, any other
      number is kept. */
  function OrZero(n: Number): (r: real)
    ensures n.Finite? ==> r == n.value
    ensures n.NaN? ==> r == 0.0
  {
    if n.Finite? && n.value != 0.0 then n.value else 0.0
  }

  function DigitChar(d: nat): char
    requires d < 10
  {
    ('0' as int + d) as char
  }

  /** The canonical decimal spelling of `n`, as an array index property name. */
  function Decimal(n: nat): (r: string)
    ensures |r| > 0
    decreases n
  {
    if n < 10 then [DigitChar(n)] else Decimal(n / 10) + [DigitChar(n % 10)]
  }

  function DigitValue(c: char): int {
    c as int - '0' as int
  }

  /** Reads a string of decimal digits back into a number. */
  function ParseDecimal(s: string): int {
    if |s| == 0 then 0 else ParseDecimal(s[..|s| - 1]) * 10 + DigitValue(s[|s| - 1])
  }

  lemma {:induction false} DecimalRoundTrip(n: nat)
    ensures ParseDecimal(Decimal(n)) == n
    decreases n
  {
    if n >= 10 {
      var s := Decimal(n);
      assert s[..|s| - 1] == Decimal(n / 10);
      DecimalRoundTrip(n / 10);
    }
  }

  /** The property names `Object.keys` reports for a string of length `n`:
      "0", "1", ..., one per character, all different. */
  function IndexKeys(n: nat): (r: seq<string>)
    ensures |r| == n
    ensures forall i | 0 <= i < n :: r[i] == Decimal(i)
    ensures Distinct(r)
  {
    var r := seq(n, i requires 0 <= i => Decimal(i));
    assert Distinct(r) by {
      forall i, j | 0 <= i < j < n
        ensures r[i] != r[j]
      {
        DecimalRoundTrip(i);
        DecimalRoundTrip(j);
      }
    }
    r
  }

  /** The object whose properties are the indices of a string of length `n`,
      each holding `v`. */
  function IndexObject<V>(n: nat, v: V): (o: JsObject<V>)
    ensures o.keys == IndexKeys(n)
    ensures forall k | k in o.values :: o.values[k] == v
  {
    var keys := IndexKeys(n);
    Object(keys, map k | k in keys :: v)
  }
}
