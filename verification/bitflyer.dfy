/** The exchange tick record and the three pure helpers the candle aggregation uses
    (bitflyer/bitflyer.go): the mid price, the tick's instant and its bucket start. */
module Bitflyer {
  import opened Wrappers

  /** Instants are nanoseconds since Go's zero time, January 1 of year 1, 00:00:00 UTC. */
  type Time = int

  /** Durations are nanoseconds, as Go's time.Duration. */
  type Duration = int

  /** The instant time.Time{} denotes. */
  const ZeroTime: Time := 0

  /** A ticker message. `timestamp` is the wire timestamp after parsing it as an RFC 3339
      date-time (section 5.6 of RFC 3339): None when it does not parse. */
  datatype Ticker = Ticker(
    productCode: string,
    timestamp: Option<Time>,
    bestBid: real,
    bestAsk: real,
    volume: real)

  /** The average of the best bid and the best ask. */
  function MidPrice(t: Ticker): (p: real)
    ensures t.bestBid <= t.bestAsk ==> t.bestBid <= p <= t.bestAsk
    ensures t.bestAsk <= t.bestBid ==> t.bestAsk <= p <= t.bestBid
    ensures t.bestBid == t.bestAsk ==> p == t.bestBid
  {
    (t.bestBid + t.bestAsk) / 2.0
  }

  /** Swapping bid and ask does not move the mid price. */
  lemma MidPriceSymmetric(t: Ticker)
    ensures MidPrice(t.(bestBid := t.bestAsk, bestAsk := t.bestBid)) == MidPrice(t)
  {
  }

  /** The tick's instant; a timestamp that does not parse yields the zero time
      (the parse error is only logged). */
  function DateTime(t: Ticker): (r: Time)
    ensures t.timestamp.None? ==> r == ZeroTime
    ensures t.timestamp.Some? ==> r == t.timestamp.value
  {
    match t.timestamp
    case Some(instant) => instant
    case None => ZeroTime
  }

  /** Go's Time.Truncate: for a positive duration, the greatest multiple of d (counted from
      the zero time) not after t; a non-positive duration leaves t unchanged. */
  function Truncate(t: Time, d: Duration): (r: Time)
    ensures d <= 0 ==> r == t
    ensures d > 0 ==> r % d == 0 && r <= t < r + d
  {
    if d <= 0 then t
    else
      assert t - t % d == d * (t / d);
      MultipleHasNoRemainder(d, t / d);
      t - t % d
  }

  /** The start of the bucket of length d the tick falls in. */
  function TruncateDateTime(t: Ticker, d: Duration): (r: Time)
    ensures d > 0 ==> r % d == 0 && r <= DateTime(t) < r + d
    ensures d <= 0 ==> r == DateTime(t)
    ensures d > 0 && t.timestamp.None? ==> r == ZeroTime
  {
    Truncate(DateTime(t), d)
  }

  lemma MultiplesApart(d: int, a: int, b: int)
    requires d > 0 && a < b
    ensures d * a + d <= d * b
  {
    var k := b - a - 1;
    assert d * b == d * a + d + d * k;
  }

  lemma MultipleHasNoRemainder(d: int, q: int)
    requires d > 0
    ensures (d * q) % d == 0
  {
    var x := d * q;
    var a, m := x / d, x % d;
    assert x == d * a + m && 0 <= m < d;
    assert m == d * (q - a);
    if q - a > 0 {
      MultiplesApart(d, 0, q - a);
    } else if q - a < 0 {
      MultiplesApart(d, q - a, 0);
    }
  }

  /** Truncate's postcondition determines its result: any multiple of d in (t - d, t] is it. */
  lemma TruncateUnique(t: Time, d: Duration, r: Time)
    requires d > 0 && r % d == 0 && r <= t < r + d
    ensures r == Truncate(t, d)
  {
    var q := Truncate(t, d);
    var a, b := r / d, q / d;
    assert r == d * a && q == d * b;
    if a < b {
      MultiplesApart(d, a, b);
    } else if b < a {
      MultiplesApart(d, b, a);
    }
  }

  /** Truncating twice is truncating once. */
  lemma TruncateIdempotent(t: Time, d: Duration)
    ensures Truncate(Truncate(t, d), d) == Truncate(t, d)
  {
    if d > 0 {
      var r := Truncate(t, d);
      TruncateUnique(r, d, r);
    }
  }

  /** Every instant of a bucket truncates to the bucket start, so ticks of one bucket share a key. */
  lemma SameBucket(t: Time, u: Time, d: Duration)
    requires d > 0
    requires Truncate(t, d) <= u < Truncate(t, d) + d
    ensures Truncate(u, d) == Truncate(t, d)
  {
    TruncateUnique(u, d, Truncate(t, d));
  }
}
