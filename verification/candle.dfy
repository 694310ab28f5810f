/** Tick-to-candle aggregation (app/models/candle.go): the upsert CreateCandleWithDuration
    performs against the candle table of one product code and duration. */
module Candles {
  import opened Bitflyer
  import Series

  datatype Candle = Candle(
    productCode: string,
    duration: Duration,
    time: Time,
    open: real,
    close: real,
    high: real,
    low: real,
    volume: real)

  function NewCandle(productCode: string, duration: Duration, time: Time,
                     open: real, close: real, high: real, low: real, volume: real): (c: Candle)
    ensures low <= open <= high && low <= close <= high ==> Sane(c)
    ensures open == close == high == low ==> Sane(c)
    ensures c.time == time && c.volume == volume
  {
    Candle(productCode, duration, time, open, close, high, low, volume)
  }

  /** The rows of one candle table (one product code and duration), keyed by bar start;
      this map replaces the relational table GetCandle reads and Create/Save write. */
  type CandleTable = map<Time, Candle>

  /** Open and close lie within the bar's low..high range. */
  predicate Sane(c: Candle)
  {
    c.low <= c.open <= c.high && c.low <= c.close <= c.high
  }

  predicate AllSane(table: CandleTable)
  {
    forall k :: k in table ==> Sane(table[k])
  }

  /** The in-place update of an existing candle by a tick at `price`: the if / else-if on
      high and low, then volume and close. */
  function Update(c: Candle, price: real, volume: real): (u: Candle)
    ensures u.productCode == c.productCode && u.duration == c.duration
    ensures u.time == c.time && u.open == c.open
    ensures u.close == price && u.volume == c.volume + volume
    ensures c.low <= c.high ==> u.high == Series.Max(c.high, price) && u.low == Series.Min(c.low, price)
    ensures Sane(c) ==> Sane(u)
  {
    var c' := if c.high <= price then c.(high := price)
              else if c.low >= price then c.(low := price)
              else c;
    c'.(volume := c'.volume + volume, close := price)
  }

  /** Whether a new candle was created, and the table after the upsert. */
  datatype Ingested = Ingested(created: bool, table: CandleTable)

  function CreateCandleWithDuration(table: CandleTable, ticker: Ticker, productCode: string,
                                    duration: Duration): (r: Ingested)
    ensures r.created <==> TruncateDateTime(ticker, duration) !in table
    ensures r.table.Keys == table.Keys + {TruncateDateTime(ticker, duration)}
    ensures forall k :: k in table && k != TruncateDateTime(ticker, duration) ==> r.table[k] == table[k]
    ensures r.created ==>
      var p := MidPrice(ticker);
      r.table[TruncateDateTime(ticker, duration)]
        == Candle(productCode, duration, TruncateDateTime(ticker, duration), p, p, p, p, ticker.volume)
    ensures !r.created ==>
      r.table[TruncateDateTime(ticker, duration)]
        == Update(table[TruncateDateTime(ticker, duration)], MidPrice(ticker), ticker.volume)
    ensures AllSane(table) ==> AllSane(r.table)
  {
    var key := TruncateDateTime(ticker, duration);
    var price := MidPrice(ticker);
    if key !in table then
      Ingested(true, table[key := NewCandle(productCode, duration, key, price, price, price, price, ticker.volume)])
    else
      Ingested(false, table[key := Update(table[key], price, ticker.volume)])
  }

  /** The table after feeding the ticks one by one, oldest first. */
  function IngestAll(table: CandleTable, ticks: seq<Ticker>, productCode: string, duration: Duration): (r: CandleTable)
    ensures r.Keys == table.Keys + Buckets(ticks, duration)
    ensures forall k :: k in table && k !in Buckets(ticks, duration) ==> r[k] == table[k]
    ensures AllSane(table) ==> AllSane(r)
  {
    if |ticks| == 0 then table
    else
      assert Buckets(ticks, duration)
             == Buckets(ticks[..|ticks| - 1], duration) + {TruncateDateTime(ticks[|ticks| - 1], duration)};
      CreateCandleWithDuration(IngestAll(table, ticks[..|ticks| - 1], productCode, duration),
                               ticks[|ticks| - 1], productCode, duration).table
  }

  /** The bar starts the ticks fall in. */
  function Buckets(ticks: seq<Ticker>, duration: Duration): set<Time>
  {
    set k | 0 <= k < |ticks| :: TruncateDateTime(ticks[k], duration)
  }

  /** The mid prices of the ticks, in order. */
  function Mids(ticks: seq<Ticker>): (r: seq<real>)
    ensures |r| == |ticks|
  {
    if |ticks| == 0 then [] else Mids(ticks[..|ticks| - 1]) + [MidPrice(ticks[|ticks| - 1])]
  }

  /** The volumes of the ticks, in order. */
  function Volumes(ticks: seq<Ticker>): (r: seq<real>)
    ensures |r| == |ticks|
  {
    if |ticks| == 0 then [] else Volumes(ticks[..|ticks| - 1]) + [ticks[|ticks| - 1].volume]
  }

  /** Ticks that all fall in one new bar aggregate into one candle: open is the first mid
      price, close the last, high the greatest, low the least, volume the sum of volumes. */
  lemma {:induction false} OneBarAggregates(table: CandleTable, ticks: seq<Ticker>, productCode: string,
                                            duration: Duration)
    requires |ticks| > 0
    requires forall i :: 0 <= i < |ticks| ==> TruncateDateTime(ticks[i], duration) == TruncateDateTime(ticks[0], duration)
    requires TruncateDateTime(ticks[0], duration) !in table
    ensures TruncateDateTime(ticks[0], duration) in IngestAll(table, ticks, productCode, duration)
    ensures
      var c := IngestAll(table, ticks, productCode, duration)[TruncateDateTime(ticks[0], duration)];
      && c.productCode == productCode && c.duration == duration
      && c.time == TruncateDateTime(ticks[0], duration)
      && c.open == MidPrice(ticks[0])
      && c.close == MidPrice(ticks[|ticks| - 1])
      && c.high == Series.SeqMax(Mids(ticks))
      && c.low == Series.SeqMin(Mids(ticks))
      && c.volume == Series.Sum(Volumes(ticks))
      && Sane(c)
  {
    var key := TruncateDateTime(ticks[0], duration);
    var n := |ticks|;
    if n == 1 {
      assert ticks[..0] == [];
      Series.SumExtend([], ticks[0].volume);
    } else {
      var prefix := ticks[..n - 1];
      assert prefix[0] == ticks[0];
      assert forall i :: 0 <= i < |prefix| ==> prefix[i] == ticks[i];
      OneBarAggregates(table, prefix, productCode, duration);
      var before := IngestAll(table, prefix, productCode, duration);
      var last := ticks[n - 1];
      assert TruncateDateTime(last, duration) == key;
      assert IngestAll(table, ticks, productCode, duration)
          == CreateCandleWithDuration(before, last, productCode, duration).table;
      UpdateExtends(before[key], Mids(prefix), Volumes(prefix), MidPrice(last), last.volume);
    }
  }

  /** One more tick in a bar extends the bar's aggregates by that tick. */
  lemma UpdateExtends(c: Candle, mids: seq<real>, volumes: seq<real>, price: real, volume: real)
    requires |mids| > 0 && Sane(c)
    requires c.high == Series.SeqMax(mids) && c.low == Series.SeqMin(mids)
    requires c.volume == Series.Sum(volumes)
    ensures Update(c, price, volume).high == Series.SeqMax(mids + [price])
    ensures Update(c, price, volume).low == Series.SeqMin(mids + [price])
    ensures Update(c, price, volume).volume == Series.Sum(volumes + [volume])
  {
    Series.ExtendMax(mids, price);
    Series.ExtendMin(mids, price);
    Series.SumExtend(volumes, volume);
  }
}
