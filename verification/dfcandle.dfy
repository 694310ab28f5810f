/** The candle data frame (app/models/dfcandle.go): column projections, the indicator slots
    and the Add* guards. The TA-Lib routines the frame calls are an input, TaLib. */
module DfCandle {
  import opened Wrappers
  import opened Bitflyer
  import opened Candles
  import opened Events
  import TradingAlgo

  /** An indicator computed for one period (the source's Sma, Ema and Hv records). */
  datatype Line = Line(period: int, values: seq<real>)

  datatype BBands = BBands(n: int, k: real, up: seq<real>, mid: seq<real>, down: seq<real>)

  datatype Rsi = Rsi(period: int, values: seq<real>)

  datatype Macd = Macd(fastPeriod: int, slowPeriod: int, signalPeriod: int,
                       macd: seq<real>, macdSignal: seq<real>, macdHist: seq<real>)

  /** A nil pointer field is None; a nil slice is the empty sequence. */
  datatype DataFrameCandle = DataFrameCandle(
    productCode: string,
    duration: Duration,
    candles: seq<Candle>,
    smas: seq<Line>,
    emas: seq<Line>,
    bbands: Option<BBands>,
    ichimoku: Option<TradingAlgo.Cloud>,
    rsi: Option<Rsi>,
    macd: Option<Macd>,
    hvs: seq<Line>,
    events: Option<SignalEvents>)

  /** A frame holding only candles, as GetAllCandle builds it. */
  function Frame(productCode: string, duration: Duration, candles: seq<Candle>): DataFrameCandle
  {
    DataFrameCandle(productCode, duration, candles, [], [], None, None, None, None, [], None)
  }

  datatype Bands = Bands(up: seq<real>, mid: seq<real>, down: seq<real>)

  datatype MacdLines = MacdLines(macd: seq<real>, signal: seq<real>, hist: seq<real>)

  /** The numeric routines called on a closing-price series: talib.Sma, Ema, BBands (with
      the same k above and below and a simple moving average), Macd and Rsi, and
      tradingalgo.Hv (log returns fed to talib.StdDev). */
  datatype TaLib = TaLib(
    sma: (seq<real>, int) -> seq<real>,
    ema: (seq<real>, int) -> seq<real>,
    bbands: (seq<real>, int, real) -> Bands,
    macd: (seq<real>, int, int, int) -> MacdLines,
    rsi: (seq<real>, int) -> seq<real>,
    hv: (seq<real>, int) -> seq<real>)

  /** The outputs the trading rules index have the length of the input series. */
  ghost predicate Aligned(lib: TaLib)
  {
    && (forall closes, p :: |lib.ema(closes, p)| == |closes|)
    && (forall closes, n, k :: |lib.bbands(closes, n, k).up| == |closes|)
    && (forall closes, n, k :: |lib.bbands(closes, n, k).down| == |closes|)
    && (forall closes, f, s, g :: |lib.macd(closes, f, s, g).macd| == |closes|)
    && (forall closes, f, s, g :: |lib.macd(closes, f, s, g).signal| == |closes|)
    && (forall closes, p :: |lib.rsi(closes, p)| == |closes|)
  }

  function Times(df: DataFrameCandle): seq<Time>
  {
    seq(|df.candles|, i requires 0 <= i < |df.candles| => df.candles[i].time)
  }

  function Opens(df: DataFrameCandle): seq<real>
  {
    seq(|df.candles|, i requires 0 <= i < |df.candles| => df.candles[i].open)
  }

  function Closes(df: DataFrameCandle): seq<real>
  {
    seq(|df.candles|, i requires 0 <= i < |df.candles| => df.candles[i].close)
  }

  function Highs(df: DataFrameCandle): seq<real>
  {
    seq(|df.candles|, i requires 0 <= i < |df.candles| => df.candles[i].high)
  }

  function Low(df: DataFrameCandle): seq<real>
  {
    seq(|df.candles|, i requires 0 <= i < |df.candles| => df.candles[i].low)
  }

  function Volume(df: DataFrameCandle): seq<real>
  {
    seq(|df.candles|, i requires 0 <= i < |df.candles| => df.candles[i].volume)
  }

  /** Every column has one entry per candle, taken from that candle; for candles the
      aggregation keeps sane, each bar's open and close lie between its low and high. */
  lemma ColumnsAlign(df: DataFrameCandle)
    ensures |Times(df)| == |Opens(df)| == |Closes(df)| == |df.candles|
    ensures |Highs(df)| == |Low(df)| == |Volume(df)| == |df.candles|
    ensures forall i :: 0 <= i < |df.candles| ==>
              && Times(df)[i] == df.candles[i].time && Opens(df)[i] == df.candles[i].open
              && Closes(df)[i] == df.candles[i].close && Highs(df)[i] == df.candles[i].high
              && Low(df)[i] == df.candles[i].low && Volume(df)[i] == df.candles[i].volume
    ensures (forall i :: 0 <= i < |df.candles| ==> Sane(df.candles[i])) ==>
              forall i :: 0 <= i < |df.candles| ==>
                Low(df)[i] <= Opens(df)[i] <= Highs(df)[i] && Low(df)[i] <= Closes(df)[i] <= Highs(df)[i]
  {
  }

  /** Whether an Add* call computed its indicator, and the frame after it. */
  datatype Added = Added(ok: bool, frame: DataFrameCandle)

  function AddSma(df: DataFrameCandle, lib: TaLib, period: int): (r: Added)
    ensures r.ok <==> |df.candles| > period
    ensures !r.ok ==> r.frame == df
    ensures r.ok ==> r.frame.(smas := df.smas) == df
    ensures r.ok ==> r.frame.smas == df.smas + [Line(period, lib.sma(Closes(df), period))]
  {
    if |df.candles| > period then Added(true, df.(smas := df.smas + [Line(period, lib.sma(Closes(df), period))]))
    else Added(false, df)
  }

  function AddEma(df: DataFrameCandle, lib: TaLib, period: int): (r: Added)
    ensures r.ok <==> |df.candles| > period
    ensures !r.ok ==> r.frame == df
    ensures r.ok ==> r.frame.(emas := df.emas) == df
    ensures r.ok ==> r.frame.emas == df.emas + [Line(period, lib.ema(Closes(df), period))]
  {
    if |df.candles| > period then Added(true, df.(emas := df.emas + [Line(period, lib.ema(Closes(df), period))]))
    else Added(false, df)
  }

  function AddBBands(df: DataFrameCandle, lib: TaLib, n: int, k: real): (r: Added)
    ensures r.ok <==> n <= |Closes(df)|
    ensures !r.ok ==> r.frame == df
    ensures r.ok ==> r.frame.(bbands := df.bbands) == df
    ensures r.ok ==> r.frame.bbands.Some? && r.frame.bbands.value.n == n && r.frame.bbands.value.k == k
    ensures r.ok ==> var b := lib.bbands(Closes(df), n, k);
                     r.frame.bbands.value.up == b.up && r.frame.bbands.value.mid == b.mid
                     && r.frame.bbands.value.down == b.down
  {
    if n <= |Closes(df)| then
      var b := lib.bbands(Closes(df), n, k);
      Added(true, df.(bbands := Some(BBands(n, k, b.up, b.mid, b.down))))
    else Added(false, df)
  }

  function AddIchimoku(df: DataFrameCandle): (r: Added)
    ensures r.ok <==> |Closes(df)| >= 9
    ensures !r.ok ==> r.frame == df
    ensures r.ok ==> r.frame.(ichimoku := df.ichimoku) == df
    ensures r.ok ==> r.frame.ichimoku == Some(TradingAlgo.IchimokuCloud(Closes(df)))
    ensures r.ok ==> |r.frame.ichimoku.value.tenkan| == |df.candles| && |r.frame.ichimoku.value.chikou| == |df.candles|
  {
    if |Closes(df)| >= 9 then Added(true, df.(ichimoku := Some(TradingAlgo.IchimokuCloud(Closes(df)))))
    else Added(false, df)
  }

  function AddRsi(df: DataFrameCandle, lib: TaLib, period: int): (r: Added)
    ensures r.ok <==> |df.candles| > period
    ensures !r.ok ==> r.frame == df
    ensures r.ok ==> r.frame.(rsi := df.rsi) == df
    ensures r.ok ==> r.frame.rsi == Some(Rsi(period, lib.rsi(Closes(df), period)))
  {
    if |df.candles| > period then Added(true, df.(rsi := Some(Rsi(period, lib.rsi(Closes(df), period)))))
    else Added(false, df)
  }

  function AddMacd(df: DataFrameCandle, lib: TaLib, fast: int, slow: int, signal: int): (r: Added)
    ensures r.ok <==> |df.candles| > 1
    ensures !r.ok ==> r.frame == df
    ensures r.ok ==> r.frame.(macd := df.macd) == df
    ensures r.ok ==> r.frame.macd.Some? && r.frame.macd.value.fastPeriod == fast
                     && r.frame.macd.value.slowPeriod == slow && r.frame.macd.value.signalPeriod == signal
    ensures r.ok ==> var m := lib.macd(Closes(df), fast, slow, signal);
                     r.frame.macd.value.macd == m.macd && r.frame.macd.value.macdSignal == m.signal
                     && r.frame.macd.value.macdHist == m.hist
  {
    if |df.candles| > 1 then
      var m := lib.macd(Closes(df), fast, slow, signal);
      Added(true, df.(macd := Some(Macd(fast, slow, signal, m.macd, m.signal, m.hist))))
    else Added(false, df)
  }

  function AddHv(df: DataFrameCandle, lib: TaLib, period: int): (r: Added)
    ensures r.ok <==> |Closes(df)| >= period
    ensures !r.ok ==> r.frame == df
    ensures r.ok ==> r.frame.(hvs := df.hvs) == df
    ensures r.ok ==> r.frame.hvs == df.hvs + [Line(period, lib.hv(Closes(df), period))]
  {
    if |Closes(df)| >= period then Added(true, df.(hvs := df.hvs + [Line(period, lib.hv(Closes(df), period))]))
    else Added(false, df)
  }

  /** AddEvents: `stored` stands for the events GetSignalEventsAfterTime read from the
      store; the frame takes them only when there is at least one. */
  function AddEvents(df: DataFrameCandle, stored: SignalEvents): (r: Added)
    ensures r.ok <==> |stored| > 0
    ensures !r.ok ==> r.frame == df
    ensures r.ok ==> r.frame == df.(events := Some(stored))
  {
    if |stored| > 0 then Added(true, df.(events := Some(stored))) else Added(false, df)
  }
}
