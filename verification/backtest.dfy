/** The back-tests of app/models/dfcandle.go: each replays one trading rule over the candles
    of a frame into a fresh ledger, trying a BUY then a SELL at every index from 1 on. */
module Backtest {
  import opened Wrappers
  import opened Bitflyer
  import opened Candles
  import opened Events
  import opened DfCandle
  import TradingAlgo

  /** What a rule says at one index: whether to try the buy-side order, then whether to try
      a SELL. */
  datatype Vote = Vote(buy: bool, sell: bool)

  const Silent := Vote(false, false)

  /** A rule with the indicator series it reads. */
  datatype Rule =
    | EmaCross(first: seq<real>, second: seq<real>, period1: int, period2: int)
    | BbCross(up: seq<real>, down: seq<real>, n: int)
    | IchimokuBreak(cloud: TradingAlgo.Cloud)
    | MacdCross(macd: seq<real>, signal: seq<real>)
    | RsiCross(values: seq<real>, buyThread: real, sellThread: real)

  /** Every series the rule reads has one value per candle. */
  predicate Fits(rule: Rule, n: nat)
  {
    match rule
    case EmaCross(first, second, _, _) => |first| == n && |second| == n
    case BbCross(up, down, _) => |up| == n && |down| == n
    case IchimokuBreak(c) =>
      |c.tenkan| == n && |c.kijun| == n && |c.senkouA| == n && |c.senkouB| == n && |c.chikou| == n
    case MacdCross(macd, signal) => |macd| == n && |signal| == n
    case RsiCross(values, _, _) => |values| == n
  }

  /** The two conditions of the loop body at index i, as the source states them. The EMA,
      Ichimoku and MACD conditions, and the RSI ones when the buy threshold is not above the
      sell threshold, never hold together. */
  function VoteAt(rule: Rule, candles: seq<Candle>, i: nat): (r: Vote)
    requires 1 <= i < |candles| && Fits(rule, |candles|)
    ensures rule.EmaCross? && (i < rule.period1 || i < rule.period2) ==> r == Silent
    ensures rule.BbCross? && i < rule.n ==> r == Silent
    ensures rule.RsiCross? && (rule.values[i - 1] == 0.0 || rule.values[i - 1] == 100.0) ==> r == Silent
    ensures rule.EmaCross? || rule.IchimokuBreak? || rule.MacdCross? ==> !(r.buy && r.sell)
    ensures rule.RsiCross? && rule.buyThread <= rule.sellThread ==> !(r.buy && r.sell)
    ensures rule.MacdCross? && r.buy ==> rule.macd[i] < 0.0 && rule.signal[i] < 0.0
    ensures rule.MacdCross? && r.sell ==> rule.macd[i] > 0.0 && rule.signal[i] > 0.0
  {
    var prev, cur := candles[i - 1], candles[i];
    match rule
    case EmaCross(e1, e2, p1, p2) =>
      if i < p1 || i < p2 then Silent
      else Vote(e1[i - 1] < e2[i - 1] && e1[i] >= e2[i], e1[i - 1] > e2[i - 1] && e1[i] <= e2[i])
    case BbCross(up, down, n) =>
      if i < n then Silent
      else Vote(down[i - 1] > prev.close && down[i] <= cur.close, up[i - 1] < prev.close && up[i] >= cur.close)
    case IchimokuBreak(c) =>
      Vote(c.chikou[i - 1] < prev.high && c.chikou[i] >= cur.high
             && c.senkouA[i] < cur.low && c.senkouB[i] < cur.low && c.tenkan[i] > c.kijun[i],
           c.chikou[i - 1] > prev.low && c.chikou[i] <= cur.low
             && c.senkouA[i] > cur.high && c.senkouB[i] > cur.high && c.tenkan[i] < c.kijun[i])
    case MacdCross(m, sig) =>
      Vote(m[i] < 0.0 && sig[i] < 0.0 && m[i - 1] < sig[i - 1] && m[i] >= sig[i],
           m[i] > 0.0 && sig[i] > 0.0 && m[i - 1] > sig[i - 1] && m[i] <= sig[i])
    case RsiCross(v, buyThread, sellThread) =>
      if v[i - 1] == 0.0 || v[i - 1] == 100.0 then Silent
      else Vote(v[i - 1] < buyThread && v[i] >= buyThread, v[i - 1] > sellThread && v[i] <= sellThread)
  }

  /** Event e is an order the rule cast at candle index j: placed at that candle's time and
      close, size 1, on the buy side when the first condition held or as a SELL when the
      second did. */
  predicate Cast(rule: Rule, candles: seq<Candle>, code: string, buySide: Side, j: int, e: SignalEvent)
    requires Fits(rule, |candles|)
  {
    && 1 <= j < |candles|
    && e == SignalEvent(candles[j].time, code, e.side, candles[j].close, 1.0)
    && ((e.side == buySide && VoteAt(rule, candles, j).buy) || (e.side == SELL && VoteAt(rule, candles, j).sell))
  }

  /** Event e was cast at some index at or after `lo`. */
  predicate CastSince(rule: Rule, candles: seq<Candle>, code: string, buySide: Side, lo: int, e: SignalEvent)
    requires Fits(rule, |candles|)
  {
    exists j :: lo <= j < |candles| && Cast(rule, candles, code, buySide, j, e)
  }

  /** Every event past the first `from` was cast at some index at or after `lo`. */
  predicate CastFrom(rule: Rule, candles: seq<Candle>, code: string, buySide: Side, lo: int,
                     s: SignalEvents, from: nat)
    requires Fits(rule, |candles|)
  {
    forall k :: from <= k < |s| ==> CastSince(rule, candles, code, buySide, lo, s[k])
  }

  /** The order the loop body places at candle index i: that candle's time and close, size 1. */
  function EventAt(candles: seq<Candle>, code: string, side: Side, i: nat): SignalEvent
    requires i < |candles|
  {
    SignalEvent(candles[i].time, code, side, candles[i].close, 1.0)
  }

  /** At index i the first condition holds and ledger s accepts the buy-side order. */
  predicate BuyTaken(rule: Rule, candles: seq<Candle>, buySide: Side, i: nat, s: SignalEvents)
    requires 1 <= i < |candles| && Fits(rule, |candles|)
  {
    VoteAt(rule, candles, i).buy && CanPlace(s, buySide, candles[i].time)
  }

  /** At index i no buy-side order was taken, the second condition holds and ledger s
      accepts a SELL. */
  predicate SellTaken(rule: Rule, candles: seq<Candle>, buySide: Side, i: nat, s: SignalEvents)
    requires 1 <= i < |candles| && Fits(rule, |candles|)
  {
    !BuyTaken(rule, candles, buySide, i, s) && VoteAt(rule, candles, i).sell && CanPlace(s, SELL, candles[i].time)
  }

  /** One pass of the loop body: the buy-side call (Buy, or Sell for the MACD back-test),
      then Sell. An order taken on the buy side leaves the ledger's last event at this very
      time, so the Sell of the same pass is then always refused. */
  function StepAt(rule: Rule, candles: seq<Candle>, code: string, buySide: Side, i: nat, s: SignalEvents): (r: SignalEvents)
    requires 1 <= i < |candles| && Fits(rule, |candles|)
    ensures s <= r && |r| <= |s| + 2
    ensures WellFormed(s) ==> WellFormed(r)
    ensures forall k :: |s| <= k < |r| ==> Cast(rule, candles, code, buySide, i, r[k])
    ensures !VoteAt(rule, candles, i).buy && !VoteAt(rule, candles, i).sell ==> r == s
    ensures BuyTaken(rule, candles, buySide, i, s) ==> r == s + [EventAt(candles, code, buySide, i)]
    ensures SellTaken(rule, candles, buySide, i, s) ==> r == s + [EventAt(candles, code, SELL, i)]
    ensures !BuyTaken(rule, candles, buySide, i, s) && !SellTaken(rule, candles, buySide, i, s) ==> r == s
  {
    var v := VoteAt(rule, candles, i);
    var c := candles[i];
    var s1 := if v.buy then Place(s, buySide, code, c.time, c.close, 1.0).signals else s;
    if v.sell then Sell(s1, code, c.time, c.close, 1.0).signals else s1
  }

  /** The loop `for i := from; i < len(candles); i++` over a ledger s. */
  function Replay(rule: Rule, candles: seq<Candle>, code: string, buySide: Side, i: nat, s: SignalEvents): (r: SignalEvents)
    requires 1 <= i && Fits(rule, |candles|)
    decreases |candles| - i
    ensures s <= r
    ensures WellFormed(s) ==> WellFormed(r)
    ensures CastFrom(rule, candles, code, buySide, i, r, |s|)
    ensures (forall j :: i <= j < |candles| ==> VoteAt(rule, candles, j) == Silent) ==> r == s
    ensures i <= |candles| && s == Before(rule, candles, code, buySide, i) ==> RecordedFrom(rule, candles, code, buySide, i, r)
  {
    if i >= |candles| then s
    else
      var s2 := StepAt(rule, candles, code, buySide, i, s);
      var r := Replay(rule, candles, code, buySide, i + 1, s2);
      CastFromJoin(rule, candles, code, buySide, i, s, s2, r);
      if s == Before(rule, candles, code, buySide, i) then
        RecordedFromJoin(rule, candles, code, buySide, i, s2, r);
        r
      else r
  }

  /** Events cast at index i followed by events cast from i + 1 on are all cast from i on. */
  lemma CastFromJoin(rule: Rule, candles: seq<Candle>, code: string, buySide: Side, i: nat,
                     s: SignalEvents, s2: SignalEvents, r: SignalEvents)
    requires Fits(rule, |candles|) && 1 <= i < |candles|
    requires s <= s2 <= r
    requires forall k :: |s| <= k < |s2| ==> Cast(rule, candles, code, buySide, i, s2[k])
    requires CastFrom(rule, candles, code, buySide, i + 1, r, |s2|)
    ensures CastFrom(rule, candles, code, buySide, i, r, |s|)
  {
    forall k | |s| <= k < |r|
      ensures CastSince(rule, candles, code, buySide, i, r[k])
    {
      if k < |s2| {
        assert r[k] == s2[k];
        assert Cast(rule, candles, code, buySide, i, r[k]);
      } else {
        assert CastSince(rule, candles, code, buySide, i + 1, r[k]);
        var j :| i + 1 <= j < |candles| && Cast(rule, candles, code, buySide, j, r[k]);
        assert i <= j;
      }
    }
  }

  /** The running ledger just before the loop body runs at index j: the passes at 1 .. j - 1
      applied to the empty ledger, oldest first. */
  function Before(rule: Rule, candles: seq<Candle>, code: string, buySide: Side, j: nat): SignalEvents
    requires 1 <= j <= |candles| && Fits(rule, |candles|)
    decreases j
  {
    if j == 1 then [] else StepAt(rule, candles, code, buySide, j - 1, Before(rule, candles, code, buySide, j - 1))
  }

  /** At index j, the order the running ledger accepts is in r, right after that ledger. */
  predicate Recorded(rule: Rule, candles: seq<Candle>, code: string, buySide: Side, j: nat, r: SignalEvents)
    requires 1 <= j < |candles| && Fits(rule, |candles|)
  {
    var p := Before(rule, candles, code, buySide, j);
    && p <= r
    && (BuyTaken(rule, candles, buySide, j, p) ==> |r| > |p| && r[|p|] == EventAt(candles, code, buySide, j))
    && (SellTaken(rule, candles, buySide, j, p) ==> |r| > |p| && r[|p|] == EventAt(candles, code, SELL, j))
  }

  /** Every vote from index i on that the running ledger accepts is recorded in r. */
  predicate RecordedFrom(rule: Rule, candles: seq<Candle>, code: string, buySide: Side, i: nat, r: SignalEvents)
    requires Fits(rule, |candles|)
  {
    forall j :: i <= j < |candles| && 1 <= j ==> Recorded(rule, candles, code, buySide, j, r)
  }

  /** Every vote that the running ledger accepts is recorded in r. */
  predicate RecordsAccepted(rule: Rule, candles: seq<Candle>, code: string, buySide: Side, r: SignalEvents)
    requires Fits(rule, |candles|)
  {
    RecordedFrom(rule, candles, code, buySide, 1, r)
  }

  /** When the pass at i over the running ledger is followed by a ledger r that records the
      accepted votes from i + 1 on, r records those from i on. */
  lemma RecordedFromJoin(rule: Rule, candles: seq<Candle>, code: string, buySide: Side, i: nat,
                         s2: SignalEvents, r: SignalEvents)
    requires Fits(rule, |candles|) && 1 <= i < |candles|
    requires s2 == Before(rule, candles, code, buySide, i + 1) && s2 <= r
    requires RecordedFrom(rule, candles, code, buySide, i + 1, r)
    ensures RecordedFrom(rule, candles, code, buySide, i, r)
  {
    var p := Before(rule, candles, code, buySide, i);
    assert s2 == StepAt(rule, candles, code, buySide, i, p);
    if |s2| > |p| {
      assert r[|p|] == s2[|p|];
    }
    assert Recorded(rule, candles, code, buySide, i, r);
  }

  /** A replay from the empty ledger starting at index 1, as every back-test runs. */
  function Run(rule: Rule, candles: seq<Candle>, code: string, buySide: Side): (r: SignalEvents)
    requires Fits(rule, |candles|)
    ensures WellFormed(r) && Profit(r) == 0.0
    ensures CastFrom(rule, candles, code, buySide, 1, r, 0)
    ensures RecordsAccepted(rule, candles, code, buySide, r)
  {
    var r := Replay(rule, candles, code, buySide, 1, []);
    ProfitOfAlternatingIsZero(r);
    r
  }

  function EmaRule(df: DataFrameCandle, lib: TaLib, period1: int, period2: int): Rule
  {
    EmaCross(lib.ema(Closes(df), period1), lib.ema(Closes(df), period2), period1, period2)
  }

  function BbRule(df: DataFrameCandle, lib: TaLib, n: int, k: real): Rule
  {
    var b := lib.bbands(Closes(df), n, k);
    BbCross(b.up, b.down, n)
  }

  function IchimokuRule(df: DataFrameCandle): Rule
  {
    IchimokuBreak(TradingAlgo.IchimokuCloud(Closes(df)))
  }

  function MacdRule(df: DataFrameCandle, lib: TaLib, fast: int, slow: int, signal: int): Rule
  {
    var m := lib.macd(Closes(df), fast, slow, signal);
    MacdCross(m.macd, m.signal)
  }

  function RsiRule(df: DataFrameCandle, lib: TaLib, period: int, buyThread: real, sellThread: real): Rule
  {
    RsiCross(lib.rsi(Closes(df), period), buyThread, sellThread)
  }

  /** BackTestEma: nil unless there are more candles than either period; otherwise a
      well-formed ledger of EMA golden-cross buys and dead-cross sells. */
  function BackTestEma(df: DataFrameCandle, lib: TaLib, period1: int, period2: int): (r: Option<SignalEvents>)
    requires Aligned(lib)
    ensures r.None? <==> |df.candles| <= period1 || |df.candles| <= period2
    ensures r.Some? ==> Fits(EmaRule(df, lib, period1, period2), |df.candles|)
    ensures r.Some? ==> WellFormed(r.value) && Profit(r.value) == 0.0
    ensures r.Some? ==> CastFrom(EmaRule(df, lib, period1, period2), df.candles, df.productCode, BUY, 1, r.value, 0)
    ensures r.Some? ==> RecordsAccepted(EmaRule(df, lib, period1, period2), df.candles, df.productCode, BUY, r.value)
  {
    var n := |df.candles|;
    if n <= period1 || n <= period2 then None
    else Some(Run(EmaRule(df, lib, period1, period2), df.candles, df.productCode, BUY))
  }

  /** BackTestBb: nil unless there are more candles than n; otherwise buys on a close
      crossing back above the lower band and sells on one crossing back below the upper. */
  function BackTestBb(df: DataFrameCandle, lib: TaLib, n: int, k: real): (r: Option<SignalEvents>)
    requires Aligned(lib)
    ensures r.None? <==> |df.candles| <= n
    ensures r.Some? ==> Fits(BbRule(df, lib, n, k), |df.candles|)
    ensures r.Some? ==> WellFormed(r.value) && Profit(r.value) == 0.0
    ensures r.Some? ==> CastFrom(BbRule(df, lib, n, k), df.candles, df.productCode, BUY, 1, r.value, 0)
    ensures r.Some? ==> RecordsAccepted(BbRule(df, lib, n, k), df.candles, df.productCode, BUY, r.value)
  {
    if |df.candles| <= n then None
    else Some(Run(BbRule(df, lib, n, k), df.candles, df.productCode, BUY))
  }

  /** BackTestIchimoku: nil for 52 candles or fewer. */
  function BackTestIchimoku(df: DataFrameCandle): (r: Option<SignalEvents>)
    ensures r.None? <==> |df.candles| <= 52
    ensures r.Some? ==> Fits(IchimokuRule(df), |df.candles|)
    ensures r.Some? ==> WellFormed(r.value) && Profit(r.value) == 0.0
    ensures r.Some? ==> CastFrom(IchimokuRule(df), df.candles, df.productCode, BUY, 1, r.value, 0)
    ensures r.Some? ==> RecordsAccepted(IchimokuRule(df), df.candles, df.productCode, BUY, r.value)
  {
    if |df.candles| <= 52 then None
    else Some(Run(IchimokuRule(df), df.candles, df.productCode, BUY))
  }

  /** BackTestMacd: nil unless there are more candles than each period. Both of its
      conditions call Sell, so every order it places is a SELL. */
  function BackTestMacd(df: DataFrameCandle, lib: TaLib, fast: int, slow: int, signal: int): (r: Option<SignalEvents>)
    requires Aligned(lib)
    ensures r.None? <==> |df.candles| <= fast || |df.candles| <= slow || |df.candles| <= signal
    ensures r.Some? ==> Fits(MacdRule(df, lib, fast, slow, signal), |df.candles|)
    ensures r.Some? ==> WellFormed(r.value) && Profit(r.value) == 0.0
    ensures r.Some? ==> CastFrom(MacdRule(df, lib, fast, slow, signal), df.candles, df.productCode, SELL, 1, r.value, 0)
    ensures r.Some? ==> RecordsAccepted(MacdRule(df, lib, fast, slow, signal), df.candles, df.productCode, SELL, r.value)
  {
    var n := |df.candles|;
    if n <= fast || n <= slow || n <= signal then None
    else Some(Run(MacdRule(df, lib, fast, slow, signal), df.candles, df.productCode, SELL))
  }

  /** BackTestRsi: nil unless there are more candles than the period; an index whose
      previous RSI is exactly 0 or 100 is skipped. */
  function BackTestRsi(df: DataFrameCandle, lib: TaLib, period: int, buyThread: real, sellThread: real): (r: Option<SignalEvents>)
    requires Aligned(lib)
    ensures r.None? <==> |df.candles| <= period
    ensures r.Some? ==> Fits(RsiRule(df, lib, period, buyThread, sellThread), |df.candles|)
    ensures r.Some? ==> WellFormed(r.value) && Profit(r.value) == 0.0
    ensures r.Some? ==> CastFrom(RsiRule(df, lib, period, buyThread, sellThread), df.candles, df.productCode, BUY, 1, r.value, 0)
    ensures r.Some? ==> RecordsAccepted(RsiRule(df, lib, period, buyThread, sellThread), df.candles, df.productCode, BUY, r.value)
  {
    if |df.candles| <= period then None
    else Some(Run(RsiRule(df, lib, period, buyThread, sellThread), df.candles, df.productCode, BUY))
  }

  /** Before the first index where the rule votes, the running ledger is empty. */
  lemma {:induction false} SilentBeforeIsEmpty(rule: Rule, candles: seq<Candle>, code: string, buySide: Side, j: nat)
    requires Fits(rule, |candles|) && 1 <= j <= |candles|
    requires forall k :: 1 <= k < j ==> VoteAt(rule, candles, k) == Silent
    ensures Before(rule, candles, code, buySide, j) == []
    decreases j
  {
    if j > 1 {
      SilentBeforeIsEmpty(rule, candles, code, buySide, j - 1);
    }
  }

  /** The first vote of a back-test is always recorded: the ledger starts with the order of
      the first index where a condition holds, buy side first. */
  lemma FirstVoteRecorded(rule: Rule, candles: seq<Candle>, code: string, buySide: Side, j: nat)
    requires Fits(rule, |candles|) && 1 <= j < |candles|
    requires forall k :: 1 <= k < j ==> VoteAt(rule, candles, k) == Silent
    requires VoteAt(rule, candles, j) != Silent
    ensures var r := Run(rule, candles, code, buySide);
            |r| > 0 && r[0] == EventAt(candles, code, if VoteAt(rule, candles, j).buy then buySide else SELL, j)
  {
    SilentBeforeIsEmpty(rule, candles, code, buySide, j);
    assert Recorded(rule, candles, code, buySide, j, Run(rule, candles, code, buySide));
  }

  /** The MACD back-test never records a BUY, so its ledger holds at most one event. */
  lemma MacdSellsOnly(df: DataFrameCandle, lib: TaLib, fast: int, slow: int, signal: int)
    requires Aligned(lib)
    requires BackTestMacd(df, lib, fast, slow, signal).Some?
    ensures forall e :: e in BackTestMacd(df, lib, fast, slow, signal).value ==> e.side == SELL
    ensures |BackTestMacd(df, lib, fast, slow, signal).value| <= 1
  {
    var s := BackTestMacd(df, lib, fast, slow, signal).value;
    var rule := MacdRule(df, lib, fast, slow, signal);
    forall k | 0 <= k < |s|
      ensures s[k].side == SELL
    {
      var j :| 1 <= j < |df.candles| && Cast(rule, df.candles, df.productCode, SELL, j, s[k]);
    }
    if |s| >= 2 {
      NeighboursDiffer(s, 1);
      assert false;
    }
  }

  /** The EMA back-test trades only once both averages have their periods behind them:
      every event is at a candle index no smaller than either period. */
  lemma EmaWaitsForPeriods(df: DataFrameCandle, lib: TaLib, period1: int, period2: int)
    requires Aligned(lib)
    requires BackTestEma(df, lib, period1, period2).Some?
    ensures forall e :: e in BackTestEma(df, lib, period1, period2).value ==>
              exists j :: 0 <= j < |df.candles| && period1 <= j && period2 <= j && e.time == df.candles[j].time
  {
    var s := BackTestEma(df, lib, period1, period2).value;
    var rule := EmaRule(df, lib, period1, period2);
    forall e | e in s
      ensures exists j :: 0 <= j < |df.candles| && period1 <= j && period2 <= j && e.time == df.candles[j].time
    {
      var k :| 0 <= k < |s| && s[k] == e;
      var j :| 1 <= j < |df.candles| && Cast(rule, df.candles, df.productCode, BUY, j, s[k]);
      assert period1 <= j && period2 <= j;
    }
  }

  /** The RSI back-test never trades at an index whose previous RSI value is 0 or 100. */
  lemma RsiSkipsExtremes(df: DataFrameCandle, lib: TaLib, period: int, buyThread: real, sellThread: real)
    requires Aligned(lib)
    requires BackTestRsi(df, lib, period, buyThread, sellThread).Some?
    ensures forall e :: e in BackTestRsi(df, lib, period, buyThread, sellThread).value ==>
              exists j :: 1 <= j < |df.candles| && e.time == df.candles[j].time
                && lib.rsi(Closes(df), period)[j - 1] != 0.0 && lib.rsi(Closes(df), period)[j - 1] != 100.0
  {
    var s := BackTestRsi(df, lib, period, buyThread, sellThread).value;
    var rule := RsiRule(df, lib, period, buyThread, sellThread);
    forall e | e in s
      ensures exists j :: 1 <= j < |df.candles| && e.time == df.candles[j].time
                && lib.rsi(Closes(df), period)[j - 1] != 0.0 && lib.rsi(Closes(df), period)[j - 1] != 100.0
    {
      var k :| 0 <= k < |s| && s[k] == e;
      var j :| 1 <= j < |df.candles| && Cast(rule, df.candles, df.productCode, BUY, j, s[k]);
      assert VoteAt(rule, df.candles, j) != Silent;
    }
  }
}
