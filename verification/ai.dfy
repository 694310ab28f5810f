/** The trading engine (app/controllers/ai.go): order placement through the ledger in
    back-test mode, and the Trade pass that tallies the enabled indicators' votes over the
    candles, buys, sells and applies the stop limit. */
module Ai {
  import opened Candles
  import opened DfCandle
  import opened Backtest
  import opened Optimize
  import Events

  /** The state Trade reads and writes. The exchange client, the currency split of the
      product code, the lock and the start time are left out. */
  datatype Engine = Engine(
    productCode: string,
    backTest: bool,
    stopLimitPercent: real,
    signalEvents: Events.SignalEvents,
    stopLimit: real,
    params: TradeParams)

  /** The two results of AI.Buy and AI.Sell and the engine after the call. */
  datatype Placed = Placed(childOrderAcceptanceId: string, isOrderCompleted: bool, engine: Engine)

  /** AI.Buy: in back-test mode a BUY of size 1 at the candle's time and close goes to the
      ledger; otherwise nothing is ordered and the zero results come back. */
  function Buy(ai: Engine, candle: Candle): (r: Placed)
    ensures r.childOrderAcceptanceId == ""
    ensures r.isOrderCompleted <==> ai.backTest && Events.CanBuy(ai.signalEvents, candle.time)
    ensures !r.isOrderCompleted ==> r.engine == ai
    ensures r.isOrderCompleted ==> r.engine == ai.(signalEvents := ai.signalEvents
              + [Events.SignalEvent(candle.time, ai.productCode, Events.BUY, candle.close, 1.0)])
  {
    if ai.backTest then
      var a := Events.Buy(ai.signalEvents, ai.productCode, candle.time, candle.close, 1.0);
      Placed("", a.accepted, ai.(signalEvents := a.signals))
    else Placed("", false, ai)
  }

  /** AI.Sell, the mirror of Buy. */
  function Sell(ai: Engine, candle: Candle): (r: Placed)
    ensures r.childOrderAcceptanceId == ""
    ensures r.isOrderCompleted <==> ai.backTest && Events.CanSell(ai.signalEvents, candle.time)
    ensures !r.isOrderCompleted ==> r.engine == ai
    ensures r.isOrderCompleted ==> r.engine == ai.(signalEvents := ai.signalEvents
              + [Events.SignalEvent(candle.time, ai.productCode, Events.SELL, candle.close, 1.0)])
  {
    if ai.backTest then
      var a := Events.Sell(ai.signalEvents, ai.productCode, candle.time, candle.close, 1.0);
      Placed("", a.accepted, ai.(signalEvents := a.signals))
    else Placed("", false, ai)
  }

  /** AI.UpdateOptimizeParams: the parameters OptimizeParams computed on the candles just
      read from the store replace the engine's. */
  function UpdateOptimizeParams(ai: Engine, df: DataFrameCandle, lib: TaLib, numRanking: int): (r: Engine)
    requires Aligned(lib)
    ensures r.params.rsiBuyThread == 30.0 && r.params.rsiSellThread == 70.0
    ensures r.(params := ai.params) == ai
  {
    ai.(params := OptimizeParams(df, lib, numRanking))
  }

  /** 1 for a set flag, 0 otherwise. */
  function Count(flag: bool): nat
  {
    if flag then 1 else 0
  }

  /** The position of a rule's family in the order Trade evaluates them: EMA, Bollinger
      bands, MACD, Ichimoku, RSI. */
  function Family(rule: Rule): nat
  {
    match rule
    case EmaCross(_, _, _, _) => 0
    case BbCross(_, _, _) => 1
    case MacdCross(_, _) => 2
    case IchimokuBreak(_) => 3
    case RsiCross(_, _, _) => 4
  }

  /** Every family is disabled. */
  predicate Disabled(p: TradeParams)
  {
    !p.emaEnable && !p.bbEnable && !p.macdEnable && !p.ichimokuEnable && !p.rsiEnable
  }

  /** The rules of the enabled families, with the series Trade computes for them before
      its loop: one rule per set flag, on that family's parameters, in evaluation order. */
  function EnabledRules(p: TradeParams, df: DataFrameCandle, lib: TaLib): (r: seq<Rule>)
    requires Aligned(lib)
    ensures |r| == Count(p.emaEnable) + Count(p.bbEnable) + Count(p.macdEnable) + Count(p.ichimokuEnable) + Count(p.rsiEnable)
    ensures |r| == 0 <==> Disabled(p)
    ensures p.emaEnable <==> EmaRule(df, lib, p.emaPeriod1, p.emaPeriod2) in r
    ensures p.bbEnable <==> BbRule(df, lib, p.bbN, p.bbK) in r
    ensures p.macdEnable <==> MacdRule(df, lib, p.macdFastPeriod, p.macdSlowPeriod, p.macdSignalPeriod) in r
    ensures p.ichimokuEnable <==> IchimokuRule(df) in r
    ensures p.rsiEnable <==> RsiRule(df, lib, p.rsiPeriod, p.rsiBuyThread, p.rsiSellThread) in r
    ensures forall a, b :: 0 <= a < b < |r| ==> Family(r[a]) < Family(r[b])
    ensures forall k :: 0 <= k < |r| ==> Fits(r[k], |df.candles|)
  {
    var ema := EmaRule(df, lib, p.emaPeriod1, p.emaPeriod2);
    var bb := BbRule(df, lib, p.bbN, p.bbK);
    var macd := MacdRule(df, lib, p.macdFastPeriod, p.macdSlowPeriod, p.macdSignalPeriod);
    var ichimoku := IchimokuRule(df);
    var rsi := RsiRule(df, lib, p.rsiPeriod, p.rsiBuyThread, p.rsiSellThread);
    var r := Assemble(p.emaEnable, ema, p.bbEnable, bb, p.macdEnable, macd, p.ichimokuEnable, ichimoku, p.rsiEnable, rsi);
    assert Fits(ema, |df.candles|) && Fits(bb, |df.candles|) && Fits(macd, |df.candles|);
    assert Fits(ichimoku, |df.candles|) && Fits(rsi, |df.candles|);
    AssembleCount(p.emaEnable, ema, p.bbEnable, bb, p.macdEnable, macd, p.ichimokuEnable, ichimoku, p.rsiEnable, rsi);
    AssemblePresence(p.emaEnable, ema, p.bbEnable, bb, p.macdEnable, macd, p.ichimokuEnable, ichimoku, p.rsiEnable, rsi);
    AssembleInOrder(p.emaEnable, ema, p.bbEnable, bb, p.macdEnable, macd, p.ichimokuEnable, ichimoku, p.rsiEnable, rsi);
    AssembleFit(p.emaEnable, ema, p.bbEnable, bb, p.macdEnable, macd, p.ichimokuEnable, ichimoku, p.rsiEnable, rsi,
                |df.candles|);
    r
  }

  /** The rules whose flags are set, in the order given. */
  function Assemble(fa: bool, a: Rule, fb: bool, b: Rule, fc: bool, c: Rule, fd: bool, d: Rule, fe: bool, e: Rule): seq<Rule>
  {
    Push(Push(Push(Push(Push([], fa, a), fb, b), fc, c), fd, d), fe, e)
  }

  /** Appends the rule when its flag is set. Appending a rule whose family comes after every
      family in the list keeps the list in family order. */
  function Push(r: seq<Rule>, flag: bool, rule: Rule): (out: seq<Rule>)
    ensures |out| == |r| + Count(flag)
    ensures forall x :: x in out <==> x in r || (flag && x == rule)
    ensures InFamilyOrder(r) && FamiliesBelow(r, Family(rule)) ==> InFamilyOrder(out) && FamiliesBelow(out, Family(rule) + 1)
  {
    if flag then r + [rule] else r
  }

  /** The assembled list has one entry per set flag. */
  lemma AssembleCount(fa: bool, a: Rule, fb: bool, b: Rule, fc: bool, c: Rule, fd: bool, d: Rule, fe: bool, e: Rule)
    ensures |Assemble(fa, a, fb, b, fc, c, fd, d, fe, e)| == Count(fa) + Count(fb) + Count(fc) + Count(fd) + Count(fe)
  {
  }

  /** Each rule of a family of its own is in the assembled list iff its flag is set. */
  lemma AssemblePresence(fa: bool, a: Rule, fb: bool, b: Rule, fc: bool, c: Rule, fd: bool, d: Rule, fe: bool, e: Rule)
    requires Family(a) == 0 && Family(b) == 1 && Family(c) == 2 && Family(d) == 3 && Family(e) == 4
    ensures fa <==> a in Assemble(fa, a, fb, b, fc, c, fd, d, fe, e)
    ensures fb <==> b in Assemble(fa, a, fb, b, fc, c, fd, d, fe, e)
    ensures fc <==> c in Assemble(fa, a, fb, b, fc, c, fd, d, fe, e)
    ensures fd <==> d in Assemble(fa, a, fb, b, fc, c, fd, d, fe, e)
    ensures fe <==> e in Assemble(fa, a, fb, b, fc, c, fd, d, fe, e)
  {
    AssembleMembers(fa, a, fb, b, fc, c, fd, d, fe, e);
  }

  /** Every assembled rule fits when all five do. */
  lemma AssembleFit(fa: bool, a: Rule, fb: bool, b: Rule, fc: bool, c: Rule, fd: bool, d: Rule, fe: bool, e: Rule,
                    n: nat)
    requires Fits(a, n) && Fits(b, n) && Fits(c, n) && Fits(d, n) && Fits(e, n)
    ensures forall k :: 0 <= k < |Assemble(fa, a, fb, b, fc, c, fd, d, fe, e)| ==> Fits(Assemble(fa, a, fb, b, fc, c, fd, d, fe, e)[k], n)
  {
    var r := Assemble(fa, a, fb, b, fc, c, fd, d, fe, e);
    AssembleMembers(fa, a, fb, b, fc, c, fd, d, fe, e);
    forall k | 0 <= k < |r|
      ensures Fits(r[k], n)
    {
      assert r[k] in r;
    }
  }

  /** The members of the assembled list are the rules whose flags are set. */
  lemma AssembleMembers(fa: bool, a: Rule, fb: bool, b: Rule, fc: bool, c: Rule, fd: bool, d: Rule, fe: bool, e: Rule)
    ensures forall x :: x in Assemble(fa, a, fb, b, fc, c, fd, d, fe, e)
                        <==> (fa && x == a) || (fb && x == b) || (fc && x == c) || (fd && x == d) || (fe && x == e)
  {
  }

  /** Rules pushed in increasing family order stay in family order. */
  lemma AssembleInOrder(fa: bool, a: Rule, fb: bool, b: Rule, fc: bool, c: Rule, fd: bool, d: Rule, fe: bool, e: Rule)
    requires Family(a) == 0 && Family(b) == 1 && Family(c) == 2 && Family(d) == 3 && Family(e) == 4
    ensures InFamilyOrder(Assemble(fa, a, fb, b, fc, c, fd, d, fe, e))
  {
    var r1 := Push([], fa, a);
    var r2 := Push(r1, fb, b);
    var r3 := Push(r2, fc, c);
    var r4 := Push(r3, fd, d);
    assert InFamilyOrder(r1) && FamiliesBelow(r1, 1);
    assert InFamilyOrder(r2) && FamiliesBelow(r2, 2);
    assert InFamilyOrder(r3) && FamiliesBelow(r3, 3);
    assert InFamilyOrder(r4) && FamiliesBelow(r4, 4);
  }

  /** The families of r strictly increase. */
  predicate InFamilyOrder(r: seq<Rule>)
  {
    forall a, b :: 0 <= a < b < |r| ==> Family(r[a]) < Family(r[b])
  }

  /** Every rule of r belongs to a family before f. */
  predicate FamiliesBelow(r: seq<Rule>, f: nat)
  {
    forall k :: 0 <= k < |r| ==> Family(r[k]) < f
  }

  predicate AllFit(rules: seq<Rule>, n: nat)
  {
    forall k :: 0 <= k < |rules| ==> Fits(rules[k], n)
  }

  /** buyPoint and sellPoint at index i: how many of the rules vote to buy and to sell. */
  function Tally(rules: seq<Rule>, candles: seq<Candle>, i: nat): (r: (nat, nat))
    requires 1 <= i < |candles| && AllFit(rules, |candles|)
    ensures r.0 <= |rules| && r.1 <= |rules|
    ensures r.0 > 0 <==> exists k :: 0 <= k < |rules| && VoteAt(rules[k], candles, i).buy
    ensures r.1 > 0 <==> exists k :: 0 <= k < |rules| && VoteAt(rules[k], candles, i).sell
  {
    if |rules| == 0 then (0, 0)
    else
      var rest := Tally(rules[1..], candles, i);
      var v := VoteAt(rules[0], candles, i);
      assert forall k :: 1 <= k < |rules| ==> rules[k] == rules[1..][k - 1];
      ((if v.buy then 1 else 0) + rest.0, (if v.sell then 1 else 0) + rest.1)
  }

  /** The engine after a completed sell at the candle: the SELL is recorded, the stop limit
      cleared and the refreshed parameters installed. */
  function Sold(ai: Engine, candle: Candle, refreshed: TradeParams): Engine
  {
    ai.(signalEvents := ai.signalEvents + [Events.SignalEvent(candle.time, ai.productCode, Events.SELL, candle.close, 1.0)],
        stopLimit := 0.0, params := refreshed)
  }

  /** The engine after a completed buy at the candle: the BUY is recorded and the stop limit
      armed at the close times stopLimitPercent. */
  function Bought(ai: Engine, candle: Candle): Engine
  {
    ai.(signalEvents := ai.signalEvents + [Events.SignalEvent(candle.time, ai.productCode, Events.BUY, candle.close, 1.0)],
        stopLimit := candle.close * ai.stopLimitPercent)
  }

  /** A sell is tried (sell vote or close below the stop limit) and the ledger accepts it. */
  predicate SellCompletes(ai: Engine, sells: nat, candle: Candle)
  {
    (sells > 0 || ai.stopLimit > candle.close) && ai.backTest && Events.CanSell(ai.signalEvents, candle.time)
  }

  /** The second half of the loop body: sell on a sell vote or when the close fell below the
      stop limit; a completed sell clears the stop limit and re-optimises the parameters. */
  function SellPhase(ai: Engine, sells: nat, candle: Candle, refreshed: TradeParams): (r: Engine)
    ensures SellCompletes(ai, sells, candle) ==> r == Sold(ai, candle, refreshed)
    ensures !SellCompletes(ai, sells, candle) ==> r == ai
  {
    if sells > 0 || ai.stopLimit > candle.close then
      var s := Sell(ai, candle);
      if !s.isOrderCompleted then ai else s.engine.(stopLimit := 0.0, params := refreshed)
    else ai
  }

  /** One pass of the loop body at index i. A buy that is not completed skips the rest of
      the pass; a completed one arms the stop limit at the close times stopLimitPercent. */
  function TradeStep(ai: Engine, rules: seq<Rule>, candles: seq<Candle>, i: nat, refreshed: TradeParams): (r: Engine)
    requires 1 <= i < |candles| && AllFit(rules, |candles|)
    ensures Tally(rules, candles, i).0 > 0 && ai.backTest && Events.CanBuy(ai.signalEvents, candles[i].time)
            ==> r == Bought(ai, candles[i])
    ensures Tally(rules, candles, i).0 > 0 && !(ai.backTest && Events.CanBuy(ai.signalEvents, candles[i].time))
            ==> r == ai
    ensures Tally(rules, candles, i).0 == 0 && SellCompletes(ai, Tally(rules, candles, i).1, candles[i])
            ==> r == Sold(ai, candles[i], refreshed)
    ensures Tally(rules, candles, i).0 == 0 && !SellCompletes(ai, Tally(rules, candles, i).1, candles[i])
            ==> r == ai
  {
    var (buys, sells) := Tally(rules, candles, i);
    var c := candles[i];
    if buys > 0 then
      var b := Buy(ai, c);
      if !b.isOrderCompleted then ai
      else SellPhase(b.engine.(stopLimit := c.close * ai.stopLimitPercent), sells, c, refreshed)
    else SellPhase(ai, sells, c, refreshed)
  }

  /** The loop of Trade from index i. The rules stay those of the parameters read when Trade
      started, even after a sell replaces the engine's parameters. */
  function TradeLoop(ai: Engine, rules: seq<Rule>, candles: seq<Candle>, i: nat, refreshed: TradeParams): (r: Engine)
    requires 1 <= i && AllFit(rules, |candles|)
    decreases |candles| - i
    ensures r.params == ai.params || r.params == refreshed
    ensures ai.signalEvents <= r.signalEvents
    ensures |r.signalEvents| <= |ai.signalEvents| + (if i < |candles| then |candles| - i else 0)
    ensures Keeps(ai, r)
  {
    if i >= |candles| then ai
    else
      var mid := TradeStep(ai, rules, candles, i, refreshed);
      var r := TradeLoop(mid, rules, candles, i + 1, refreshed);
      TradeStepFacts(ai, rules, candles, i, refreshed);
      KeepsChain(ai, mid, r);
      r
  }

  /** AI.Trade. `acquired` is the outcome of TryAcquire on the trade lock: without it Trade
      returns at once. `df` is the frame GetAllCandle read, and `refreshed` the parameters
      each re-optimisation after a completed sell installs. */
  function Trade(ai: Engine, acquired: bool, df: DataFrameCandle, lib: TaLib, refreshed: TradeParams): (r: Engine)
    requires Aligned(lib)
    ensures !acquired ==> r == ai
    ensures r.productCode == ai.productCode && r.backTest == ai.backTest && r.stopLimitPercent == ai.stopLimitPercent
    ensures !ai.backTest ==> r == ai
    ensures r.params == ai.params || r.params == refreshed
  {
    if !acquired then ai
    else
      var rules := EnabledRules(ai.params, df, lib);
      TradeLoop(ai, rules, df.candles, 1, refreshed)
  }

  /** The stop limit is only armed while a position is open: the ledger's last event is a BUY. */
  predicate StopArmedOnlyHolding(ai: Engine)
  {
    ai.stopLimit != 0.0 ==> |ai.signalEvents| > 0 && Events.Last(ai.signalEvents).side == Events.BUY
  }

  /** From engine ai to engine r, the identity fields stay, the ledger is only appended to,
      the ledger and stop-limit invariants are kept, and live mode changes nothing. */
  predicate Keeps(ai: Engine, r: Engine)
  {
    && r.productCode == ai.productCode && r.backTest == ai.backTest
    && r.stopLimitPercent == ai.stopLimitPercent
    && ai.signalEvents <= r.signalEvents
    && (Events.WellFormed(ai.signalEvents) ==> Events.WellFormed(r.signalEvents))
    && (StopArmedOnlyHolding(ai) ==> StopArmedOnlyHolding(r))
    && (!ai.backTest ==> r == ai)
  }

  lemma KeepsChain(a: Engine, b: Engine, c: Engine)
    requires Keeps(a, b) && Keeps(b, c)
    ensures Keeps(a, c)
  {
  }

  /** What one pass keeps: identity fields, the ledger prefix, the ledger invariant and the
      stop-limit invariant; live mode changes nothing. */
  lemma TradeStepFacts(ai: Engine, rules: seq<Rule>, candles: seq<Candle>, i: nat, refreshed: TradeParams)
    requires 1 <= i < |candles| && AllFit(rules, |candles|)
    ensures Keeps(ai, TradeStep(ai, rules, candles, i, refreshed))
  {
  }

  /** Trade keeps the ledger well formed, only appends to it, and arms the stop limit only
      while holding. */
  lemma TradeKeepsInvariants(ai: Engine, acquired: bool, df: DataFrameCandle, lib: TaLib, refreshed: TradeParams)
    requires Aligned(lib)
    ensures var r := Trade(ai, acquired, df, lib, refreshed);
            && ai.signalEvents <= r.signalEvents
            && (Events.WellFormed(ai.signalEvents) ==> Events.WellFormed(r.signalEvents))
            && (StopArmedOnlyHolding(ai) ==> StopArmedOnlyHolding(r))
  {
    if acquired {
    }
  }

  /** In back-test mode, a pass with no buy vote at a candle whose close fell below the armed
      stop limit sells, clears the stop limit and installs the refreshed parameters,
      provided the open BUY is older than the candle. */
  lemma StopLimitForcesSell(ai: Engine, rules: seq<Rule>, candles: seq<Candle>, i: nat, refreshed: TradeParams)
    requires 1 <= i < |candles| && AllFit(rules, |candles|)
    requires ai.backTest && ai.stopLimit > candles[i].close
    requires forall k :: 0 <= k < |rules| ==> !VoteAt(rules[k], candles, i).buy
    requires |ai.signalEvents| > 0 && Events.Last(ai.signalEvents).side == Events.BUY
    requires Events.Last(ai.signalEvents).time < candles[i].time
    ensures TradeStep(ai, rules, candles, i, refreshed)
            == ai.(signalEvents := ai.signalEvents
                     + [Events.SignalEvent(candles[i].time, ai.productCode, Events.SELL, candles[i].close, 1.0)],
                   stopLimit := 0.0, params := refreshed)
  {
  }

  /** In back-test mode, a pass where some rule votes to buy and the ledger accepts the BUY
      records it and arms the stop limit; the Sell of the same pass is refused, because the
      BUY just recorded is not older than the candle. */
  lemma BuyArmsStopLimit(ai: Engine, rules: seq<Rule>, candles: seq<Candle>, i: nat, refreshed: TradeParams)
    requires 1 <= i < |candles| && AllFit(rules, |candles|)
    requires ai.backTest
    requires exists k :: 0 <= k < |rules| && VoteAt(rules[k], candles, i).buy
    requires Events.CanBuy(ai.signalEvents, candles[i].time)
    ensures TradeStep(ai, rules, candles, i, refreshed)
            == ai.(signalEvents := ai.signalEvents
                     + [Events.SignalEvent(candles[i].time, ai.productCode, Events.BUY, candles[i].close, 1.0)],
                   stopLimit := candles[i].close * ai.stopLimitPercent)
  {
  }

  /** A buy vote whose order is not completed ends the pass: nothing changes, even when a
      rule votes to sell or the close is below the stop limit. */
  lemma RejectedBuySkipsSell(ai: Engine, rules: seq<Rule>, candles: seq<Candle>, i: nat, refreshed: TradeParams)
    requires 1 <= i < |candles| && AllFit(rules, |candles|)
    requires exists k :: 0 <= k < |rules| && VoteAt(rules[k], candles, i).buy
    requires !ai.backTest || !Events.CanBuy(ai.signalEvents, candles[i].time)
    ensures TradeStep(ai, rules, candles, i, refreshed) == ai
  {
  }

  /** In back-test mode, a pass with no buy vote and some sell vote sells when the ledger
      accepts the SELL, clears the stop limit and installs the refreshed parameters. */
  lemma SellVoteSells(ai: Engine, rules: seq<Rule>, candles: seq<Candle>, i: nat, refreshed: TradeParams)
    requires 1 <= i < |candles| && AllFit(rules, |candles|)
    requires ai.backTest
    requires forall k :: 0 <= k < |rules| ==> !VoteAt(rules[k], candles, i).buy
    requires exists k :: 0 <= k < |rules| && VoteAt(rules[k], candles, i).sell
    requires Events.CanSell(ai.signalEvents, candles[i].time)
    ensures TradeStep(ai, rules, candles, i, refreshed)
            == ai.(signalEvents := ai.signalEvents
                     + [Events.SignalEvent(candles[i].time, ai.productCode, Events.SELL, candles[i].close, 1.0)],
                   stopLimit := 0.0, params := refreshed)
  {
  }

  /** When the re-optimisation after a sell reads a window of candles, as Trade does, the
      parameters it installs enable no family: a pass that completes a sell leaves the engine
      on disabled parameters with the stop limit cleared. */
  lemma ReoptimisedSellDisables(ai: Engine, rules: seq<Rule>, candles: seq<Candle>, i: nat,
                                window: DataFrameCandle, lib: TaLib, numRanking: int)
    requires Aligned(lib)
    requires 1 <= i < |candles| && AllFit(rules, |candles|)
    requires forall k :: 0 <= k < |rules| ==> !VoteAt(rules[k], candles, i).buy
    requires SellCompletes(ai, Tally(rules, candles, i).1, candles[i])
    ensures var r := TradeStep(ai, rules, candles, i, OptimizeParams(window, lib, numRanking));
            Disabled(r.params) && r.stopLimit == 0.0
  {
    OptimizedParamsAreIdle(window, lib, numRanking);
  }

  /** Over a whole Trade with that re-optimisation, the parameters either stay as they were
      or end up disabled, and from disabled parameters with an unarmed stop limit the next
      Trade on candles with non-negative closes changes nothing. */
  lemma ReoptimisedTradeDisables(ai: Engine, acquired: bool, df: DataFrameCandle, lib: TaLib,
                                 window: DataFrameCandle, numRanking: int,
                                 next: DataFrameCandle, acquiredNext: bool, refreshedNext: TradeParams)
    requires Aligned(lib)
    requires forall k :: 0 <= k < |next.candles| ==> next.candles[k].close >= 0.0
    ensures var r := Trade(ai, acquired, df, lib, OptimizeParams(window, lib, numRanking));
            && (r.params == ai.params || Disabled(r.params))
            && (Disabled(r.params) && r.stopLimit == 0.0 ==> Trade(r, acquiredNext, next, lib, refreshedNext) == r)
  {
    OptimizedParamsAreIdle(window, lib, numRanking);
    var r := Trade(ai, acquired, df, lib, OptimizeParams(window, lib, numRanking));
    if Disabled(r.params) && r.stopLimit == 0.0 {
      DisabledParamsNeverTrade(r, acquiredNext, next, lib, refreshedNext);
    }
  }

  /** With no family enabled, Trade never buys: the only order it can place is the
      stop-limit exit, and with the stop limit at or below every close it changes nothing. */
  lemma {:induction false} IdleLoop(ai: Engine, candles: seq<Candle>, i: nat, refreshed: TradeParams)
    requires 1 <= i
    requires forall k :: i <= k < |candles| ==> ai.stopLimit <= candles[k].close
    decreases |candles| - i
    ensures TradeLoop(ai, [], candles, i, refreshed) == ai
  {
    if i < |candles| {
      IdleLoop(ai, candles, i + 1, refreshed);
    }
  }

  /** Trade with every family disabled and an unarmed stop limit (0, with non-negative
      closes) leaves the engine as it was. */
  lemma DisabledParamsNeverTrade(ai: Engine, acquired: bool, df: DataFrameCandle, lib: TaLib, refreshed: TradeParams)
    requires Aligned(lib)
    requires Disabled(ai.params)
    requires forall k :: 0 <= k < |df.candles| ==> ai.stopLimit <= df.candles[k].close
    ensures Trade(ai, acquired, df, lib, refreshed) == ai
  {
    if acquired {
      IdleLoop(ai, df.candles, 1, refreshed);
    }
  }

  /** As written, an engine whose parameters came from OptimizeParams, with the stop limit
      unarmed and non-negative closes, never trades. */
  lemma OptimizedEngineIsIdle(ai: Engine, acquired: bool, df: DataFrameCandle, lib: TaLib,
                              history: DataFrameCandle, numRanking: int, refreshed: TradeParams)
    requires Aligned(lib)
    requires ai.params == OptimizeParams(history, lib, numRanking)
    requires ai.stopLimit == 0.0
    requires forall k :: 0 <= k < |df.candles| ==> df.candles[k].close >= 0.0
    ensures Trade(ai, acquired, df, lib, refreshed) == ai
  {
    OptimizedParamsAreIdle(history, lib, numRanking);
    DisabledParamsNeverTrade(ai, acquired, df, lib, refreshed);
  }
}
