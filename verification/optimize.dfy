/** Parameter optimisation (app/models/dfcandle.go): grid searches over each back-test and
    the ranking that decides which indicator families the trader uses. */
module Optimize {
  import opened Wrappers
  import opened Events
  import opened DfCandle
  import opened Backtest

  /** The integers lo, lo+1, ..., hi-1: the values of `for v := lo; v < hi; v++`. */
  function Range(lo: int, hi: int): (r: seq<int>)
    ensures |r| == if lo < hi then hi - lo else 0
    ensures forall k :: 0 <= k < |r| ==> r[k] == lo + k
    ensures forall v :: v in r <==> lo <= v < hi
  {
    var r := seq(if lo < hi then hi - lo else 0, k => lo + k);
    assert forall v :: lo <= v < hi ==> v in r by {
      forall v | lo <= v < hi
        ensures v in r
      {
        assert r[v - lo] == v;
      }
    }
    r
  }
  /** The pairs (x, y) for every y in ys, in order. */
  function Row<A(==,!new), B(==,!new)>(x: A, ys: seq<B>): (r: seq<(A, B)>)
    ensures |r| == |ys|
    ensures forall p :: p in r <==> p.0 == x && p.1 in ys
  {
    var r := seq(|ys|, k requires 0 <= k < |ys| => (x, ys[k]));
    assert forall p: (A, B) :: p.0 == x && p.1 in ys ==> p in r by {
      forall p: (A, B) | p.0 == x && p.1 in ys
        ensures p in r
      {
        var k :| 0 <= k < |ys| && ys[k] == p.1;
        assert r[k] == p;
      }
    }
    r
  }
  /** The rows one after another. */
  function Concat<T>(rows: seq<seq<T>>): (r: seq<T>)
  {
    if |rows| == 0 then [] else rows[0] + Concat(rows[1..])
  }
  lemma {:induction false} InConcat<T>(rows: seq<seq<T>>, x: T)
    ensures x in Concat(rows) <==> exists i :: 0 <= i < |rows| && x in rows[i]
  {
    if |rows| > 0 {
      InConcat(rows[1..], x);
      if x in Concat(rows[1..]) {
        var i :| 0 <= i < |rows[1..]| && x in rows[1..][i];
        assert x in rows[i + 1];
      }
      if exists i :: 0 <= i < |rows| && x in rows[i] {
        var i :| 0 <= i < |rows| && x in rows[i];
        if i > 0 {
          assert x in rows[1..][i - 1];
        }
      }
    }
  }
  /** The pairs of a nested loop, outer index first. */
  function Pairs<A(==,!new), B(==,!new)>(xs: seq<A>, ys: seq<B>): (r: seq<(A, B)>)
    ensures forall p :: p in r <==> p.0 in xs && p.1 in ys
  {
    var rows := seq(|xs|, i requires 0 <= i < |xs| => Row(xs[i], ys));
    var r := Concat(rows);
    assert forall p: (A, B) :: p in r <==> p.0 in xs && p.1 in ys by {
      forall p: (A, B)
        ensures p in r <==> p.0 in xs && p.1 in ys
      {
        InConcat(rows, p);
        if p.0 in xs && p.1 in ys {
          var i :| 0 <= i < |xs| && xs[i] == p.0;
          assert p in rows[i];
        }
      }
    }
    r
  }
  /** The best score a search has seen and the parameters that produced it. */
  datatype Best<C> = Best(performance: real, params: C)

  /** The profit of a back-test, or nothing when it returned nil. */
  function Score(events: Option<SignalEvents>): (r: Option<real>)
    ensures r.Some? <==> events.Some?
    ensures r.Some? ==> r.value == Profit(events.value)
  {
    match events
    case None => None
    case Some(s) => Some(Profit(s))
  }

  /** The loop of OptimizeEma, OptimizeBb and OptimizeRsi from candidate i on: a candidate
      replaces the best only when its score is strictly higher, so ties keep the earlier one. */
  function Search<C>(cands: seq<C>, test: C -> Option<real>, i: nat, acc: Best<C>): (r: Best<C>)
    requires i <= |cands|
    decreases |cands| - i
    ensures r.performance >= acc.performance
    ensures r.performance == acc.performance ==> r == acc
    ensures r.performance > acc.performance ==> r.params in cands[i..] && test(r.params) == Some(r.performance)
    ensures forall j :: i <= j < |cands| && test(cands[j]).Some? ==> test(cands[j]).value <= r.performance
  {
    if i == |cands| then acc
    else
      var next := match test(cands[i])
        case None => acc
        case Some(p) => if acc.performance < p then Best(p, cands[i]) else acc;
      Search(cands, test, i + 1, next)
  }

  /** The loop of OptimizeMacd: every round back-tests the best parameters found so far
      rather than the round's candidate, and records the candidate when that scores higher. */
  function StaleSearch<C>(cands: seq<C>, test: C -> Option<real>, i: nat, acc: Best<C>): (r: Best<C>)
    requires i <= |cands|
    decreases |cands| - i
    ensures r.performance >= acc.performance
    ensures r.performance == acc.performance ==> r == acc
    ensures r.performance > acc.performance ==> r.params in cands[i..]
    ensures (test(acc.params).None? || test(acc.params).value <= acc.performance) ==> r == acc
  {
    if i == |cands| then acc
    else
      var next := match test(acc.params)
        case None => acc
        case Some(p) => if acc.performance < p then Best(p, cands[i]) else acc;
      StaleSearch(cands, test, i + 1, next)
  }

  /** The k values of `for k := 1.9; k < 2.1; k += 0.1` in float64: 1.9 + 0.1 rounds to 2.0,
      and 2.0 + 0.1 rounds to the same double as the literal 2.1, which ends the loop. */
  const BbKGrid: seq<real> := [1.9, 2.0]

  const EmaGrid: seq<(int, int)> := Pairs(Range(5, 50), Range(12, 50))

  const BbGrid: seq<(int, real)> := Pairs(Range(10, 20), BbKGrid)

  const MacdGrid: seq<(int, (int, int))> := Pairs(Range(10, 19), Pairs(Range(20, 30), Range(5, 15)))

  const RsiGrid: seq<int> := Range(5, 25)

  /** The EMA grid holds every period pair of the two nested loops. */
  lemma EmaGridCovers()
    ensures forall p1, p2 :: 5 <= p1 < 50 && 12 <= p2 < 50 ==> (p1, p2) in EmaGrid
  {
  }

  function OptimizeEma(df: DataFrameCandle, lib: TaLib): (r: Best<(int, int)>)
    requires Aligned(lib)
    ensures r.performance >= 0.0
    ensures r.performance == 0.0 ==> r.params == (7, 14)
    ensures r.performance > 0.0 ==>
              r.params in EmaGrid && Score(BackTestEma(df, lib, r.params.0, r.params.1)) == Some(r.performance)
    ensures forall p1, p2 :: 5 <= p1 < 50 && 12 <= p2 < 50 && BackTestEma(df, lib, p1, p2).Some? ==>
              Profit(BackTestEma(df, lib, p1, p2).value) <= r.performance
  {
    var test := (p: (int, int)) => Score(BackTestEma(df, lib, p.0, p.1));
    var r := Search(EmaGrid, test, 0, Best(0.0, (7, 14)));
    EmaGridCovers();
    r
  }

  function OptimizeBb(df: DataFrameCandle, lib: TaLib): (r: Best<(int, real)>)
    requires Aligned(lib)
    ensures r.performance >= 0.0
    ensures r.performance == 0.0 ==> r.params == (20, 2.0)
    ensures r.performance > 0.0 ==>
              r.params in BbGrid && Score(BackTestBb(df, lib, r.params.0, r.params.1)) == Some(r.performance)
    ensures forall n, k :: 10 <= n < 20 && k in BbKGrid && BackTestBb(df, lib, n, k).Some? ==>
              Profit(BackTestBb(df, lib, n, k).value) <= r.performance
  {
    var test := (p: (int, real)) => Score(BackTestBb(df, lib, p.0, p.1));
    var r := Search(BbGrid, test, 0, Best(0.0, (20, 2.0)));
    assert forall n, k :: 10 <= n < 20 && k in BbKGrid ==> (n, k) in BbGrid;
    r
  }

  /** OptimizeIchimoku: the profit of the one back-test, or 0 when it returned nil. */
  function OptimizeIchimoku(df: DataFrameCandle): (r: real)
    ensures r == 0.0
    ensures BackTestIchimoku(df).Some? ==> r == Profit(BackTestIchimoku(df).value)
  {
    match BackTestIchimoku(df)
    case None => 0.0
    case Some(s) => Profit(s)
  }

  function OptimizeMacd(df: DataFrameCandle, lib: TaLib): (r: Best<(int, (int, int))>)
    requires Aligned(lib)
    ensures r.performance >= 0.0
    ensures r.performance == 0.0 ==> r.params == (12, (26, 9))
    ensures r.performance > 0.0 ==> r.params in MacdGrid
    ensures (BackTestMacd(df, lib, 12, 26, 9).None? || Profit(BackTestMacd(df, lib, 12, 26, 9).value) <= 0.0) ==>
              r == Best(0.0, (12, (26, 9)))
  {
    var test := (p: (int, (int, int))) => Score(BackTestMacd(df, lib, p.0, p.1.0, p.1.1));
    StaleSearch(MacdGrid, test, 0, Best(0.0, (12, (26, 9))))
  }

  /** OptimizeRsi: only the period is searched; the thresholds stay 30 and 70. */
  datatype RsiBest = RsiBest(performance: real, period: int, buyThread: real, sellThread: real)

  function OptimizeRsi(df: DataFrameCandle, lib: TaLib): (r: RsiBest)
    requires Aligned(lib)
    ensures r.buyThread == 30.0 && r.sellThread == 70.0
    ensures r.performance >= 0.0
    ensures r.performance == 0.0 ==> r.period == 14
    ensures r.performance > 0.0 ==>
              5 <= r.period < 25 && Score(BackTestRsi(df, lib, r.period, 30.0, 70.0)) == Some(r.performance)
    ensures forall p :: 5 <= p < 25 && BackTestRsi(df, lib, p, 30.0, 70.0).Some? ==>
              Profit(BackTestRsi(df, lib, p, 30.0, 70.0).value) <= r.performance
  {
    var test := (p: int) => Score(BackTestRsi(df, lib, p, 30.0, 70.0));
    var b := Search(RsiGrid, test, 0, Best(0.0, 14));
    assert forall p :: 5 <= p < 25 ==> p in RsiGrid;
    RsiBest(b.performance, b.params, 30.0, 70.0)
  }

  /** Family g is placed ahead of family f by the sort: higher performance, or the same
      performance and earlier in the list, since Go sorts five elements by insertion,
      which keeps equal elements in order. */
  predicate Ahead(perfs: seq<real>, g: nat, f: nat)
    requires g < |perfs| && f < |perfs|
  {
    perfs[g] > perfs[f] || (perfs[g] == perfs[f] && g < f)
  }

  /** Every family in s is listed ahead of the ones after it. */
  predicate Ordered(perfs: seq<real>, s: seq<nat>)
  {
    && (forall k :: 0 <= k < |s| ==> s[k] < |perfs|)
    && (forall a, b :: 0 <= a < b < |s| ==> Ahead(perfs, s[a], s[b]))
  }

  /** One outer step of Go's insertion sort: x moves left past every element whose
      performance is strictly lower (less(i, j) is perfs[i] > perfs[j]). */
  function Insert(perfs: seq<real>, s: seq<nat>, x: nat): (r: seq<nat>)
    requires Ordered(perfs, s) && x < |perfs|
    requires forall k :: 0 <= k < |s| ==> s[k] < x
    ensures |r| == |s| + 1
    ensures forall g :: g in r <==> g in s || g == x
    ensures Ordered(perfs, r)
  {
    if |s| == 0 || perfs[x] <= perfs[s[|s| - 1]] then s + [x]
    else
      var last, init := s[|s| - 1], s[..|s| - 1];
      var pre := Insert(perfs, init, x);
      assert forall g :: g in s <==> g in init || g == last;
      forall a | 0 <= a < |pre|
        ensures Ahead(perfs, pre[a], last)
      {
        assert pre[a] in pre;
        if pre[a] != x {
          var j :| 0 <= j < |init| && init[j] == pre[a];
          assert s[j] == pre[a];
        }
      }
      pre + [last]
  }

  /** sort.Slice on the rankings of families 0 .. n-1, by descending performance. */
  function SortRankings(perfs: seq<real>, n: nat): (r: seq<nat>)
    requires n <= |perfs|
    ensures |r| == n
    ensures forall g: nat :: g in r <==> g < n
    ensures Ordered(perfs, r)
  {
    if n == 0 then []
    else
      var s := SortRankings(perfs, n - 1);
      assert forall k :: 0 <= k < |s| ==> s[k] in s;
      Insert(perfs, s, n - 1)
  }

  /** The enable loop from sorted position i on: positions below numRanking are enabled
      when their performance is positive, and the loop stops at numRanking. */
  function MarkLoop(perfs: seq<real>, order: seq<nat>, numRanking: int, i: nat, enabled: seq<bool>): (r: seq<bool>)
    requires |enabled| == |perfs| && i <= |order|
    requires forall k :: 0 <= k < |order| ==> order[k] < |perfs|
    decreases |order| - i
    ensures |r| == |perfs|
    ensures forall f :: 0 <= f < |perfs| ==>
              (r[f] <==> enabled[f] || (perfs[f] > 0.0 && exists k :: i <= k < |order| && k < numRanking && order[k] == f))
  {
    if i == |order| || i >= numRanking then enabled
    else
      var f := order[i];
      MarkLoop(perfs, order, numRanking, i + 1, if perfs[f] > 0.0 then enabled[f := true] else enabled)
  }

  /** The Enable flags OptimizeParams computes for the given performances. */
  function Rankings(perfs: seq<real>, numRanking: int): (r: seq<bool>)
    ensures |r| == |perfs|
    ensures forall f :: 0 <= f < |perfs| ==> r[f] ==> perfs[f] > 0.0
  {
    MarkLoop(perfs, SortRankings(perfs, |perfs|), numRanking, 0, seq(|perfs|, _ => false))
  }

  /** An ordered sequence lists no family twice. */
  lemma OrderedDistinct(perfs: seq<real>, s: seq<nat>)
    requires Ordered(perfs, s)
    ensures forall a, b :: 0 <= a < b < |s| ==> s[a] != s[b]
  {
    forall a, b | 0 <= a < b < |s|
      ensures s[a] != s[b]
    {
      assert Ahead(perfs, s[a], s[b]);
    }
  }

  /** In an ordered sequence, a family placed ahead of another sits at a smaller position. */
  lemma AheadIsEarlier(perfs: seq<real>, s: seq<nat>, a: nat, b: nat)
    requires Ordered(perfs, s) && a < |s| && b < |s|
    requires Ahead(perfs, s[a], s[b])
    ensures a < b
  {
  }

  /** How many families the sort places ahead of f: the reference definition of f's rank. */
  function Rank(perfs: seq<real>, f: nat): nat
    requires f < |perfs|
  {
    |set g | 0 <= g < |perfs| && Ahead(perfs, g, f)|
  }

  /** The families at positions 0 .. p-1 of s. */
  function Prefix(s: seq<nat>, p: nat): set<nat>
    requires p <= |s|
  {
    set a | 0 <= a < p :: s[a]
  }

  /** Distinct entries give a prefix set with one element per position. */
  lemma {:induction false} PrefixSize(s: seq<nat>, p: nat)
    requires p <= |s|
    requires forall a, b :: 0 <= a < b < |s| ==> s[a] != s[b]
    ensures |Prefix(s, p)| == p
  {
    if p > 0 {
      PrefixSize(s, p - 1);
      assert Prefix(s, p) == Prefix(s, p - 1) + {s[p - 1]};
      assert s[p - 1] !in Prefix(s, p - 1);
    }
  }

  lemma {:induction false} SubsetSize<T>(a: set<T>, b: set<T>)
    requires a <= b
    ensures |a| <= |b|
  {
    if a != {} {
      var x :| x in a;
      SubsetSize(a - {x}, b - {x});
    }
  }

  /** In the sorted order, a family's position is its rank. */
  lemma PositionIsRank(perfs: seq<real>, order: seq<nat>, p: nat)
    requires Ordered(perfs, order) && |order| == |perfs|
    requires forall g: nat :: g in order <==> g < |perfs|
    requires p < |order|
    ensures Rank(perfs, order[p]) == p
  {
    var f := order[p];
    var ahead := set g | 0 <= g < |perfs| && Ahead(perfs, g, f);
    forall g | g in ahead
      ensures g in Prefix(order, p)
    {
      assert g in order;
      var b :| 0 <= b < |order| && order[b] == g;
      AheadIsEarlier(perfs, order, b, p);
    }
    assert ahead == Prefix(order, p);
    PrefixSize(order, p);
  }

  /** The enable flags equal the reference definition: a family is enabled exactly when its
      performance is positive and fewer than numRanking families rank ahead of it. */
  lemma RankingByRank(perfs: seq<real>, numRanking: int, f: nat)
    requires f < |perfs|
    ensures Rankings(perfs, numRanking)[f] <==> perfs[f] > 0.0 && Rank(perfs, f) < numRanking
  {
    var order := SortRankings(perfs, |perfs|);
    assert f in order;
    var p :| 0 <= p < |order| && order[p] == f;
    PositionIsRank(perfs, order, p);
    OrderedDistinct(perfs, order);
  }

  /** Ranking is stable and monotone: a family the sort places ahead of an enabled family
      is enabled too, whenever its own performance is positive. */
  lemma AheadOfEnabledIsEnabled(perfs: seq<real>, numRanking: int, g: nat, f: nat)
    requires g < |perfs| && f < |perfs|
    requires Rankings(perfs, numRanking)[f] && Ahead(perfs, g, f)
    ensures Rankings(perfs, numRanking)[g]
  {
    RankingByRank(perfs, numRanking, f);
    RankingByRank(perfs, numRanking, g);
    var order := SortRankings(perfs, |perfs|);
    assert f in order && g in order;
    var p :| 0 <= p < |order| && order[p] == f;
    var q :| 0 <= q < |order| && order[q] == g;
    PositionIsRank(perfs, order, p);
    PositionIsRank(perfs, order, q);
    AheadIsEarlier(perfs, order, q, p);
  }

  /** At most numRanking families are enabled (none when it is zero or negative). */
  lemma RankingCount(perfs: seq<real>, numRanking: int)
    ensures |set f: nat | f < |perfs| && Rankings(perfs, numRanking)[f]| <= if numRanking < 0 then 0 else numRanking
  {
    var order := SortRankings(perfs, |perfs|);
    var top := if numRanking < 0 then 0 else if numRanking < |order| then numRanking else |order|;
    var enabled := set f: nat | f < |perfs| && Rankings(perfs, numRanking)[f];
    forall f | f in enabled
      ensures f in Prefix(order, top)
    {
      var k :| 0 <= k < |order| && k < numRanking && order[k] == f;
      assert k < top;
    }
    assert enabled <= Prefix(order, top);
    OrderedDistinct(perfs, order);
    PrefixSize(order, top);
    SubsetSize(enabled, Prefix(order, top));
  }

  /** Raising numRanking never disables a family, and once it covers every family the
      flags are exactly "performance is positive". */
  lemma RankingMonotone(perfs: seq<real>, n: int, m: int, f: nat)
    requires f < |perfs| && n <= m
    ensures Rankings(perfs, n)[f] ==> Rankings(perfs, m)[f]
    ensures m >= |perfs| ==> (Rankings(perfs, m)[f] <==> perfs[f] > 0.0)
  {
    RankingByRank(perfs, n, f);
    RankingByRank(perfs, m, f);
    var order := SortRankings(perfs, |perfs|);
    assert f in order;
    var p :| 0 <= p < |order| && order[p] == f;
    PositionIsRank(perfs, order, p);
  }

  datatype TradeParams = TradeParams(
    emaEnable: bool, emaPeriod1: int, emaPeriod2: int,
    bbEnable: bool, bbN: int, bbK: real,
    ichimokuEnable: bool,
    macdEnable: bool, macdFastPeriod: int, macdSlowPeriod: int, macdSignalPeriod: int,
    rsiEnable: bool, rsiPeriod: int, rsiBuyThread: real, rsiSellThread: real)

  /** The ranking step of OptimizeParams over the five optimiser results, listed as EMA,
      Bollinger bands, MACD, Ichimoku, RSI. */
  function Choose(ema: Best<(int, int)>, bb: Best<(int, real)>, macd: Best<(int, (int, int))>,
                  ichimoku: real, rsi: RsiBest, numRanking: int): (r: TradeParams)
    ensures (r.emaPeriod1, r.emaPeriod2) == ema.params && (r.bbN, r.bbK) == bb.params
    ensures (r.macdFastPeriod, (r.macdSlowPeriod, r.macdSignalPeriod)) == macd.params
    ensures r.rsiPeriod == rsi.period && r.rsiBuyThread == rsi.buyThread && r.rsiSellThread == rsi.sellThread
    ensures var on := Rankings([ema.performance, bb.performance, macd.performance, ichimoku, rsi.performance], numRanking);
            r.emaEnable == on[0] && r.bbEnable == on[1] && r.macdEnable == on[2]
            && r.ichimokuEnable == on[3] && r.rsiEnable == on[4]
    ensures r.emaEnable ==> ema.performance > 0.0
    ensures r.bbEnable ==> bb.performance > 0.0
    ensures r.macdEnable ==> macd.performance > 0.0
    ensures r.ichimokuEnable ==> ichimoku > 0.0
    ensures r.rsiEnable ==> rsi.performance > 0.0
  {
    var on := Rankings([ema.performance, bb.performance, macd.performance, ichimoku, rsi.performance], numRanking);
    TradeParams(on[0], ema.params.0, ema.params.1,
                on[1], bb.params.0, bb.params.1,
                on[3],
                on[2], macd.params.0, macd.params.1.0, macd.params.1.1,
                on[4], rsi.period, rsi.buyThread, rsi.sellThread)
  }

  /** OptimizeParams: each family's best parameters, enabled when ranked among the first
      numRanking with a positive performance. */
  function OptimizeParams(df: DataFrameCandle, lib: TaLib, numRanking: int): (r: TradeParams)
    requires Aligned(lib)
    ensures r.rsiBuyThread == 30.0 && r.rsiSellThread == 70.0
    ensures r.emaEnable ==> OptimizeEma(df, lib).performance > 0.0
    ensures r.ichimokuEnable ==> OptimizeIchimoku(df) > 0.0
  {
    Choose(OptimizeEma(df, lib), OptimizeBb(df, lib), OptimizeMacd(df, lib), OptimizeIchimoku(df),
           OptimizeRsi(df, lib), numRanking)
  }

  /** As written, every back-test reports zero profit, so every optimiser keeps its
      defaults with performance 0. */
  lemma OptimizersKeepDefaults(df: DataFrameCandle, lib: TaLib)
    requires Aligned(lib)
    ensures OptimizeEma(df, lib) == Best(0.0, (7, 14))
    ensures OptimizeBb(df, lib) == Best(0.0, (20, 2.0))
    ensures OptimizeMacd(df, lib) == Best(0.0, (12, (26, 9)))
    ensures OptimizeIchimoku(df) == 0.0
    ensures OptimizeRsi(df, lib) == RsiBest(0.0, 14, 30.0, 70.0)
  {
    EmaKeepsDefaults(df, lib);
    BbKeepsDefaults(df, lib);
    MacdKeepsDefaults(df, lib);
    RsiKeepsDefaults(df, lib);
  }

  lemma EmaKeepsDefaults(df: DataFrameCandle, lib: TaLib)
    requires Aligned(lib)
    ensures OptimizeEma(df, lib) == Best(0.0, (7, 14))
  {
  }

  lemma BbKeepsDefaults(df: DataFrameCandle, lib: TaLib)
    requires Aligned(lib)
    ensures OptimizeBb(df, lib) == Best(0.0, (20, 2.0))
  {
  }

  lemma MacdKeepsDefaults(df: DataFrameCandle, lib: TaLib)
    requires Aligned(lib)
    ensures OptimizeMacd(df, lib) == Best(0.0, (12, (26, 9)))
  {
  }

  lemma RsiKeepsDefaults(df: DataFrameCandle, lib: TaLib)
    requires Aligned(lib)
    ensures OptimizeRsi(df, lib) == RsiBest(0.0, 14, 30.0, 70.0)
  {
  }

  /** As written, OptimizeParams enables no family and returns the default parameters. */
  lemma OptimizedParamsAreIdle(df: DataFrameCandle, lib: TaLib, numRanking: int)
    requires Aligned(lib)
    ensures OptimizeParams(df, lib, numRanking)
            == TradeParams(false, 7, 14, false, 20, 2.0, false, false, 12, 26, 9, false, 14, 30.0, 70.0)
  {
    OptimizersKeepDefaults(df, lib);
  }
}
