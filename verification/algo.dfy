/** The indicators the bot computes itself (tradingalgo/algo.go): the window extremum helper,
    the integer min, and the five Ichimoku lines. */
module TradingAlgo {
  import Series

  /** The loop of minMax from index i, with running values lo and hi. Both updates test
      `> price`, so hi tracks the running minimum exactly as lo does. */
  function MinMaxLoop(inReal: seq<real>, i: nat, lo: real, hi: real): (r: (real, real))
    requires i <= |inReal|
    ensures i == |inReal| ==> r == (lo, hi)
    ensures i < |inReal| ==> r.0 == Series.Min(lo, Series.SeqMin(inReal[i..]))
    ensures i < |inReal| ==> r.1 == Series.Min(hi, Series.SeqMin(inReal[i..]))
    decreases |inReal| - i
  {
    if i == |inReal| then (lo, hi)
    else
      var price := inReal[i];
      var lo' := if lo > price then price else lo;
      var hi' := if hi > price then price else hi;
      assert i + 1 < |inReal| ==> inReal[i..][1..] == inReal[i + 1..];
      MinMaxLoop(inReal, i + 1, lo', hi')
  }

  /** minMax: (min, max) as written returns the window minimum twice. Go indexes inReal[0],
      so an empty slice panics; the precondition rules that out. */
  function MinMax(inReal: seq<real>): (r: (real, real))
    requires |inReal| > 0
    ensures r.0 == Series.SeqMin(inReal) && r.1 == Series.SeqMin(inReal)
  {
    assert inReal[0..] == inReal;
    MinMaxLoop(inReal, 0, inReal[0], inReal[0])
  }

  /** min(x, y int): the smaller argument. */
  function Min(x: int, y: int): (r: int)
    ensures r <= x && r <= y
    ensures r == x || r == y
  {
    if x < y then x else y
  }

  function Max(x: int, y: int): int
  {
    if x < y then y else x
  }

  /** (min + max) / 2 of a window, with minMax as written. */
  function WindowMid(w: seq<real>): (m: real)
    requires |w| > 0
    ensures m == Series.SeqMin(w)
  {
    var (lo, hi) := MinMax(w);
    (lo + hi) / 2.0
  }

  datatype Cloud = Cloud(
    tenkan: seq<real>,
    kijun: seq<real>,
    senkouA: seq<real>,
    senkouB: seq<real>,
    chikou: seq<real>)

  /** The value a line of the given window width holds at index j: zero while fewer than
      `width` earlier prices exist, else the window mid of the `width` prices before j
      (index j itself excluded). */
  function LineAt(inReal: seq<real>, j: nat, width: nat): real
    requires j <= |inReal| && width > 0
  {
    if j < width then 0.0 else WindowMid(inReal[j - width..j])
  }

  function SenkouAAt(inReal: seq<real>, j: nat): real
    requires j <= |inReal|
  {
    if j < 26 then 0.0 else (LineAt(inReal, j, 9) + LineAt(inReal, j, 26)) / 2.0
  }

  function ChikouAt(inReal: seq<real>, j: nat): real
    requires j <= |inReal|
  {
    if j < 26 then 0.0 else inReal[j - 26]
  }

  /** The length a line made with min(width, len(inReal)) zeros has before index i. */
  function LenBefore(n: nat, width: nat, i: nat): nat
  {
    Max(Min(width, n), i)
  }

  /** `line` holds the first `len` values of the line of the given width. */
  predicate LineUpTo(inReal: seq<real>, line: seq<real>, len: nat, width: nat)
    requires len <= |inReal| && width > 0
  {
    |line| == len && forall j :: 0 <= j < len ==> line[j] == LineAt(inReal, j, width)
  }

  predicate SenkouAUpTo(inReal: seq<real>, line: seq<real>, len: nat)
    requires len <= |inReal|
  {
    |line| == len && forall j :: 0 <= j < len ==> line[j] == SenkouAAt(inReal, j)
  }

  predicate ChikouUpTo(inReal: seq<real>, line: seq<real>, len: nat)
    requires len <= |inReal|
  {
    |line| == len && forall j :: 0 <= j < len ==> line[j] == ChikouAt(inReal, j)
  }

  /** The state of the IchimokuCloud loop before index i: the slices made with length
      min(width, len(inReal)) and every value appended for the indices before i. */
  predicate Built(inReal: seq<real>, i: nat, c: Cloud)
    requires i <= |inReal|
  {
    var n := |inReal|;
    && LineUpTo(inReal, c.tenkan, LenBefore(n, 9, i), 9)
    && LineUpTo(inReal, c.kijun, LenBefore(n, 26, i), 26)
    && LineUpTo(inReal, c.senkouB, LenBefore(n, 52, i), 52)
    && SenkouAUpTo(inReal, c.senkouA, LenBefore(n, 26, i))
    && ChikouUpTo(inReal, c.chikou, LenBefore(n, 26, i))
  }

  /** The length a line has before index i, and after it: it grows by one exactly from
      index `width` on. */
  lemma LenBeforeStep(n: nat, width: nat, i: nat)
    requires i < n
    ensures i >= width ==> LenBefore(n, width, i) == i && LenBefore(n, width, i + 1) == i + 1
    ensures i < width ==> LenBefore(n, width, i + 1) == LenBefore(n, width, i)
  {
  }

  lemma LineUpToExtend(inReal: seq<real>, line: seq<real>, len: nat, width: nat, x: real)
    requires len < |inReal| && width > 0
    requires LineUpTo(inReal, line, len, width) && x == LineAt(inReal, len, width)
    ensures LineUpTo(inReal, line + [x], len + 1, width)
  {
    var r := line + [x];
    assert forall j :: 0 <= j < len ==> r[j] == line[j];
  }

  lemma SenkouAUpToExtend(inReal: seq<real>, line: seq<real>, len: nat, x: real)
    requires len < |inReal|
    requires SenkouAUpTo(inReal, line, len) && x == SenkouAAt(inReal, len)
    ensures SenkouAUpTo(inReal, line + [x], len + 1)
  {
    var r := line + [x];
    assert forall j :: 0 <= j < len ==> r[j] == line[j];
  }

  lemma ChikouUpToExtend(inReal: seq<real>, line: seq<real>, len: nat, x: real)
    requires len < |inReal|
    requires ChikouUpTo(inReal, line, len) && x == ChikouAt(inReal, len)
    ensures ChikouUpTo(inReal, line + [x], len + 1)
  {
    var r := line + [x];
    assert forall j :: 0 <= j < len ==> r[j] == line[j];
  }

  /** Appends the window mid to a line once its window fits before index i. */
  function Grow(inReal: seq<real>, line: seq<real>, i: nat, width: nat): (r: seq<real>)
    requires i < |inReal| && width > 0
    requires LineUpTo(inReal, line, LenBefore(|inReal|, width, i), width)
    ensures LineUpTo(inReal, r, LenBefore(|inReal|, width, i + 1), width)
  {
    LenBeforeStep(|inReal|, width, i);
    if i >= width then
      var x := WindowMid(inReal[i - width..i]);
      LineUpToExtend(inReal, line, i, width, x);
      line + [x]
    else
      line
  }

  /** Appends (tenkan[i] + kijun[i]) / 2 from index 26 on, reading the lines already grown. */
  function GrowSenkouA(inReal: seq<real>, line: seq<real>, tenkan: seq<real>, kijun: seq<real>, i: nat): (r: seq<real>)
    requires i < |inReal|
    requires SenkouAUpTo(inReal, line, LenBefore(|inReal|, 26, i))
    requires LineUpTo(inReal, tenkan, LenBefore(|inReal|, 9, i + 1), 9)
    requires LineUpTo(inReal, kijun, LenBefore(|inReal|, 26, i + 1), 26)
    ensures SenkouAUpTo(inReal, r, LenBefore(|inReal|, 26, i + 1))
  {
    LenBeforeStep(|inReal|, 26, i);
    if i >= 26 then
      LenBeforeStep(|inReal|, 9, i);
      var x := (tenkan[i] + kijun[i]) / 2.0;
      assert tenkan[i] == LineAt(inReal, i, 9) && kijun[i] == LineAt(inReal, i, 26);
      SenkouAUpToExtend(inReal, line, i, x);
      line + [x]
    else
      line
  }

  /** Appends inReal[i-26] from index 26 on. */
  function GrowChikou(inReal: seq<real>, line: seq<real>, i: nat): (r: seq<real>)
    requires i < |inReal|
    requires ChikouUpTo(inReal, line, LenBefore(|inReal|, 26, i))
    ensures ChikouUpTo(inReal, r, LenBefore(|inReal|, 26, i + 1))
  {
    LenBeforeStep(|inReal|, 26, i);
    if i >= 26 then
      var x := inReal[i - 26];
      ChikouUpToExtend(inReal, line, i, x);
      line + [x]
    else
      line
  }

  /** One pass of the loop body at index i. */
  function Step(inReal: seq<real>, i: nat, c: Cloud): (r: Cloud)
    requires i < |inReal| && Built(inReal, i, c)
    ensures Built(inReal, i + 1, r)
  {
    var tenkan := Grow(inReal, c.tenkan, i, 9);
    var kijun := Grow(inReal, c.kijun, i, 26);
    Cloud(tenkan, kijun,
          GrowSenkouA(inReal, c.senkouA, tenkan, kijun, i),
          Grow(inReal, c.senkouB, i, 52),
          GrowChikou(inReal, c.chikou, i))
  }

  /** The loop `for i := range inReal` from index i to the end. */
  function IchimokuLoop(inReal: seq<real>, i: nat, c: Cloud): (r: Cloud)
    requires i <= |inReal| && Built(inReal, i, c)
    ensures Built(inReal, |inReal|, r)
    decreases |inReal| - i
  {
    if i == |inReal| then c else IchimokuLoop(inReal, i + 1, Step(inReal, i, c))
  }

  function Zeros(n: nat): (r: seq<real>)
    ensures |r| == n && forall j :: 0 <= j < n ==> r[j] == 0.0
  {
    seq(n, _ => 0.0)
  }

  /** The five Ichimoku lines. Every line has the input's length; a line is zero until its
      window fits, and tenkan, kijun and senkouB are then the minimum of the 9, 26 and 52
      prices before the index (the window mid, with minMax's second result also the minimum). */
  function IchimokuCloud(inReal: seq<real>): (r: Cloud)
    ensures |r.tenkan| == |inReal| && |r.kijun| == |inReal| && |r.senkouA| == |inReal|
    ensures |r.senkouB| == |inReal| && |r.chikou| == |inReal|
    ensures forall j :: 0 <= j < |inReal| ==>
              r.tenkan[j] == (if j < 9 then 0.0 else Series.SeqMin(inReal[j - 9..j]))
    ensures forall j :: 0 <= j < |inReal| ==>
              r.kijun[j] == (if j < 26 then 0.0 else Series.SeqMin(inReal[j - 26..j]))
    ensures forall j :: 0 <= j < |inReal| ==>
              r.senkouB[j] == (if j < 52 then 0.0 else Series.SeqMin(inReal[j - 52..j]))
    ensures forall j :: 0 <= j < |inReal| ==>
              r.senkouA[j] == (if j < 26 then 0.0 else (r.tenkan[j] + r.kijun[j]) / 2.0)
    ensures forall j :: 0 <= j < |inReal| ==> r.chikou[j] == (if j < 26 then 0.0 else inReal[j - 26])
  {
    var n := |inReal|;
    var start := Cloud(Zeros(Min(9, n)), Zeros(Min(26, n)), Zeros(Min(26, n)), Zeros(Min(52, n)), Zeros(Min(26, n)));
    assert Built(inReal, 0, start);
    IchimokuLoop(inReal, 0, start)
  }
}
