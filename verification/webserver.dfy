/** Query-parameter defaulting and clamping of apiCandleHandler
    (app/controllers/webserver.go), with strconv.Atoi and the duration table of
    config/config.go. */
module WebServer {
  import opened Wrappers
  import opened Bitflyer

  /** url.Values reduced to the first value of each key, which is what Get returns. */
  type Query = map<string, string>

  /** Values.Get: the first value, or "" for a missing key. */
  function Get(q: Query, key: string): (r: string)
    ensures key in q ==> r == q[key]
    ensures key !in q ==> r == ""
  {
    if key in q then q[key] else ""
  }

  const MinInt64: int := -0x8000_0000_0000_0000
  const MaxInt64: int := 0x7FFF_FFFF_FFFF_FFFF

  predicate IsDigit(c: char)
  {
    '0' <= c <= '9'
  }

  predicate AllDigits(s: string)
  {
    forall k :: 0 <= k < |s| ==> IsDigit(s[k])
  }

  /** The value of a string of decimal digits, most significant first. */
  function DigitsValue(s: string): (r: nat)
    requires AllDigits(s)
  {
    if |s| == 0 then 0
    else DigitsValue(s[..|s| - 1]) * 10 + (s[|s| - 1] as int - '0' as int)
  }

  /** strconv.Atoi on a 64-bit platform: an optional '+' or '-', then one or more ASCII
      digits, with the value inside the int64 range; anything else is an error. */
  function Atoi(s: string): (r: Option<int>)
    ensures |s| == 0 ==> r.None?
    ensures r.Some? ==> MinInt64 <= r.value <= MaxInt64
    ensures (exists k :: 0 <= k < |s| && s[k] == '.') ==> r.None?
  {
    var negative := |s| > 0 && s[0] == '-';
    var body := if |s| > 0 && (s[0] == '+' || s[0] == '-') then s[1..] else s;
    if |body| == 0 || !AllDigits(body) then None
    else
      var d: int := DigitsValue(body);
      var v := if negative then -d else d;
      if MinInt64 <= v <= MaxInt64 then Some(v) else None
  }

  /** The decimal digits of n, without leading zeros. */
  function Digits(n: nat): (r: string)
    ensures |r| > 0 && AllDigits(r)
  {
    if n < 10 then [('0' as int + n) as char]
    else Digits(n / 10) + [('0' as int + n % 10) as char]
  }

  /** strconv.Itoa. */
  function Itoa(n: int): (r: string)
    ensures |r| > 0
  {
    if n < 0 then "-" + Digits(-n) else Digits(n)
  }

  lemma {:induction false} DigitsValueOfDigits(n: nat)
    ensures DigitsValue(Digits(n)) == n
  {
    if n >= 10 {
      var s := Digits(n);
      DigitsValueOfDigits(n / 10);
      assert s[..|s| - 1] == Digits(n / 10);
    }
  }

  /** Atoi reads back what Itoa writes for every int64. */
  lemma AtoiItoa(n: int)
    requires MinInt64 <= n <= MaxInt64
    ensures Atoi(Itoa(n)) == Some(n)
  {
    if n < 0 {
      var s := Itoa(n);
      DigitsValueOfDigits(-n);
      assert s[0] == '-' && s[1..] == Digits(-n);
    } else {
      var s := Digits(n);
      DigitsValueOfDigits(n);
      assert IsDigit(s[0]);
    }
  }

  /** The defaulting rule of every period parameter: the parsed value when the parameter
      is present, parses and is not negative, else the default. */
  function ParamOr(q: Query, key: string, default: int): (r: int)
    ensures default >= 0 ==> r >= 0
    ensures r == default || (Atoi(Get(q, key)).Some? && r == Atoi(Get(q, key)).value && r >= 0)
    ensures key !in q ==> r == default
  {
    var s := Get(q, key);
    var n := Atoi(s);
    if s == "" || n.None? || n.value < 0 then default else n.value
  }

  /** A non-negative int64 written into the query comes back as the parameter. */
  lemma ParamOrReadsBack(q: Query, key: string, default: int, n: int)
    requires 0 <= n <= MaxInt64
    ensures ParamOr(q[key := Itoa(n)], key, default) == n
  {
    AtoiItoa(n);
  }

  /** The limit rule: the parsed value when it lies in [0, 1000], else 1000. */
  function Limit(q: Query): (r: int)
    ensures 0 <= r <= 1000
    ensures Atoi(Get(q, "limit")).Some? && 0 <= Atoi(Get(q, "limit")).value <= 1000 ==> r == Atoi(Get(q, "limit")).value
    ensures !(Atoi(Get(q, "limit")).Some? && 0 <= Atoi(Get(q, "limit")).value <= 1000) ==> r == 1000
  {
    var s := Get(q, "limit");
    var n := Atoi(s);
    if s == "" || n.None? || n.value < 0 || n.value > 1000 then 1000 else n.value
  }

  lemma LimitReadsBack(q: Query, n: int)
    requires MinInt64 <= n <= MaxInt64
    ensures Limit(q["limit" := Itoa(n)]) == if 0 <= n <= 1000 then n else 1000
  {
    AtoiItoa(n);
  }

  const Second: Duration := 1_000_000_000
  const Minute: Duration := 60 * Second
  const Hour: Duration := 60 * Minute

  /** config.Config.Durations. */
  const Durations: map<string, Duration> := map["1s" := Second, "1m" := Minute, "1h" := Hour]

  /** An indexing of a Go map: the zero duration for a key it lacks. */
  function DurationOf(key: string): (r: Duration)
    ensures key in Durations ==> r == Durations[key]
    ensures key !in Durations ==> r == 0
    ensures r > 0 <==> key == "1s" || key == "1m" || key == "1h"
  {
    if key in Durations then Durations[key] else 0
  }

  datatype ApiError = ApiError(message: string, code: int)

  /** The normalised request: each optional indicator is present when its switch parameter
      is non-empty, with its normalised periods. */
  datatype CandleRequest = CandleRequest(
    productCode: string,
    limit: int,
    durationKey: string,
    duration: Duration,
    sma: Option<(int, int, int)>,
    ema: Option<(int, int, int)>,
    bbands: Option<(int, real)>,
    ichimoku: bool,
    rsi: Option<int>,
    macd: Option<(int, int, int)>,
    hv: Option<(int, int, int)>,
    events: bool)

  function Three(q: Query, k1: string, k2: string, k3: string, d1: int, d2: int, d3: int): (r: (int, int, int))
    ensures r.0 == ParamOr(q, k1, d1) && r.1 == ParamOr(q, k2, d2) && r.2 == ParamOr(q, k3, d3)
  {
    (ParamOr(q, k1, d1), ParamOr(q, k2, d2), ParamOr(q, k3, d3))
  }

  /** When `flag` is set, the normalised periods; otherwise nothing. */
  function Switch<T>(q: Query, flag: string, value: T): (r: Option<T>)
    ensures r.Some? <==> Get(q, flag) != ""
    ensures r.Some? ==> r.value == value
  {
    if Get(q, flag) != "" then Some(value) else None
  }

  /** The parameter handling of apiCandleHandler up to the frame it builds. */
  function ParseCandleQuery(q: Query): (r: Result<CandleRequest, ApiError>)
    ensures r.Failure? <==> Get(q, "product_code") == ""
    ensures r.Failure? ==> r.error == ApiError("No product_code param", 400)
    ensures r.Success? ==> r.value.productCode == Get(q, "product_code") && 0 <= r.value.limit <= 1000
    ensures r.Success? ==> r.value.durationKey == (if Get(q, "duration") == "" then "1m" else Get(q, "duration"))
    ensures r.Success? ==> r.value.duration == DurationOf(r.value.durationKey)
    ensures r.Success? && r.value.sma.Some? ==> r.value.sma.value.0 >= 0 && r.value.sma.value.1 >= 0 && r.value.sma.value.2 >= 0
    ensures r.Success? && r.value.ema.Some? ==> r.value.ema.value.0 >= 0 && r.value.ema.value.1 >= 0 && r.value.ema.value.2 >= 0
    ensures r.Success? && r.value.bbands.Some? ==> r.value.bbands.value.0 >= 0 && r.value.bbands.value.1 >= 0.0
    ensures r.Success? && r.value.rsi.Some? ==> r.value.rsi.value >= 0
    ensures r.Success? && r.value.macd.Some? ==> r.value.macd.value.0 >= 0 && r.value.macd.value.1 >= 0 && r.value.macd.value.2 >= 0
    ensures r.Success? && r.value.hv.Some? ==> r.value.hv.value.0 >= 0 && r.value.hv.value.1 >= 0 && r.value.hv.value.2 >= 0
    ensures r.Success? ==> (r.value.ichimoku <==> Get(q, "ichimoku") != "") && (r.value.events <==> Get(q, "events") != "")
  {
    var code := Get(q, "product_code");
    if code == "" then Failure(ApiError("No product_code param", 400))
    else
      var key := if Get(q, "duration") == "" then "1m" else Get(q, "duration");
      Success(CandleRequest(
        code,
        Limit(q),
        key,
        DurationOf(key),
        Switch(q, "sma", Three(q, "smaPeriod1", "smaPeriod2", "smaPeriod3", 7, 14, 50)),
        Switch(q, "ema", Three(q, "emaPeriod1", "emaPeriod2", "emaPeriod3", 7, 14, 50)),
        Switch(q, "bbands", (ParamOr(q, "bbandsN", 20), ParamOr(q, "bbandsK", 2) as real)),
        Get(q, "ichimoku") != "",
        Switch(q, "rsi", ParamOr(q, "rsiPeriod", 14)),
        Switch(q, "macd", Three(q, "macdPeriod1", "macdPeriod2", "macdPeriod3", 12, 26, 9)),
        Switch(q, "hv", Three(q, "hvPeriod1", "hvPeriod2", "hvPeriod3", 21, 63, 252)),
        Get(q, "events") != ""))
  }

  /** With none of its value parameters present, every requested indicator gets its
      defaults: limit 1000, duration "1m", SMA and EMA 7/14/50, bands 20 and 2, RSI 14,
      MACD 12/26/9 and HV 21/63/252. */
  lemma DefaultsWhenAbsent(q: Query)
    requires Get(q, "product_code") != ""
    requires "limit" !in q && "duration" !in q
    requires "smaPeriod1" !in q && "smaPeriod2" !in q && "smaPeriod3" !in q
    requires "emaPeriod1" !in q && "emaPeriod2" !in q && "emaPeriod3" !in q
    requires "bbandsN" !in q && "bbandsK" !in q && "rsiPeriod" !in q
    requires "macdPeriod1" !in q && "macdPeriod2" !in q && "macdPeriod3" !in q
    requires "hvPeriod1" !in q && "hvPeriod2" !in q && "hvPeriod3" !in q
    ensures var r := ParseCandleQuery(q).value;
            && r.limit == 1000 && r.durationKey == "1m" && r.duration == Minute
            && (r.sma.Some? ==> r.sma.value == (7, 14, 50))
            && (r.ema.Some? ==> r.ema.value == (7, 14, 50))
            && (r.bbands.Some? ==> r.bbands.value == (20, 2.0))
            && (r.rsi.Some? ==> r.rsi.value == 14)
            && (r.macd.Some? ==> r.macd.value == (12, 26, 9))
            && (r.hv.Some? ==> r.hv.value == (21, 63, 252))
  {
  }

  /** A Bollinger k written with a fraction does not parse as an integer, so it falls back
      to 2. */
  lemma FractionalKFallsBack(q: Query, k: string)
    requires Get(q, "product_code") != "" && Get(q, "bbands") != ""
    requires exists i :: 0 <= i < |k| && k[i] == '.'
    ensures ParseCandleQuery(q["bbandsK" := k]).value.bbands.value.1 == 2.0
  {
    var q' := q["bbandsK" := k];
    assert Get(q', "product_code") == Get(q, "product_code");
    assert Get(q', "bbands") == Get(q, "bbands");
  }
}
