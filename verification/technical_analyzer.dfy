/** Multi-timeframe EMA classification (src/analyzers/technical_analyzer.py).
    The daily closes and the weekly closes (pandas' weekly resample of the same
    history) are inputs; EMAs follow pandas' `ewm(span=period, adjust=False)`:
    the first value is the first price and every later value moves a fraction
    `alpha = 2 / (period + 1)` of the way towards the new price. */
module TechnicalAnalyzer {
  import opened Wrappers
  import Stats

  const DefaultDailyPeriod: int := 252
  const DefaultWeeklyPeriod: int := 260
  /** The slope lookbacks `analyze` passes: 20 days and 4 weeks. */
  const DailySlopeDays: nat := 20
  const WeeklySlopeWeeks: nat := 4

  /** The smoothing factor of `span=period`; pandas refuses a span below 1. */
  function Alpha(period: int): (a: real)
    requires period >= 1
    ensures 0.0 < a <= 1.0
  {
    2.0 / (period as real + 1.0)
  }

  /** The last value of the EMA of `prices`. */
  function EmaLast(prices: seq<real>, alpha: real): real
    requires |prices| > 0
  {
    if |prices| == 1 then prices[0]
    else alpha * prices[|prices| - 1] + (1.0 - alpha) * EmaLast(prices[..|prices| - 1], alpha)
  }

  /** The whole EMA series: its `t`-th value is the EMA of the first `t + 1` prices. */
  function EmaSeries(prices: seq<real>, alpha: real): (e: seq<real>)
    ensures |e| == |prices|
    ensures |prices| > 0 ==> e[0] == prices[0]
    ensures forall t :: 1 <= t < |prices| ==> e[t] == alpha * prices[t] + (1.0 - alpha) * e[t - 1]
  {
    var e := seq(|prices|, i requires 0 <= i < |prices| => EmaLast(prices[..i + 1], alpha));
    assert forall t :: 1 <= t < |prices| ==> prices[..t + 1][..t] == prices[..t];
    e
  }

  /** The EMA of a constant series is that constant. */
  lemma {:induction false} EmaOfConstant(prices: seq<real>, alpha: real, c: real)
    requires |prices| > 0
    requires forall i :: 0 <= i < |prices| ==> prices[i] == c
    ensures EmaLast(prices, alpha) == c
  {
    if |prices| > 1 {
      EmaOfConstant(prices[..|prices| - 1], alpha, c);
    }
  }

  /** With `0 < alpha <= 1` the EMA is a weighted average of the prices, so it
      stays within their range. */
  lemma {:induction false} EmaWithinRange(prices: seq<real>, alpha: real, lo: real, hi: real)
    requires |prices| > 0 && 0.0 < alpha <= 1.0
    requires forall i :: 0 <= i < |prices| ==> lo <= prices[i] <= hi
    ensures lo <= EmaLast(prices, alpha) <= hi
  {
    if |prices| > 1 {
      var prev := prices[..|prices| - 1];
      EmaWithinRange(prev, alpha, lo, hi);
      var p := prices[|prices| - 1];
      var e := EmaLast(prev, alpha);
      ConvexStep(alpha, p, e, lo, hi);
    }
  }

  /** A step of the recurrence mixes two values of a range and stays in it. */
  lemma ConvexStep(alpha: real, p: real, e: real, lo: real, hi: real)
    requires 0.0 < alpha <= 1.0 && lo <= p <= hi && lo <= e <= hi
    ensures lo <= alpha * p + (1.0 - alpha) * e <= hi
  {
    Stats.MulNonneg(alpha, hi - p);
    Stats.MulNonneg(1.0 - alpha, hi - e);
    Stats.MulNonneg(alpha, p - lo);
    Stats.MulNonneg(1.0 - alpha, e - lo);
  }

  /** `_calculate_ema_value`: `None` with fewer rows than the period (or a span
      pandas refuses), otherwise the last EMA value, which lies between the
      smallest and the largest price. */
  function EmaValue(prices: seq<real>, period: int): (r: Option<real>)
    ensures r.Some? <==> period >= 1 && |prices| >= period
    ensures r.Some? ==> Stats.Min(prices) <= r.value <= Stats.Max(prices)
    ensures r.Some? && (forall i :: 0 <= i < |prices| ==> prices[i] == prices[0]) ==> r.value == prices[0]
  {
    if period < 1 || |prices| < period then None
    else
      EmaWithinRange(prices, Alpha(period), Stats.Min(prices), Stats.Max(prices));
      if forall i :: 0 <= i < |prices| ==> prices[i] == prices[0] then
        EmaOfConstant(prices, Alpha(period), prices[0]);
        Some(EmaLast(prices, Alpha(period)))
      else Some(EmaLast(prices, Alpha(period)))
  }

  /** The EMA loop pandas runs, written out: it agrees with `EmaValue`. */
  method ComputeEma(prices: seq<real>, period: int) returns (r: Option<real>)
    ensures r == EmaValue(prices, period)
  {
    if period < 1 || |prices| < period {
      return None;
    }
    var alpha := 2.0 / (period as real + 1.0);
    var ema := prices[0];
    var t := 1;
    while t < |prices|
      invariant 1 <= t <= |prices|
      invariant ema == EmaLast(prices[..t], alpha)
    {
      assert prices[..t + 1][..t] == prices[..t];
      ema := alpha * prices[t] + (1.0 - alpha) * ema;
      t := t + 1;
    }
    assert prices[..t] == prices;
    return Some(ema);
  }

  /** `lookback = weeks if weeks else days if days else 5` (0 stands for `None`). */
  function SlopeLookback(weeks: nat, days: nat): (n: nat)
    ensures n >= 1
    ensures weeks > 0 ==> n == weeks
    ensures weeks == 0 && days > 0 ==> n == days
  {
    if weeks != 0 then weeks else if days != 0 then days else 5
  }

  /** Index of the EMA value the slope starts from: `lookback` back from the end,
      clipped to the series. */
  function SlopeStart(len: nat, weeks: nat, days: nat): (i: nat)
    requires len >= 1
    ensures i < len
  {
    var lookback := SlopeLookback(weeks, days);
    if len < lookback then 0 else len - lookback
  }

  /** `_calculate_ema_slope`: the percentage change of the EMA over the lookback
      window; 0 with fewer than two points, with a start value that is not
      positive, or with a span pandas refuses. It is positive exactly when the
      EMA rose from a positive start. */
  function EmaSlope(closes: seq<real>, period: int, weeks: nat, days: nat): (r: real)
    ensures |closes| < 2 || period < 1 ==> r == 0.0
    ensures |closes| >= 2 && period >= 1 ==>
              var e := EmaSeries(closes, Alpha(period));
              var start := e[SlopeStart(|e|, weeks, days)];
              (r > 0.0 <==> start > 0.0 && e[|e| - 1] > start)
              && (r < 0.0 <==> start > 0.0 && e[|e| - 1] < start)
              && (start > 0.0 ==> r == Stats.PercentChange(start, e[|e| - 1]))
              && (start <= 0.0 ==> r == 0.0)
  {
    if period < 1 then 0.0
    else
      var e := EmaSeries(closes, Alpha(period));
      if |e| < 2 then 0.0
      else
        var start := e[SlopeStart(|e|, weeks, days)];
        var end := e[|e| - 1];
        if start > 0.0 then
          assert (end - start) / start * 100.0 > 0.0 <==> end > start;
          assert (end - start) / start * 100.0 < 0.0 <==> end < start;
          (end - start) / start * 100.0
        else 0.0
  }

  /** The EMA of a flat positive price history does not slope. */
  lemma FlatHistoryHasNoSlope(closes: seq<real>, period: int, weeks: nat, days: nat)
    requires period >= 1 && |closes| >= 2 && closes[0] > 0.0
    requires forall i :: 0 <= i < |closes| ==> closes[i] == closes[0]
    ensures EmaSlope(closes, period, weeks, days) == 0.0
  {
    var e := EmaSeries(closes, Alpha(period));
    var i := SlopeStart(|e|, weeks, days);
    EmaOfConstant(closes[..i + 1], Alpha(period), closes[0]);
    EmaOfConstant(closes[..|closes|], Alpha(period), closes[0]);
    assert closes[..|closes|] == closes;
  }

  /** One timeframe's comparison of the current price with its EMA. An absent or
      zero EMA is falsy in Python: the price then counts as not above and the
      difference as 0. */
  datatype Timeframe = Timeframe(ema: real, above: bool, diffPct: real)

  function CompareWithEma(current: real, ema: Option<real>): (f: Timeframe)
    ensures ema.None? || ema == Some(0.0) ==> !f.above && f.diffPct == 0.0 && f.ema == 0.0
    ensures ema.Some? && ema.value > 0.0 ==> (f.above <==> f.diffPct > 0.0)
    ensures f.above ==> ema.Some? && current > ema.value
  {
    match ema
    case Some(e) =>
      if e != 0.0 then
        assert e > 0.0 ==> ((current - e) / e * 100.0 > 0.0 <==> current > e);
        Timeframe(e, current > e, (current - e) / e * 100.0)
      else Timeframe(0.0, false, 0.0)
    case None => Timeframe(0.0, false, 0.0)
  }

  datatype TrendStrength = VeryStrong | Strong | Weak | StrengthDowntrend
  datatype OverallTrend = StrongUptrend | Uptrend | WeakUptrend | Downtrend
  datatype SlopeTrend = Rising | Falling | Flat

  /** `trend_strength`. */
  function ClassifyStrength(daily: Timeframe, weekly: Timeframe): (s: TrendStrength)
    ensures s == VeryStrong <==> daily.above && weekly.above && daily.diffPct > 5.0 && weekly.diffPct > 5.0
    ensures s == Strong <==> daily.above && weekly.above && !(daily.diffPct > 5.0 && weekly.diffPct > 5.0)
    ensures s == Weak <==> daily.above != weekly.above
    ensures s == StrengthDowntrend <==> !daily.above && !weekly.above
  {
    if daily.above && weekly.above then
      (if daily.diffPct > 5.0 && weekly.diffPct > 5.0 then VeryStrong else Strong)
    else if daily.above || weekly.above then Weak
    else StrengthDowntrend
  }

  /** `overall_trend`: only the daily timeframe being above gives a weak
      uptrend; the weekly one alone counts as a downtrend. */
  function ClassifyOverall(dailyAbove: bool, weeklyAbove: bool, dailySlope: real, weeklySlope: real): (t: OverallTrend)
    ensures t == StrongUptrend <==> dailyAbove && weeklyAbove && dailySlope > 0.0 && weeklySlope > 0.0
    ensures t == Uptrend <==> dailyAbove && weeklyAbove && !(dailySlope > 0.0 && weeklySlope > 0.0)
    ensures t == WeakUptrend <==> dailyAbove && !weeklyAbove
    ensures t == Downtrend <==> !dailyAbove
  {
    if dailyAbove && weeklyAbove && dailySlope > 0.0 && weeklySlope > 0.0 then StrongUptrend
    else if dailyAbove && weeklyAbove then Uptrend
    else if dailyAbove then WeakUptrend
    else Downtrend
  }

  /** `slope_trend`: beyond plus or minus 2 percent. */
  function ClassifySlope(slope: real): (t: SlopeTrend)
    ensures t == Rising <==> slope > 2.0
    ensures t == Falling <==> slope < -2.0
    ensures t == Flat <==> -2.0 <= slope <= 2.0
  {
    if slope > 2.0 then Rising else if slope < -2.0 then Falling else Flat
  }

  /** The dictionary `analyze` returns (rounding and the duplicated legacy keys
      are not kept). */
  datatype Analysis = Analysis(
    currentPrice: real,
    daily: Timeframe, dailySlopePct: real,
    weekly: Timeframe, weeklySlopePct: real,
    alignment: nat, strength: TrendStrength, overall: OverallTrend,
    slopeTrend: SlopeTrend, dataPoints: nat)

  /** `analyze`: `None` for an empty history; otherwise the two timeframes
      compared with their EMAs and classified. */
  function Analyze(daily: seq<real>, weekly: seq<real>, dailyPeriod: int, weeklyPeriod: int): (r: Option<Analysis>)
    ensures r.None? <==> |daily| == 0
    ensures r.Some? ==> r.value.currentPrice == daily[|daily| - 1] && r.value.dataPoints == |daily|
    ensures r.Some? ==>
              r.value.alignment == (if r.value.daily.above then 1 else 0) + (if r.value.weekly.above then 1 else 0)
    ensures r.Some? ==> r.value.alignment <= 2
    ensures r.Some? ==>
              (r.value.daily.above <==>
                 EmaValue(daily, dailyPeriod).Some? && daily[|daily| - 1] > EmaValue(daily, dailyPeriod).value
                 && EmaValue(daily, dailyPeriod).value != 0.0)
    ensures r.Some? && |daily| < dailyPeriod ==> !r.value.daily.above && r.value.daily.diffPct == 0.0
    ensures r.Some? && |weekly| < weeklyPeriod ==> !r.value.weekly.above && r.value.weekly.diffPct == 0.0
    ensures r.Some? ==>
              (r.value.weekly.above <==>
                 EmaValue(weekly, weeklyPeriod).Some? && daily[|daily| - 1] > EmaValue(weekly, weeklyPeriod).value
                 && EmaValue(weekly, weeklyPeriod).value != 0.0)
    ensures r.Some? ==>
              && r.value.daily == CompareWithEma(r.value.currentPrice, EmaValue(daily, dailyPeriod))
              && r.value.weekly == CompareWithEma(r.value.currentPrice, EmaValue(weekly, weeklyPeriod))
    ensures r.Some? ==>
              && r.value.dailySlopePct == EmaSlope(daily, dailyPeriod, 0, DailySlopeDays)
              && r.value.weeklySlopePct == EmaSlope(weekly, weeklyPeriod, WeeklySlopeWeeks, 0)
    ensures r.Some? ==>
              var a := r.value;
              && a.strength == ClassifyStrength(a.daily, a.weekly)
              && a.overall == ClassifyOverall(a.daily.above, a.weekly.above, a.dailySlopePct, a.weeklySlopePct)
              && a.slopeTrend == ClassifySlope(a.dailySlopePct)
  {
    if |daily| == 0 then None
    else
      var current := daily[|daily| - 1];
      var d := CompareWithEma(current, EmaValue(daily, dailyPeriod));
      var w := CompareWithEma(current, EmaValue(weekly, weeklyPeriod));
      var dailySlope := EmaSlope(daily, dailyPeriod, 0, DailySlopeDays);
      var weeklySlope := EmaSlope(weekly, weeklyPeriod, WeeklySlopeWeeks, 0);
      var alignment := (if d.above then 1 else 0) + (if w.above then 1 else 0);
      Some(Analysis(current, d, dailySlope, w, weeklySlope, alignment,
                    ClassifyStrength(d, w), ClassifyOverall(d.above, w.above, dailySlope, weeklySlope),
                    ClassifySlope(dailySlope), |daily|))
  }
}
