/** Final scoring (src/scorers/stock_scorer.py): three component scores from
    the technical, fundamental and delivery analyses are added, clamped to
    the configured range, and turned into a BUY/HOLD/AVOID signal. A missing
    analysis (None, or an empty dictionary) contributes 0. */
module StockScorer {
  import opened Wrappers
  import TA = TechnicalAnalyzer
  import FA = FundamentalAnalyzer
  import DF = DeliveryFetcher
  import PyValues

  /** The constructor's parameters. `holdMax` is stored but never read. */
  datatype Scorer = Scorer(buyThreshold: real, holdMin: real, holdMax: real, minScore: real, maxScore: real)

  const DefaultScorer := Scorer(3.0, 1.0, 2.9, -5.0, 5.0)

  datatype Signal = Buy | Hold | Avoid

  /** The daily retracement bands: closest above the EMA is best; anything
      past 15 percent, or a negative difference, is worth 0.25. */
  function DailyBand(diff: real): (s: real)
    ensures s == 2.0 <==> 0.0 <= diff <= 3.0
    ensures s == 1.5 <==> 3.0 < diff <= 5.0
    ensures s == 1.0 <==> 5.0 < diff <= 8.0
    ensures s == 0.5 <==> 8.0 < diff <= 15.0
    ensures s == 0.25 <==> diff < 0.0 || diff > 15.0
  {
    if 0.0 <= diff <= 3.0 then 2.0
    else if 3.0 < diff <= 5.0 then 1.5
    else if 5.0 < diff <= 8.0 then 1.0
    else if 8.0 < diff <= 15.0 then 0.5
    else 0.25
  }

  /** The weekly bands, twice as wide as the daily ones up to 30 percent. */
  function WeeklyBand(diff: real): (s: real)
    ensures s == 2.0 <==> 0.0 <= diff <= 5.0
    ensures s == 1.5 <==> 5.0 < diff <= 10.0
    ensures s == 1.0 <==> 10.0 < diff <= 20.0
    ensures s == 0.5 <==> 20.0 < diff <= 30.0
    ensures s == 0.25 <==> diff < 0.0 || diff > 30.0
  {
    if 0.0 <= diff <= 5.0 then 2.0
    else if 5.0 < diff <= 10.0 then 1.5
    else if 10.0 < diff <= 20.0 then 1.0
    else if 20.0 < diff <= 30.0 then 0.5
    else 0.25
  }

  /** `_calculate_technical_score`: a timeframe below its EMA scores 0, one
      above it scores its band. */
  function TechnicalScore(a: Option<TA.Analysis>): (s: real)
    ensures 0.0 <= s <= 4.0
    ensures a.None? ==> s == 0.0
    ensures a.Some? ==> (s == 0.0 <==> !a.value.daily.above && !a.value.weekly.above)
    ensures a.Some? && a.value.daily.above && a.value.weekly.above ==>
              s == DailyBand(a.value.daily.diffPct) + WeeklyBand(a.value.weekly.diffPct) && s >= 0.5
    ensures a.Some? && !a.value.weekly.above ==>
              s == (if a.value.daily.above then DailyBand(a.value.daily.diffPct) else 0.0)
    ensures a.Some? && !a.value.daily.above ==>
              s == (if a.value.weekly.above then WeeklyBand(a.value.weekly.diffPct) else 0.0)
  {
    match a
    case None => 0.0
    case Some(t) =>
      (if t.daily.above then DailyBand(t.daily.diffPct) else 0.0)
      + (if t.weekly.above then WeeklyBand(t.weekly.diffPct) else 0.0)
  }

  /** `_calculate_fundamental_score`: twice the quality score. */
  function FundamentalScore(a: Option<FA.Analysis>): (s: real)
    ensures a.None? ==> s == 0.0
    ensures a.Some? ==> s / 2.0 == a.value.qualityScore
    ensures a.Some? ==> (s > 0.0 <==> a.value.qualityScore > 0.0)
  {
    match a
    case None => 0.0
    case Some(f) => f.qualityScore * 2.0
  }

  /** Over the analyzer's own output the fundamental score stays within 1.5 either way. */
  lemma FundamentalScoreBound(t: FA.Thresholds, fundamentals: Option<PyValues.Dict>)
    ensures -1.5 <= FundamentalScore(FA.Analyze(t, fundamentals)) <= 1.5
  {
  }

  /** The quantity-spike tiers; without a spike there are no points. */
  function SpikePoints(hasSpike: bool, ratio: real): (s: real)
    ensures s == 0.0 <==> !hasSpike
    ensures s == 2.0 <==> hasSpike && ratio >= 3.0
    ensures s == 1.5 <==> hasSpike && 2.0 <= ratio < 3.0
    ensures s == 1.0 <==> hasSpike && ratio < 2.0
  {
    if !hasSpike then 0.0
    else if ratio >= 3.0 then 2.0
    else if ratio >= 2.0 then 1.5
    else 1.0
  }

  /** The delivery-percentage confirmation. */
  function PctPoints(pct: real): (s: real)
    ensures s == 1.0 <==> pct > 50.0
    ensures s == 0.5 <==> 35.0 < pct <= 50.0
    ensures s == 0.0 <==> pct <= 35.0
  {
    if pct > 50.0 then 1.0 else if pct > 35.0 then 0.5 else 0.0
  }

  /** `_calculate_delivery_score`: spike tier plus percentage confirmation. */
  function DeliveryScore(d: Option<DF.DeliveryTrend>): (s: real)
    ensures 0.0 <= s <= 3.0
    ensures d.None? ==> s == 0.0
    ensures d.Some? ==> s == SpikePoints(d.value.hasSpike, d.value.spikeRatio) + PctPoints(d.value.latestPct)
    ensures d.Some? ==> (s == 0.0 <==> !d.value.hasSpike && d.value.latestPct <= 35.0)
    ensures d.Some? ==> (s == 3.0 <==> d.value.hasSpike && d.value.spikeRatio >= 3.0 && d.value.latestPct > 50.0)
  {
    match d
    case None => 0.0
    case Some(t) => SpikePoints(t.hasSpike, t.spikeRatio) + PctPoints(t.latestPct)
  }

  /** `max(lo, min(x, hi))`. */
  function Clamp(x: real, lo: real, hi: real): (r: real)
    ensures lo <= hi ==> lo <= r <= hi
    ensures lo <= x <= hi ==> r == x
    ensures lo <= hi && x > hi ==> r == hi
    ensures x < lo ==> r == lo
    ensures r == x || r == lo || r == hi
  {
    if x < hi then (if lo > x then lo else x)
    else (if lo > hi then lo else hi)
  }

  /** Clamping is idempotent: an already clamped score is left alone. */
  lemma ClampIdempotent(x: real, lo: real, hi: real)
    requires lo <= hi
    ensures Clamp(Clamp(x, lo, hi), lo, hi) == Clamp(x, lo, hi)
  {
  }

  /** `_generate_signal`: BUY from the buy threshold up, HOLD from `hold_min` up, else AVOID. */
  function GenerateSignal(s: Scorer, score: real): (sig: Signal)
    ensures sig == Buy <==> score >= s.buyThreshold
    ensures sig == Hold <==> score < s.buyThreshold && score >= s.holdMin
    ensures sig == Avoid <==> score < s.buyThreshold && score < s.holdMin
  {
    if score >= s.buyThreshold then Buy
    else if score >= s.holdMin then Hold
    else Avoid
  }

  /** A higher score never gets a worse signal. */
  function SignalRank(sig: Signal): nat {
    match sig
    case Buy => 2
    case Hold => 1
    case Avoid => 0
  }

  lemma SignalMonotone(s: Scorer, a: real, b: real)
    requires a <= b
    ensures SignalRank(GenerateSignal(s, a)) <= SignalRank(GenerateSignal(s, b))
  {
  }

  /** The result of `calculate_score` (rounding and the echoed components are not kept). */
  datatype ScoreResult = ScoreResult(total: real, signal: Signal, technical: real, fundamental: real, delivery: real)

  /** `calculate_score`: the component scores, their clamped sum and its signal. */
  function CalculateScore(s: Scorer, tech: Option<TA.Analysis>, fund: Option<FA.Analysis>,
                          deliv: Option<DF.DeliveryTrend>): (r: ScoreResult)
    ensures r.technical == TechnicalScore(tech)
    ensures r.fundamental == FundamentalScore(fund)
    ensures r.delivery == DeliveryScore(deliv)
    ensures s.minScore <= s.maxScore ==> s.minScore <= r.total <= s.maxScore
    ensures s.minScore <= r.technical + r.fundamental + r.delivery <= s.maxScore ==>
              r.total == r.technical + r.fundamental + r.delivery
    ensures r.signal == GenerateSignal(s, r.total)
  {
    var t := TechnicalScore(tech);
    var f := FundamentalScore(fund);
    var d := DeliveryScore(deliv);
    var total := Clamp(t + f + d, s.minScore, s.maxScore);
    ScoreResult(total, GenerateSignal(s, total), t, f, d)
  }

  /** With nothing to score, the total is 0 and the signal AVOID. */
  lemma NothingToScore()
    ensures CalculateScore(DefaultScorer, None, None, None) == ScoreResult(0.0, Avoid, 0.0, 0.0, 0.0)
  {
  }

  /** With the analyzers' own outputs the sum lies in [-1.5, 8.5], so under
      the defaults the lower clamp at -5 never binds. */
  lemma LowerClampNeverBinds(tech: Option<TA.Analysis>, t: FA.Thresholds, fundamentals: Option<PyValues.Dict>,
                             deliv: Option<DF.DeliveryTrend>)
    ensures var r := CalculateScore(DefaultScorer, tech, FA.Analyze(t, fundamentals), deliv);
            var sum := r.technical + r.fundamental + r.delivery;
            -1.5 <= sum <= 8.5 && r.total == (if sum > 5.0 then 5.0 else sum)
  {
    FundamentalScoreBound(t, fundamentals);
  }

  /** Signal boundaries at the defaults, and a 7.5 sum capped to 5. */
  lemma SignalExamples()
    ensures GenerateSignal(DefaultScorer, 3.0) == Buy
    ensures GenerateSignal(DefaultScorer, 2.9) == Hold
    ensures GenerateSignal(DefaultScorer, 1.0) == Hold
    ensures GenerateSignal(DefaultScorer, 0.5) == Avoid
    ensures Clamp(7.5, -5.0, 5.0) == 5.0
  {
  }
}
