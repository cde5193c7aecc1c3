/** Fundamental ratio banding (src/analyzers/fundamental_analyzer.py). Four
    ratios are each put into a band worth a sub-score; the mean of the four
    sub-scores is the quality score, which is banded again into a rating. */
module FundamentalAnalyzer {
  import opened Wrappers
  import opened PyValues

  /** The band edges of the analyzer's constructor. */
  datatype Thresholds = Thresholds(
    peLow: real, peHigh: real,
    roeGood: real, roePoor: real,
    debtLow: real, debtHigh: real,
    pbLow: real, pbHigh: real)

  /** The constructor's default band edges. */
  const DefaultThresholds := Thresholds(20.0, 40.0, 15.0, 0.0, 0.5, 2.0, 1.5, 5.0)

  /** The `rating` labels of the per-ratio analyses. */
  datatype MetricRating =
    | NotAvailable | Good | Fair | Expensive | Excellent | Poor
    | LowDebt | ModerateDebt | HighDebt | Undervalued | Overvalued

  /** One ratio's analysis: the value seen, its band and the band's score. */
  datatype Assessment = Assessment(value: real, rating: MetricRating, score: real)

  datatype QualityRating =
    | QualityExcellent | QualityGood | QualityFair | QualityPoor | QualityVeryPoor

  /** The dictionary `analyze` returns (the human-readable messages are not kept). */
  datatype Analysis = Analysis(
    pe: Assessment, roe: Assessment, debt: Assessment, pb: Assessment,
    qualityScore: real, qualityRating: QualityRating,
    marketCap: Value, sector: Value, industry: Value)

  /** `_analyze_pe_ratio`: a non-positive P/E is unavailable; cheaper is better. */
  function AnalyzePe(t: Thresholds, pe: real): (a: Assessment)
    ensures a.value == pe
    ensures a.score == 1.0 <==> 0.0 < pe < t.peLow
    ensures a.score == 0.0 <==> pe <= 0.0 || t.peLow <= pe < t.peHigh
    ensures a.score == -1.0 <==> pe > 0.0 && pe >= t.peLow && pe >= t.peHigh
    ensures a.rating == NotAvailable <==> pe <= 0.0
  {
    if pe <= 0.0 then Assessment(pe, NotAvailable, 0.0)
    else if pe < t.peLow then Assessment(pe, Good, 1.0)
    else if pe < t.peHigh then Assessment(pe, Fair, 0.0)
    else Assessment(pe, Expensive, -1.0)
  }

  /** `_analyze_roe`: every ROE has a band; at or below `roe_poor` is poor. */
  function AnalyzeRoe(t: Thresholds, roe: real): (a: Assessment)
    ensures a.value == roe
    ensures a.score == 1.0 <==> roe >= t.roeGood
    ensures a.score == 0.0 <==> t.roePoor < roe < t.roeGood
    ensures a.score == -1.0 <==> roe < t.roeGood && roe <= t.roePoor
  {
    if roe >= t.roeGood then Assessment(roe, Excellent, 1.0)
    else if roe > t.roePoor then Assessment(roe, Fair, 0.0)
    else Assessment(roe, Poor, -1.0)
  }

  /** `_analyze_debt`: a negative ratio is unavailable; zero debt is low debt. */
  function AnalyzeDebt(t: Thresholds, debtToEquity: real): (a: Assessment)
    ensures a.value == debtToEquity
    ensures a.score == 0.5 <==> 0.0 <= debtToEquity < t.debtLow
    ensures a.score == 0.0 <==> debtToEquity < 0.0 || t.debtLow <= debtToEquity < t.debtHigh
    ensures a.score == -0.5 <==> debtToEquity >= 0.0 && debtToEquity >= t.debtLow && debtToEquity >= t.debtHigh
    ensures a.rating == NotAvailable <==> debtToEquity < 0.0
  {
    if debtToEquity < 0.0 then Assessment(debtToEquity, NotAvailable, 0.0)
    else if debtToEquity < t.debtLow then Assessment(debtToEquity, LowDebt, 0.5)
    else if debtToEquity < t.debtHigh then Assessment(debtToEquity, ModerateDebt, 0.0)
    else Assessment(debtToEquity, HighDebt, -0.5)
  }

  /** `_analyze_pb_ratio`: a non-positive P/B is unavailable; cheaper is better. */
  function AnalyzePb(t: Thresholds, pb: real): (a: Assessment)
    ensures a.value == pb
    ensures a.score == 0.5 <==> 0.0 < pb < t.pbLow
    ensures a.score == 0.0 <==> pb <= 0.0 || t.pbLow <= pb < t.pbHigh
    ensures a.score == -0.5 <==> pb > 0.0 && pb >= t.pbLow && pb >= t.pbHigh
    ensures a.rating == NotAvailable <==> pb <= 0.0
  {
    if pb <= 0.0 then Assessment(pb, NotAvailable, 0.0)
    else if pb < t.pbLow then Assessment(pb, Undervalued, 0.5)
    else if pb < t.pbHigh then Assessment(pb, Fair, 0.0)
    else Assessment(pb, Overvalued, -0.5)
  }

  /** The order of the quality ratings, worst first. */
  function QualityRank(q: QualityRating): nat {
    match q
    case QualityVeryPoor => 0
    case QualityPoor => 1
    case QualityFair => 2
    case QualityGood => 3
    case QualityExcellent => 4
  }

  /** `_get_quality_rating`: bands at 0.75, 0.25, -0.25 and -0.75. */
  function GetQualityRating(score: real): (q: QualityRating)
    ensures q == QualityExcellent <==> score >= 0.75
    ensures q == QualityVeryPoor <==> score < -0.75
    ensures q == QualityFair <==> -0.25 <= score < 0.25
  {
    if score >= 0.75 then QualityExcellent
    else if score >= 0.25 then QualityGood
    else if score >= -0.25 then QualityFair
    else if score >= -0.75 then QualityPoor
    else QualityVeryPoor
  }

  /** A higher quality score never earns a worse rating. */
  lemma QualityRatingMonotone(s1: real, s2: real)
    requires s1 <= s2
    ensures QualityRank(GetQualityRating(s1)) <= QualityRank(GetQualityRating(s2))
  {
  }

  /** `fundamentals.get(key, 0)` used as a number: a missing key reads as 0; a
      value Python cannot compare with a number raises `TypeError`. */
  function NumberField(d: Dict, key: string): (r: Result<real>)
    ensures key !in d ==> r == Ok(0.0)
    ensures key in d ==> (r.Ok? <==> AsNumber(d[key]).Some?)
  {
    if key !in d then Ok(0.0)
    else match AsNumber(d[key])
      case Some(x) => Ok(x)
      case None => Err("TypeError")
  }

  /** `analyze`: `None` for a missing or empty dictionary and for a ratio that is
      not a number; otherwise each ratio read with `get(key, 0)` and put into
      its band, the mean of the four band scores rated by `_get_quality_rating`,
      and the descriptive fields passed through. The quality score can never
      fall below -0.75, so the `VERY_POOR` rating is never produced. */
  function Analyze(t: Thresholds, fundamentals: Option<Dict>): (r: Option<Analysis>)
    ensures fundamentals == None ==> r == None
    ensures fundamentals.Some? && |fundamentals.value| == 0 ==> r == None
    ensures fundamentals.Some? && |fundamentals.value| > 0 ==>
              (r.Some? <==> forall k :: k in ["pe_ratio", "roe", "debt_to_equity", "pb_ratio"] ==>
                                          NumberField(fundamentals.value, k).Ok?)
    ensures r.Some? ==> -0.75 <= r.value.qualityScore <= 0.75
    ensures r.Some? ==> r.value.qualityRating != QualityVeryPoor
    ensures r.Some? ==>
              var a := r.value;
              a.qualityScore == (a.pe.score + a.roe.score + a.debt.score + a.pb.score) / 4.0
    ensures r.Some? ==>
              var d := fundamentals.value;
              var a := r.value;
              && NumberField(d, "pe_ratio") == Ok(a.pe.value) && a.pe == AnalyzePe(t, a.pe.value)
              && NumberField(d, "roe") == Ok(a.roe.value) && a.roe == AnalyzeRoe(t, a.roe.value)
              && NumberField(d, "debt_to_equity") == Ok(a.debt.value) && a.debt == AnalyzeDebt(t, a.debt.value)
              && NumberField(d, "pb_ratio") == Ok(a.pb.value) && a.pb == AnalyzePb(t, a.pb.value)
    ensures r.Some? ==> r.value.qualityRating == GetQualityRating(r.value.qualityScore)
    ensures r.Some? ==>
              var d := fundamentals.value;
              && r.value.marketCap == Get(d, "market_cap", VInt(0))
              && r.value.sector == Get(d, "sector", VStr("N/A"))
              && r.value.industry == Get(d, "industry", VStr("N/A"))
  {
    match fundamentals
    case None => None
    case Some(d) =>
      if |d| == 0 then None
      else
        var pe := NumberField(d, "pe_ratio");
        var roe := NumberField(d, "roe");
        var de := NumberField(d, "debt_to_equity");
        var pb := NumberField(d, "pb_ratio");
        if pe.Err? || roe.Err? || de.Err? || pb.Err? then None
        else
          var a1 := AnalyzePe(t, pe.value);
          var a2 := AnalyzeRoe(t, roe.value);
          var a3 := AnalyzeDebt(t, de.value);
          var a4 := AnalyzePb(t, pb.value);
          var quality := (a1.score + a2.score + a3.score + a4.score) / 4.0;
          Some(Analysis(a1, a2, a3, a4, quality, GetQualityRating(quality),
                        Get(d, "market_cap", VInt(0)), Get(d, "sector", VStr("N/A")),
                        Get(d, "industry", VStr("N/A"))))
  }

  /** An `EXCELLENT` rating needs every ratio in its best band. */
  lemma ExcellentNeedsBestBands(t: Thresholds, fundamentals: Option<Dict>)
    requires Analyze(t, fundamentals).Some?
    requires Analyze(t, fundamentals).value.qualityRating == QualityExcellent
    ensures var a := Analyze(t, fundamentals).value;
            a.pe.score == 1.0 && a.roe.score == 1.0 && a.debt.score == 0.5 && a.pb.score == 0.5
  {
  }

  /** Under the default thresholds a missing ROE scores -1 and a missing
      debt-to-equity ratio scores +0.5, because both read as 0. */
  lemma MissingRoeAndDebtScores(d: Dict)
    requires Analyze(DefaultThresholds, Some(d)).Some?
    ensures "roe" !in d ==> Analyze(DefaultThresholds, Some(d)).value.roe.score == -1.0
    ensures "debt_to_equity" !in d ==> Analyze(DefaultThresholds, Some(d)).value.debt.score == 0.5
  {
  }
}
