/** The scoring of the older batch pipeline (data_pipeline.py): five
    banded components summed and capped at +5, a BUY/HOLD/AVOID signal, and
    the delivery-percentage trend over the fetched bhavcopy days. */
module DataPipeline {
  import opened Wrappers
  import Ranking
  import NF = NseFetcher
  import SS = StockScorer

  /** The trend label `_calculate_delivery_trend` produces. */
  datatype DeliveryTrend = Rising | Falling | Flat | InsufficientData

  /** The columns of one stock's row that the score reads; `None` is a
      missing (NaN) cell. `aboveEma` is `price_vs_ema == 'ABOVE'`. */
  datatype StockRow = StockRow(
    currentPrice: Option<real>, ema: Option<real>, aboveEma: bool, priceEmaPct: real,
    emaSlope: Option<real>, pe: Option<real>, roe: Option<real>, debtToEquity: Option<real>,
    deliveryPct: Option<real>, deliveryTrend: Option<DeliveryTrend>)

  /** 1. EMA trend: +2 above the EMA by more than 5%, +1 above it otherwise. */
  function EmaPoints(row: StockRow): (p: real)
    ensures p == 2.0 <==> row.currentPrice.Some? && row.ema.Some? && row.aboveEma && row.priceEmaPct > 5.0
    ensures p == 1.0 <==> row.currentPrice.Some? && row.ema.Some? && row.aboveEma && row.priceEmaPct <= 5.0
    ensures p == 0.0 <==> row.currentPrice.None? || row.ema.None? || !row.aboveEma
  {
    if row.currentPrice.None? || row.ema.None? || !row.aboveEma then 0.0
    else if row.priceEmaPct > 5.0 then 2.0 else 1.0
  }

  /** 2. EMA slope: +1 above 2%, -1 below -2%. */
  function SlopePoints(row: StockRow): (p: real)
    ensures p == 1.0 <==> row.emaSlope.Some? && row.emaSlope.value > 2.0
    ensures p == -1.0 <==> row.emaSlope.Some? && row.emaSlope.value < -2.0
    ensures p == 0.0 <==> row.emaSlope.None? || -2.0 <= row.emaSlope.value <= 2.0
  {
    match row.emaSlope
    case None => 0.0
    case Some(s) => if s > 2.0 then 1.0 else if s < -2.0 then -1.0 else 0.0
  }

  function PePoints(pe: Option<real>): (p: real)
    ensures p == 1.0 <==> pe.Some? && 0.0 < pe.value < 20.0
    ensures p == -1.0 <==> pe.Some? && pe.value > 40.0
  {
    match pe
    case None => 0.0
    case Some(x) => if 0.0 < x < 20.0 then 1.0 else if x > 40.0 then -1.0 else 0.0
  }

  /** ROE arrives as a fraction and is compared as a percentage. */
  function RoePoints(roe: Option<real>): (p: real)
    ensures p == 1.0 <==> roe.Some? && roe.value * 100.0 > 15.0
    ensures p == -1.0 <==> roe.Some? && roe.value * 100.0 < 0.0
  {
    match roe
    case None => 0.0
    case Some(x) => if x * 100.0 > 15.0 then 1.0 else if x * 100.0 < 0.0 then -1.0 else 0.0
  }

  function DebtPoints(debt: Option<real>): (p: real)
    ensures p == 0.5 <==> debt.Some? && debt.value < 0.5
    ensures p == -0.5 <==> debt.Some? && debt.value > 2.0
  {
    match debt
    case None => 0.0
    case Some(x) => if x < 0.5 then 0.5 else if x > 2.0 then -0.5 else 0.0
  }

  /** 3. Fundamentals: the sum of the three ratio points; a missing value adds nothing. */
  function FundamentalPoints(row: StockRow): (p: real)
    ensures -2.5 <= p <= 2.5
    ensures row.pe.None? && row.roe.None? && row.debtToEquity.None? ==> p == 0.0
  {
    var pe := PePoints(row.pe);
    var roe := RoePoints(row.roe);
    var debt := DebtPoints(row.debtToEquity);
    assert pe == 1.0 || pe == -1.0 || pe == 0.0;
    assert roe == 1.0 || roe == -1.0 || roe == 0.0;
    assert debt == 0.5 || debt == -0.5 || debt == 0.0;
    pe + roe + debt
  }

  /** 4. Delivery percentage: +2 above 50, +1 above 35. */
  function DeliveryPoints(row: StockRow): (p: real)
    ensures p == 2.0 <==> row.deliveryPct.Some? && row.deliveryPct.value > 50.0
    ensures p == 1.0 <==> row.deliveryPct.Some? && 35.0 < row.deliveryPct.value <= 50.0
    ensures p == 0.0 <==> row.deliveryPct.None? || row.deliveryPct.value <= 35.0
  {
    match row.deliveryPct
    case None => 0.0
    case Some(d) => if d > 50.0 then 2.0 else if d > 35.0 then 1.0 else 0.0
  }

  /** 5. Delivery trend: +1 when rising. */
  function TrendPoints(row: StockRow): (p: real)
    ensures p == 1.0 <==> row.deliveryTrend == Some(Rising)
    ensures p == 0.0 <==> row.deliveryTrend != Some(Rising)
  {
    if row.deliveryTrend == Some(Rising) then 1.0 else 0.0
  }

  /** The five components before the cap. */
  function RawScore(row: StockRow): (s: real)
    ensures -3.5 <= s <= 8.5
  {
    EmaPoints(row) + SlopePoints(row) + FundamentalPoints(row) + DeliveryPoints(row) + TrendPoints(row)
  }

  /** `max(-5, min(5, score))`. */
  function Cap(x: real): (r: real)
    ensures -5.0 <= r <= 5.0
    ensures -5.0 <= x <= 5.0 ==> r == x
    ensures x > 5.0 ==> r == 5.0
    ensures x < -5.0 ==> r == -5.0
  {
    if x > 5.0 then 5.0 else if x < -5.0 then -5.0 else x
  }

  /** The score of one row. */
  function Score(row: StockRow): (s: real)
    ensures -5.0 <= s <= 5.0
  {
    Cap(RawScore(row))
  }

  /** The lower cap never binds: the score is the raw sum, cut off at 5,
      and never below -3.5. */
  lemma LowerCapNeverBinds(row: StockRow)
    ensures Score(row) == if RawScore(row) > 5.0 then 5.0 else RawScore(row)
    ensures Score(row) >= -3.5
  {
  }

  /** The signal bands: BUY from 3, HOLD from 1. */
  function Signal(score: real): (sig: SS.Signal)
    ensures sig == SS.Buy <==> score >= 3.0
    ensures sig == SS.Hold <==> 1.0 <= score < 3.0
    ensures sig == SS.Avoid <==> score < 1.0
  {
    if score >= 3.0 then SS.Buy else if score >= 1.0 then SS.Hold else SS.Avoid
  }

  /** The older pipeline draws the same signal lines as the scorer's defaults. */
  lemma SameSignalsAsScorer(score: real)
    ensures Signal(score) == SS.GenerateSignal(SS.DefaultScorer, score)
  {
  }

  datatype Scored = Scored(score: real, signal: SS.Signal)

  /** `_calculate_scores`: one score and signal per row, in row order. */
  function CalculateScores(rows: seq<StockRow>): (r: seq<Scored>)
    ensures |r| == |rows|
    ensures forall i :: 0 <= i < |rows| ==> r[i].score == Score(rows[i]) && r[i].signal == Signal(r[i].score)
  {
    seq(|rows|, i requires 0 <= i < |rows| => Scored(Score(rows[i]), Signal(Score(rows[i]))))
  }

  /** A stock strong on every component (7.5 points) is capped at 5 and is a BUY. */
  lemma CappedExample()
    ensures var row := StockRow(Some(110.0), Some(100.0), true, 10.0, Some(3.0), Some(15.0), Some(0.2), Some(0.3),
                                Some(40.0), Some(Rising));
            RawScore(row) == 7.5 && Score(row) == 5.0 && Signal(Score(row)) == SS.Buy
  {
  }

  /** A row with nothing known scores 0 and is AVOID. */
  lemma MissingDataExample()
    ensures var row := StockRow(Some(100.0), None, false, 0.0, None, None, None, None, None, None);
            Score(row) == 0.0 && Signal(Score(row)) == SS.Avoid
  {
  }

  /** The signal examples of the pipeline's own checks. */
  lemma SignalExamples()
    ensures Signal(5.0) == SS.Buy && Signal(3.5) == SS.Buy && Signal(3.0) == SS.Buy
    ensures Signal(2.0) == SS.Hold && Signal(1.5) == SS.Hold && Signal(1.0) == SS.Hold
    ensures Signal(0.5) == SS.Avoid && Signal(0.0) == SS.Avoid && Signal(-2.0) == SS.Avoid
    ensures Cap(10.0) == 5.0 && Cap(-10.0) == -5.0
  {
  }

  // ----------------------------------------------------- delivery trend

  /** First against last: up more than 5% is rising, down more than 5% is
      falling; fewer than two values are not enough. */
  function TrendOf(pcts: seq<real>): (t: DeliveryTrend)
    ensures t == InsufficientData <==> |pcts| < 2
    ensures t == Rising <==> |pcts| >= 2 && pcts[|pcts| - 1] > pcts[0] * 1.05
    ensures t == Falling <==> |pcts| >= 2 && pcts[|pcts| - 1] <= pcts[0] * 1.05 && pcts[|pcts| - 1] < pcts[0] * 0.95
  {
    if |pcts| < 2 then InsufficientData
    else if pcts[|pcts| - 1] > pcts[0] * 1.05 then Rising
    else if pcts[|pcts| - 1] < pcts[0] * 0.95 then Falling
    else Flat
  }

  /** For a positive first value the bands are ordered: rising and falling exclude each other. */
  lemma PositiveStartBands(pcts: seq<real>)
    requires |pcts| >= 2 && pcts[0] > 0.0
    ensures TrendOf(pcts) == Falling <==> pcts[|pcts| - 1] < pcts[0] * 0.95
    ensures TrendOf(pcts) == Flat <==> pcts[0] * 0.95 <= pcts[|pcts| - 1] <= pcts[0] * 1.05
  {
  }

  /** The delivery percentage one bhavcopy table gives for `symbol`, if any. */
  function DayPct(symbol: string, table: NF.Table): Option<real> {
    match NF.GetDeliveryData(symbol, table)
    case Some(d) => Some(d.deliveryPct)
    case None => None
  }

  /** The figure of each of `days`, `None` where the table yields nothing. */
  function Figures(days: seq<int>, data: map<int, NF.Table>, symbol: string): (r: seq<Option<real>>)
    requires forall i :: 0 <= i < |days| ==> days[i] in data
    ensures |r| == |days| && forall i :: 0 <= i < |days| ==> r[i] == DayPct(symbol, data[days[i]])
  {
    seq(|days|, i requires 0 <= i < |days| => DayPct(symbol, data[days[i]]))
  }

  /** How many positions of `xs` hold a figure. */
  function CountSome(xs: seq<Option<real>>): (n: nat)
    ensures n <= |xs|
    ensures n == 0 <==> forall i :: 0 <= i < |xs| ==> xs[i].None?
  {
    if |xs| == 0 then 0
    else
      assert forall i :: 1 <= i < |xs| ==> xs[i] == xs[1..][i - 1];
      (if xs[0].Some? then 1 else 0) + CountSome(xs[1..])
  }

  /** The first position holding a figure. */
  function FirstIndex(xs: seq<Option<real>>): (r: Option<nat>)
    ensures r.None? <==> forall i :: 0 <= i < |xs| ==> xs[i].None?
    ensures r.Some? ==> r.value < |xs| && xs[r.value].Some? && forall i :: 0 <= i < r.value ==> xs[i].None?
  {
    if |xs| == 0 then None
    else if xs[0].Some? then Some(0)
    else
      assert forall i :: 1 <= i < |xs| ==> xs[i] == xs[1..][i - 1];
      match FirstIndex(xs[1..])
      case Some(j) => Some(j + 1)
      case None => None
  }

  /** The last position holding a figure. */
  function LastIndex(xs: seq<Option<real>>): (r: Option<nat>)
    ensures r.None? <==> forall i :: 0 <= i < |xs| ==> xs[i].None?
    ensures r.Some? ==> r.value < |xs| && xs[r.value].Some? && forall i :: r.value < i < |xs| ==> xs[i].None?
  {
    if |xs| == 0 then None
    else
      assert forall i :: 1 <= i < |xs| ==> xs[i] == xs[1..][i - 1];
      match LastIndex(xs[1..])
      case Some(j) => Some(j + 1)
      case None => if xs[0].Some? then Some(0) else None
  }

  /** The figures of `xs` in order, skipping the gaps: as many as there are,
      starting with the first and ending with the last. */
  function Kept(xs: seq<Option<real>>): (r: seq<real>)
    ensures |r| == CountSome(xs)
    ensures |r| > 0 ==> Some(r[0]) == xs[FirstIndex(xs).value] && Some(r[|r| - 1]) == xs[LastIndex(xs).value]
  {
    FigureIndices(xs);
    if |xs| == 0 then []
    else
      var rest := Kept(xs[1..]);
      match xs[0]
      case Some(x) => [x] + rest
      case None => rest
  }

  /** A figure exactly when there is a first and a last one. */
  lemma FigureIndices(xs: seq<Option<real>>)
    ensures CountSome(xs) > 0 <==> FirstIndex(xs).Some?
    ensures CountSome(xs) > 0 <==> LastIndex(xs).Some?
  {
  }

  /** Two figures or more lie at two different positions, the first before the last. */
  lemma {:induction false} TwoFiguresApart(xs: seq<Option<real>>)
    ensures CountSome(xs) >= 2 <==> FirstIndex(xs).Some? && FirstIndex(xs).value < LastIndex(xs).value
  {
    if |xs| > 0 {
      TwoFiguresApart(xs[1..]);
      OneFigure(xs[1..]);
    }
  }

  /** Exactly one figure sits at one position, which is both the first and the last. */
  lemma {:induction false} OneFigure(xs: seq<Option<real>>)
    ensures CountSome(xs) == 1 ==> FirstIndex(xs) == LastIndex(xs)
    ensures CountSome(xs) > 0 ==> FirstIndex(xs).value <= LastIndex(xs).value
  {
    if |xs| > 0 {
      OneFigure(xs[1..]);
    }
  }

  /** With a figure everywhere, every figure is kept in place. */
  lemma {:induction false} KeptAll(xs: seq<Option<real>>)
    ensures (forall i :: 0 <= i < |xs| ==> xs[i].Some?) ==>
              |Kept(xs)| == |xs| && forall i :: 0 <= i < |xs| ==> Some(Kept(xs)[i]) == xs[i]
  {
    if |xs| > 0 {
      KeptAll(xs[1..]);
    }
  }

  /** The delivery percentages of `symbol` on `days`, in that order, skipping
      days whose table yields nothing. */
  function PctsOn(days: seq<int>, data: map<int, NF.Table>, symbol: string): (r: seq<real>)
    requires forall i :: 0 <= i < |days| ==> days[i] in data
    ensures var xs := Figures(days, data, symbol);
            && |r| == CountSome(xs)
            && (|r| > 0 ==> Some(r[0]) == xs[FirstIndex(xs).value] && Some(r[|r| - 1]) == xs[LastIndex(xs).value])
            && ((forall i :: 0 <= i < |xs| ==> xs[i].Some?) ==> |r| == |xs| && forall i :: 0 <= i < |xs| ==> Some(r[i]) == xs[i])
  {
    var xs := Figures(days, data, symbol);
    FigureIndices(xs);
    KeptAll(xs);
    Kept(xs)
  }

  /** The bhavcopy days, oldest first. */
  function DaysAscending(data: map<int, NF.Table>): (r: seq<int>)
    ensures |r| == |data|
    ensures forall i :: 0 <= i < |r| ==> r[i] in data
    ensures forall d :: d in data ==> d in r
    ensures forall i, j :: 0 <= i < j < |r| ==> r[i] < r[j]
  {
    var desc := Ranking.SortedKeysDesc(data.Keys);
    assert |data.Keys| == |data|;
    var r := Ranking.Reverse(desc);
    ReversedKeys(data.Keys, desc, r);
    r
  }

  /** The keys in descending order, reversed, are the keys in ascending order. */
  lemma ReversedKeys(keys: set<int>, desc: seq<int>, r: seq<int>)
    requires forall k :: k in keys ==> k in desc
    requires forall i :: 0 <= i < |desc| ==> desc[i] in keys
    requires Ranking.StrictlyDescending(desc)
    requires |r| == |desc| && forall i :: 0 <= i < |desc| ==> r[i] == desc[|desc| - 1 - i]
    ensures forall i :: 0 <= i < |r| ==> r[i] in keys
    ensures forall k :: k in keys ==> k in r
    ensures forall i, j :: 0 <= i < j < |r| ==> r[i] < r[j]
  {
    forall k | k in keys ensures k in r {
      var i :| 0 <= i < |desc| && desc[i] == k;
      assert r[|desc| - 1 - i] == k;
    }
    forall i, j | 0 <= i < j < |r| ensures r[i] < r[j] {
      assert desc[|desc| - 1 - j] > desc[|desc| - 1 - i];
    }
  }

  /** Only the first and the last value decide the trend. */
  lemma TrendOfEnds(pcts: seq<real>, first: real, last: real)
    requires |pcts| >= 2 && pcts[0] == first && pcts[|pcts| - 1] == last
    ensures TrendOf(pcts) == TrendOf([first, last])
  {
  }

  /** The trend of the figures found: the first against the last, and not
      enough data with fewer than two. */
  function FiguresTrend(xs: seq<Option<real>>): (t: DeliveryTrend)
    ensures CountSome(xs) < 2 ==> t == InsufficientData
    ensures CountSome(xs) >= 2 ==> t == TrendOf([xs[FirstIndex(xs).value].value, xs[LastIndex(xs).value].value])
    ensures (forall i :: 0 <= i < |xs| ==> xs[i].Some?) && |xs| >= 2 ==> t == TrendOf([xs[0].value, xs[|xs| - 1].value])
  {
    var pcts := Kept(xs);
    if |pcts| >= 2 then
      TrendOfEnds(pcts, pcts[0], pcts[|pcts| - 1]);
      KeptAll(xs);
      TrendOf(pcts)
    else TrendOf(pcts)
  }

  /** `_calculate_delivery_trend(symbol)` over the fetched days: the figure of
      the oldest day that has one is compared with that of the newest day
      that has one; fewer than two such days are not enough. */
  function CalculateDeliveryTrend(data: map<int, NF.Table>, symbol: string): (t: DeliveryTrend)
    ensures var xs := Figures(DaysAscending(data), data, symbol);
            && (CountSome(xs) < 2 ==> t == InsufficientData)
            && (CountSome(xs) >= 2 ==> t == TrendOf([xs[FirstIndex(xs).value].value, xs[LastIndex(xs).value].value]))
    ensures |data| < 2 ==> t == InsufficientData
  {
    FiguresTrend(Figures(DaysAscending(data), data, symbol))
  }

  /** When no day has a figure there is not enough data; when every one of
      at least two days has one, the oldest day is compared with the newest. */
  lemma DeliveryTrendUniform(data: map<int, NF.Table>, symbol: string)
    ensures (forall d :: d in data ==> DayPct(symbol, data[d]).None?) ==> CalculateDeliveryTrend(data, symbol) == InsufficientData
    ensures |data| >= 2 && (forall d :: d in data ==> DayPct(symbol, data[d]).Some?) ==>
              var days := DaysAscending(data);
              CalculateDeliveryTrend(data, symbol) == TrendOf([DayPct(symbol, data[days[0]]).value, DayPct(symbol, data[days[|days| - 1]]).value])
  {
    if forall d :: d in data ==> DayPct(symbol, data[d]).None? {
      NoFigureNoTrend(data, symbol);
    }
    if |data| >= 2 && forall d :: d in data ==> DayPct(symbol, data[d]).Some? {
      EveryFigureEnds(data, symbol);
    }
  }

  lemma NoFigureNoTrend(data: map<int, NF.Table>, symbol: string)
    requires forall d :: d in data ==> DayPct(symbol, data[d]).None?
    ensures CalculateDeliveryTrend(data, symbol) == InsufficientData
  {
    var days := DaysAscending(data);
    FiguresAbsent(data, symbol, days);
  }

  lemma EveryFigureEnds(data: map<int, NF.Table>, symbol: string)
    requires |data| >= 2 && forall d :: d in data ==> DayPct(symbol, data[d]).Some?
    ensures var days := DaysAscending(data);
            CalculateDeliveryTrend(data, symbol) == TrendOf([DayPct(symbol, data[days[0]]).value, DayPct(symbol, data[days[|days| - 1]]).value])
  {
    var days := DaysAscending(data);
    var xs := Figures(days, data, symbol);
    assert |xs| == |days| >= 2;
    FiguresPresent(data, symbol, days);
    AllFiguresTrend(xs);
    assert CalculateDeliveryTrend(data, symbol) == FiguresTrend(xs);
    assert xs[0] == DayPct(symbol, data[days[0]]) && xs[|xs| - 1] == DayPct(symbol, data[days[|days| - 1]]);
  }

  /** What the map says of every day, the figures say of every position. */
  lemma FiguresAbsent(data: map<int, NF.Table>, symbol: string, days: seq<int>)
    requires forall i :: 0 <= i < |days| ==> days[i] in data
    requires forall d :: d in data ==> DayPct(symbol, data[d]).None?
    ensures CountSome(Figures(days, data, symbol)) == 0
  {
    AllDaysCovered(data, symbol, days);
  }

  lemma FiguresPresent(data: map<int, NF.Table>, symbol: string, days: seq<int>)
    requires forall i :: 0 <= i < |days| ==> days[i] in data
    requires forall d :: d in data ==> DayPct(symbol, data[d]).Some?
    ensures forall i :: 0 <= i < |days| ==> Figures(days, data, symbol)[i].Some?
  {
    AllDaysCovered(data, symbol, days);
  }

  lemma AllFiguresTrend(xs: seq<Option<real>>)
    requires |xs| >= 2 && forall i :: 0 <= i < |xs| ==> xs[i].Some?
    ensures FiguresTrend(xs) == TrendOf([xs[0].value, xs[|xs| - 1].value])
  {
  }

  /** The trend is the ±5% rule applied to the list of figures found, in day
      order, whichever days lack one. */
  lemma DeliveryTrendOfFound(data: map<int, NF.Table>, symbol: string)
    ensures var days := DaysAscending(data);
            CalculateDeliveryTrend(data, symbol) == TrendOf(PctsOn(days, data, symbol))
  {
    var days := DaysAscending(data);
    var xs := Figures(days, data, symbol);
    assert CalculateDeliveryTrend(data, symbol) == FiguresTrend(xs);
    assert PctsOn(days, data, symbol) == Kept(xs);
    FiguresTrendOfKept(xs);
  }

  /** The trend of a list of optional figures is the rule on the figures kept. */
  lemma FiguresTrendOfKept(xs: seq<Option<real>>)
    ensures FiguresTrend(xs) == TrendOf(Kept(xs))
  {
    var pcts := Kept(xs);
    if CountSome(xs) >= 2 {
      TrendOfEnds(pcts, xs[FirstIndex(xs).value].value, xs[LastIndex(xs).value].value);
    }
  }

  lemma AllDaysCovered(data: map<int, NF.Table>, symbol: string, days: seq<int>)
    requires forall i :: 0 <= i < |days| ==> days[i] in data
    ensures (forall d :: d in data ==> DayPct(symbol, data[d]).Some?) ==>
              forall i :: 0 <= i < |days| ==> DayPct(symbol, data[days[i]]).Some?
    ensures (forall d :: d in data ==> DayPct(symbol, data[d]).None?) ==>
              forall i :: 0 <= i < |days| ==> DayPct(symbol, data[days[i]]).None?
  {
    var some := (t: NF.Table) => DayPct(symbol, t).Some?;
    var none := (t: NF.Table) => DayPct(symbol, t).None?;
    assert forall t :: some(t) == DayPct(symbol, t).Some? && none(t) == DayPct(symbol, t).None?;
    EveryListedKey(data, days, some);
    EveryListedKey(data, days, none);
  }

  lemma EveryListedKey<T>(m: map<int, T>, keys: seq<int>, p: T -> bool)
    requires forall i :: 0 <= i < |keys| ==> keys[i] in m
    ensures (forall k :: k in m ==> p(m[k])) ==> forall i :: 0 <= i < |keys| ==> p(m[keys[i]])
  {
    if forall k :: k in m ==> p(m[k]) {
      forall i | 0 <= i < |keys| ensures p(m[keys[i]]) {
        var k := keys[i];
        assert k in m;
      }
    }
  }

  /** The trend examples of the pipeline's own checks. */
  lemma TrendExamples()
    ensures TrendOf([40.0, 42.0, 45.0]) == Rising
    ensures TrendOf([50.0, 48.0, 46.0]) == Falling
    ensures TrendOf([40.0, 41.0, 40.5]) == Flat
    ensures TrendOf([40.0]) == InsufficientData
  {
  }
}
