/** The two stand-alone strategies of stock_screener.py: momentum with a
    bounded retracement (Strategy 1) and a pull-back to a rising 44-day EMA
    (Strategy 2), over a fixed list of large NSE companies. */
module StockScreener {
  import opened Wrappers
  import opened PyStrings
  import Stats
  import Ranking
  import SA = StockAnalyzer

  // ----------------------------------------------------------- universe

  /** The companies `get_nifty_stocks` lists, in its order. */
  const Nifty200Names: seq<string> :=
    ["RELIANCE", "TCS", "HDFCBANK", "INFY", "HINDUNILVR", "ICICIBANK", "SBIN", "BHARTIARTL", "KOTAKBANK", "ITC"] +
    ["LT", "AXISBANK", "ASIANPAINT", "MARUTI", "HCLTECH", "BAJFINANCE", "WIPRO", "ULTRACEMCO", "TITAN", "SUNPHARMA"] +
    ["NESTLEIND", "ONGC", "NTPC", "TATASTEEL", "TECHM", "POWERGRID", "M&M", "BAJAJFINSV", "ADANIPORTS", "COALINDIA"] +
    ["JSWSTEEL", "TATAMOTORS", "HINDALCO", "INDUSINDBK", "DIVISLAB", "CIPLA", "DRREDDY", "GRASIM", "EICHERMOT", "BRITANNIA"] +
    ["APOLLOHOSP", "BPCL", "HEROMOTOCO", "UPL", "BAJAJ-AUTO", "TATACONSUM", "SBILIFE", "ADANIENT", "LTIM", "HDFCLIFE"] +
    ["VEDL", "DABUR", "GODREJCP", "HAVELLS", "PIDILITIND", "BERGEPAINT", "PAGEIND", "SIEMENS", "AMBUJACEM", "DLF"] +
    ["GAIL", "ICICIPRULI", "CHOLAFIN", "MARICO", "BANDHANBNK", "SHREECEM", "TORNTPHARM", "COLPAL", "MUTHOOTFIN", "BAJAJHLDNG"] +
    ["ALKEM", "INDIGO", "BOSCHLTD", "MOTHERSON", "LUPIN", "NAUKRI", "SBICARD", "PIIND", "AUROPHARMA", "MAXHEALTH"] +
    ["JINDALSTEL", "LICI", "TATAPOWER", "PFC", "RECLTD", "SAIL", "NMDC", "BEL", "HINDZINC", "CANBK"] +
    ["BANKBARODA", "IOC", "PNB", "IRCTC", "ZOMATO", "OFSS", "PERSISTENT", "MPHASIS", "COFORGE", "BIOCON"] +
    ["TORNTPOWER", "ABB", "POLYCAB", "TATAELXSI", "CHAMBLFERT", "ACC", "DMART", "LAURUSLABS", "MCDOWELL-N", "GODREJPROP"] +
    ["ASHOKLEY", "INDUSTOWER", "CONCOR", "TRENT", "LICHSGFIN", "IDFCFIRSTB", "FEDERALBNK", "AUBANK", "ABBOTINDIA", "METROPOLIS"] +
    ["TIINDIA", "ASTRAL", "CUMMINSIND", "VOLTAS", "BATAINDIA", "ATUL", "IDEA", "GMRINFRA", "PEL", "TVSMOTOR"] +
    ["MRF", "ESCORTS", "CROMPTON", "OBEROIRLTY", "PRESTIGE", "UNITDSPR", "SUPREMEIND", "KANSAINER", "WHIRLPOOL", "MANYAVAR"] +
    ["JKCEMENT", "JSWENERGY", "ADANIGREEN", "ADANIPOWER", "ADANITRANS", "VEDL", "RAMCOCEM", "HONAUT", "BALKRISIND", "SRF"] +
    ["AARTIIND", "STAR", "ABFRL", "INDHOTEL", "NATIONALUM", "NAVINFLUOR", "TATACHEM", "GRAPHITE", "JUBLFOOD", "DEEPAKNTR"] +
    ["CLEAN", "LTTS", "COROMANDEL", "PETRONET", "HINDPETRO", "UCOBANK", "UNIONBANK", "ZEEL", "DIXON", "SYNGENE"] +
    ["LALPATHLAB", "FLUOROCHEM", "SONACOMS", "SKFINDIA", "GRINDWELL"]

  /** `f"{stock}.NS"`. */
  function NseTicker(name: string): (r: string)
    ensures EndsWith(r, ".NS") && StartsWith(r, name) && |r| == |name| + 3
  {
    var r := name + ".NS";
    assert r[|r| - 3..] == ".NS";
    assert r[..|name|] == name;
    r
  }

  /** `get_nifty_stocks()`: every listed name as an NSE ticker. */
  function GetNiftyStocks(names: seq<string>): (r: seq<string>)
    ensures |r| == |names|
    ensures forall i :: 0 <= i < |r| ==> EndsWith(r[i], ".NS") && StartsWith(r[i], names[i])
  {
    seq(|names|, i requires 0 <= i < |names| => NseTicker(names[i]))
  }

  /** The result tables print `symbol.replace('.NS', '')`: a listed name without a dot comes back unchanged. */
  lemma TickerRoundTrip(names: seq<string>, i: int)
    requires 0 <= i < |names| && '.' !in names[i]
    ensures RemoveAll(GetNiftyStocks(names)[i], ".NS") == names[i]
  {
    SA.RemoveAppended(names[i], ".NS");
  }

  /** The list holds 175 entries and names VEDL twice, so VEDL is screened twice. */
  lemma UniverseRepeatsVedl()
    ensures |Nifty200Names| == 175
    ensures Nifty200Names[50] == "VEDL" && Nifty200Names[145] == "VEDL"
    ensures GetNiftyStocks(Nifty200Names)[50] == GetNiftyStocks(Nifty200Names)[145]
  {
  }

  // ------------------------------------------------------- price series

  /** One daily bar: the high and the close. */
  datatype Bar = Bar(high: real, close: real)

  predicate PositiveBars(bars: seq<Bar>) {
    forall i :: 0 <= i < |bars| ==> bars[i].high > 0.0 && bars[i].close > 0.0
  }

  /** Trading days in a year and in a month. */
  const YearDays := 252
  const MonthDays := 21

  /** The highest high of the last 252 bars. */
  function High52(bars: seq<Bar>): (h: real)
    requires |bars| >= YearDays && PositiveBars(bars)
    ensures h > 0.0
    ensures exists i :: |bars| - YearDays <= i < |bars| && bars[i].high == h
    ensures forall i :: |bars| - YearDays <= i < |bars| ==> bars[i].high <= h
  {
    var highs := seq(YearDays, k requires 0 <= k < YearDays => bars[|bars| - YearDays + k].high);
    var h := Stats.Max(highs);
    assert forall i :: |bars| - YearDays <= i < |bars| ==> bars[i].high == highs[i - (|bars| - YearDays)];
    var k :| 0 <= k < YearDays && highs[k] == h;
    assert bars[|bars| - YearDays + k].high == h;
    h
  }

  /** `calculate_retracement_from_52w_high(df)`: the last close against
      the 52-week high, in percent; `None` with less than a year of bars. */
  function Retracement(bars: Option<seq<Bar>>): (r: Option<real>)
    requires bars.Some? ==> PositiveBars(bars.value)
    ensures r.Some? <==> bars.Some? && |bars.value| >= YearDays
    ensures r.Some? ==> r.value > -100.0
    ensures r.Some? ==> r.value == Stats.PercentChange(High52(bars.value), bars.value[|bars.value| - 1].close)
  {
    if bars.None? || |bars.value| < YearDays then None
    else
      var h := High52(bars.value);
      var c := bars.value[|bars.value| - 1].close;
      Stats.PercentChangeThreshold(h, c, -100.0);
      Some(Stats.PercentChange(h, c))
  }

  /** A close at or below its own bar's high is never above the 52-week high. */
  lemma RetracementNotPositive(bars: seq<Bar>)
    requires |bars| >= YearDays && PositiveBars(bars)
    requires bars[|bars| - 1].close <= bars[|bars| - 1].high
    ensures Retracement(Some(bars)).value <= 0.0
  {
    var h := High52(bars);
    var c := bars[|bars| - 1].close;
    assert c <= h;
    Stats.PercentChangeThreshold(h, c, 0.0);
  }

  /** `calculate_returns(df, months)`: the percentage change of the close
      over `months * 21` rows, with Python's indexing from the end (so
      `months = 0` reads the first row, and a bad index raises). */
  function Returns(bars: Option<seq<Bar>>, months: int): (r: Result<Option<real>>)
    requires bars.Some? ==> PositiveBars(bars.value)
    ensures r == Ok(None) <==> bars.None? || |bars.value| < months * MonthDays
    ensures months >= 1 ==> r.Ok?
    ensures months >= 1 && r.value.Some? ==>
              var b := bars.value;
              r.value.value == Stats.PercentChange(b[|b| - months * MonthDays].close, b[|b| - 1].close)
  {
    if bars.None? || |bars.value| < months * MonthDays then Ok(None)
    else
      var b := bars.value;
      match (Ranking.PyAt(b, -(months * MonthDays)), Ranking.PyAt(b, -1))
      case (Some(past), Some(now)) => Ok(Some(Stats.PercentChange(past.close, now.close)))
      case _ => Err("IndexError")
  }

  /** A return is positive exactly when the close rose over the window. */
  lemma ReturnPositiveIff(bars: seq<Bar>, months: int)
    requires PositiveBars(bars) && months >= 1 && |bars| >= months * MonthDays
    ensures Returns(Some(bars), months).value.Some?
    ensures Returns(Some(bars), months).value.value > 0.0
            <==> bars[|bars| - 1].close > bars[|bars| - months * MonthDays].close
  {
    var past := bars[|bars| - months * MonthDays].close;
    Stats.PercentChangeThreshold(past, bars[|bars| - 1].close, 0.0);
  }

  /** `calculate_relative_strength(stock_df, nifty_df, months)`: the
      stock's return minus the index's over the same window. */
  function RelativeStrength(stock: Option<seq<Bar>>, nifty: Option<seq<Bar>>, months: int): (r: Result<Option<real>>)
    requires stock.Some? ==> PositiveBars(stock.value)
    requires nifty.Some? ==> PositiveBars(nifty.value)
    ensures r == Ok(None) <==> stock.None? || nifty.None? || |stock.value| < months * MonthDays
                               || |nifty.value| < months * MonthDays
    ensures months >= 1 ==> r.Ok?
    ensures months >= 1 && r.value.Some? ==>
              r.value.value == Returns(stock, months).value.value - Returns(nifty, months).value.value
  {
    if stock.None? || nifty.None? then Ok(None)
    else
      var days := months * MonthDays;
      var s := stock.value;
      var n := nifty.value;
      if |s| < days || |n| < days then Ok(None)
      else match (Ranking.PyAt(s, -days), Ranking.PyAt(s, -1), Ranking.PyAt(n, -days), Ranking.PyAt(n, -1))
        case (Some(s0), Some(s1), Some(n0), Some(n1)) =>
          Ok(Some(Stats.PercentChange(s0.close, s1.close) - Stats.PercentChange(n0.close, n1.close)))
        case _ => Err("IndexError")
  }

  // --------------------------------------------------------- strategy 1

  /** One stock offered to Strategy 1: its year of bars (`None` when the
      download failed) and its Sharpe and Sortino ratios, which are inputs here. */
  datatype Candidate = Candidate(symbol: string, bars: Option<seq<Bar>>, sharpe: Option<real>, sortino: Option<real>)

  predicate ValidCandidate(c: Candidate) {
    c.bars.Some? ==> PositiveBars(c.bars.value)
  }

  /** A row of the Strategy 1 table. */
  datatype MomentumRow = MomentumRow(
    rank: nat, symbol: string, retracement: real, return3m: real, return6m: real,
    sharpe: Option<real>, sortino: Option<real>, relativeStrength: real, score: real)

  /** The combined score: 30% Sharpe, 30% Sortino, 20% six-month return,
      10% three-month return and 10% relative strength, returns as fractions. */
  function MomentumScore(sharpe: Option<real>, sortino: Option<real>, return6m: real, return3m: real, rs: real): (s: real)
    ensures sharpe.None? && sortino.None? && return6m > 0.0 && return3m > 0.0 && rs > 0.0 ==> s > 0.0
  {
    (if sharpe.Some? then sharpe.value * 0.3 else 0.0)
    + (if sortino.Some? then sortino.value * 0.3 else 0.0)
    + return6m / 100.0 * 0.2 + return3m / 100.0 * 0.1 + rs / 100.0 * 0.1
  }

  /** Python's `x if x else None` for the printed ratios: a zero ratio prints as missing. */
  function Truthy(x: Option<real>): (r: Option<real>)
    ensures r.Some? <==> x.Some? && x.value != 0.0
    ensures r.Some? ==> r == x
  {
    if x.Some? && x.value != 0.0 then x else None
  }

  /** Whether a stock passes Strategy 1: a year of bars, at most 30% off
      its high, positive three- and six-month returns, and a six-month
      return above the index's. */
  predicate Passes(c: Candidate, nifty: seq<Bar>)
    requires ValidCandidate(c) && PositiveBars(nifty)
  {
    && c.bars.Some? && |c.bars.value| >= YearDays
    && Retracement(c.bars).value >= -30.0
    && Returns(c.bars, 3).value.value > 0.0
    && Returns(c.bars, 6).value.value > 0.0
    && RelativeStrength(c.bars, Some(nifty), 6).value.Some?
    && RelativeStrength(c.bars, Some(nifty), 6).value.value > 0.0
  }

  /** The body of Strategy 1's loop for one stock (unranked). */
  function Screen(c: Candidate, nifty: seq<Bar>): (r: Option<MomentumRow>)
    requires ValidCandidate(c) && PositiveBars(nifty)
    ensures r.Some? <==> Passes(c, nifty)
    ensures r.Some? ==> r.value.rank == 0 && r.value.symbol == RemoveAll(c.symbol, ".NS")
    ensures r.Some? ==> r.value.retracement >= -30.0 && r.value.return3m > 0.0 && r.value.return6m > 0.0
                        && r.value.relativeStrength > 0.0
    ensures r.Some? ==> r.value.score == MomentumScore(c.sharpe, c.sortino, r.value.return6m, r.value.return3m,
                                                       r.value.relativeStrength)
  {
    if c.bars.None? || |c.bars.value| < YearDays then None
    else
      var retracement := Retracement(c.bars).value;
      if retracement < -30.0 then None
      else
        var r3 := Returns(c.bars, 3).value.value;
        var r6 := Returns(c.bars, 6).value.value;
        if r3 <= 0.0 || r6 <= 0.0 then None
        else match RelativeStrength(c.bars, Some(nifty), 6).value
          case None => None
          case Some(rs) =>
            if rs <= 0.0 then None
            else Some(MomentumRow(0, RemoveAll(c.symbol, ".NS"), retracement, r3, r6, Truthy(c.sharpe),
                                  Truthy(c.sortino), rs, MomentumScore(c.sharpe, c.sortino, r6, r3, rs)))
  }

  /** The rows of the stocks that pass, in universe order. */
  function Kept(cands: seq<Candidate>, nifty: seq<Bar>): (r: seq<MomentumRow>)
    requires forall i :: 0 <= i < |cands| ==> ValidCandidate(cands[i])
    requires PositiveBars(nifty)
    ensures |r| <= |cands|
    ensures forall row :: row in r ==> exists j :: 0 <= j < |cands| && Screen(cands[j], nifty) == Some(row)
    ensures forall j :: 0 <= j < |cands| && Screen(cands[j], nifty).Some? ==> Screen(cands[j], nifty).value in r
  {
    if |cands| == 0 then []
    else
      var rest := Kept(cands[1..], nifty);
      assert forall j :: 1 <= j < |cands| ==> cands[j] == cands[1..][j - 1];
      match Screen(cands[0], nifty)
      case Some(row) => [row] + rest
      case None => rest
  }

  function ScoreOf(row: MomentumRow): real {
    row.score
  }

  /** `df['Rank'] = range(1, len(df) + 1)`. */
  function WithRanks(rows: seq<MomentumRow>): seq<MomentumRow> {
    Ranking.Numbered(rows, SetRank)
  }

  function SetRank(row: MomentumRow, k: nat): MomentumRow {
    row.(rank := k)
  }

  /** The table size of Strategy 1. */
  const TopCount := 20

  /** `Strategy1.run()`: nothing without the index; otherwise the 20 best
      passing stocks by combined score, ranked 1..n. */
  function RunMomentum(cands: seq<Candidate>, nifty: Option<seq<Bar>>): (r: seq<MomentumRow>)
    requires forall i :: 0 <= i < |cands| ==> ValidCandidate(cands[i])
    requires nifty.Some? ==> PositiveBars(nifty.value)
    ensures nifty.None? ==> r == []
    ensures |r| <= TopCount
    ensures forall i :: 0 <= i < |r| ==> r[i].rank == i + 1
    ensures forall i, j :: 0 <= i < j < |r| ==> r[i].score >= r[j].score
    ensures nifty.Some? ==> Unranked(r) == Ranking.TopBy(Kept(cands, nifty.value), ScoreOf, TopCount)
  {
    match nifty
    case None => []
    case Some(n) =>
      var top := Ranking.TopBy(Kept(cands, n), ScoreOf, TopCount);
      Ranking.NumberedRoundTrip(top, Kept(cands, n), SetRank);
      WithRanks(top)
  }

  /** Strategy 1 lists the best min(20, n) of the n passing stocks, and no
      passing stock left out scores above a listed one. */
  lemma MomentumSelection(cands: seq<Candidate>, nifty: seq<Bar>)
    requires forall i :: 0 <= i < |cands| ==> ValidCandidate(cands[i])
    requires PositiveBars(nifty)
    ensures var kept := Kept(cands, nifty);
            var r := RunMomentum(cands, Some(nifty));
            && |r| == (if |kept| <= TopCount then |kept| else TopCount)
            && (forall i :: 0 <= i < |r| ==> r[i].(rank := 0) in kept)
            && (forall row, i :: row in multiset(kept) - multiset(Unranked(r)) && 0 <= i < |r| ==> row.score <= r[i].score)
  {
    var kept := Kept(cands, nifty);
    var r := RunMomentum(cands, Some(nifty));
    var top := Unranked(r);
    forall i | 0 <= i < |r| ensures r[i].(rank := 0) in kept {
      assert top[i] in multiset(kept);
    }
  }

  /** The rows with their rank cleared. */
  function Unranked(rows: seq<MomentumRow>): seq<MomentumRow> {
    Ranking.Unnumbered(rows, SetRank)
  }

  /** Without Sharpe or Sortino figures every listed stock has a positive score. */
  lemma ScoresPositiveWithoutRatios(cands: seq<Candidate>, nifty: seq<Bar>)
    requires forall i :: 0 <= i < |cands| ==> ValidCandidate(cands[i]) && cands[i].sharpe.None? && cands[i].sortino.None?
    requires PositiveBars(nifty)
    ensures forall i :: 0 <= i < |RunMomentum(cands, Some(nifty))| ==> RunMomentum(cands, Some(nifty))[i].score > 0.0
  {
    var r := RunMomentum(cands, Some(nifty));
    MomentumSelection(cands, nifty);
    forall i | 0 <= i < |r| ensures r[i].score > 0.0 {
      assert r[i].(rank := 0) in Kept(cands, nifty);
      var j :| 0 <= j < |cands| && Screen(cands[j], nifty) == Some(r[i].(rank := 0));
    }
  }

  // --------------------------------------------------------- strategy 2

  /** `is_ema_rising(ema_series, lookback)`: the last EMA above the one
      `lookback` rows earlier; too short a series is not rising. */
  function IsEmaRising(ema: seq<real>, lookback: int): (r: Result<bool>)
    ensures lookback >= 0 ==> r.Ok?
    ensures lookback >= 0 ==> (r.value <==> |ema| >= lookback + 1 && ema[|ema| - 1] > ema[|ema| - 1 - lookback])
  {
    if |ema| < lookback + 1 then Ok(false)
    else match (Ranking.PyAt(ema, -1), Ranking.PyAt(ema, -(lookback + 1)))
      case (Some(now), Some(past)) => Ok(now > past)
      case _ => Err("IndexError")
  }

  /** `is_price_near_ema(price, ema, tolerance)`. */
  predicate IsPriceNearEma(price: real, ema: real, tolerance: real) {
    ema * (1.0 - tolerance) <= price <= ema * (1.0 + tolerance)
  }

  /** Near the EMA means a distance of at most `tolerance` of the EMA. */
  lemma NearMeansSmallDistance(price: real, ema: real, tolerance: real)
    requires ema > 0.0
    ensures IsPriceNearEma(price, ema, tolerance)
            <==> -tolerance * 100.0 <= Stats.PercentChange(ema, price) <= tolerance * 100.0
  {
    Stats.PercentChangeThreshold(ema, price, -tolerance * 100.0);
    Stats.PercentChangeThreshold(ema, price, tolerance * 100.0);
  }

  /** One bar of Strategy 2's data: the close and the 44-day EMA the
      source computes with pandas (an input here). */
  datatype EmaBar = EmaBar(close: real, ema: real)

  datatype EmaCandidate = EmaCandidate(symbol: string, bars: Option<seq<EmaBar>>)

  predicate PositiveEmaBars(c: EmaCandidate) {
    c.bars.Some? ==> forall i :: 0 <= i < |c.bars.value| ==> c.bars.value[i].close > 0.0 && c.bars.value[i].ema > 0.0
  }

  /** A row of the Strategy 2 table. */
  datatype EmaRow = EmaRow(symbol: string, price: real, ema: real, distancePct: real, emaChange5d: Option<real>)

  /** Rows Strategy 2 needs, the EMA lookback and the tolerance. */
  const MinRows := 50
  const Lookback := 5
  const Tolerance := 0.01

  function Emas(bars: seq<EmaBar>): (r: seq<real>)
    ensures |r| == |bars| && forall i :: 0 <= i < |bars| ==> r[i] == bars[i].ema
  {
    seq(|bars|, i requires 0 <= i < |bars| => bars[i].ema)
  }

  /** The body of Strategy 2's loop for one stock. */
  function ScreenEma(c: EmaCandidate): (r: Option<EmaRow>)
    requires PositiveEmaBars(c)
    ensures r.Some? <==>
              && c.bars.Some? && |c.bars.value| >= MinRows
              && IsEmaRising(Emas(c.bars.value), Lookback).value
              && IsPriceNearEma(c.bars.value[|c.bars.value| - 1].close, c.bars.value[|c.bars.value| - 1].ema, Tolerance)
    ensures r.Some? ==> r.value.symbol == RemoveAll(c.symbol, ".NS")
    ensures r.Some? ==> -1.0 <= r.value.distancePct <= 1.0
    ensures r.Some? ==> r.value.emaChange5d.Some? && r.value.emaChange5d.value > 0.0
  {
    if c.bars.None? || |c.bars.value| < MinRows then None
    else
      var b := c.bars.value;
      var emas := Emas(b);
      if !IsEmaRising(emas, Lookback).value then None
      else
        var price := b[|b| - 1].close;
        var ema := b[|b| - 1].ema;
        if !IsPriceNearEma(price, ema, Tolerance) then None
        else
          var distance := (price - ema) / ema * 100.0;
          NearMeansSmallDistance(price, ema, Tolerance);
          var past := b[|b| - 6].ema;
          var change := (ema - past) / past * 100.0;
          Stats.PercentChangeThreshold(past, ema, 0.0);
          Some(EmaRow(RemoveAll(c.symbol, ".NS"), price, ema, distance, if change != 0.0 then Some(change) else None))
  }

  /** `Strategy2.run()`: the passing stocks in universe order. */
  function RunEma(cands: seq<EmaCandidate>): (r: seq<EmaRow>)
    requires forall i :: 0 <= i < |cands| ==> PositiveEmaBars(cands[i])
    ensures |r| <= |cands|
    ensures forall row :: row in r ==> exists j :: 0 <= j < |cands| && ScreenEma(cands[j]) == Some(row)
    ensures forall j :: 0 <= j < |cands| && ScreenEma(cands[j]).Some? ==> ScreenEma(cands[j]).value in r
    ensures forall i :: 0 <= i < |r| ==> -1.0 <= r[i].distancePct <= 1.0 && r[i].emaChange5d.Some?
  {
    if |cands| == 0 then []
    else
      var rest := RunEma(cands[1..]);
      assert forall j :: 1 <= j < |cands| ==> cands[j] == cands[1..][j - 1];
      match ScreenEma(cands[0])
      case Some(row) => [row] + rest
      case None => rest
  }
}
