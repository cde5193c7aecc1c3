/** The single-stock analyzer (stock_analyzer.py): the exchange-suffix rule
    of its constructor, the delivery percentage read from one bhavcopy, the
    delivery trend over up to three bhavcopies, the -2..+3 score, the
    verdict bands and the fundamental grade of the report. */
module StockAnalyzer {
  import opened Wrappers
  import opened PyValues
  import opened PyStrings
  import NF = NseFetcher
  import DP = DataPipeline

  // ------------------------------------------------------------- symbol

  /** The constructor appends ".NS" unless the symbol already carries an
      NSE or BSE suffix. */
  function WithSuffix(symbol: string): (r: string)
    ensures EndsWith(r, ".NS") || EndsWith(r, ".BO")
    ensures StartsWith(r, symbol)
    ensures EndsWith(symbol, ".NS") || EndsWith(symbol, ".BO") ==> r == symbol
    ensures !EndsWith(symbol, ".NS") && !EndsWith(symbol, ".BO") ==> r == symbol + ".NS"
  {
    if !EndsWith(symbol, ".NS") && !EndsWith(symbol, ".BO") then
      var r := symbol + ".NS";
      assert r[|r| - 3..] == ".NS";
      assert r[..|symbol|] == symbol;
      r
    else symbol
  }

  /** Adding the suffix twice is adding it once. */
  lemma SuffixIdempotent(symbol: string)
    ensures WithSuffix(WithSuffix(symbol)) == WithSuffix(symbol)
  {
  }

  /** `symbol.replace('.NS', '').replace('.BO', '')`: the name looked up in a bhavcopy. */
  function BaseSymbol(symbol: string): (r: string)
    ensures |r| <= |symbol|
  {
    RemoveAll(RemoveAll(symbol, ".NS"), ".BO")
  }

  /** Removing a pattern from a string that only has it at its end. */
  lemma {:induction false} RemoveAppended(s: string, p: string)
    requires |p| > 0
    requires forall i :: 0 <= i < |s| ==> s[i] != p[0]
    ensures RemoveAll(s + p, p) == s
    decreases |s|
  {
    if |s| == 0 {
      assert s + p == p;
      assert p[..|p|] == p;
      assert RemoveAll(p[|p|..], p) == [];
    } else {
      assert (s + p)[0] == s[0] != p[0];
      assert (s + p)[..|p|] != p;
      assert (s + p)[1..] == s[1..] + p;
      RemoveAppended(s[1..], p);
    }
  }

  /** A plain NSE name survives the round trip through the ticker symbol:
      the bhavcopy lookup uses the name the user typed. */
  lemma BaseOfSuffixed(name: string)
    requires '.' !in name
    ensures BaseSymbol(WithSuffix(name)) == name
  {
    if |name| >= 3 {
      assert name[|name| - 3] in name;
      assert name[|name| - 3..][0] == name[|name| - 3];
    }
    assert WithSuffix(name) == name + ".NS";
    RemoveAppended(name, ".NS");
  }

  /** A pattern with a character the string lacks is never removed. */
  lemma {:induction false} RemoveAbsent(s: string, p: string, k: nat)
    requires k < |p| && p[k] !in s
    ensures RemoveAll(s, p) == s
    decreases |s|
  {
    if |s| >= |p| {
      assert s[k] in s;
      assert s[..|p|][k] == s[k];
      assert s[..|p|] != p;
      assert forall x :: x in s[1..] ==> x in s;
      RemoveAbsent(s[1..], p, k);
      assert s == [s[0]] + s[1..];
    }
  }

  /** A BSE ticker loses its suffix too. */
  lemma BseExample()
    ensures WithSuffix("TCS.BO") == "TCS.BO"
    ensures BaseSymbol("TCS.BO") == "TCS"
  {
    var t := "TCS.BO";
    assert t[|t| - 3..] == ".BO";
    assert EndsWith(t, ".BO");
    assert ".NS"[1] !in t;
    RemoveAbsent(t, ".NS", 1);
    assert t == "TCS" + ".BO";
    RemoveAppended("TCS", ".BO");
  }

  // ------------------------------------------------------ delivery data

  /** The column names tried, in order, by `load_delivery_data`. */
  const LoadDelivered: seq<string> := ["DELIV_QTY", "DeliveryQuantity", "Delivery Quantity"]
  const LoadTraded: seq<string> := ["TRADED_QTY", "TradedQuantity", "Traded Quantity", "TTL_TRD_QNTY"]

  /** The shorter lists `analyze_delivery_trend` tries. */
  const TrendDelivered: seq<string> := ["DELIV_QTY", "DeliveryQuantity"]
  const TrendTraded: seq<string> := ["TRADED_QTY", "TradedQuantity", "TTL_TRD_QNTY"]

  /** The first column whose upper-cased name is exactly SYMBOL. */
  function SymbolColumn(columns: seq<string>): (r: Option<nat>)
    ensures r.Some? ==> r.value < |columns| && Upper(columns[r.value]) == "SYMBOL"
    ensures r.Some? ==> forall j :: 0 <= j < r.value ==> Upper(columns[j]) != "SYMBOL"
    ensures r.None? <==> forall j :: 0 <= j < |columns| ==> Upper(columns[j]) != "SYMBOL"
  {
    if |columns| == 0 then None
    else if Upper(columns[0]) == "SYMBOL" then Some(0)
    else match SymbolColumn(columns[1..])
         case None => None
         case Some(i) => Some(i + 1)
  }

  /** The first row of `df` listing the base name of `symbol`, compared
      upper-cased; `None` without a SYMBOL column or without such a row. */
  function SymbolRow(symbol: string, df: NF.Table): (r: Option<map<string, Value>>)
    ensures SymbolColumn(df.columns).None? ==> r.None?
    ensures SymbolColumn(df.columns).Some? ==>
              var col := df.columns[SymbolColumn(df.columns).value];
              && (r.None? <==> forall j :: 0 <= j < |df.rows| ==> !NF.SymbolMatches(df.rows[j], col, BaseSymbol(symbol)))
              && (r.Some? ==> r.value in df.rows && NF.SymbolMatches(r.value, col, BaseSymbol(symbol)))
  {
    match SymbolColumn(df.columns)
    case None => None
    case Some(c) =>
      match NF.FirstMatchingRow(df.rows, df.columns[c], BaseSymbol(symbol))
      case None => None
      case Some(i) => Some(df.rows[i])
  }

  /** The figures `load_delivery_data` keeps from one row: both quantity
      columns must exist and the traded quantity be a positive number;
      comparing or dividing a non-number raises, which the method turns
      into a failure. */
  function DeliveryFrom(delivered: Value, traded: Value): (r: Option<NF.Delivery>)
    ensures r.Some? <==> AsNumber(delivered).Some? && AsNumber(traded).Some? && AsNumber(traded).value > 0.0
    ensures r.Some? ==> r.value.deliverableQty == delivered && r.value.tradedQty == traded
    ensures r.Some? ==> r.value.deliveryPct == AsNumber(delivered).value / AsNumber(traded).value * 100.0
  {
    if delivered == VNone || traded == VNone then None
    else match AsNumber(traded)
      case None => None
      case Some(t) =>
        if t <= 0.0 then None
        else match AsNumber(delivered)
          case None => None
          case Some(q) => Some(NF.Delivery(delivered, traded, q / t * 100.0))
  }

  /** `load_delivery_data(csv_path)`: `None` stands for a path that is not
      given or does not exist; the symbol's row supplies the figures. */
  function LoadDeliveryData(symbol: string, csv: Option<NF.Table>): (r: Option<NF.Delivery>)
    ensures csv.None? ==> r.None?
    ensures csv.Some? && SymbolRow(symbol, csv.value).None? ==> r.None?
    ensures csv.Some? && SymbolRow(symbol, csv.value).Some? ==>
              var row := SymbolRow(symbol, csv.value).value;
              r == DeliveryFrom(NF.Pick(row, LoadDelivered, csv.value.columns), NF.Pick(row, LoadTraded, csv.value.columns))
  {
    match csv
    case None => None
    case Some(df) =>
      match SymbolRow(symbol, df)
      case None => None
      case Some(row) => DeliveryFrom(NF.Pick(row, LoadDelivered, df.columns), NF.Pick(row, LoadTraded, df.columns))
  }

  /** The percentage one row contributes to the trend: the quantities must
      be truthy, the traded one positive and both numbers. */
  function RowPct(row: map<string, Value>, columns: seq<string>): (r: Option<real>)
    ensures r.Some? <==> NF.ComputedPercent(NF.Pick(row, TrendDelivered, columns), NF.Pick(row, TrendTraded, columns)).Ok?
                         && NF.ComputedPercent(NF.Pick(row, TrendDelivered, columns), NF.Pick(row, TrendTraded, columns)).value.Some?
    ensures r.Some? ==>
              NF.ComputedPercent(NF.Pick(row, TrendDelivered, columns), NF.Pick(row, TrendTraded, columns)) == Ok(Some(r.value))
  {
    match NF.ComputedPercent(NF.Pick(row, TrendDelivered, columns), NF.Pick(row, TrendTraded, columns))
    case Ok(Some(x)) => Some(x)
    case _ => None
  }

  /** One bhavcopy's contribution to the trend; a missing file or symbol gives none. */
  function DayPct(symbol: string, csv: Option<NF.Table>): (r: Option<real>)
    ensures csv.None? ==> r.None?
    ensures csv.Some? && SymbolRow(symbol, csv.value).None? ==> r.None?
    ensures csv.Some? && SymbolRow(symbol, csv.value).Some? ==> r == RowPct(SymbolRow(symbol, csv.value).value, csv.value.columns)
  {
    match csv
    case None => None
    case Some(df) =>
      match SymbolRow(symbol, df)
      case None => None
      case Some(row) => RowPct(row, df.columns)
  }

  /** A column missing from the table does not change which candidate is picked. */
  lemma {:induction false} PickSkipsAbsent(row: map<string, Value>, a: seq<string>, x: string, b: seq<string>,
                                           columns: seq<string>)
    requires x !in columns
    ensures NF.Pick(row, a + [x] + b, columns) == NF.Pick(row, a + b, columns)
  {
    if |a| == 0 {
      assert a + [x] + b == [x] + b;
      assert a + b == b;
      assert ([x] + b)[1..] == b;
    } else {
      assert (a + [x] + b)[0] == a[0] == (a + b)[0];
      assert (a + [x] + b)[1..] == a[1..] + [x] + b;
      assert (a + b)[1..] == a[1..] + b;
      PickSkipsAbsent(row, a[1..], x, b, columns);
    }
  }

  /** Kept figures with a non-zero deliverable quantity give the
      percentage the trend's rule computes from the same quantities. */
  lemma KeptPercentComputed(delivered: Value, traded: Value)
    requires DeliveryFrom(delivered, traded).Some?
    requires Truthy(delivered)
    ensures NF.ComputedPercent(delivered, traded) == Ok(Some(DeliveryFrom(delivered, traded).value.deliveryPct))
  {
    TruthyNumber(traded);
  }

  /** On one row without the spaced column names, the two rules pick the same columns. */
  lemma RowAgrees(row: map<string, Value>, columns: seq<string>)
    requires "Delivery Quantity" !in columns && "Traded Quantity" !in columns
    requires DeliveryFrom(NF.Pick(row, LoadDelivered, columns), NF.Pick(row, LoadTraded, columns)).Some?
    requires Truthy(NF.Pick(row, LoadDelivered, columns))
    ensures RowPct(row, columns) == Some(DeliveryFrom(NF.Pick(row, LoadDelivered, columns), NF.Pick(row, LoadTraded, columns)).value.deliveryPct)
  {
    assert NF.Pick(row, LoadDelivered, columns) == NF.Pick(row, TrendDelivered, columns) by {
      PickSkipsAbsent(row, TrendDelivered, "Delivery Quantity", [], columns);
      assert LoadDelivered == TrendDelivered + ["Delivery Quantity"] + [];
      assert TrendDelivered + [] == TrendDelivered;
    }
    assert NF.Pick(row, LoadTraded, columns) == NF.Pick(row, TrendTraded, columns) by {
      PickSkipsAbsent(row, ["TRADED_QTY", "TradedQuantity"], "Traded Quantity", ["TTL_TRD_QNTY"], columns);
      assert LoadTraded == ["TRADED_QTY", "TradedQuantity"] + ["Traded Quantity"] + ["TTL_TRD_QNTY"];
      assert TrendTraded == ["TRADED_QTY", "TradedQuantity"] + ["TTL_TRD_QNTY"];
    }
    KeptPercentComputed(NF.Pick(row, LoadDelivered, columns), NF.Pick(row, LoadTraded, columns));
  }

  /** When the table uses none of the spaced column names, a loaded
      delivery whose deliverable quantity is non-zero contributes the same
      percentage to the trend. */
  lemma LoadAgreesWithTrend(symbol: string, df: NF.Table)
    requires "Delivery Quantity" !in df.columns && "Traded Quantity" !in df.columns
    requires LoadDeliveryData(symbol, Some(df)).Some?
    requires Truthy(LoadDeliveryData(symbol, Some(df)).value.deliverableQty)
    ensures DayPct(symbol, Some(df)) == Some(LoadDeliveryData(symbol, Some(df)).value.deliveryPct)
  {
    RowAgrees(SymbolRow(symbol, df).value, df.columns);
  }

  /** The values present, in order. */
  function Present(vals: seq<Option<real>>): (r: seq<real>)
    ensures |r| <= |vals|
    ensures (forall i :: 0 <= i < |vals| ==> vals[i].Some?) ==>
              |r| == |vals| && forall i :: 0 <= i < |vals| ==> r[i] == vals[i].value
  {
    if |vals| == 0 then []
    else
      var rest := Present(vals[1..]);
      match vals[0]
      case Some(x) => [x] + rest
      case None => rest
  }

  /** Each bhavcopy's percentage, if any. */
  function DayPcts(symbol: string, csvs: seq<Option<NF.Table>>): (r: seq<Option<real>>)
    ensures |r| == |csvs|
    ensures forall i :: 0 <= i < |csvs| ==> r[i] == DayPct(symbol, csvs[i])
  {
    seq(|csvs|, i requires 0 <= i < |csvs| => DayPct(symbol, csvs[i]))
  }

  /** `csv_paths[:3]`. */
  function FirstThree<T>(s: seq<T>): (r: seq<T>)
    ensures |r| == if |s| < 3 then |s| else 3
    ensures r == s[..|r|]
  {
    if |s| < 3 then s else s[..3]
  }

  /** `analyze_delivery_trend(csv_paths)`: reads at most the first three
      bhavcopies and compares the first and last percentages found. */
  function AnalyzeDeliveryTrend(symbol: string, csvPaths: Option<seq<Option<NF.Table>>>): (t: DP.DeliveryTrend)
    ensures csvPaths.None? || |csvPaths.value| < 2 ==> t == DP.InsufficientData
  {
    if csvPaths.None? || |csvPaths.value| < 2 then DP.InsufficientData
    else DP.TrendOf(Present(DayPcts(symbol, FirstThree(csvPaths.value))))
  }

  /** With every value present, the first is compared with the last. */
  lemma TrendOfAllPresent(vals: seq<Option<real>>)
    requires |vals| >= 2
    requires forall i :: 0 <= i < |vals| ==> vals[i].Some?
    ensures DP.TrendOf(Present(vals)) == DP.TrendOf([vals[0].value, vals[|vals| - 1].value])
  {
    DP.TrendOfEnds(Present(vals), vals[0].value, vals[|vals| - 1].value);
  }

  /** When each of the first three bhavcopies yields a percentage, the
      first is compared with the last of them. */
  lemma TrendOfFullDays(symbol: string, paths: seq<Option<NF.Table>>)
    requires |paths| >= 2
    requires forall i :: 0 <= i < |FirstThree(paths)| ==> DayPct(symbol, paths[i]).Some?
    ensures var k := |FirstThree(paths)|;
            AnalyzeDeliveryTrend(symbol, Some(paths))
            == DP.TrendOf([DayPct(symbol, paths[0]).value, DayPct(symbol, paths[k - 1]).value])
  {
    var vals := DayPcts(symbol, FirstThree(paths));
    TrendOfAllPresent(vals);
  }

  /** Bhavcopies after the third are never read. */
  lemma OnlyFirstThreeRead(symbol: string, paths: seq<Option<NF.Table>>, extra: seq<Option<NF.Table>>)
    requires |paths| >= 3
    ensures AnalyzeDeliveryTrend(symbol, Some(paths + extra)) == AnalyzeDeliveryTrend(symbol, Some(paths))
  {
    assert FirstThree(paths + extra) == FirstThree(paths);
  }

  /** The trend is missing exactly when fewer than two of the first three
      bhavcopies yield a percentage. */
  lemma InsufficientWhenFewValues(symbol: string, paths: seq<Option<NF.Table>>)
    requires |paths| >= 2
    ensures AnalyzeDeliveryTrend(symbol, Some(paths)) == DP.InsufficientData
            <==> |Present(DayPcts(symbol, FirstThree(paths)))| < 2
  {
  }

  // -------------------------------------------------------------- score

  /** What `calculate_score` reads from the analyzer: the quote price from
      the fundamentals, the closes of the price history (`None` before it
      is fetched), EMA-44 and its 5-day slope, the loaded delivery data, and
      the trailing P/E and ROE (a fraction). */
  datatype Inputs = Inputs(
    currentPrice: Option<real>, closes: Option<seq<real>>, ema44: Option<real>, emaSlope: Option<real>,
    delivery: Option<NF.Delivery>, pe: Option<real>, roe: Option<real>)

  /** The price compared with the EMA: the quote, or else the last close.
      The last close of an empty history raises. */
  function PriceUsed(inputs: Inputs): (r: Result<Option<real>>)
    ensures r.Err? <==> inputs.currentPrice.None? && inputs.closes == Some([])
    ensures inputs.currentPrice.Some? ==> r == Ok(inputs.currentPrice)
    ensures inputs.currentPrice.None? && inputs.closes.Some? && |inputs.closes.value| > 0 ==>
              r == Ok(Some(inputs.closes.value[|inputs.closes.value| - 1]))
    ensures inputs.currentPrice.None? && inputs.closes.None? ==> r == Ok(None)
  {
    if inputs.currentPrice.Some? then Ok(inputs.currentPrice)
    else match inputs.closes
      case None => Ok(None)
      case Some(closes) =>
        if |closes| == 0 then Err("IndexError") else Ok(Some(closes[|closes| - 1]))
  }

  /** 1. EMA position: +1 above, -1 at or below, nothing when either is unknown. */
  function EmaPoints(price: Option<real>, ema: Option<real>): (p: real)
    ensures p == 1.0 <==> price.Some? && ema.Some? && price.value > ema.value
    ensures p == -1.0 <==> price.Some? && ema.Some? && price.value <= ema.value
    ensures p == 0.0 <==> price.None? || ema.None?
  {
    if price.None? || ema.None? then 0.0
    else if price.value > ema.value then 1.0 else -1.0
  }

  /** 2. EMA slope: +1 rising by more than 1%, -1 falling by more than 1%. */
  function SlopePoints(slope: Option<real>): (p: real)
    ensures p == 1.0 <==> slope.Some? && slope.value > 1.0
    ensures p == -1.0 <==> slope.Some? && slope.value < -1.0
    ensures p == 0.0 <==> slope.None? || -1.0 <= slope.value <= 1.0
  {
    match slope
    case None => 0.0
    case Some(s) => if s > 1.0 then 1.0 else if s < -1.0 then -1.0 else 0.0
  }

  /** 3. Delivery: +1 above 35%, never negative. */
  function DeliveryPoints(delivery: Option<NF.Delivery>): (p: real)
    ensures p == 1.0 <==> delivery.Some? && delivery.value.deliveryPct > 35.0
    ensures p == 0.0 <==> delivery.None? || delivery.value.deliveryPct <= 35.0
  {
    if delivery.Some? && delivery.value.deliveryPct > 35.0 then 1.0 else 0.0
  }

  /** 4. P/E: +0.5 strictly between 0 and 25, -0.5 above 40. */
  function PePoints(pe: Option<real>): (p: real)
    ensures p == 0.5 <==> pe.Some? && 0.0 < pe.value < 25.0
    ensures p == -0.5 <==> pe.Some? && pe.value > 40.0
    ensures p == 0.0 <==> pe.None? || pe.value <= 0.0 || 25.0 <= pe.value <= 40.0
  {
    match pe
    case None => 0.0
    case Some(x) => if x < 25.0 && x > 0.0 then 0.5 else if x > 40.0 then -0.5 else 0.0
  }

  /** 5. ROE, compared as a percentage: +0.5 above 15%, -0.5 below 0%. */
  function RoePoints(roe: Option<real>): (p: real)
    ensures p == 0.5 <==> roe.Some? && roe.value * 100.0 > 15.0
    ensures p == -0.5 <==> roe.Some? && roe.value * 100.0 < 0.0
    ensures p == 0.0 <==> roe.None? || 0.0 <= roe.value * 100.0 <= 15.0
  {
    match roe
    case None => 0.0
    case Some(x) => if x * 100.0 > 15.0 then 0.5 else if x * 100.0 < 0.0 then -0.5 else 0.0
  }

  /** The five components for a given comparison price. */
  function RawScore(inputs: Inputs, price: Option<real>): (s: real)
    ensures -3.0 <= s <= 4.0
  {
    EmaPoints(price, inputs.ema44) + SlopePoints(inputs.emaSlope) + DeliveryPoints(inputs.delivery)
      + PePoints(inputs.pe) + RoePoints(inputs.roe)
  }

  /** `max(-2, min(3, score))`. */
  function Clamp(x: real): (r: real)
    ensures -2.0 <= r <= 3.0
    ensures -2.0 <= x <= 3.0 ==> r == x
    ensures x > 3.0 ==> r == 3.0
    ensures x < -2.0 ==> r == -2.0
  {
    if x > 3.0 then 3.0 else if x < -2.0 then -2.0 else x
  }

  /** `calculate_score()`: the clamped sum of the components; the only
      failure is falling back on the last close of an empty history. */
  function CalculateScore(inputs: Inputs): (r: Result<real>)
    ensures r.Err? <==> inputs.currentPrice.None? && inputs.closes == Some([])
    ensures r.Ok? ==> -2.0 <= r.value <= 3.0
    ensures r.Ok? ==> r.value == Clamp(RawScore(inputs, PriceUsed(inputs).value))
  {
    match PriceUsed(inputs)
    case Err(e) => Err(e)
    case Ok(price) => Ok(Clamp(RawScore(inputs, price)))
  }

  /** Both clamps can bind: every component at its best sums to 4 and
      scores 3, every component at its worst sums to -3 and scores -2. */
  lemma ClampsBind()
    ensures var best := Inputs(Some(110.0), None, Some(100.0), Some(2.0), Some(NF.Delivery(VInt(50), VInt(100), 50.0)),
                               Some(20.0), Some(0.2));
            RawScore(best, Some(110.0)) == 4.0 && CalculateScore(best) == Ok(3.0)
    ensures var worst := Inputs(None, Some([90.0]), Some(100.0), Some(-2.0), None, Some(50.0), Some(-0.1));
            RawScore(worst, Some(90.0)) == -3.0 && CalculateScore(worst) == Ok(-2.0)
  {
  }

  /** A price sitting exactly on its EMA counts against the stock. */
  lemma PriceOnEmaIsBearish(price: real)
    ensures EmaPoints(Some(price), Some(price)) == -1.0
  {
  }

  // ------------------------------------------------------------ verdict

  datatype Verdict = Invest | Hold | Avoid
  datatype Confidence = High | Moderate

  /** `get_verdict(score)`: bands at 2, 1, 0 and -1. */
  function GetVerdict(score: real): (r: (Verdict, Confidence))
    ensures r == (Invest, High) <==> score >= 2.0
    ensures r == (Invest, Moderate) <==> 1.0 <= score < 2.0
    ensures r == (Hold, Moderate) <==> 0.0 <= score < 1.0
    ensures r == (Avoid, Moderate) <==> -1.0 <= score < 0.0
    ensures r == (Avoid, High) <==> score < -1.0
  {
    if score >= 2.0 then (Invest, High)
    else if score >= 1.0 then (Invest, Moderate)
    else if score >= 0.0 then (Hold, Moderate)
    else if score >= -1.0 then (Avoid, Moderate)
    else (Avoid, High)
  }

  /** The verdicts ordered from most bearish to most bullish. */
  function Stance(v: (Verdict, Confidence)): int {
    match v
    case (Avoid, High) => 0
    case (Avoid, Moderate) => 1
    case (Hold, _) => 2
    case (Invest, Moderate) => 3
    case (Invest, High) => 4
  }

  /** A higher score never gets a more bearish verdict. */
  lemma VerdictMonotone(s: real, t: real)
    requires s <= t
    ensures Stance(GetVerdict(s)) <= Stance(GetVerdict(t))
  {
  }

  /** Raising the raw score never lowers the clamped score, so never the verdict. */
  lemma ClampMonotone(x: real, y: real)
    requires x <= y
    ensures Clamp(x) <= Clamp(y)
    ensures Stance(GetVerdict(Clamp(x))) <= Stance(GetVerdict(Clamp(y)))
  {
    VerdictMonotone(Clamp(x), Clamp(y));
  }

  /** A stock at or below a falling EMA scores at most 0 whatever its
      delivery and fundamentals, so it is never an investment. */
  lemma BearishTrendNeverInvest(inputs: Inputs)
    requires inputs.currentPrice.Some? && inputs.ema44.Some? && inputs.currentPrice.value <= inputs.ema44.value
    requires inputs.emaSlope.Some? && inputs.emaSlope.value < -1.0
    ensures CalculateScore(inputs).Ok?
    ensures CalculateScore(inputs).value <= 0.0
    ensures GetVerdict(CalculateScore(inputs).value).0 != Invest
  {
  }

  // -------------------------------------------------------------- grade

  datatype Grade = Excellent | Good | Fair | Weak | InsufficientData

  /** The report's grade line: criteria met out of criteria known. */
  datatype GradeCard = GradeCard(points: nat, outOf: nat, grade: Grade)

  /** The grade for `points` of `outOf` criteria: at least 80%, 60% and
      40% give A, B and C; no criterion known gives no grade. */
  function GradeOf(points: nat, outOf: nat): (g: Grade)
    requires points <= outOf
    ensures g == InsufficientData <==> outOf == 0
    ensures outOf > 0 ==> var pct := points as real / outOf as real * 100.0;
              && (g == Excellent <==> pct >= 80.0)
              && (g == Good <==> 60.0 <= pct < 80.0)
              && (g == Fair <==> 40.0 <= pct < 60.0)
              && (g == Weak <==> pct < 40.0)
  {
    if outOf > 0 then
      var pct := points as real / outOf as real * 100.0;
      if pct >= 80.0 then Excellent
      else if pct >= 60.0 then Good
      else if pct >= 40.0 then Fair
      else Weak
    else InsufficientData
  }

  /** The fundamental grade block. A P/E or ROE counts as known when it is
      truthy (present and non-zero), the debt/equity ratio when present. */
  function FundamentalGrade(pe: Option<real>, roe: Option<real>, debtToEquity: Option<real>): (g: GradeCard)
    ensures g.points <= g.outOf <= 3
    ensures g.outOf == (if pe.Some? && pe.value != 0.0 then 1 else 0)
                       + (if roe.Some? && roe.value != 0.0 then 1 else 0)
                       + (if debtToEquity.Some? then 1 else 0)
    ensures g.points == (if pe.Some? && 0.0 < pe.value < 25.0 then 1 else 0)
                        + (if roe.Some? && roe.value > 0.15 then 1 else 0)
                        + (if debtToEquity.Some? && debtToEquity.value < 1.0 then 1 else 0)
    ensures g.grade == InsufficientData <==> g.outOf == 0
    ensures g.grade == GradeOf(g.points, g.outOf)
  {
    var peKnown := pe.Some? && pe.value != 0.0;
    var roeKnown := roe.Some? && roe.value != 0.0;
    var peMet := peKnown && 0.0 < pe.value < 25.0;
    var roeMet := roeKnown && roe.value > 0.15;
    var debtMet := debtToEquity.Some? && debtToEquity.value < 1.0;
    var outOf := (if peKnown then 1 else 0) + (if roeKnown then 1 else 0) + (if debtToEquity.Some? then 1 else 0);
    var points := (if peMet then 1 else 0) + (if roeMet then 1 else 0) + (if debtMet then 1 else 0);
    GradeCard(points, outOf, GradeOf(points, outOf))
  }

  /** Every attainable grade: with three criteria 2 met is B and 1 met is
      D; C needs exactly one of two; all met is A. */
  lemma GradeTable()
    ensures GradeOf(3, 3) == Excellent && GradeOf(2, 3) == Good && GradeOf(1, 3) == Weak && GradeOf(0, 3) == Weak
    ensures GradeOf(2, 2) == Excellent && GradeOf(1, 2) == Fair && GradeOf(0, 2) == Weak
    ensures GradeOf(1, 1) == Excellent && GradeOf(0, 1) == Weak
    ensures GradeOf(0, 0) == InsufficientData
  {
  }

  /** A zero P/E is not a known P/E, unlike a zero debt/equity ratio. */
  lemma ZeroRatiosExample()
    ensures FundamentalGrade(Some(0.0), None, None) == GradeCard(0, 0, InsufficientData)
    ensures FundamentalGrade(None, None, Some(0.0)) == GradeCard(1, 1, Excellent)
  {
    GradeTable();
  }
}
