/** The hybrid strategy of hybrid_momentum_ema.py: momentum ranking of the
    stocks within 30% of their high, a 44-day EMA entry/exit signal, and
    the monthly rebalancing backtest's cash and position bookkeeping. */
module HybridMomentumEma {
  import opened Wrappers
  import Stats
  import Ranking

  // -------------------------------------------------------- EMA signals

  /** `a <= b` between two float values; a NaN value (`None`) compares false. */
  predicate AtMost(a: Option<real>, b: Option<real>) {
    a.Some? && b.Some? && a.value <= b.value
  }

  /** Step `i` of the rising check finds `ema[-i] <= ema[-i-1]`. */
  predicate FallsAt(ema: seq<Option<real>>, i: int)
    requires 1 <= i < |ema|
  {
    AtMost(ema[|ema| - i], ema[|ema| - i - 1])
  }

  /** The rising rule: none of the last five steps that exist falls. */
  predicate RisingRule(ema: seq<Option<real>>) {
    forall i :: 1 <= i <= 5 && i < |ema| ==> !FallsAt(ema, i)
  }

  /** The loop of `calculate_ema_signals` that decides `ema_rising`. */
  method EmaRising(ema: seq<Option<real>>) returns (rising: bool)
    ensures rising <==> RisingRule(ema)
  {
    rising := true;
    var i := 1;
    while i < 6
      invariant 1 <= i <= 6
      invariant rising <==> forall k :: 1 <= k < i && k < |ema| ==> !FallsAt(ema, k)
      invariant !rising ==> i == 6
    {
      if |ema| > i && FallsAt(ema, i) {
        rising := false;
        i := 6;
      } else {
        i := i + 1;
      }
    }
  }

  /** Where the rule's window starts: the last six values, or all of a shorter series. */
  function WindowStart(ema: seq<Option<real>>): (w: nat)
    ensures w <= |ema| && (|ema| >= 6 ==> w == |ema| - 6) && (|ema| < 6 ==> w == 0)
  {
    if |ema| >= 6 then |ema| - 6 else 0
  }

  /** Every value of the window is a number (no NaN). */
  predicate WindowPresent(ema: seq<Option<real>>) {
    forall j :: WindowStart(ema) <= j < |ema| ==> ema[j].Some?
  }

  /** The window's values strictly increase. */
  predicate WindowIncreasing(ema: seq<Option<real>>)
    requires WindowPresent(ema)
  {
    forall j, k :: WindowStart(ema) <= j < k < |ema| ==> ema[j].value < ema[k].value
  }

  /** Without NaN in the window, the rule says exactly that the last six
      values (or all of them) strictly increase. */
  lemma RisingMeansIncreasing(ema: seq<Option<real>>)
    requires WindowPresent(ema)
    ensures RisingRule(ema) <==> WindowIncreasing(ema)
  {
    var w := WindowStart(ema);
    if RisingRule(ema) {
      forall j | w <= j < |ema| - 1 ensures ema[j].value < ema[j + 1].value {
        assert !FallsAt(ema, |ema| - 1 - j);
      }
      ChainIncreasing(ema, w);
    }
    if WindowIncreasing(ema) {
      forall i | 1 <= i <= 5 && i < |ema| ensures !FallsAt(ema, i) {
        assert ema[|ema| - i - 1].value < ema[|ema| - i].value;
      }
    }
  }

  /** Adjacent increases chain into an increasing run. */
  lemma {:induction false} ChainIncreasing(ema: seq<Option<real>>, w: nat)
    requires w <= |ema|
    requires forall j :: w <= j < |ema| ==> ema[j].Some?
    requires forall j :: w <= j < |ema| - 1 ==> ema[j].value < ema[j + 1].value
    ensures forall j, k :: w <= j < k < |ema| ==> ema[j].value < ema[k].value
    decreases |ema| - w
  {
    if w + 1 < |ema| {
      ChainIncreasing(ema, w + 1);
      forall k | w < k < |ema| ensures ema[w].value < ema[k].value {
        assert ema[w].value < ema[w + 1].value;
      }
    }
  }

  /** What `calculate_ema_signals` returns. */
  datatype EmaSignals = EmaSignals(
    ema: Option<real>, rising: bool, nearEma: bool, priceToEmaPct: Option<real>, entry: bool, exit: bool)

  /** A series of EMA values whose numbers are positive, as the EMA of positive closes is. */
  predicate PositiveEma(ema: seq<Option<real>>) {
    forall i :: 0 <= i < |ema| && ema[i].Some? ==> ema[i].value > 0.0
  }

  /** `calculate_ema_signals(df)` with the 44-day EMA given (NaN before it
      is defined). An empty series raises on `iloc[-1]`, giving `None`.
      A NaN EMA makes the price-to-EMA percentage NaN, which is neither
      near nor below. */
  method CalculateEmaSignals(closes: seq<real>, ema: seq<Option<real>>) returns (r: Option<EmaSignals>)
    requires |ema| == |closes|
    requires PositiveEma(ema)
    ensures r.None? <==> |closes| == 0
    ensures r.Some? ==> r.value.ema == ema[|ema| - 1]
    ensures r.Some? ==> (r.value.rising <==> RisingRule(ema))
    ensures r.Some? ==> (r.value.priceToEmaPct.Some? <==> ema[|ema| - 1].Some?)
    ensures r.Some? && r.value.priceToEmaPct.Some? ==>
              r.value.priceToEmaPct.value == Stats.PercentChange(ema[|ema| - 1].value, closes[|closes| - 1])
    ensures r.Some? ==> (r.value.nearEma <==> r.value.priceToEmaPct.Some? && -1.0 <= r.value.priceToEmaPct.value <= 1.0)
    ensures r.Some? ==> (r.value.entry <==> r.value.rising && r.value.nearEma)
    ensures r.Some? ==> (r.value.exit <==> r.value.priceToEmaPct.Some? && r.value.priceToEmaPct.value < -2.0)
    ensures r.Some? ==> !(r.value.entry && r.value.exit)
  {
    var rising := EmaRising(ema);
    if |closes| == 0 {
      return None;
    }
    var price := closes[|closes| - 1];
    var current := ema[|ema| - 1];
    var pct: Option<real> := None;
    if current.Some? {
      pct := Some((price - current.value) / current.value * 100.0);
    }
    var near := pct.Some? && -1.0 <= pct.value <= 1.0;
    var exit := pct.Some? && pct.value < -2.0;
    r := Some(EmaSignals(current, rising, near, pct, rising && near, exit));
  }

  // ---------------------------------------------------- momentum ranking

  /** The figures `calculate_momentum_metrics` returns for one stock (an input
      here). The 52-week high is the last value of a 252-day rolling maximum,
      NaN (`None`) for a history of fewer than 252 closes, and so then is the
      retracement. */
  datatype Metrics = Metrics(
    currentPrice: real, high52: Option<real>, retracementPct: Option<real>, returns3m: real, returns6m: real,
    volatility: real, volAdjReturn: real, relativeStrength: real)

  /** The filter's test `not (retracement_pct > 30)`: a NaN retracement
      compares false and so passes. */
  predicate WithinRetracement(m: Metrics) {
    m.retracementPct.None? || m.retracementPct.value <= 30.0
  }

  /** `calculate_composite_score(metrics)`: 40% six-month return, 30%
      volatility-adjusted return, 30% relative strength scaled by 100. */
  function CompositeScore(m: Metrics): real {
    0.40 * m.returns6m + 0.30 * m.volAdjReturn + 0.30 * m.relativeStrength * 100.0
  }

  /** Better figures never lower the score, and each figure moves it by its weight. */
  lemma CompositeMonotone(a: Metrics, b: Metrics, d: real)
    requires a.returns6m <= b.returns6m && a.volAdjReturn <= b.volAdjReturn && a.relativeStrength <= b.relativeStrength
    ensures CompositeScore(a) <= CompositeScore(b)
    ensures CompositeScore(a.(returns6m := a.returns6m + d)) == CompositeScore(a) + 0.4 * d
    ensures CompositeScore(a.(relativeStrength := a.relativeStrength + d)) == CompositeScore(a) + 30.0 * d
  {
  }

  /** A row of the selection table. */
  datatype TopRow = TopRow(rank: nat, symbol: string, metrics: Metrics, score: real)

  /** The filter of `select_top_stocks`: stocks whose metrics exist and
      which do not sit more than 30% below their high, in input order
      (unranked). */
  function Candidates(stocks: seq<(string, Option<Metrics>)>): (r: seq<TopRow>)
    ensures |r| <= |stocks|
    ensures forall row :: row in r ==>
              && row.rank == 0 && WithinRetracement(row.metrics) && row.score == CompositeScore(row.metrics)
              && (row.symbol, Some(row.metrics)) in stocks
    ensures forall j :: 0 <= j < |stocks| && stocks[j].1.Some? && WithinRetracement(stocks[j].1.value) ==>
              TopRow(0, stocks[j].0, stocks[j].1.value, CompositeScore(stocks[j].1.value)) in r
  {
    if |stocks| == 0 then []
    else
      var rest := Candidates(stocks[1..]);
      assert forall j :: 1 <= j < |stocks| ==> stocks[j] == stocks[1..][j - 1];
      match stocks[0].1
      case Some(m) =>
        if !WithinRetracement(m) then rest
        else [TopRow(0, stocks[0].0, m, CompositeScore(m))] + rest
      case None => rest
  }

  function ScoreOf(row: TopRow): real {
    row.score
  }

  /** `top_stocks['rank'] = range(1, len + 1)`. */
  function WithRanks(rows: seq<TopRow>): seq<TopRow> {
    Ranking.Numbered(rows, SetRank)
  }

  function SetRank(row: TopRow, k: nat): TopRow {
    row.(rank := k)
  }

  /** `select_top_stocks(stock_data, nifty_data, top_n)` as intended: the
      `top_n` best candidates by composite score, ranked 1..n, and an empty
      table when no stock passes. */
  function SelectTopStocks(stocks: seq<(string, Option<Metrics>)>, topN: nat): (r: seq<TopRow>)
    ensures |Candidates(stocks)| == 0 ==> r == []
    ensures forall i :: 0 <= i < |r| ==> r[i].rank == i + 1
    ensures forall i, j :: 0 <= i < j < |r| ==> r[i].score >= r[j].score
    ensures Unranked(r) == Ranking.TopBy(Candidates(stocks), ScoreOf, topN)
  {
    var cands := Candidates(stocks);
    var top := Ranking.TopBy(cands, ScoreOf, topN);
    Ranking.NumberedRoundTrip(top, cands, SetRank);
    WithRanks(top)
  }

  /** The selection holds `min(top_n, candidates)` candidates, each passing
      the retracement filter, and no candidate left out scores above one kept. */
  lemma TopSelection(stocks: seq<(string, Option<Metrics>)>, topN: nat)
    ensures var cands := Candidates(stocks);
            var r := SelectTopStocks(stocks, topN);
            && |r| == (if topN <= |cands| then topN else |cands|)
            && (forall i :: 0 <= i < |r| ==> r[i].(rank := 0) in cands && WithinRetracement(r[i].metrics))
            && (forall row, i :: row in multiset(cands) - multiset(Unranked(r)) && 0 <= i < |r| ==> row.score <= r[i].score)
  {
    var cands := Candidates(stocks);
    var r := SelectTopStocks(stocks, topN);
    var top := Unranked(r);
    forall i | 0 <= i < |r| ensures r[i].(rank := 0) in cands {
      assert top[i] in multiset(cands);
    }
  }

  /** The rows with their rank cleared. */
  function Unranked(rows: seq<TopRow>): seq<TopRow> {
    Ranking.Unnumbered(rows, SetRank)
  }

  /** `select_top_stocks` as written: with no passing stock the results
      frame has no `composite_score` column and `sort_values` raises
      `KeyError`; otherwise it is the selection above. */
  function SelectTopStocksAsWritten(stocks: seq<(string, Option<Metrics>)>, topN: nat): (r: Result<seq<TopRow>>)
    ensures r.Err? <==> |Candidates(stocks)| == 0
    ensures r.Ok? ==> r.value == SelectTopStocks(stocks, topN) && (|r.value| > 0 || topN == 0)
  {
    if |Candidates(stocks)| == 0 then Err("KeyError: composite_score")
    else Ok(SelectTopStocks(stocks, topN))
  }

  /** A single stock 35% below its high: the selection as written raises,
      although the backtest's `len(top_stocks) == 0` check expects an
      empty table; the corrected selection returns one. */
  lemma EmptySelectionRaises()
    ensures var stocks := [("ABC.NS", Some(Metrics(65.0, Some(100.0), Some(35.0), 1.0, 2.0, 20.0, 0.1, 1.0)))];
            SelectTopStocksAsWritten(stocks, 20).Err? && SelectTopStocks(stocks, 20) == []
  {
    var stocks := [("ABC.NS", Some(Metrics(65.0, Some(100.0), Some(35.0), 1.0, 2.0, 20.0, 0.1, 1.0)))];
    assert stocks[1..] == [];
    assert Candidates(stocks) == [];
  }

  /** A stock with 251 closes has no 52-week high; its NaN retracement is
      not above 30, so it stays a candidate, while a stock 35% below its
      high is dropped. */
  lemma ShortHistoryKept(m: Metrics, far: Metrics)
    requires m.retracementPct.None? && far.retracementPct == Some(35.0)
    ensures Candidates([("ABC.NS", Some(m)), ("XYZ.NS", Some(far))]) == [TopRow(0, "ABC.NS", m, CompositeScore(m))]
  {
    var stocks := [("ABC.NS", Some(m)), ("XYZ.NS", Some(far))];
    assert stocks[1..][1..] == [];
  }

  /** The corrected selection agrees with the written one whenever that one returns. */
  lemma CorrectedAgreesWhenDefined(stocks: seq<(string, Option<Metrics>)>, topN: nat)
    requires SelectTopStocksAsWritten(stocks, topN).Ok?
    ensures SelectTopStocks(stocks, topN) == SelectTopStocksAsWritten(stocks, topN).value
  {
  }

  /** A row of the buy list. */
  datatype BuyRow = BuyRow(symbol: string, rank: nat, price: real, score: real, ema: Option<real>,
                           priceToEmaPct: Option<real>)

  /** The selected stock has an entry signal. */
  predicate Enters(row: TopRow, signals: string -> Option<EmaSignals>) {
    signals(row.symbol).Some? && signals(row.symbol).value.entry
  }

  /** The buy-list row for a selected stock and its signals. */
  function BuyOf(row: TopRow, s: EmaSignals): BuyRow {
    BuyRow(row.symbol, row.rank, row.metrics.currentPrice, row.score, s.ema, s.priceToEmaPct)
  }

  /** `apply_ema_filter(top_stocks, stock_data)`: the selected stocks with
      an entry signal, in rank order; `signals` gives each stock's EMA
      signals (`None` when they could not be computed). */
  function ApplyEmaFilter(top: seq<TopRow>, signals: string -> Option<EmaSignals>): (r: seq<BuyRow>)
    ensures |r| <= |top|
    ensures forall b :: b in r ==> exists row :: row in top && Enters(row, signals) && b == BuyOf(row, signals(row.symbol).value)
    ensures forall row :: row in top && Enters(row, signals) ==> BuyOf(row, signals(row.symbol).value) in r
  {
    if |top| == 0 then []
    else
      var rest := ApplyEmaFilter(top[1..], signals);
      assert forall row :: row in top[1..] ==> row in top;
      assert forall row :: row in top ==> row == top[0] || row in top[1..];
      if Enters(top[0], signals) then [BuyOf(top[0], signals(top[0].symbol).value)] + rest
      else rest
  }

  // ------------------------------------------------------------ backtest

  /** A held position: `portfolio[symbol] = {'shares', 'entry_price', ...}`. */
  datatype Position = Position(symbol: string, shares: int, entryPrice: real)

  datatype Action = Buy | Sell

  /** A row of the trade log. */
  datatype Trade = Trade(symbol: string, action: Action, price: real, shares: int, pnl: real)

  /** The symbols of a portfolio, in insertion order (the dict's keys). */
  function Symbols(ps: seq<Position>): (r: seq<string>)
    ensures |r| == |ps|
    ensures forall i :: 0 <= i < |ps| ==> r[i] == ps[i].symbol
  {
    seq(|ps|, i requires 0 <= i < |ps| => ps[i].symbol)
  }

  /** A dict holds each symbol once. */
  predicate DistinctSymbols(ps: seq<Position>) {
    forall i, j :: 0 <= i < j < |ps| ==> ps[i].symbol != ps[j].symbol
  }

  /** Positions as the backtest creates them: whole positive share counts bought at positive prices. */
  predicate ValidPositions(ps: seq<Position>) {
    forall i :: 0 <= i < |ps| ==> ps[i].shares > 0 && ps[i].entryPrice > 0.0
  }

  /** The last close of each symbol in the month's data (`None` when the
      symbol is not in `current_stock_data`). */
  type Prices = string -> Option<real>

  /** Closes, where known, are positive. */
  ghost predicate PositivePrices(prices: Prices) {
    forall s :: prices(s).Some? ==> prices(s).value > 0.0
  }

  /** What one position adds to the portfolio value: nothing without a price. */
  function Worth(p: Position, prices: Prices): real {
    match prices(p.symbol)
    case Some(c) => p.shares as real * c
    case None => 0.0
  }

  /** The marked-to-market value of the positions. */
  function HeldValue(ps: seq<Position>, prices: Prices): real {
    if |ps| == 0 then 0.0 else Worth(ps[0], prices) + HeldValue(ps[1..], prices)
  }

  /** Positive share counts at positive prices are worth something non-negative. */
  lemma {:induction false} HeldValueNonneg(ps: seq<Position>, prices: Prices)
    ensures ValidPositions(ps) && PositivePrices(prices) ==> HeldValue(ps, prices) >= 0.0
  {
    if |ps| > 0 && ValidPositions(ps) && PositivePrices(prices) {
      HeldValueNonneg(ps[1..], prices);
      if prices(ps[0].symbol).Some? {
        Stats.MulNonneg(ps[0].shares as real, prices(ps[0].symbol).value);
      }
    }
  }

  /** The portfolio value of a month: cash plus shares times the last close
      of every held symbol that has data. */
  function PortfolioValue(cash: real, ps: seq<Position>, prices: Prices): (r: real)
    ensures ValidPositions(ps) && PositivePrices(prices) ==> r >= cash
  {
    HeldValueNonneg(ps, prices);
    cash + HeldValue(ps, prices)
  }

  /** Sale proceeds of the sells in a trade log. */
  function Proceeds(trades: seq<Trade>): real {
    if |trades| == 0 then 0.0
    else (if trades[0].action == Sell then trades[0].price * trades[0].shares as real else 0.0) + Proceeds(trades[1..])
  }

  /** Purchase cost of the buys in a trade log. */
  function Cost(trades: seq<Trade>): real {
    if |trades| == 0 then 0.0
    else
      var t := trades[|trades| - 1];
      Cost(trades[..|trades| - 1]) + (if t.action == Buy then t.price * t.shares as real else 0.0)
  }

  /** Proceeds add up over consecutive parts of a log. */
  lemma {:induction false} ProceedsAppend(a: seq<Trade>, b: seq<Trade>)
    ensures Proceeds(a + b) == Proceeds(a) + Proceeds(b)
  {
    if |a| == 0 {
      assert a + b == b;
    } else {
      assert (a + b)[1..] == a[1..] + b;
      ProceedsAppend(a[1..], b);
    }
  }

  /** Costs add up over consecutive parts of a log. */
  lemma {:induction false} CostAppend(a: seq<Trade>, b: seq<Trade>)
    ensures Cost(a + b) == Cost(a) + Cost(b)
  {
    if |b| == 0 {
      assert a + b == a;
    } else {
      assert (a + b)[..|a + b| - 1] == a + b[..|b| - 1];
      CostAppend(a, b[..|b| - 1]);
    }
  }

  /** A log of buys only raises nothing. */
  lemma {:induction false} ProceedsOfBuys(trades: seq<Trade>)
    requires forall j :: 0 <= j < |trades| ==> trades[j].action == Buy
    ensures Proceeds(trades) == 0.0
  {
    if |trades| > 0 {
      ProceedsOfBuys(trades[1..]);
    }
  }

  /** A log of sells only costs nothing. */
  lemma {:induction false} CostOfSells(trades: seq<Trade>)
    requires forall j :: 0 <= j < |trades| ==> trades[j].action == Sell
    ensures Cost(trades) == 0.0
  {
    if |trades| > 0 {
      CostOfSells(trades[..|trades| - 1]);
    }
  }

  /** The positions kept and the sells made on leaving the top set. */
  datatype ExitResult = ExitResult(kept: seq<Position>, sells: seq<Trade>)

  /** The position is sold: it left the top set and the month has its price. */
  predicate Exits(p: Position, top: set<string>, prices: Prices) {
    p.symbol !in top && prices(p.symbol).Some?
  }

  /** `t` is the sell of `p` at the month's last close, with profit `(price - entry) * shares`. */
  predicate SoldAt(t: Trade, p: Position, prices: Prices) {
    && prices(p.symbol).Some?
    && t.action == Sell && t.symbol == p.symbol && t.price == prices(p.symbol).value && t.shares == p.shares
    && t.pnl == (t.price - p.entryPrice) * p.shares as real
  }

  /** The sell of `p` at the month's last close. */
  function SaleOf(p: Position, prices: Prices): (t: Trade)
    requires prices(p.symbol).Some?
  {
    var c := prices(p.symbol).value;
    Trade(p.symbol, Sell, c, p.shares, (c - p.entryPrice) * p.shares as real)
  }

  /** The exit step: every position outside the top set whose symbol has
      data is sold at its last close; the rest are kept in order. */
  function ExitPositions(ps: seq<Position>, top: set<string>, prices: Prices): (r: ExitResult)
    ensures |r.kept| + |r.sells| == |ps|
    ensures forall p :: p in r.kept <==> p in ps && !Exits(p, top, prices)
  {
    if |ps| == 0 then ExitResult([], [])
    else
      var rest := ExitPositions(ps[1..], top, prices);
      assert forall p :: p in ps ==> p == ps[0] || p in ps[1..];
      var p := ps[0];
      if Exits(p, top, prices) then ExitResult(rest.kept, [SaleOf(p, prices)] + rest.sells)
      else
        ExitResult([p] + rest.kept, rest.sells)
  }

  /** Every logged sell is the sale of a position that exits. */
  lemma {:induction false} ExitSells(ps: seq<Position>, top: set<string>, prices: Prices)
    ensures forall t :: t in ExitPositions(ps, top, prices).sells ==>
              exists p :: p in ps && Exits(p, top, prices) && SoldAt(t, p, prices)
  {
    if |ps| > 0 {
      ExitSells(ps[1..], top, prices);
      assert forall p :: p in ps[1..] ==> p in ps;
    }
  }

  /** Selling does not change what the portfolio is worth: the cash it
      raises is what the sold positions were marked at. */
  lemma ExitsKeepValue(cash: real, ps: seq<Position>, top: set<string>, prices: Prices)
    ensures var r := ExitPositions(ps, top, prices);
            PortfolioValue(cash + Proceeds(r.sells), r.kept, prices) == PortfolioValue(cash, ps, prices)
  {
    ExitSplit(ps, top, prices);
  }

  /** The sale proceeds plus the value of the kept positions is the value of all positions. */
  lemma {:induction false} ExitSplit(ps: seq<Position>, top: set<string>, prices: Prices)
    ensures var r := ExitPositions(ps, top, prices);
            Proceeds(r.sells) + HeldValue(r.kept, prices) == HeldValue(ps, prices)
  {
    if |ps| > 0 {
      ExitSplit(ps[1..], top, prices);
      ExitStep(ps, top, prices);
    }
  }

  /** One step of the exit: the first position either becomes a sell at its
      marked value or stays kept. */
  lemma ExitStep(ps: seq<Position>, top: set<string>, prices: Prices)
    requires |ps| > 0
    ensures var r := ExitPositions(ps, top, prices);
            var rest := ExitPositions(ps[1..], top, prices);
            Proceeds(r.sells) + HeldValue(r.kept, prices) == Worth(ps[0], prices) + Proceeds(rest.sells) + HeldValue(rest.kept, prices)
  {
    if Exits(ps[0], top, prices) {
      SellStep(ps, top, prices);
    } else {
      KeepStep(ps, top, prices);
    }
  }

  lemma SellStep(ps: seq<Position>, top: set<string>, prices: Prices)
    requires |ps| > 0 && Exits(ps[0], top, prices)
    ensures var r := ExitPositions(ps, top, prices);
            var rest := ExitPositions(ps[1..], top, prices);
            r.kept == rest.kept && Proceeds(r.sells) == Worth(ps[0], prices) + Proceeds(rest.sells)
  {
    ExitSellUnfold(ps, top, prices);
    SaleProceeds(ps[0], prices, ExitPositions(ps[1..], top, prices).sells);
  }

  /** Selling `p` ahead of a log adds what `p` is marked at to its proceeds. */
  lemma SaleProceeds(p: Position, prices: Prices, rest: seq<Trade>)
    requires prices(p.symbol).Some?
    ensures Proceeds([SaleOf(p, prices)] + rest) == Worth(p, prices) + Proceeds(rest)
  {
    ProceedsCons(SaleOf(p, prices), rest);
    SaleIsWorth(p, prices);
  }

  /** One step of the exit recursion when the first position exits. */
  lemma ExitSellUnfold(ps: seq<Position>, top: set<string>, prices: Prices)
    requires |ps| > 0 && Exits(ps[0], top, prices)
    ensures var rest := ExitPositions(ps[1..], top, prices);
            ExitPositions(ps, top, prices) == ExitResult(rest.kept, [SaleOf(ps[0], prices)] + rest.sells)
  {
  }

  /** Selling a position at the month's close raises what it is marked at. */
  lemma SaleIsWorth(p: Position, prices: Prices)
    requires prices(p.symbol).Some?
    ensures SaleOf(p, prices).price * SaleOf(p, prices).shares as real == Worth(p, prices)
  {
  }

  lemma KeepStep(ps: seq<Position>, top: set<string>, prices: Prices)
    requires |ps| > 0 && !Exits(ps[0], top, prices)
    ensures var r := ExitPositions(ps, top, prices);
            var rest := ExitPositions(ps[1..], top, prices);
            r.sells == rest.sells && HeldValue(r.kept, prices) == Worth(ps[0], prices) + HeldValue(rest.kept, prices)
  {
    var rest := ExitPositions(ps[1..], top, prices);
    assert ExitPositions(ps, top, prices).kept == [ps[0]] + rest.kept;
    HeldCons(ps[0], rest.kept, prices);
  }

  lemma ProceedsCons(t: Trade, rest: seq<Trade>)
    ensures Proceeds([t] + rest) == (if t.action == Sell then t.price * t.shares as real else 0.0) + Proceeds(rest)
  {
    assert ([t] + rest)[1..] == rest;
  }

  lemma HeldCons(p: Position, rest: seq<Position>, prices: Prices)
    ensures HeldValue([p] + rest, prices) == Worth(p, prices) + HeldValue(rest, prices)
  {
    assert ([p] + rest)[1..] == rest;
  }

  /** `int(allocation / price)` for a non-negative allocation. */
  function Shares(alloc: real, price: real): (n: int)
    requires alloc >= 0.0 && price > 0.0
    ensures n >= 0
  {
    (alloc / price).Floor
  }

  /** The shares bought are the most whole shares the allocation pays for. */
  lemma SharesFit(alloc: real, price: real)
    requires alloc >= 0.0 && price > 0.0
    ensures Shares(alloc, price) as real * price <= alloc < (Shares(alloc, price) + 1) as real * price
  {
    var q := alloc / price;
    assert q * price == alloc;
    var n := Shares(alloc, price);
    assert n as real <= q < n as real + 1.0;
    MulLe(n as real, q, price);
    MulLe(q, n as real + 1.0, price);
    assert (n + 1) as real * price == (n as real + 1.0) * price;
    assert alloc < (n as real + 1.0) * price;
  }

  lemma MulLe(a: real, b: real, k: real)
    requires a <= b && k > 0.0
    ensures a * k <= b * k
    ensures a < b ==> a * k < b * k
  {
  }

  /** The book value of positions: what was paid for them. */
  function BookValue(ps: seq<Position>): real {
    if |ps| == 0 then 0.0 else BookValue(ps[..|ps| - 1]) + ps[|ps| - 1].shares as real * ps[|ps| - 1].entryPrice
  }

  /** The share count each buy candidate's allocation pays for. */
  function Allotted(cash: real, buys: seq<BuyRow>): (counts: seq<int>)
    requires cash >= 0.0 && |buys| > 0
    requires forall i :: 0 <= i < |buys| ==> buys[i].price > 0.0
    ensures |counts| == |buys|
    ensures forall i :: 0 <= i < |buys| ==> counts[i] == Shares(cash / |buys| as real, buys[i].price)
  {
    seq(|buys|, i requires 0 <= i < |buys| => Shares(cash / |buys| as real, buys[i].price))
  }

  /** `p` is what one of the first `k` candidates buys, `counts` giving their share counts. */
  predicate BoughtFrom(p: Position, buys: seq<BuyRow>, counts: seq<int>, k: nat)
    requires k <= |buys| == |counts|
  {
    exists i :: 0 <= i < k && buys[i].symbol == p.symbol && buys[i].price == p.entryPrice && p.shares == counts[i]
  }

  /** `ps` is `held` with new positions appended, none of an already held symbol. */
  predicate Extends(held: seq<Position>, ps: seq<Position>) {
    && |held| <= |ps| && ps[..|held|] == held
    && forall j :: |held| <= j < |ps| ==> ps[j].symbol !in Symbols(held) && ps[j].shares > 0
  }

  /** Every new position comes from one of the first `k` candidates. */
  predicate NewFromBuys(held: seq<Position>, ps: seq<Position>, buys: seq<BuyRow>, counts: seq<int>, k: nat)
    requires k <= |buys| == |counts| && |held| <= |ps|
  {
    forall j :: |held| <= j < |ps| ==> BoughtFrom(ps[j], buys, counts, k)
  }

  /** Each of the first `k` candidates is held, or its allocation buys no whole share. */
  predicate Covered(ps: seq<Position>, buys: seq<BuyRow>, counts: seq<int>, k: nat)
    requires k <= |buys| == |counts|
  {
    forall i :: 0 <= i < k ==> buys[i].symbol in Symbols(ps) || counts[i] <= 0
  }

  /** The log row of buying `p`: at its entry price, with no profit. */
  function BuyTrade(p: Position): Trade {
    Trade(p.symbol, Buy, p.entryPrice, p.shares, 0.0)
  }

  /** The position a buy row opened. */
  function Bought(t: Trade): (p: Position)
    ensures t.action == Buy && t.pnl == 0.0 ==> BuyTrade(p) == t
  {
    Position(t.symbol, t.shares, t.price)
  }

  /** The buy log records each new position at its entry price with no profit. */
  predicate Logged(held: seq<Position>, ps: seq<Position>, bought: seq<Trade>) {
    && |held| <= |ps| && |bought| == |ps| - |held|
    && forall j :: 0 <= j < |bought| ==> bought[j] == BuyTrade(ps[|held| + j])
  }

  /** The buy step: with buy candidates and positive cash, each candidate not
      yet held gets `int(cash / len(candidates) / price)` shares, if that is
      at least one; the cost leaves the cash, which never goes negative. */
  method BuyPositions(cash: real, held: seq<Position>, buys: seq<BuyRow>)
    returns (cashOut: real, ps: seq<Position>, bought: seq<Trade>)
    requires forall i :: 0 <= i < |buys| ==> buys[i].price > 0.0
    ensures cash <= 0.0 || |buys| == 0 ==> cashOut == cash && ps == held && bought == []
    ensures cash > 0.0 ==> 0.0 <= cashOut <= cash
    ensures cashOut + BookValue(ps) == cash + BookValue(held)
    ensures Extends(held, ps) && Logged(held, ps, bought)
    ensures DistinctSymbols(held) ==> DistinctSymbols(ps)
    ensures cash > 0.0 && |buys| > 0 ==> NewFromBuys(held, ps, buys, Allotted(cash, buys), |buys|)
    ensures cash > 0.0 && |buys| > 0 ==> Covered(ps, buys, Allotted(cash, buys), |buys|)
    ensures Book(cashOut, ps, bought) == BuyStep(cash, held, buys)
  {
    if |buys| == 0 || cash <= 0.0 {
      return cash, held, [];
    }
    var alloc := cash / |buys| as real;
    BudgetOfAll(|buys|, cash);
    var counts := Allotted(cash, buys);
    forall i | 0 <= i < |buys| ensures 0.0 <= counts[i] as real * buys[i].price <= alloc {
      SharesFit(alloc, buys[i].price);
      Stats.MulNonneg(counts[i] as real, buys[i].price);
    }
    cashOut, ps, bought := BuyEach(cash, alloc, held, buys, counts);
  }

  /** What the logged buys cost is what the new positions were bought for. */
  lemma {:induction false} CostOfLogged(held: seq<Position>, ps: seq<Position>, bought: seq<Trade>)
    requires |held| <= |ps| && ps[..|held|] == held && Logged(held, ps, bought)
    ensures Cost(bought) == BookValue(ps) - BookValue(held)
  {
    if |bought| == 0 {
      assert ps == ps[..|held|];
    } else {
      var ps0, b0 := ps[..|ps| - 1], bought[..|bought| - 1];
      assert ps0[..|held|] == held;
      assert Logged(held, ps0, b0);
      CostOfLogged(held, ps0, b0);
      assert bought[|bought| - 1] == BuyTrade(ps[|ps| - 1]);
    }
  }

  /** Cash, positions and buy log while the candidates are walked. */
  datatype Book = Book(cash: real, ps: seq<Position>, bought: seq<Trade>)

  /** One candidate of the buy loop: skipped when its symbol is held or its
      allocation buys no whole share, bought otherwise. */
  function BuyOne(b: Book, row: BuyRow, n: int): Book {
    if row.symbol !in Symbols(b.ps) && n > 0 then
      Book(b.cash - n as real * row.price, b.ps + [Position(row.symbol, n, row.price)],
           b.bought + [Trade(row.symbol, Buy, row.price, n, 0.0)])
    else b
  }

  /** The cash left covers the remaining candidates' allocations, and cash
      plus what was paid for the positions stays the starting total. */
  predicate CashOk(cash: real, alloc: real, held: seq<Position>, remaining: nat, b: Book) {
    Budget(remaining, alloc) <= b.cash <= cash && b.cash + BookValue(b.ps) == cash + BookValue(held)
  }

  /** The positions extend the held ones without repeating a symbol, and the log records the purchases. */
  predicate ShapeOk(held: seq<Position>, b: Book) {
    Extends(held, b.ps) && Logged(held, b.ps, b.bought) && (DistinctSymbols(held) ==> DistinctSymbols(b.ps))
  }

  /** What holds after the first `i` candidates, starting from `cash` and `held`. */
  predicate BuyInvariant(cash: real, alloc: real, held: seq<Position>, buys: seq<BuyRow>, counts: seq<int>, i: nat, b: Book)
    requires i <= |buys| == |counts|
  {
    && CashOk(cash, alloc, held, |buys| - i, b) && ShapeOk(held, b)
    && |held| <= |b.ps| && NewFromBuys(held, b.ps, buys, counts, i) && Covered(b.ps, buys, counts, i)
  }

  /** The loop over the buy candidates, candidate `i` buying `counts[i]`
      shares, which cost at most `alloc`. */
  method BuyEach(cash: real, alloc: real, held: seq<Position>, buys: seq<BuyRow>, counts: seq<int>)
    returns (cashOut: real, ps: seq<Position>, bought: seq<Trade>)
    requires |counts| == |buys| && alloc >= 0.0 && Budget(|buys|, alloc) <= cash
    requires forall i :: 0 <= i < |buys| ==> 0.0 <= counts[i] as real * buys[i].price <= alloc
    ensures 0.0 <= cashOut <= cash
    ensures cashOut + BookValue(ps) == cash + BookValue(held)
    ensures Extends(held, ps) && Logged(held, ps, bought)
    ensures DistinctSymbols(held) ==> DistinctSymbols(ps)
    ensures NewFromBuys(held, ps, buys, counts, |buys|) && Covered(ps, buys, counts, |buys|)
    ensures Book(cashOut, ps, bought) == BuyFold(Book(cash, held, []), buys, counts)
  {
    var b := Book(cash, held, []);
    assert held[..|held|] == held;
    var i := 0;
    while i < |buys|
      invariant 0 <= i <= |buys|
      invariant BuyInvariant(cash, alloc, held, buys, counts, i, b)
      invariant b == BuyFold(Book(cash, held, []), buys[..i], counts[..i])
    {
      BuyOneKeeps(cash, alloc, held, buys, counts, i, b);
      BuyFoldStep(Book(cash, held, []), buys, counts, i);
      b := BuyOne(b, buys[i], counts[i]);
      i := i + 1;
    }
    assert buys[..i] == buys && counts[..i] == counts;
    cashOut, ps, bought := b.cash, b.ps, b.bought;
  }

  /** The buy loop as a fold: `BuyOne` applied to the candidates in order. */
  function BuyFold(b: Book, buys: seq<BuyRow>, counts: seq<int>): Book
    requires |buys| == |counts|
  {
    if |buys| == 0 then b
    else
      var k := |buys| - 1;
      BuyOne(BuyFold(b, buys[..k], counts[..k]), buys[k], counts[k])
  }

  lemma BuyFoldStep(b: Book, buys: seq<BuyRow>, counts: seq<int>, i: nat)
    requires i < |buys| == |counts|
    ensures BuyFold(b, buys[..i + 1], counts[..i + 1]) == BuyOne(BuyFold(b, buys[..i], counts[..i]), buys[i], counts[i])
  {
    assert buys[..i + 1][..i] == buys[..i] && counts[..i + 1][..i] == counts[..i];
  }

  /** The buy step as a function: nothing happens without candidates or
      cash; otherwise each candidate in turn buys its allotted shares. */
  function BuyStep(cash: real, held: seq<Position>, buys: seq<BuyRow>): Book
    requires forall i :: 0 <= i < |buys| ==> buys[i].price > 0.0
  {
    if |buys| == 0 || cash <= 0.0 then Book(cash, held, [])
    else BuyFold(Book(cash, held, []), buys, Allotted(cash, buys))
  }

  /** One step of the buy loop keeps its invariant. */
  lemma BuyOneKeeps(cash: real, alloc: real, held: seq<Position>, buys: seq<BuyRow>, counts: seq<int>, i: nat, b: Book)
    requires i < |buys| == |counts| && alloc >= 0.0
    requires 0.0 <= counts[i] as real * buys[i].price <= alloc
    requires BuyInvariant(cash, alloc, held, buys, counts, i, b)
    ensures BuyInvariant(cash, alloc, held, buys, counts, i + 1, BuyOne(b, buys[i], counts[i]))
  {
    CashKeeps(cash, alloc, held, |buys| - (i + 1), b, buys[i], counts[i]);
    ShapeKeeps(held, b, buys[i], counts[i]);
    OriginKeeps(held, b, buys, counts, i);
  }

  lemma CashKeeps(cash: real, alloc: real, held: seq<Position>, remaining: nat, b: Book, row: BuyRow, n: int)
    requires 0.0 <= n as real * row.price <= alloc
    requires CashOk(cash, alloc, held, remaining + 1, b)
    ensures CashOk(cash, alloc, held, remaining, BuyOne(b, row, n))
  {
    assert Budget(remaining + 1, alloc) == Budget(remaining, alloc) + alloc;
    if row.symbol !in Symbols(b.ps) && n > 0 {
      var cost := n as real * row.price;
      var b' := BuyOne(b, row, n);
      assert b'.cash == b.cash - cost && b'.ps == b.ps + [Position(row.symbol, n, row.price)];
      BookValueAppend(b.ps, row.symbol, n, row.price);
    }
  }

  lemma ShapeKeeps(held: seq<Position>, b: Book, row: BuyRow, n: int)
    requires ShapeOk(held, b)
    ensures ShapeOk(held, BuyOne(b, row, n))
  {
    if row.symbol !in Symbols(b.ps) && n > 0 {
      var p := Position(row.symbol, n, row.price);
      SymbolsAppend(b.ps, p);
      ExtendsAppend(held, b.ps, p);
      LoggedAppend(held, b.ps, b.bought, p);
    }
  }

  lemma OriginKeeps(held: seq<Position>, b: Book, buys: seq<BuyRow>, counts: seq<int>, i: nat)
    requires i < |buys| == |counts| && |held| <= |b.ps|
    requires NewFromBuys(held, b.ps, buys, counts, i) && Covered(b.ps, buys, counts, i)
    ensures var b' := BuyOne(b, buys[i], counts[i]);
            |held| <= |b'.ps| && NewFromBuys(held, b'.ps, buys, counts, i + 1) && Covered(b'.ps, buys, counts, i + 1)
  {
    if buys[i].symbol !in Symbols(b.ps) && counts[i] > 0 {
      var p := Position(buys[i].symbol, counts[i], buys[i].price);
      NewFromBuysAppend(held, b.ps, buys, counts, i, p);
      CoveredAppend(b.ps, buys, counts, i, p);
    } else {
      SkipKeeps(held, b.ps, buys, counts, i);
    }
  }

  /** `k` allocations: what the last `k` candidates may spend at most. */
  function Budget(k: nat, alloc: real): (b: real)
    ensures alloc >= 0.0 ==> b >= 0.0
  {
    if k == 0 then 0.0 else Budget(k - 1, alloc) + alloc
  }

  /** `n` allocations of `cash / n` are the whole cash. */
  lemma BudgetOfAll(n: nat, cash: real)
    requires n > 0
    ensures Budget(n, cash / n as real) == cash
  {
    BudgetIsProduct(n, cash / n as real);
  }

  lemma {:induction false} BudgetIsProduct(k: nat, alloc: real)
    ensures Budget(k, alloc) == k as real * alloc
  {
    if k > 0 {
      BudgetIsProduct(k - 1, alloc);
      assert k as real * alloc == (k - 1) as real * alloc + alloc;
    }
  }

  lemma BookValueAppend(ps: seq<Position>, symbol: string, n: int, price: real)
    ensures BookValue(ps + [Position(symbol, n, price)]) == BookValue(ps) + n as real * price
  {
    assert (ps + [Position(symbol, n, price)])[..|ps|] == ps;
  }

  lemma SymbolsAppend(ps: seq<Position>, p: Position)
    ensures Symbols(ps + [p]) == Symbols(ps) + [p.symbol]
    ensures DistinctSymbols(ps) && p.symbol !in Symbols(ps) ==> DistinctSymbols(ps + [p])
  {
    if DistinctSymbols(ps) && p.symbol !in Symbols(ps) {
      forall i, j | 0 <= i < j < |ps| + 1 ensures (ps + [p])[i].symbol != (ps + [p])[j].symbol {
        if j == |ps| {
          assert Symbols(ps)[i] == ps[i].symbol;
        }
      }
    }
  }

  lemma ExtendsAppend(held: seq<Position>, ps: seq<Position>, p: Position)
    requires Extends(held, ps) && p.symbol !in Symbols(ps) && p.shares > 0
    ensures Extends(held, ps + [p])
  {
    assert (ps + [p])[..|held|] == held;
  }

  lemma LoggedAppend(held: seq<Position>, ps: seq<Position>, bought: seq<Trade>, p: Position)
    requires Logged(held, ps, bought)
    ensures Logged(held, ps + [p], bought + [BuyTrade(p)])
  {
  }

  lemma NewFromBuysAppend(held: seq<Position>, ps: seq<Position>, buys: seq<BuyRow>, counts: seq<int>, i: nat,
                          p: Position)
    requires i < |buys| == |counts| && |held| <= |ps|
    requires NewFromBuys(held, ps, buys, counts, i)
    requires p == Position(buys[i].symbol, counts[i], buys[i].price)
    ensures NewFromBuys(held, ps + [p], buys, counts, i + 1)
  {
    var ps' := ps + [p];
    forall j | |held| <= j < |ps'| ensures BoughtFrom(ps'[j], buys, counts, i + 1) {
      if j < |ps| {
        var k :| 0 <= k < i && buys[k].symbol == ps[j].symbol && buys[k].price == ps[j].entryPrice
                 && ps[j].shares == counts[k];
      } else {
        assert ps'[j] == p;
      }
    }
  }

  lemma CoveredAppend(ps: seq<Position>, buys: seq<BuyRow>, counts: seq<int>, i: nat, p: Position)
    requires i < |buys| == |counts|
    requires Covered(ps, buys, counts, i) && p.symbol == buys[i].symbol
    ensures Covered(ps + [p], buys, counts, i + 1)
  {
    SymbolsAppend(ps, p);
  }

  /** Skipping candidate `i` (held already, or no whole share) keeps the loop's facts. */
  lemma SkipKeeps(held: seq<Position>, ps: seq<Position>, buys: seq<BuyRow>, counts: seq<int>, i: nat)
    requires i < |buys| == |counts| && |held| <= |ps|
    requires NewFromBuys(held, ps, buys, counts, i) && Covered(ps, buys, counts, i)
    ensures buys[i].symbol in Symbols(ps) || counts[i] <= 0 ==>
              NewFromBuys(held, ps, buys, counts, i + 1) && Covered(ps, buys, counts, i + 1)
  {
    forall j | |held| <= j < |ps| ensures BoughtFrom(ps[j], buys, counts, i + 1) {
      var k :| 0 <= k < i && buys[k].symbol == ps[j].symbol && buys[k].price == ps[j].entryPrice
               && ps[j].shares == counts[k];
    }
  }

  /** Selling positions of positive share counts at positive prices raises non-negative cash. */
  lemma {:induction false} ExitProceedsNonneg(ps: seq<Position>, top: set<string>, prices: Prices)
    requires ValidPositions(ps) && PositivePrices(prices)
    ensures Proceeds(ExitPositions(ps, top, prices).sells) >= 0.0
  {
    if |ps| > 0 {
      ExitProceedsNonneg(ps[1..], top, prices);
      var r := ExitPositions(ps, top, prices);
      if Exits(ps[0], top, prices) {
        assert r.sells[1..] == ExitPositions(ps[1..], top, prices).sells;
        Stats.MulNonneg(r.sells[0].price, r.sells[0].shares as real);
      }
    }
  }

  /** The kept positions still hold each symbol once. */
  lemma {:induction false} ExitKeepsDistinct(ps: seq<Position>, top: set<string>, prices: Prices)
    requires DistinctSymbols(ps)
    ensures DistinctSymbols(ExitPositions(ps, top, prices).kept)
  {
    if |ps| > 0 {
      ExitKeepsDistinct(ps[1..], top, prices);
      var rest := ExitPositions(ps[1..], top, prices).kept;
      if !Exits(ps[0], top, prices) {
        forall j | 0 <= j < |rest| ensures rest[j].symbol != ps[0].symbol {
          assert rest[j] in rest;
          assert rest[j] in ps[1..];
          var k :| 0 <= k < |ps[1..]| && ps[1..][k] == rest[j];
          assert ps[k + 1] == rest[j];
        }
      }
    }
  }

  /** One month's inputs: the stocks with more than 250 rows of history up to
      the rebalance date (`current_stock_data`) with their momentum metrics
      (`None` where they could not be computed), each stock's last close and
      EMA signals. */
  datatype Month = Month(stocks: seq<(string, Option<Metrics>)>, prices: Prices, signals: string -> Option<EmaSignals>)

  /** `select_top_stocks(current_stock_data, nifty_slice, top_n=20)`. */
  function MonthTop(m: Month): (top: seq<TopRow>)
    ensures top == SelectTopStocks(m.stocks, 20)
    ensures |top| == 0 <==> |Candidates(m.stocks)| == 0
  {
    TopSelection(m.stocks, 20);
    SelectTopStocks(m.stocks, 20)
  }

  /** The month is rebalanced: at least 20 stocks have enough history and some pass the filter. */
  predicate Trades(m: Month) {
    |m.stocks| >= 20 && |Candidates(m.stocks)| > 0
  }

  /** The month at which `select_top_stocks` as written raises: enough
      history, but no stock passes the filter. */
  predicate Raises(m: Month) {
    |m.stocks| >= 20 && |Candidates(m.stocks)| == 0
  }

  /** `Raises` is exactly the month at which the selection as written fails. */
  lemma RaisesAsWritten(m: Month)
    ensures Raises(m) <==> |m.stocks| >= 20 && SelectTopStocksAsWritten(m.stocks, 20).Err?
  {
  }

  /** A row of `portfolio_values`. */
  datatype Snapshot = Snapshot(value: real, cash: real, positions: nat)

  /** Market data as it comes: positive closes and positive current prices. */
  ghost predicate ValidMonth(m: Month) {
    PositivePrices(m.prices) && forall j :: 0 <= j < |m.stocks| && m.stocks[j].1.Some? ==> m.stocks[j].1.value.currentPrice > 0.0
  }

  /** Every selected stock carries the positive current price of its metrics. */
  lemma SelectedPricesPositive(m: Month)
    requires ValidMonth(m)
    ensures forall i :: 0 <= i < |MonthTop(m)| ==> MonthTop(m)[i].metrics.currentPrice > 0.0
  {
    var top := MonthTop(m);
    TopSelection(m.stocks, 20);
    forall i | 0 <= i < |top| ensures top[i].metrics.currentPrice > 0.0 {
      var row := top[i].(rank := 0);
      assert row in Candidates(m.stocks);
      assert (row.symbol, Some(row.metrics)) in m.stocks;
    }
  }

  /** `set(top_stocks['symbol'])`. */
  function TopSymbols(top: seq<TopRow>): (r: set<string>)
    ensures forall s :: s in r <==> exists i :: 0 <= i < |top| && top[i].symbol == s
  {
    set i | 0 <= i < |top| :: top[i].symbol
  }

  /** The buy candidates carry the symbol and current price of a selected stock. */
  lemma BuyPricesPositive(top: seq<TopRow>, signals: string -> Option<EmaSignals>)
    requires forall i :: 0 <= i < |top| ==> top[i].metrics.currentPrice > 0.0
    ensures forall i :: 0 <= i < |ApplyEmaFilter(top, signals)| ==>
              ApplyEmaFilter(top, signals)[i].price > 0.0 && ApplyEmaFilter(top, signals)[i].symbol in TopSymbols(top)
  {
    var r := ApplyEmaFilter(top, signals);
    forall i | 0 <= i < |r| ensures r[i].price > 0.0 && r[i].symbol in TopSymbols(top) {
      assert r[i] in r;
      var row :| row in top && Enters(row, signals) && r[i] == BuyOf(row, signals(row.symbol).value);
    }
  }

  /** One rebalance of `backtest_strategy`: skipped when fewer than 20 stocks
      have enough history or nothing is selected; otherwise select the top
      20, sell what left the selection, buy the entry signals, and record the
      month's value. */
  method Rebalance(m: Month, cash: real, ps: seq<Position>)
    returns (cash': real, ps': seq<Position>, trades: seq<Trade>, snap: Option<Snapshot>)
    requires ValidMonth(m) && cash >= 0.0 && ValidPositions(ps) && DistinctSymbols(ps)
    ensures snap.None? <==> !Trades(m)
    ensures snap.None? ==> cash' == cash && ps' == ps && trades == []
    ensures cash' >= 0.0 && ValidPositions(ps') && DistinctSymbols(ps')
    ensures snap.Some? ==> snap.value == Snapshot(PortfolioValue(cash', ps', m.prices), cash', |ps'|)
    ensures snap.Some? ==> 0.0 <= snap.value.cash <= snap.value.value
    ensures forall p :: p in ps && p.symbol in TopSymbols(MonthTop(m)) ==> p in ps'
    ensures forall p :: p in ps' && p !in ps ==> p.symbol in TopSymbols(MonthTop(m))
    ensures cash' == cash + Proceeds(trades) - Cost(trades)
    ensures forall p :: p in ps' ==> p in ps || BuyTrade(p) in trades
    ensures var top := TopSymbols(MonthTop(m));
            forall t :: t in trades && t.action == Sell ==>
              exists p :: p in ps && Exits(p, top, m.prices) && SoldAt(t, p, m.prices)
    ensures snap.Some? ==> forall p :: p in ps ==> (p in ps' <==> !Exits(p, TopSymbols(MonthTop(m)), m.prices))
    ensures snap.Some? ==> var ex := ExitPositions(ps, TopSymbols(MonthTop(m)), m.prices);
              && |ex.sells| <= |trades| && trades[..|ex.sells|] == ex.sells
              && (forall j :: |ex.sells| <= j < |trades| ==> trades[j].action == Buy && trades[j].symbol in TopSymbols(MonthTop(m)))
              && cash' + BookValue(ps') == cash + Proceeds(ex.sells) + BookValue(ex.kept)
    ensures snap.Some? ==> MonthBuys(m, cash, ps, cash', ps')
    ensures snap.Some? ==> Book(cash', ps', trades) == MonthTrade(m, cash, ps)
  {
    if |m.stocks| < 20 || |MonthTop(m)| == 0 {
      return cash, ps, [], None;
    }
    var exits, buys, bought;
    cash', ps', trades, exits, buys, bought := TradeSelected(m, cash, ps);
    MonthFacts(m, cash, ps, cash', ps', exits, buys, bought);
    snap := Some(Snapshot(PortfolioValue(cash', ps', m.prices), cash', |ps'|));
  }

  /** The trading of a month that trades: the exits, then the buys. */
  method TradeSelected(m: Month, cash: real, ps: seq<Position>)
    returns (cash': real, ps': seq<Position>, trades: seq<Trade>, exits: ExitResult, buys: seq<BuyRow>,
             bought: seq<Trade>)
    requires ValidMonth(m) && cash >= 0.0 && ValidPositions(ps) && DistinctSymbols(ps)
    ensures trades == exits.sells + bought
    ensures cash' >= 0.0 && ValidPositions(ps') && DistinctSymbols(ps')
    ensures forall p :: p in ps' && p !in ps ==> p.symbol in TopSymbols(MonthTop(m))
    ensures ExitThenBuy(m, cash, ps, cash', ps', exits, buys, bought)
  {
    var selected := MonthTop(m);
    var top := TopSymbols(selected);
    exits := ExitPositions(ps, top, m.prices);
    ExitProceedsNonneg(ps, top, m.prices);
    ExitKeepsDistinct(ps, top, m.prices);
    buys := ApplyEmaFilter(selected, m.signals);
    SelectedPricesPositive(m);
    BuyPricesPositive(selected, m.signals);
    ExitKeptValid(ps, top, m.prices);
    assert forall i :: 0 <= i < |buys| ==> buys[i].price > 0.0 && buys[i].symbol in top;
    cash', ps', bought := BuyAfterExits(ps, top, exits, buys, cash);
    trades := exits.sells + bought;
  }

  /** `exits` and `buys` are the month's exit step and buy candidates, and
      the buy step on the cash the exits leave gave `cash'`, `ps'` and the
      buy log `bought`. */
  predicate ExitThenBuy(m: Month, cash: real, ps: seq<Position>, cash': real, ps': seq<Position>, exits: ExitResult,
                        buys: seq<BuyRow>, bought: seq<Trade>)
  {
    && exits == ExitPositions(ps, TopSymbols(MonthTop(m)), m.prices)
    && buys == ApplyEmaFilter(MonthTop(m), m.signals) && (forall i :: 0 <= i < |buys| ==> buys[i].price > 0.0)
    && (forall j :: |exits.kept| <= j < |ps'| ==> ps'[j].symbol in TopSymbols(MonthTop(m)))
    && Extends(exits.kept, ps') && Logged(exits.kept, ps', bought)
    && cash' + BookValue(ps') == cash + Proceeds(exits.sells) + BookValue(exits.kept)
    && BuysOn(exits, buys, cash, cash', ps')
    && Book(cash', ps', exits.sells + bought) == TradeOn(exits, buys, cash)
  }

  /** What a trading month's outcome promises, from the exit and buy steps that produced it. */
  lemma MonthFacts(m: Month, cash: real, ps: seq<Position>, cash': real, ps': seq<Position>, exits: ExitResult,
                   buys: seq<BuyRow>, bought: seq<Trade>)
    requires ValidMonth(m) && ExitThenBuy(m, cash, ps, cash', ps', exits, buys, bought)
    ensures var top := TopSymbols(MonthTop(m));
            var trades := exits.sells + bought;
            && (forall p :: p in ps && p.symbol in top ==> p in ps')
            && cash' == cash + Proceeds(trades) - Cost(trades)
            && (forall p :: p in ps' ==> p in ps || BuyTrade(p) in trades)
            && (forall t :: t in trades && t.action == Sell ==>
                  exists p :: p in ps && Exits(p, top, m.prices) && SoldAt(t, p, m.prices))
            && (forall p :: p in ps ==> (p in ps' <==> !Exits(p, top, m.prices)))
            && |exits.sells| <= |trades| && trades[..|exits.sells|] == exits.sells
            && (forall j :: |exits.sells| <= j < |trades| ==> trades[j].action == Buy && trades[j].symbol in top)
    ensures MonthBuys(m, cash, ps, cash', ps')
    ensures Book(cash', ps', exits.sells + bought) == MonthTrade(m, cash, ps)
  {
    MonthLog(cash, cash', ps, TopSymbols(MonthTop(m)), m.prices, ps', bought);
    MonthOutcome(m, cash, ps, exits, buys, cash', ps', bought);
  }

  /** The buy step's outcome on the month's own exits and entry signals is the month's. */
  lemma MonthOutcome(m: Month, cash: real, ps: seq<Position>, exits: ExitResult, buys: seq<BuyRow>,
                     cash': real, ps': seq<Position>, bought: seq<Trade>)
    requires ValidMonth(m)
    requires exits == ExitPositions(ps, TopSymbols(MonthTop(m)), m.prices)
    requires buys == ApplyEmaFilter(MonthTop(m), m.signals)
    requires forall i :: 0 <= i < |buys| ==> buys[i].price > 0.0
    requires BuysOn(exits, buys, cash, cash', ps')
    requires Book(cash', ps', exits.sells + bought) == TradeOn(exits, buys, cash)
    ensures MonthBuys(m, cash, ps, cash', ps')
    ensures Book(cash', ps', exits.sells + bought) == MonthTrade(m, cash, ps)
  {
  }

  /** The buys of a month that trades, its exits being `ex` and its buy
      candidates `buys`: the cash after the exits, `funds`, is split equally
      over the candidates; when there are some and `funds` is positive, the
      kept positions are followed by purchases of the allotted whole shares
      of candidates not yet held, and every candidate is held or cannot
      afford a share; otherwise nothing is bought and the cash is `funds`. */
  predicate BuysOn(ex: ExitResult, buys: seq<BuyRow>, cash: real, cash': real, ps': seq<Position>)
    requires forall i :: 0 <= i < |buys| ==> buys[i].price > 0.0
  {
    var funds := cash + Proceeds(ex.sells);
    && (funds > 0.0 && |buys| > 0 ==>
          && Extends(ex.kept, ps')
          && NewFromBuys(ex.kept, ps', buys, Allotted(funds, buys), |buys|)
          && Covered(ps', buys, Allotted(funds, buys), |buys|))
    && (funds <= 0.0 || |buys| == 0 ==> ps' == ex.kept && cash' == funds)
  }

  /** The trading that follows the exits `ex`: buy the candidates with the
      cash the exits leave; the log is the sells then the buys. */
  function TradeOn(ex: ExitResult, buys: seq<BuyRow>, cash: real): Book
    requires forall i :: 0 <= i < |buys| ==> buys[i].price > 0.0
  {
    var b := BuyStep(cash + Proceeds(ex.sells), ex.kept, buys);
    Book(b.cash, b.ps, ex.sells + b.bought)
  }

  /** `BuysOn` for the month's own exits and entry signals. */
  ghost predicate MonthBuys(m: Month, cash: real, ps: seq<Position>, cash': real, ps': seq<Position>)
    requires ValidMonth(m)
  {
    SelectedPricesPositive(m);
    BuyPricesPositive(MonthTop(m), m.signals);
    BuysOn(ExitPositions(ps, TopSymbols(MonthTop(m)), m.prices), ApplyEmaFilter(MonthTop(m), m.signals), cash, cash', ps')
  }

  /** A trading month as a function of the cash and positions before it:
      sell the positions that left the selection, then buy the entry-signal
      stocks with the cash that gives. */
  function MonthTrade(m: Month, cash: real, ps: seq<Position>): Book
    requires ValidMonth(m)
  {
    SelectedPricesPositive(m);
    BuyPricesPositive(MonthTop(m), m.signals);
    TradeOn(ExitPositions(ps, TopSymbols(MonthTop(m)), m.prices), ApplyEmaFilter(MonthTop(m), m.signals), cash)
  }

  /** The buy step after the exits `ex`, with the cash they leave. */
  method BuyAfterExits(ps: seq<Position>, top: set<string>, ex: ExitResult, buys: seq<BuyRow>, cash: real)
    returns (cash': real, ps': seq<Position>, bought: seq<Trade>)
    requires ValidPositions(ex.kept) && forall p :: p in ex.kept ==> p in ps
    requires forall i :: 0 <= i < |buys| ==> buys[i].price > 0.0 && buys[i].symbol in top
    ensures var funds := cash + Proceeds(ex.sells);
            && (funds > 0.0 ==> 0.0 <= cash' <= funds)
            && (funds <= 0.0 ==> cash' == funds)
            && cash' + BookValue(ps') == funds + BookValue(ex.kept)
    ensures Extends(ex.kept, ps') && Logged(ex.kept, ps', bought)
    ensures DistinctSymbols(ex.kept) ==> DistinctSymbols(ps')
    ensures ValidPositions(ps')
    ensures forall p :: p in ps' && p !in ps ==> p.symbol in top
    ensures forall j :: |ex.kept| <= j < |ps'| ==> ps'[j].symbol in top
    ensures BuysOn(ex, buys, cash, cash', ps')
    ensures Book(cash', ps', ex.sells + bought) == TradeOn(ex, buys, cash)
  {
    var funds := cash + Proceeds(ex.sells);
    cash', ps', bought := BuyPositions(funds, ex.kept, buys);
    if |buys| > 0 && funds > 0.0 {
      BuyOutcome(ps, ex.kept, ps', buys, Allotted(funds, buys), top);
    } else {
      BuyOutcome(ps, ex.kept, ps', buys, seq(|buys|, _ => 0), top);
    }
  }

  /** The kept positions are positions of the portfolio, so still valid ones. */
  lemma ExitKeptValid(ps: seq<Position>, top: set<string>, prices: Prices)
    requires ValidPositions(ps)
    ensures var kept := ExitPositions(ps, top, prices).kept;
            ValidPositions(kept) && forall p :: p in kept ==> p in ps
  {
    var kept := ExitPositions(ps, top, prices).kept;
    forall i | 0 <= i < |kept| ensures kept[i].shares > 0 && kept[i].entryPrice > 0.0 {
      assert kept[i] in kept;
      var j :| 0 <= j < |ps| && ps[j] == kept[i];
    }
  }

  /** After the buy step the positions are the kept ones followed by
      purchases of selected stocks at positive prices: all are valid, every
      kept position stays, and every new one is in the selection. */
  lemma BuyOutcome(ps: seq<Position>, kept: seq<Position>, ps': seq<Position>, buys: seq<BuyRow>, counts: seq<int>,
                   top: set<string>)
    requires |counts| == |buys|
    requires ValidPositions(kept) && forall p :: p in kept ==> p in ps
    requires forall i :: 0 <= i < |buys| ==> buys[i].price > 0.0 && buys[i].symbol in top
    requires Extends(kept, ps') && (ps' == kept || NewFromBuys(kept, ps', buys, counts, |buys|))
    ensures ValidPositions(ps')
    ensures forall p :: p in kept ==> p in ps'
    ensures forall p :: p in ps' && p !in ps ==> p.symbol in top
    ensures forall j :: |kept| <= j < |ps'| ==> ps'[j].symbol in top
  {
    forall j | 0 <= j < |ps'| ensures ps'[j].shares > 0 && ps'[j].entryPrice > 0.0 && (ps'[j] in ps || ps'[j].symbol in top) {
      if j < |kept| {
        assert ps'[j] == kept[j];
        assert kept[j] in kept;
      } else {
        assert ps' != kept;
        var k :| 0 <= k < |buys| && buys[k].symbol == ps'[j].symbol && buys[k].price == ps'[j].entryPrice
                 && ps'[j].shares == counts[k];
      }
    }
    forall p | p in kept ensures p in ps' {
      var k :| 0 <= k < |kept| && kept[k] == p;
      assert ps'[k] == p;
    }
  }

  /** The month's log is the exit sells followed by the logged buys: the
      cash afterwards is the cash before plus what the log raised less what
      it spent, and every position held afterwards was kept or logged as bought. */
  lemma MonthBooks(cash: real, cash': real, kept: seq<Position>, sells: seq<Trade>, ps': seq<Position>,
                   bought: seq<Trade>)
    requires forall j :: 0 <= j < |sells| ==> sells[j].action == Sell
    requires Extends(kept, ps') && Logged(kept, ps', bought)
    requires cash' + BookValue(ps') == cash + Proceeds(sells) + BookValue(kept)
    ensures cash' == cash + Proceeds(sells + bought) - Cost(sells + bought)
    ensures forall p :: p in ps' ==> p in kept || BuyTrade(p) in sells + bought
  {
    ProceedsAppend(sells, bought);
    CostAppend(sells, bought);
    ProceedsOfBuys(bought);
    CostOfSells(sells);
    CostOfLogged(kept, ps', bought);
    forall p | p in ps' ensures p in kept || BuyTrade(p) in sells + bought {
      var k :| 0 <= k < |ps'| && ps'[k] == p;
      if k < |kept| {
        assert ps'[..|kept|][k] == p;
      } else {
        assert (sells + bought)[|sells| + k - |kept|] == BuyTrade(p);
      }
    }
  }

  /** Every sell the exit step logs is a sell. */
  lemma ExitSellsAreSells(ps: seq<Position>, top: set<string>, prices: Prices)
    ensures var sells := ExitPositions(ps, top, prices).sells;
            forall j :: 0 <= j < |sells| ==> sells[j].action == Sell
  {
    var sells := ExitPositions(ps, top, prices).sells;
    ExitSells(ps, top, prices);
    forall j | 0 <= j < |sells| ensures sells[j].action == Sell {
      assert sells[j] in sells;
    }
  }

  /** After the month a position of the portfolio is still held exactly when
      it does not exit, and the log's later rows buy selected stocks. */
  lemma MonthShape(ps: seq<Position>, top: set<string>, prices: Prices, ps': seq<Position>, bought: seq<Trade>)
    requires var kept := ExitPositions(ps, top, prices).kept;
             Extends(kept, ps') && Logged(kept, ps', bought)
             && forall j :: |kept| <= j < |ps'| ==> ps'[j].symbol in top
    ensures forall p :: p in ps ==> (p in ps' <==> !Exits(p, top, prices))
    ensures forall j :: 0 <= j < |bought| ==> bought[j].action == Buy && bought[j].symbol in top
  {
    var kept := ExitPositions(ps, top, prices).kept;
    forall p | p in ps ensures p in ps' <==> !Exits(p, top, prices) {
      if !Exits(p, top, prices) {
        var k :| 0 <= k < |kept| && kept[k] == p;
        assert ps'[..|kept|][k] == p;
      }
    }
    forall j | 0 <= j < |bought| ensures bought[j].action == Buy && bought[j].symbol in top {
      assert bought[j] == BuyTrade(ps'[|kept| + j]);
    }
  }

  /** The month's bookkeeping, the log being the exit sells followed by the
      buys: cash moves by exactly what the log raised and spent, positions
      held afterwards were kept or logged as bought, each sell closes a
      position that exits, and the positions of the portfolio that stay are
      exactly those that do not exit. */
  lemma MonthLog(cash: real, cash': real, ps: seq<Position>, top: set<string>, prices: Prices,
                 ps': seq<Position>, bought: seq<Trade>)
    requires var ex := ExitPositions(ps, top, prices);
             && Extends(ex.kept, ps') && Logged(ex.kept, ps', bought)
             && (forall j :: |ex.kept| <= j < |ps'| ==> ps'[j].symbol in top)
             && cash' + BookValue(ps') == cash + Proceeds(ex.sells) + BookValue(ex.kept)
    ensures var ex := ExitPositions(ps, top, prices);
            var trades := ex.sells + bought;
            && cash' == cash + Proceeds(trades) - Cost(trades)
            && (forall p :: p in ps' ==> p in ps || BuyTrade(p) in trades)
            && (forall t :: t in trades && t.action == Sell ==>
                  exists p :: p in ps && Exits(p, top, prices) && SoldAt(t, p, prices))
            && trades[..|ex.sells|] == ex.sells
            && (forall j :: |ex.sells| <= j < |trades| ==> trades[j].action == Buy && trades[j].symbol in top)
            && (forall p :: p in ps ==> (p in ps' <==> !Exits(p, top, prices)))
  {
    var ex := ExitPositions(ps, top, prices);
    ExitSellsAreSells(ps, top, prices);
    MonthBooks(cash, cash', ex.kept, ex.sells, ps', bought);
    MonthShape(ps, top, prices, ps', bought);
    MonthSells(ps, top, prices, bought);
  }

  /** The exit sells come first in the month's log, each closing a position
      that exits, and the buys after them are of selected stocks. */
  lemma MonthSells(ps: seq<Position>, top: set<string>, prices: Prices, bought: seq<Trade>)
    requires forall j :: 0 <= j < |bought| ==> bought[j].action == Buy && bought[j].symbol in top
    ensures var sells := ExitPositions(ps, top, prices).sells;
            var trades := sells + bought;
            && trades[..|sells|] == sells
            && (forall t :: t in trades && t.action == Sell ==>
                  exists p :: p in ps && Exits(p, top, prices) && SoldAt(t, p, prices))
            && (forall j :: |sells| <= j < |trades| ==> trades[j].action == Buy && trades[j].symbol in top)
  {
    var sells := ExitPositions(ps, top, prices).sells;
    var trades := sells + bought;
    ExitSells(ps, top, prices);
    assert trades[..|sells|] == sells;
    forall t | t in trades && t.action == Sell
      ensures exists p :: p in ps && Exits(p, top, prices) && SoldAt(t, p, prices)
    {
      assert t in sells;
    }
    forall j | |sells| <= j < |trades| ensures trades[j].action == Buy && trades[j].symbol in top {
      assert trades[j] == bought[j - |sells|];
    }
  }

  /** How many of the months are rebalanced. */
  function TradedCount(months: seq<Month>): (n: nat)
    ensures n <= |months|
  {
    if |months| == 0 then 0 else TradedCount(months[..|months| - 1]) + (if Trades(months[|months| - 1]) then 1 else 0)
  }

  /** No snapshot holds more cash than its whole value, nor negative cash. */
  predicate CashWithinValue(values: seq<Snapshot>) {
    forall k :: 0 <= k < |values| ==> 0.0 <= values[k].cash <= values[k].value
  }

  lemma CashWithinValueAppend(values: seq<Snapshot>, v: Snapshot)
    requires CashWithinValue(values) && 0.0 <= v.cash <= v.value
    ensures CashWithinValue(values + [v])
  {
  }

  /** The first month from `i` on at which the selection as written raises. */
  function RaiseFrom(months: seq<Month>, i: nat): (r: Option<nat>)
    requires i <= |months|
    ensures r.Some? ==> i <= r.value < |months| && Raises(months[r.value])
                        && forall j :: i <= j < r.value ==> !Raises(months[j])
    ensures r.None? ==> forall j :: i <= j < |months| ==> !Raises(months[j])
    decreases |months| - i
  {
    if i == |months| then None
    else if Raises(months[i]) then Some(i)
    else RaiseFrom(months, i + 1)
  }

  /** One more month adds one to the count when it is rebalanced. */
  lemma TradedStep(months: seq<Month>, i: nat)
    requires i < |months|
    ensures TradedCount(months[..i + 1]) == TradedCount(months[..i]) + (if Trades(months[i]) then 1 else 0)
  {
    assert months[..i + 1][..i] == months[..i];
  }

  /** The first month at which the selection as written raises, if any. */
  predicate FirstRaise(months: seq<Month>, k: nat) {
    k < |months| && Raises(months[k]) && forall j :: 0 <= j < k ==> !Raises(months[j])
  }

  /** Every position held was logged as bought. */
  predicate HeldLogged(ps: seq<Position>, trades: seq<Trade>) {
    forall p :: p in ps ==> BuyTrade(p) in trades
  }

  /** `t` sells `p` at one of the first `n` months, one at which `p` exits. */
  predicate SoldIn(t: Trade, p: Position, months: seq<Month>, n: nat) {
    exists k :: 0 <= k < n && k < |months| && Exits(p, TopSymbols(MonthTop(months[k])), months[k].prices)
                && SoldAt(t, p, months[k].prices)
  }

  /** Every sell of the log closes a position that an earlier row of the log
      bought, at one of the first `n` months. */
  predicate SellsMatched(trades: seq<Trade>, months: seq<Month>, n: nat) {
    forall j :: 0 <= j < |trades| && trades[j].action == Sell ==>
      exists b :: 0 <= b < j && trades[b].action == Buy && SoldIn(trades[j], Bought(trades[b]), months, n)
  }

  /** Appending a month's log keeps cash equal to the start plus all proceeds less all costs. */
  lemma CashStep(initial: real, cash: real, trades: seq<Trade>, cash': real, more: seq<Trade>)
    requires cash == initial + Proceeds(trades) - Cost(trades)
    requires cash' == cash + Proceeds(more) - Cost(more)
    ensures cash' == initial + Proceeds(trades + more) - Cost(trades + more)
  {
    ProceedsAppend(trades, more);
    CostAppend(trades, more);
  }

  /** Positions after a month were held before or are logged among its buys. */
  lemma HeldStep(ps: seq<Position>, trades: seq<Trade>, ps': seq<Position>, more: seq<Trade>)
    requires HeldLogged(ps, trades)
    requires forall p :: p in ps' ==> p in ps || BuyTrade(p) in more
    ensures HeldLogged(ps', trades + more)
  {
  }

  /** The sells of month `i` close positions held, so bought earlier in the log. */
  lemma SellsStep(trades: seq<Trade>, ps: seq<Position>, months: seq<Month>, i: nat, more: seq<Trade>)
    requires i < |months| && HeldLogged(ps, trades) && SellsMatched(trades, months, i)
    requires var top := TopSymbols(MonthTop(months[i]));
             forall t :: t in more && t.action == Sell ==>
               exists p :: p in ps && Exits(p, top, months[i].prices) && SoldAt(t, p, months[i].prices)
    ensures SellsMatched(trades + more, months, i + 1)
  {
    var all := trades + more;
    forall j | 0 <= j < |all| && all[j].action == Sell
      ensures exists b :: 0 <= b < j && all[b].action == Buy && SoldIn(all[j], Bought(all[b]), months, i + 1)
    {
      if j < |trades| {
        EarlierSellMatched(trades, more, months, i, j);
      } else {
        var t := all[j];
        assert t == more[j - |trades|] && t in more;
        var p :| p in ps && Exits(p, TopSymbols(MonthTop(months[i])), months[i].prices) && SoldAt(t, p, months[i].prices);
        NewSellMatched(trades, more, months, i, j, p);
      }
    }
  }

  /** A sell already matched stays matched when the log grows. */
  lemma EarlierSellMatched(trades: seq<Trade>, more: seq<Trade>, months: seq<Month>, i: nat, j: nat)
    requires SellsMatched(trades, months, i) && j < |trades| && trades[j].action == Sell
    ensures var all := trades + more;
            exists b :: 0 <= b < j && all[b].action == Buy && SoldIn(all[j], Bought(all[b]), months, i + 1)
  {
    var all := trades + more;
    var b :| 0 <= b < j && trades[b].action == Buy && SoldIn(trades[j], Bought(trades[b]), months, i);
    var k :| 0 <= k < i && k < |months| && Exits(Bought(trades[b]), TopSymbols(MonthTop(months[k])), months[k].prices)
             && SoldAt(trades[j], Bought(trades[b]), months[k].prices);
    assert all[b] == trades[b] && all[j] == trades[j];
  }

  /** A sell of month `i` closing a held position matches that position's buy. */
  lemma NewSellMatched(trades: seq<Trade>, more: seq<Trade>, months: seq<Month>, i: nat, j: nat, p: Position)
    requires i < |months| && |trades| <= j < |trades| + |more|
    requires BuyTrade(p) in trades
    requires Exits(p, TopSymbols(MonthTop(months[i])), months[i].prices) && SoldAt((trades + more)[j], p, months[i].prices)
    ensures var all := trades + more;
            exists b :: 0 <= b < j && all[b].action == Buy && SoldIn(all[j], Bought(all[b]), months, i + 1)
  {
    var all := trades + more;
    var b :| 0 <= b < |trades| && trades[b] == BuyTrade(p);
    assert all[b] == BuyTrade(p) && Bought(all[b]) == p;
    assert SoldIn(all[j], p, months, i + 1);
  }

  /** The backtest's state: cash, `portfolio_values`, `trades` and the portfolio. */
  datatype Ledger = Ledger(cash: real, values: seq<Snapshot>, trades: seq<Trade>, final: seq<Position>)

  /** The record of a trading month: the portfolio value, cash and position count after its trading. */
  function SnapshotOf(m: Month, b: Book): Snapshot {
    Snapshot(PortfolioValue(b.cash, b.ps, m.prices), b.cash, |b.ps|)
  }

  /** The backtest over `months` as a fold: a month that does not trade
      changes nothing; a month that trades applies `MonthTrade`, appends its
      log to the trades and its snapshot to the values. */
  function Replay(initial: real, months: seq<Month>): (r: Ledger)
    requires forall i :: 0 <= i < |months| ==> ValidMonth(months[i])
    ensures |r.values| == TradedCount(months)
  {
    if |months| == 0 then Ledger(initial, [], [], [])
    else ReplayMonth(months[|months| - 1], Replay(initial, months[..|months| - 1]))
  }

  /** One month of the replay. */
  function ReplayMonth(m: Month, r: Ledger): (r': Ledger)
    requires ValidMonth(m)
    ensures |r'.values| == |r.values| + if Trades(m) then 1 else 0
  {
    if !Trades(m) then r
    else
      var b := MonthTrade(m, r.cash, r.final);
      Ledger(b.cash, r.values + [SnapshotOf(m, b)], r.trades + b.bought, b.ps)
  }

  /** Without a month that trades, the backtest records nothing and keeps the initial cash. */
  lemma {:induction false} ReplayIdle(initial: real, months: seq<Month>)
    requires forall i :: 0 <= i < |months| ==> ValidMonth(months[i]) && !Trades(months[i])
    ensures Replay(initial, months) == Ledger(initial, [], [], [])
  {
    if |months| > 0 {
      ReplayIdle(initial, months[..|months| - 1]);
    }
  }

  /** One more month extends the replay by that month. */
  lemma ReplayStep(initial: real, months: seq<Month>, i: nat)
    requires i < |months| && forall j :: 0 <= j < |months| ==> ValidMonth(months[j])
    ensures Replay(initial, months[..i + 1]) == ReplayMonth(months[i], Replay(initial, months[..i]))
  {
    var ms := months[..i + 1];
    assert |ms| == i + 1 && ms[..i] == months[..i] && ms[i] == months[i];
  }

  /** A month whose outcome is `MonthTrade`, with its snapshot, is that month of the replay. */
  lemma ReplayMonthOf(m: Month, l: Ledger, cash': real, final': seq<Position>, more: seq<Trade>, snap: Option<Snapshot>)
    requires ValidMonth(m)
    requires snap.None? <==> !Trades(m)
    requires snap.None? ==> cash' == l.cash && final' == l.final && more == []
    requires snap.Some? ==> Book(cash', final', more) == MonthTrade(m, l.cash, l.final)
                            && snap.value == SnapshotOf(m, Book(cash', final', more))
    ensures ReplayMonth(m, l) == Ledger(cash', if snap.Some? then l.values + [snap.value] else l.values, l.trades + more, final')
  {
  }

  /** What the backtest keeps true after its first `i` months, starting
      from `initial` cash: the state is the replay of those months; one
      snapshot per rebalanced month, each with its cash between zero and
      its value; valid positions, one per symbol, each logged as bought;
      every sell closing an earlier buy; and cash equal to the start plus
      all proceeds less all costs, the last snapshot's cash being the
      current cash. */
  predicate Booked(initial: real, months: seq<Month>, i: nat, cash: real, values: seq<Snapshot>, trades: seq<Trade>,
                   final: seq<Position>)
    requires i <= |months| && forall j :: 0 <= j < |months| ==> ValidMonth(months[j])
  {
    Replay(initial, months[..i]) == Ledger(cash, values, trades, final)
    && Tracked(initial, months, i, cash, values, trades, final)
  }

  /** The facts `Booked` adds to the replay. */
  predicate Tracked(initial: real, months: seq<Month>, i: nat, cash: real, values: seq<Snapshot>, trades: seq<Trade>,
                    final: seq<Position>)
    requires i <= |months|
  {
    && |values| == TradedCount(months[..i])
    && cash >= 0.0 && ValidPositions(final) && DistinctSymbols(final)
    && CashWithinValue(values)
    && (|values| == 0 ==> final == [] && trades == [])
    && cash == initial + Proceeds(trades) - Cost(trades)
    && (|values| > 0 ==> values[|values| - 1].cash == cash)
    && HeldLogged(final, trades) && SellsMatched(trades, months, i)
  }

  /** One iteration of the backtest loop: rebalance month `i`, log its
      trades, and record its snapshot when it trades. */
  method BacktestMonth(initial: real, months: seq<Month>, i: nat, cash: real, values: seq<Snapshot>,
                       trades: seq<Trade>, final: seq<Position>)
    returns (cash': real, values': seq<Snapshot>, trades': seq<Trade>, final': seq<Position>)
    requires i < |months| && forall j :: 0 <= j < |months| ==> ValidMonth(months[j])
    requires Booked(initial, months, i, cash, values, trades, final)
    ensures Booked(initial, months, i + 1, cash', values', trades', final')
  {
    var more, snap;
    cash', final', more, snap := Rebalance(months[i], cash, final);
    values' := if snap.Some? then values + [snap.value] else values;
    trades' := trades + more;
    BookedStep(initial, months, i, cash, values, trades, final, cash', final', more, snap);
  }

  /** A month whose outcome meets `Rebalance`'s contract keeps the loop's facts. */
  lemma BookedStep(initial: real, months: seq<Month>, i: nat, cash: real, values: seq<Snapshot>, trades: seq<Trade>,
                   final: seq<Position>, cash': real, final': seq<Position>, more: seq<Trade>, snap: Option<Snapshot>)
    requires i < |months| && forall j :: 0 <= j < |months| ==> ValidMonth(months[j])
    requires Booked(initial, months, i, cash, values, trades, final)
    requires snap.None? <==> !Trades(months[i])
    requires snap.None? ==> cash' == cash && final' == final && more == []
    requires cash' >= 0.0 && ValidPositions(final') && DistinctSymbols(final')
    requires snap.Some? ==> snap.value.cash == cash' && 0.0 <= snap.value.cash <= snap.value.value
    requires snap.Some? ==> Book(cash', final', more) == MonthTrade(months[i], cash, final)
                            && snap.value == SnapshotOf(months[i], Book(cash', final', more))
    requires cash' == cash + Proceeds(more) - Cost(more)
    requires forall p :: p in final' ==> p in final || BuyTrade(p) in more
    requires var top := TopSymbols(MonthTop(months[i]));
             forall t :: t in more && t.action == Sell ==>
               exists p :: p in final && Exits(p, top, months[i].prices) && SoldAt(t, p, months[i].prices)
    ensures Booked(initial, months, i + 1, cash', if snap.Some? then values + [snap.value] else values,
                   trades + more, final')
  {
    ReplayStep(initial, months, i);
    ReplayMonthOf(months[i], Ledger(cash, values, trades, final), cash', final', more, snap);
    TrackedStep(initial, months, i, cash, values, trades, final, cash', final', more, snap);
  }

  /** A month whose outcome meets `Rebalance`'s contract keeps the facts `Booked` adds to the replay. */
  lemma TrackedStep(initial: real, months: seq<Month>, i: nat, cash: real, values: seq<Snapshot>, trades: seq<Trade>,
                    final: seq<Position>, cash': real, final': seq<Position>, more: seq<Trade>, snap: Option<Snapshot>)
    requires i < |months| && Tracked(initial, months, i, cash, values, trades, final)
    requires snap.None? <==> !Trades(months[i])
    requires snap.None? ==> cash' == cash && final' == final && more == []
    requires cash' >= 0.0 && ValidPositions(final') && DistinctSymbols(final')
    requires snap.Some? ==> snap.value.cash == cash' && 0.0 <= snap.value.cash <= snap.value.value
    requires cash' == cash + Proceeds(more) - Cost(more)
    requires forall p :: p in final' ==> p in final || BuyTrade(p) in more
    requires var top := TopSymbols(MonthTop(months[i]));
             forall t :: t in more && t.action == Sell ==>
               exists p :: p in final && Exits(p, top, months[i].prices) && SoldAt(t, p, months[i].prices)
    ensures Tracked(initial, months, i + 1, cash', if snap.Some? then values + [snap.value] else values,
                    trades + more, final')
  {
    CashStep(initial, cash, trades, cash', more);
    HeldStep(final, trades, final', more);
    SellsStep(trades, final, months, i, more);
    if snap.Some? {
      CashWithinValueAppend(values, snap.value);
    }
    TradedStep(months, i);
  }

  /** The backtest's bookkeeping over the monthly rebalance dates, with the
      corrected selection: a month in which no stock passes the filter is
      skipped. `raisesAt` is the first month at which the selection as
      written raises `KeyError` instead, ending the source's backtest. */
  method Backtest(initial: real, months: seq<Month>)
    returns (values: seq<Snapshot>, trades: seq<Trade>, final: seq<Position>, raisesAt: Option<nat>)
    requires initial >= 0.0
    requires forall i :: 0 <= i < |months| ==> ValidMonth(months[i])
    ensures |values| == TradedCount(months)
    ensures forall i :: 0 <= i < |values| ==> 0.0 <= values[i].cash <= values[i].value
    ensures ValidPositions(final) && DistinctSymbols(final)
    ensures |values| == 0 ==> final == [] && trades == []
    ensures raisesAt.Some? ==> FirstRaise(months, raisesAt.value)
    ensures raisesAt.None? ==> forall k :: 0 <= k < |months| ==> !Raises(months[k])
    ensures |values| > 0 ==> values[|values| - 1].cash == initial + Proceeds(trades) - Cost(trades)
    ensures forall p :: p in final ==> BuyTrade(p) in trades
    ensures SellsMatched(trades, months, |months|)
    ensures var r := Replay(initial, months);
            values == r.values && trades == r.trades && final == r.final
  {
    var cash := initial;
    values, trades, final := [], [], [];
    var i := 0;
    while i < |months|
      invariant 0 <= i <= |months| && Booked(initial, months, i, cash, values, trades, final)
    {
      cash, values, trades, final := BacktestMonth(initial, months, i, cash, values, trades, final);
      i := i + 1;
    }
    assert months[..i] == months;
    raisesAt := RaiseFrom(months, 0);
  }

  // ---------------------------------------------------- performance figures

  /** Number of sells in a trade log. */
  function SellCount(trades: seq<Trade>): (n: nat)
    ensures n <= |trades|
  {
    if |trades| == 0 then 0 else (if trades[0].action == Sell then 1 else 0) + SellCount(trades[1..])
  }

  /** Number of sells with a positive profit. */
  function WinCount(trades: seq<Trade>): (n: nat)
    ensures n <= SellCount(trades)
  {
    if |trades| == 0 then 0
    else (if trades[0].action == Sell && trades[0].pnl > 0.0 then 1 else 0) + WinCount(trades[1..])
  }

  /** `win_rate` of `calculate_performance_metrics`: the percentage of sells
      that made a profit, 0 without sells. */
  function WinRate(trades: seq<Trade>): (r: real)
    ensures 0.0 <= r <= 100.0
    ensures r == 100.0 <==> SellCount(trades) > 0 && WinCount(trades) == SellCount(trades)
    ensures r == 0.0 <==> WinCount(trades) == 0
  {
    var sells := SellCount(trades);
    if |trades| == 0 || sells == 0 then 0.0
    else
      var r := WinCount(trades) as real / sells as real * 100.0;
      Stats.RatioBounds(WinCount(trades), sells);
      r
  }

  /** `total_return = ((final_value / initial_capital) - 1) * 100`; with no
      starting capital the quotient is not a finite number (`None`). */
  function TotalReturn(finalValue: real, initial: real): (r: Option<real>)
    ensures r.None? <==> initial == 0.0
    ensures r.Some? ==> r.value == Stats.PercentChange(initial, finalValue)
  {
    if initial == 0.0 then None
    else
      var q := finalValue / initial;
      var d := (finalValue - initial) / initial;
      assert q * initial == finalValue;
      assert d * initial == finalValue - initial;
      MulCancel(d, q - 1.0, initial);
      Some((q - 1.0) * 100.0)
  }

  lemma MulCancel(a: real, b: real, k: real)
    requires k != 0.0 && a * k == b * k
    ensures a == b
  {
    assert (a - b) * k == 0.0;
  }

  /** From positive capital, the return is positive exactly when the final value is larger. */
  lemma TotalReturnSign(finalValue: real, initial: real)
    requires initial > 0.0
    ensures TotalReturn(finalValue, initial).value > 0.0 <==> finalValue > initial
  {
    Stats.PercentChangeThreshold(initial, finalValue, 0.0);
  }
}
