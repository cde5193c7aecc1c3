/** The async pipeline's bookkeeping (src/async_pipeline.py): which symbols
    are analysed, in which batches, how each per-symbol outcome lands in
    `results` or `failed_symbols`, and the views over the results table. The
    concurrent per-symbol analysis is an input (`run`), taken one symbol
    after another. */
module AsyncPipeline {
  import opened Wrappers
  import opened PyValues
  import Stats
  import Ranking
  import Validators
  import TA = TechnicalAnalyzer
  import FA = FundamentalAnalyzer
  import DF = DeliveryFetcher
  import SS = StockScorer
  import YF = AsyncYFinanceFetcher

  /** `max_workers`' default, which is also the batch size. */
  const DefaultMaxWorkers := 50

  /** One row of the results table. Not kept: the legacy columns (`EMA-44`,
      `Price_vs_EMA`, `Price_Diff_%`, `EMA_Slope_%`, `Trend`), the EMA values
      and slopes (`Daily_EMA_252`, `Daily_Slope_%`, `Weekly_EMA_260`,
      `Weekly_Slope_%`), `Trend_Strength`, and the optional `raw_data`. */
  datatype ResultRow = ResultRow(
    symbol: string, company: Value, sector: Value, price: real,
    dailyAbove: bool, dailyDiffPct: real, weeklyAbove: bool, weeklyDiffPct: real, alignment: nat,
    marketCap: Value, pe: Value, roe: Value, debtToEquity: Value,
    deliveryQty: real, deliveryQtyAvg: real, deliveryQtySpike: real, hasQtySpike: bool,
    deliveryPct: real, deliveryQtyTrend: Option<DF.Trend>,
    score: real, signal: SS.Signal, techScore: real, fundScore: real, delivScore: real)

  /** `if limit: symbols = symbols[:limit]`: a missing or zero limit keeps every symbol. */
  function LimitSymbols(symbols: seq<string>, limit: Option<int>): (r: seq<string>)
    ensures limit.None? || limit.value == 0 ==> r == symbols
    ensures |r| <= |symbols| && r == symbols[..|r|]
    ensures limit.Some? && limit.value > 0 ==> |r| == if limit.value <= |symbols| then limit.value else |symbols|
  {
    match limit
    case None => symbols
    case Some(n) => if n == 0 then symbols else Ranking.PySliceTo(symbols, n)
  }

  function Flatten<T>(parts: seq<seq<T>>): (r: seq<T>)
  {
    if |parts| == 0 then [] else parts[0] + Flatten(parts[1..])
  }

  lemma {:induction false} FlattenSnoc<T>(parts: seq<seq<T>>, last: seq<T>)
    ensures Flatten(parts + [last]) == Flatten(parts) + last
  {
    if |parts| == 0 {
      assert parts + [last] == [last];
    } else {
      assert (parts + [last])[1..] == parts[1..] + [last];
      FlattenSnoc(parts[1..], last);
    }
  }

  /** `for i in range(0, len(symbols), batch_size): batch = symbols[i:i + batch_size]`.
      A zero step makes `range` raise; a negative one yields no batch. */
  function Batches(symbols: seq<string>, size: int): (r: Result<seq<seq<string>>>)
    ensures size == 0 <==> r.Err?
    ensures size < 0 ==> r == Ok([])
    ensures size > 0 ==> r.Ok? && Flatten(r.value) == symbols
    ensures size > 0 ==> forall b :: 0 <= b < |r.value| ==> 0 < |r.value[b]| <= size
    ensures size > 0 ==> forall b :: 0 <= b < |r.value| - 1 ==> |r.value[b]| == size
  {
    if size == 0 then Err("range() arg 3 must not be zero")
    else if size < 0 then Ok([])
    else Ok(Chunks(symbols, size))
  }

  function Chunks(symbols: seq<string>, size: int): (r: seq<seq<string>>)
    requires size > 0
    ensures Flatten(r) == symbols
    ensures forall b :: 0 <= b < |r| ==> 0 < |r[b]| <= size
    ensures forall b :: 0 <= b < |r| - 1 ==> |r[b]| == size
    decreases |symbols|
  {
    if |symbols| == 0 then []
    else if |symbols| <= size then
      assert Flatten([symbols]) == symbols + Flatten([]);
      [symbols]
    else
      var rest := Chunks(symbols[size..], size);
      ChunkStep(symbols, size, rest);
      [symbols[..size]] + rest
  }

  lemma ChunkStep(symbols: seq<string>, size: int, rest: seq<seq<string>>)
    requires 0 < size < |symbols|
    requires Flatten(rest) == symbols[size..]
    ensures Flatten([symbols[..size]] + rest) == symbols
  {
    assert ([symbols[..size]] + rest)[1..] == rest;
    assert symbols == symbols[..size] + symbols[size..];
  }

  /** What one analysis task ends with; `gather(..., return_exceptions=True)`
      turns an exception into a value. */
  datatype TaskOutcome = Returned(row: Option<ResultRow>) | Raised

  /** `_analyze_batch_async`: one answer per symbol, in order, exceptions as `None`. */
  function AnalyzeBatch(batch: seq<string>, run: string -> TaskOutcome): (r: seq<Option<ResultRow>>)
    ensures |r| == |batch|
    ensures forall i :: 0 <= i < |batch| ==> (r[i].Some? <==> run(batch[i]).Returned? && run(batch[i]).row.Some?)
    ensures forall i :: 0 <= i < |batch| ==> r[i].Some? ==> r[i] == run(batch[i]).row
  {
    seq(|batch|, i requires 0 <= i < |batch| => match run(batch[i]) case Returned(row) => row case Raised => None)
  }

  /** The rows the symbols produce, in input order. */
  function Succeeded(symbols: seq<string>, run: string -> TaskOutcome): seq<ResultRow> {
    if |symbols| == 0 then []
    else
      var last := symbols[|symbols| - 1];
      var front := Succeeded(symbols[..|symbols| - 1], run);
      match AnalyzeBatch([last], run)[0]
      case Some(row) => front + [row]
      case None => front
  }

  /** The symbols that produce no row, in input order. */
  function Failed(symbols: seq<string>, run: string -> TaskOutcome): seq<string> {
    if |symbols| == 0 then []
    else
      var last := symbols[|symbols| - 1];
      var front := Failed(symbols[..|symbols| - 1], run);
      if AnalyzeBatch([last], run)[0].Some? then front else front + [last]
  }

  /** Every symbol lands in exactly one of the two lists. */
  lemma {:induction false} PartitionSizes(symbols: seq<string>, run: string -> TaskOutcome)
    ensures |Succeeded(symbols, run)| + |Failed(symbols, run)| == |symbols|
  {
    if |symbols| > 0 {
      PartitionSizes(symbols[..|symbols| - 1], run);
    }
  }

  /** A failed symbol is one of the inputs whose analysis gave nothing. */
  lemma {:induction false} FailedAreFailures(symbols: seq<string>, run: string -> TaskOutcome)
    ensures forall s :: s in Failed(symbols, run) ==> s in symbols && (run(s).Raised? || run(s).row.None?)
  {
    if |symbols| > 0 {
      FailedAreFailures(symbols[..|symbols| - 1], run);
      var last := symbols[|symbols| - 1];
      assert AnalyzeBatch([last], run)[0].Some? <==> run(last).Returned? && run(last).row.Some?;
    }
  }

  lemma SucceededSnoc(symbols: seq<string>, s: string, run: string -> TaskOutcome)
    ensures Succeeded(symbols + [s], run) ==
            Succeeded(symbols, run) + (match AnalyzeBatch([s], run)[0] case Some(row) => [row] case None => [])
    ensures Failed(symbols + [s], run) ==
            Failed(symbols, run) + (if AnalyzeBatch([s], run)[0].Some? then [] else [s])
  {
    assert (symbols + [s])[..|symbols|] == symbols;
  }

  datatype Run = Run(results: seq<ResultRow>, failed: seq<string>)

  /** The batch loop of `fetch_all_data_async`: every symbol of every batch
      goes to `results` or to `failed_symbols`, in input order. */
  method FetchAll(symbols: seq<string>, limit: Option<int>, maxWorkers: int, run: string -> TaskOutcome)
    returns (r: Result<Run>)
    ensures maxWorkers == 0 <==> r.Err?
    ensures maxWorkers < 0 ==> r == Ok(Run([], []))
    ensures maxWorkers > 0 ==>
              var todo := LimitSymbols(symbols, limit);
              r == Ok(Run(Succeeded(todo, run), Failed(todo, run)))
  {
    var todo := LimitSymbols(symbols, limit);
    var batches := Batches(todo, maxWorkers);
    if batches.Err? {
      return Err(batches.error);
    }
    var results: seq<ResultRow> := [];
    var failed: seq<string> := [];
    var b := 0;
    while b < |batches.value|
      invariant 0 <= b <= |batches.value|
      invariant results == Succeeded(Flatten(batches.value[..b]), run)
      invariant failed == Failed(Flatten(batches.value[..b]), run)
    {
      var batch := batches.value[b];
      results, failed := GatherBatch(Flatten(batches.value[..b]), batch, results, failed, run);
      FlattenStep(batches.value, b);
      b := b + 1;
    }
    assert batches.value[..b] == batches.value;
    return Ok(Run(results, failed));
  }

  lemma FlattenStep<T>(parts: seq<seq<T>>, b: int)
    requires 0 <= b < |parts|
    ensures Flatten(parts[..b + 1]) == Flatten(parts[..b]) + parts[b]
  {
    assert parts[..b + 1] == parts[..b] + [parts[b]];
    FlattenSnoc(parts[..b], parts[b]);
  }

  /** One batch of the loop: its rows and failures are appended in order. */
  method GatherBatch(done: seq<string>, batch: seq<string>, results0: seq<ResultRow>, failed0: seq<string>,
                     run: string -> TaskOutcome)
    returns (results: seq<ResultRow>, failed: seq<string>)
    requires results0 == Succeeded(done, run) && failed0 == Failed(done, run)
    ensures results == Succeeded(done + batch, run) && failed == Failed(done + batch, run)
  {
    var outcomes := AnalyzeBatch(batch, run);
    results, failed := results0, failed0;
    var j := 0;
    assert done + batch[..0] == done;
    while j < |batch|
      invariant 0 <= j <= |batch|
      invariant results == Succeeded(done + batch[..j], run)
      invariant failed == Failed(done + batch[..j], run)
    {
      GatherStep(done, batch, j, outcomes, run);
      if outcomes[j].Some? {
        results := results + [outcomes[j].value];
      } else {
        failed := failed + [batch[j]];
      }
      j := j + 1;
    }
    assert batch[..j] == batch;
  }

  lemma GatherStep(done: seq<string>, batch: seq<string>, j: int, outcomes: seq<Option<ResultRow>>,
                   run: string -> TaskOutcome)
    requires 0 <= j < |batch| && outcomes == AnalyzeBatch(batch, run)
    ensures Succeeded(done + batch[..j + 1], run) ==
            Succeeded(done + batch[..j], run) + (if outcomes[j].Some? then [outcomes[j].value] else [])
    ensures Failed(done + batch[..j + 1], run) ==
            Failed(done + batch[..j], run) + (if outcomes[j].Some? then [] else [batch[j]])
  {
    SucceededSnoc(done + batch[..j], batch[j], run);
    assert done + batch[..j + 1] == (done + batch[..j]) + [batch[j]];
    assert AnalyzeBatch([batch[j]], run)[0] == outcomes[j];
  }

  /** The look-back in days and the spike multiple the pipeline asks the delivery fetcher for. */
  const DeliveryLookbackDays := 90
  const DeliverySpikeThreshold := 2.0

  /** `_analyze_stock_async` after the fetch: `None` for an invalid symbol,
      missing fundamentals, or a missing or empty price history; otherwise
      the analyses, the score and the table row. Delivery data is looked up
      only when enabled (`use_delivery` with a fetcher), as
      `fetch_delivery_trend(clean_symbol, 90, 2.0)` over the fetcher's cache
      as it stands once its warm-up has run. */
  function AnalyzeStock(symbol: string, data: string -> YF.Complete, useDelivery: bool,
                        deliveryCache: DF.Cache): (r: Option<ResultRow>)
    ensures r.Some? <==>
              Validators.SanitizeSymbol(symbol).Some?
              && var c := data(Validators.SanitizeSymbol(symbol).value);
                 c.fundamentals.Some? && c.priceHistory.Some? && YF.NonEmpty(c.priceHistory.value)
    ensures r.Some? ==> r.value.symbol == Validators.SanitizeSymbol(symbol).value
    ensures r.Some? ==> -5.0 <= r.value.score <= 5.0 && r.value.signal == SS.GenerateSignal(SS.DefaultScorer, r.value.score)
    ensures r.Some? && !useDelivery ==>
              && r.value.deliveryQty == 0.0 && r.value.deliveryQtyAvg == 0.0 && r.value.deliveryQtySpike == 0.0
              && !r.value.hasQtySpike && r.value.deliveryPct == 0.0 && r.value.deliveryQtyTrend.None?
              && r.value.delivScore == 0.0
    ensures r.Some? ==>
              var clean := Validators.SanitizeSymbol(symbol).value;
              var c := data(clean);
              var prices := c.priceHistory.value;
              var tech := TA.Analyze(prices.closes, prices.weeklyCloses, TA.DefaultDailyPeriod, TA.DefaultWeeklyPeriod);
              var fund := FA.Analyze(FA.DefaultThresholds, Some(YF.ToDict(c.fundamentals.value)));
              var deliv := if useDelivery then DF.FetchDeliveryTrend(clean, DeliveryLookbackDays, DeliverySpikeThreshold, deliveryCache) else None;
              var s := SS.CalculateScore(SS.DefaultScorer, tech, fund, deliv);
              && tech.Some? && r.value.price == tech.value.currentPrice
              && r.value.dailyAbove == tech.value.daily.above && r.value.weeklyAbove == tech.value.weekly.above
              && r.value.alignment == tech.value.alignment
              && r.value.score == s.total && r.value.signal == s.signal
              && r.value.techScore == s.technical && r.value.fundScore == s.fundamental
              && r.value.delivScore == s.delivery
              && (deliv.Some? ==> r.value.deliveryQty == deliv.value.latestQty
                                  && r.value.hasQtySpike == deliv.value.hasSpike
                                  && r.value.deliveryQtyTrend == Some(deliv.value.qtyTrend))
  {
    match Validators.SanitizeSymbol(symbol)
    case None => None
    case Some(clean) =>
      var c := data(clean);
      if c.fundamentals.None? || c.priceHistory.None? || !YF.NonEmpty(c.priceHistory.value) then None
      else Some(RowFor(clean, c, useDelivery, deliveryCache))
  }

  /** The table row of a stock whose fundamentals and price history arrived. */
  function RowFor(clean: string, c: YF.Complete, useDelivery: bool, deliveryCache: DF.Cache): (row: ResultRow)
    requires c.fundamentals.Some? && c.priceHistory.Some? && YF.NonEmpty(c.priceHistory.value)
    ensures row.symbol == clean
    ensures -5.0 <= row.score <= 5.0 && row.signal == SS.GenerateSignal(SS.DefaultScorer, row.score)
    ensures !useDelivery ==>
              && row.deliveryQty == 0.0 && row.deliveryQtyAvg == 0.0 && row.deliveryQtySpike == 0.0
              && !row.hasQtySpike && row.deliveryPct == 0.0 && row.deliveryQtyTrend.None?
              && row.delivScore == 0.0
    ensures var prices := c.priceHistory.value;
            var tech := TA.Analyze(prices.closes, prices.weeklyCloses, TA.DefaultDailyPeriod, TA.DefaultWeeklyPeriod);
            var fund := FA.Analyze(FA.DefaultThresholds, Some(YF.ToDict(c.fundamentals.value)));
            var deliv := if useDelivery then DF.FetchDeliveryTrend(clean, DeliveryLookbackDays, DeliverySpikeThreshold, deliveryCache) else None;
            var s := SS.CalculateScore(SS.DefaultScorer, tech, fund, deliv);
            && tech.Some? && row.price == tech.value.currentPrice
            && row.dailyAbove == tech.value.daily.above && row.weeklyAbove == tech.value.weekly.above
            && row.alignment == tech.value.alignment
            && row.score == s.total && row.signal == s.signal
            && row.techScore == s.technical && row.fundScore == s.fundamental
            && row.delivScore == s.delivery
            && (deliv.Some? ==> row.deliveryQty == deliv.value.latestQty
                                && row.hasQtySpike == deliv.value.hasSpike
                                && row.deliveryQtyTrend == Some(deliv.value.qtyTrend))
  {
    var fundamentals := c.fundamentals.value;
    var prices := c.priceHistory.value;
    var technical := TA.Analyze(prices.closes, prices.weeklyCloses, TA.DefaultDailyPeriod, TA.DefaultWeeklyPeriod);
    var t := technical.value;
    var dict := YF.ToDict(fundamentals);
    var fundamental := FA.Analyze(FA.DefaultThresholds, Some(dict));
    var deliv := if useDelivery then DF.FetchDeliveryTrend(clean, DeliveryLookbackDays, DeliverySpikeThreshold, deliveryCache) else None;
    var score := SS.CalculateScore(SS.DefaultScorer, technical, fundamental, deliv);
    SS.LowerClampNeverBinds(technical, FA.DefaultThresholds, Some(dict), deliv);
    RowOf(clean, fundamentals, t, deliv, score)
  }

  /** The columns of a row, copied from the analyses and the score. */
  function RowOf(clean: string, f: YF.Fundamentals, t: TA.Analysis, deliv: Option<DF.DeliveryTrend>,
                 score: SS.ScoreResult): (row: ResultRow)
    ensures row.symbol == clean && row.price == t.currentPrice
    ensures row.dailyAbove == t.daily.above && row.weeklyAbove == t.weekly.above && row.alignment == t.alignment
    ensures row.score == score.total && row.signal == score.signal
    ensures row.techScore == score.technical && row.fundScore == score.fundamental && row.delivScore == score.delivery
    ensures deliv.None? ==> && row.deliveryQty == 0.0 && row.deliveryQtyAvg == 0.0 && row.deliveryQtySpike == 0.0
                            && !row.hasQtySpike && row.deliveryPct == 0.0 && row.deliveryQtyTrend.None?
    ensures deliv.Some? ==> && row.deliveryQty == deliv.value.latestQty && row.hasQtySpike == deliv.value.hasSpike
                            && row.deliveryQtyTrend == Some(deliv.value.qtyTrend)
  {
    ResultRow(
      clean, f.companyName, f.sector, t.currentPrice,
      t.daily.above, t.daily.diffPct, t.weekly.above, t.weekly.diffPct, t.alignment,
      f.marketCap, f.peRatio, f.roe, f.debtToEquity,
      if deliv.Some? then deliv.value.latestQty else 0.0,
      if deliv.Some? then deliv.value.avgQty else 0.0,
      if deliv.Some? then deliv.value.spikeRatio else 0.0,
      deliv.Some? && deliv.value.hasSpike,
      if deliv.Some? then deliv.value.latestPct else 0.0,
      if deliv.Some? then Some(deliv.value.qtyTrend) else None,
      score.total, score.signal, score.technical, score.fundamental, score.delivery)
  }


  function ScoreOf(row: ResultRow): real { row.score }

  /** `results_df`: the results, highest score first. */
  function ResultsTable(results: seq<ResultRow>): (t: seq<ResultRow>)
    ensures |t| == |results| && multiset(t) == multiset(results)
    ensures ScoreSorted(t)
  {
    Ranking.SortDescBy(results, ScoreOf)
  }

  /** `df[df['Signal'] == signal]`: the rows with that signal, in table order. */
  function BySignal(table: seq<ResultRow>, signal: SS.Signal): (r: seq<ResultRow>)
    ensures |r| <= |table|
    ensures forall x :: x in r <==> x in table && x.signal == signal
    ensures |r| == CountSignal(table, signal)
    ensures forall x :: multiset(r)[x] == if x.signal == signal then multiset(table)[x] else 0
  {
    if |table| == 0 then []
    else
      var rest := BySignal(table[1..], signal);
      assert table == [table[0]] + table[1..];
      if table[0].signal == signal then [table[0]] + rest else rest
  }

  /** `get_by_signal` over `results_df`. */
  function GetBySignal(results: seq<ResultRow>, signal: SS.Signal): (r: seq<ResultRow>)
    ensures forall i :: 0 <= i < |r| ==> r[i].signal == signal && r[i] in results
    ensures forall x :: x in results && x.signal == signal ==> x in r
    ensures ScoreSorted(r)
    ensures |r| == CountSignal(results, signal)
    ensures forall x :: multiset(r)[x] == if x.signal == signal then multiset(results)[x] else 0
  {
    var t := ResultsTable(results);
    SameElements(results, t);
    BySignalKeepsOrder(t, signal);
    SummaryIgnoresOrder(t, results, signal);
    var r := BySignal(t, signal);
    assert forall i :: 0 <= i < |r| ==> r[i] in r;
    r
  }

  lemma SameElements(results: seq<ResultRow>, t: seq<ResultRow>)
    requires multiset(t) == multiset(results)
    ensures forall x :: x in results <==> x in t
  {
    forall x ensures x in results <==> x in t {
      assert x in results <==> x in multiset(results);
      assert x in t <==> x in multiset(t);
    }
  }

  /** Highest score first. */
  predicate ScoreSorted(s: seq<ResultRow>) {
    forall i, j :: 0 <= i < j < |s| ==> s[i].score >= s[j].score
  }

  lemma {:induction false} BySignalKeepsOrder(table: seq<ResultRow>, signal: SS.Signal)
    requires ScoreSorted(table)
    ensures ScoreSorted(BySignal(table, signal))
  {
    if |table| > 0 {
      var tail := table[1..];
      assert ScoreSorted(tail) by {
        forall i, j | 0 <= i < j < |tail| ensures tail[i].score >= tail[j].score {
          assert tail[i] == table[i + 1] && tail[j] == table[j + 1];
        }
      }
      BySignalKeepsOrder(tail, signal);
      if table[0].signal == signal {
        HeadOutscores(table, BySignal(tail, signal));
      }
    }
  }

  /** The first row of a sorted table can head any sorted selection of the rows after it. */
  lemma HeadOutscores(table: seq<ResultRow>, rest: seq<ResultRow>)
    requires |table| > 0 && ScoreSorted(table) && ScoreSorted(rest)
    requires forall x :: x in rest ==> x in table[1..]
    ensures ScoreSorted([table[0]] + rest)
  {
    forall k | 0 <= k < |rest| ensures table[0].score >= rest[k].score {
      assert rest[k] in rest;
      var m :| 0 <= m < |table[1..]| && table[1..][m] == rest[k];
      assert table[m + 1] == rest[k];
    }
    var r := [table[0]] + rest;
    forall i, j | 0 <= i < j < |r| ensures r[i].score >= r[j].score {
      assert r[j] == rest[j - 1];
      if i > 0 { assert r[i] == rest[i - 1]; }
    }
  }

  /** `get_top_buys(n)`: the first `n` BUY rows of the table, which is
      `buys.head(n)`: all of them when there are fewer, and for a negative
      `n` all but the last `-n`. No BUY row left out outscores one kept. */
  function GetTopBuys(results: seq<ResultRow>, n: int): (r: seq<ResultRow>)
    ensures forall i :: 0 <= i < |r| ==> r[i].signal == SS.Buy && r[i] in results
    ensures n >= 0 ==> |r| <= n
    ensures var count := CountSignal(results, SS.Buy);
            && (n >= 0 ==> |r| == if n <= count then n else count)
            && (n < 0 ==> |r| == if -n <= count then count + n else 0)
    ensures ScoreSorted(r)
    ensures multiset(r) <= multiset(results)
    ensures forall x: ResultRow, i :: 0 <= i < |r| && x.signal == SS.Buy && multiset(r)[x] < multiset(results)[x] ==>
              x.score <= r[i].score
  {
    var buys := GetBySignal(results, SS.Buy);
    var r := Ranking.PySliceTo(buys, n);
    TopBuysOutrank(results, buys, r);
    r
  }

  /** A prefix of the BUY rows is sorted, holds rows of the results, and no
      BUY row it leaves out outscores one it keeps. */
  lemma TopBuysOutrank(results: seq<ResultRow>, buys: seq<ResultRow>, r: seq<ResultRow>)
    requires buys == GetBySignal(results, SS.Buy) && |r| <= |buys| && r == buys[..|r|]
    ensures ScoreSorted(r)
    ensures multiset(r) <= multiset(results)
    ensures forall x: ResultRow, i :: 0 <= i < |r| && x.signal == SS.Buy && multiset(r)[x] < multiset(results)[x] ==>
              x.score <= r[i].score
  {
    SortedPrefixOutranks(buys, |r|);
    BuysCounted(results, buys);
  }

  lemma BuysCounted(results: seq<ResultRow>, buys: seq<ResultRow>)
    requires buys == GetBySignal(results, SS.Buy)
    ensures multiset(buys) <= multiset(results)
    ensures forall x: ResultRow :: x.signal == SS.Buy ==> multiset(buys)[x] == multiset(results)[x]
  {
  }

  /** The first `k` rows of a score-sorted table outscore every row after them:
      a row that occurs fewer times in the prefix than in the table scores no
      more than any row of the prefix. */
  lemma SortedPrefixOutranks(t: seq<ResultRow>, k: nat)
    requires ScoreSorted(t) && k <= |t|
    ensures multiset(t[..k]) <= multiset(t) && ScoreSorted(t[..k])
    ensures forall x: ResultRow, i :: 0 <= i < k && multiset(t[..k])[x] < multiset(t)[x] ==> x.score <= t[i].score
  {
    assert t == t[..k] + t[k..];
    forall x, i | 0 <= i < k && multiset(t[..k])[x] < multiset(t)[x] ensures x.score <= t[i].score {
      assert x in multiset(t[k..]);
      var m :| 0 <= m < |t[k..]| && t[k..][m] == x;
      assert t[k + m] == x;
    }
  }

  function CountSignal(rows: seq<ResultRow>, signal: SS.Signal): (n: nat)
    ensures n <= |rows|
  {
    if |rows| == 0 then 0
    else (if rows[0].signal == signal then 1 else 0) + CountSignal(rows[1..], signal)
  }

  lemma {:induction false} SignalCountsAddUp(rows: seq<ResultRow>)
    ensures CountSignal(rows, SS.Buy) + CountSignal(rows, SS.Hold) + CountSignal(rows, SS.Avoid) == |rows|
  {
    if |rows| > 0 {
      SignalCountsAddUp(rows[1..]);
    }
  }

  function Scores(rows: seq<ResultRow>): (s: seq<real>)
    ensures |s| == |rows| && forall i :: 0 <= i < |rows| ==> s[i] == rows[i].score
  {
    seq(|rows|, i requires 0 <= i < |rows| => rows[i].score)
  }

  /** `get_summary` (the timestamp is left out). */
  datatype Summary = Summary(totalStocks: nat, buySignals: nat, holdSignals: nat, avoidSignals: nat,
                             avgScore: real, topScore: real, failedStocks: nat, sectors: nat)

  /** The sector values pandas counts as distinct (`None` is not counted). */
  function Sectors(rows: seq<ResultRow>): set<Value> {
    set i | 0 <= i < |rows| && rows[i].sector != VNone :: rows[i].sector
  }

  /** `get_summary`: nothing for an empty table; otherwise the number of
      rows with each signal, the mean and the largest score, the failures,
      and the distinct sectors. The table is the results re-ordered, so every
      figure is that of the results themselves. */
  function GetSummary(results: seq<ResultRow>, failed: seq<string>): (r: Option<Summary>)
    ensures r.None? <==> |results| == 0
    ensures r.Some? ==> r.value.totalStocks == |results|
    ensures r.Some? ==>
              && r.value.buySignals == CountSignal(results, SS.Buy)
              && r.value.holdSignals == CountSignal(results, SS.Hold)
              && r.value.avoidSignals == CountSignal(results, SS.Avoid)
    ensures r.Some? ==> r.value.avgScore == Stats.Mean(Scores(results))
    ensures r.Some? ==> r.value.sectors == |Sectors(results)|
    ensures r.Some? ==> r.value.buySignals + r.value.holdSignals + r.value.avoidSignals == r.value.totalStocks
    ensures r.Some? ==> r.value.failedStocks == |failed|
    ensures r.Some? ==> r.value.avgScore <= r.value.topScore
    ensures r.Some? ==> forall x :: x in results ==> x.score <= r.value.topScore
    ensures r.Some? ==> exists x :: x in results && x.score == r.value.topScore
    ensures r.Some? ==> r.value.sectors <= |results|
  {
    if |results| == 0 then None
    else
      var t := ResultsTable(results);
      var scores := Scores(t);
      SignalCountsAddUp(t);
      var top := Stats.Max(scores);
      Stats.MeanBetween(scores, Stats.Min(scores), top);
      SameElements(results, t);
      TopScoreIsAScore(t, scores, top);
      SectorsBound(t);
      SummaryIgnoresOrder(t, results, SS.Buy);
      SummaryIgnoresOrder(t, results, SS.Hold);
      SummaryIgnoresOrder(t, results, SS.Avoid);
      SectorsIgnoreOrder(t, results);
      Some(Summary(|t|, CountSignal(t, SS.Buy), CountSignal(t, SS.Hold), CountSignal(t, SS.Avoid),
                   Stats.Mean(scores), top, |failed|, |Sectors(t)|))
  }

  /** The signal counts and the score total do not depend on the order of the rows. */
  lemma {:induction false} SummaryIgnoresOrder(a: seq<ResultRow>, b: seq<ResultRow>, signal: SS.Signal)
    requires multiset(a) == multiset(b)
    ensures CountSignal(a, signal) == CountSignal(b, signal)
    ensures Stats.Sum(Scores(a)) == Stats.Sum(Scores(b))
    decreases |a|
  {
    if |a| == 0 {
      assert |b| == |multiset(b)| == 0;
    } else {
      var j := MatchFirst(a, b);
      SummaryIgnoresOrder(a[1..], b[..j] + b[j + 1..], signal);
      MatchedRows(a, b, j, signal);
    }
  }

  /** Matching the first row of `a` with row `j` of `b` carries equal totals of the rest over to the whole. */
  lemma MatchedRows(a: seq<ResultRow>, b: seq<ResultRow>, j: nat, signal: SS.Signal)
    requires |a| > 0 && j < |b| && b[j] == a[0]
    requires CountSignal(a[1..], signal) == CountSignal(b[..j] + b[j + 1..], signal)
    requires Stats.Sum(Scores(a[1..])) == Stats.Sum(Scores(b[..j] + b[j + 1..]))
    ensures CountSignal(a, signal) == CountSignal(b, signal)
    ensures Stats.Sum(Scores(a)) == Stats.Sum(Scores(b))
  {
    RemoveRow(b, j, signal);
    ScoresCons(a);
  }

  /** A row of `b` that matches the first row of its permutation `a`; the rest
      of both are again permutations of each other. */
  lemma MatchFirst<T>(a: seq<T>, b: seq<T>) returns (j: nat)
    requires |a| > 0 && multiset(a) == multiset(b)
    ensures j < |b| && b[j] == a[0]
    ensures multiset(a[1..]) == multiset(b[..j] + b[j + 1..])
  {
    assert a[0] in multiset(b);
    j :| 0 <= j < |b| && b[j] == a[0];
    TakeOut(b, j);
    TakeOut(a, 0);
    assert a[..0] + a[1..] == a[1..];
  }

  lemma TakeOut<T>(s: seq<T>, j: nat)
    requires j < |s|
    ensures multiset(s[..j] + s[j + 1..]) == multiset(s) - multiset{s[j]}
  {
    assert s == s[..j] + [s[j]] + s[j + 1..];
  }

  /** Taking out the row at `j` takes its signal and its score out of the totals. */
  lemma RemoveRow(b: seq<ResultRow>, j: nat, signal: SS.Signal)
    requires j < |b|
    ensures CountSignal(b, signal) == (if b[j].signal == signal then 1 else 0) + CountSignal(b[..j] + b[j + 1..], signal)
    ensures Stats.Sum(Scores(b)) == b[j].score + Stats.Sum(Scores(b[..j] + b[j + 1..]))
  {
    RemoveCounted(b, j, signal);
    RemoveScored(b, j);
  }

  lemma {:induction false} RemoveCounted(b: seq<ResultRow>, j: nat, signal: SS.Signal)
    requires j < |b|
    ensures CountSignal(b, signal) == (if b[j].signal == signal then 1 else 0) + CountSignal(b[..j] + b[j + 1..], signal)
  {
    var rest := b[..j] + b[j + 1..];
    if j == 0 {
      assert rest == b[1..];
    } else {
      RemoveCounted(b[1..], j - 1, signal);
      assert rest == [b[0]] + (b[1..][..j - 1] + b[1..][j..]);
      assert rest[1..] == b[1..][..j - 1] + b[1..][j..];
    }
  }

  lemma {:induction false} RemoveScored(b: seq<ResultRow>, j: nat)
    requires j < |b|
    ensures Stats.Sum(Scores(b)) == b[j].score + Stats.Sum(Scores(b[..j] + b[j + 1..]))
  {
    var rest := b[..j] + b[j + 1..];
    ScoresCons(b);
    if j == 0 {
      assert rest == b[1..];
    } else {
      RemoveScored(b[1..], j - 1);
      assert rest == [b[0]] + (b[1..][..j - 1] + b[1..][j..]);
      assert rest[1..] == b[1..][..j - 1] + b[1..][j..];
      ScoresCons(rest);
    }
  }

  lemma ScoresCons(rows: seq<ResultRow>)
    requires |rows| > 0
    ensures Stats.Sum(Scores(rows)) == rows[0].score + Stats.Sum(Scores(rows[1..]))
  {
    assert Scores(rows)[1..] == Scores(rows[1..]);
  }

  /** Re-ordering the rows keeps the set of sectors. */
  lemma SectorsIgnoreOrder(a: seq<ResultRow>, b: seq<ResultRow>)
    requires multiset(a) == multiset(b)
    ensures Sectors(a) == Sectors(b)
  {
    forall v | v in Sectors(a) ensures v in Sectors(b) {
      var i :| 0 <= i < |a| && a[i].sector != VNone && a[i].sector == v;
      assert a[i] in multiset(b);
      var k :| 0 <= k < |b| && b[k] == a[i];
    }
    forall v | v in Sectors(b) ensures v in Sectors(a) {
      var k :| 0 <= k < |b| && b[k].sector != VNone && b[k].sector == v;
      assert b[k] in multiset(a);
      var i :| 0 <= i < |a| && a[i] == b[k];
    }
  }

  lemma TopScoreIsAScore(t: seq<ResultRow>, scores: seq<real>, top: real)
    requires |t| > 0 && |scores| == |t| && forall i :: 0 <= i < |t| ==> scores[i] == t[i].score
    requires top == Stats.Max(scores)
    ensures forall x :: x in t ==> x.score <= top
    ensures exists x :: x in t && x.score == top
  {
    var i :| 0 <= i < |scores| && scores[i] == top;
    assert t[i] in t;
  }

  lemma {:induction false} SectorsBound(rows: seq<ResultRow>)
    ensures |Sectors(rows)| <= |rows|
  {
    if |rows| > 0 {
      var front := rows[..|rows| - 1];
      var last := rows[|rows| - 1];
      SectorsBound(front);
      var added := if last.sector != VNone then {last.sector} else {};
      forall v ensures v in Sectors(rows) <==> v in Sectors(front) + added {
        if v in Sectors(rows) {
          var i :| 0 <= i < |rows| && rows[i].sector != VNone && rows[i].sector == v;
          if i < |front| { assert front[i] == rows[i]; }
        }
        if v in Sectors(front) {
          var i :| 0 <= i < |front| && front[i].sector != VNone && front[i].sector == v;
          assert rows[i] == front[i];
        }
      }
      assert Sectors(rows) == Sectors(front) + added;
    }
  }
}
