/** NSE delivery ("smart money") statistics and the per-day bhavcopy cache
    (src/data_fetchers/delivery_fetcher.py). Days are `Calendar` day numbers;
    the cache's YYYYMMDD keys order the same way as the days they name. The
    download and CSV parsing are an input: for each day, the table the
    download would produce, or `None`. */
module DeliveryFetcher {
  import opened Wrappers
  import opened Calendar
  import Stats
  import Ranking
  import Validators

  /** One row of a parsed bhavcopy. `None` is a NaN cell (text pandas could
      not read as a number). A numeric column the file lacks reads as 0
      through `row.get(col, 0)`, so it is represented by `Some(0.0)`. */
  datatype Row = Row(symbol: string, deliveryPct: Option<real>, deliveryQty: Option<real>, tradedQty: Option<real>)

  /** A parsed bhavcopy; only a table with a `symbol` column can be searched. */
  datatype DayTable = DayTable(hasSymbolColumn: bool, rows: seq<Row>)

  /** `self._cache`: one table per trading day. */
  type Cache = map<int, DayTable>

  /** Only non-empty tables are ever stored. */
  predicate CachedTablesNonEmpty(c: Cache) {
    forall d :: d in c ==> |c[d].rows| > 0
  }

  /** `_get_previous_trading_day`: the latest weekday strictly before `now`,
      one to three days back. */
  function PreviousTradingDay(now: int): (d: int)
    ensures IsTradingDay(d)
    ensures now - 3 <= d <= now - 1
    ensures forall k :: d < k < now ==> !IsTradingDay(k)
  {
    TradingDayAtOrBefore(now - 1)
  }

  /** What `fetch_delivery_data` returns, with the cache it leaves behind. */
  datatype Fetched = Fetched(table: Option<DayTable>, cache: Cache)

  /** `fetch_delivery_data`: a cached day is served from the cache; otherwise the
      downloaded table is returned and stored only when it has rows. With no
      date the previous trading day is used. Errors inside the download are
      already `None` here, so the retry wrapper around it has nothing to retry. */
  function FetchDeliveryData(cache: Cache, date: Option<int>, now: int, download: Option<DayTable>): (r: Fetched)
    ensures CachedTablesNonEmpty(cache) ==> CachedTablesNonEmpty(r.cache)
    ensures cache.Keys <= r.cache.Keys
    ensures forall d :: d in cache ==> d in r.cache && r.cache[d] == cache[d]
    ensures r.table.Some? ==> date.GetOr(PreviousTradingDay(now)) in r.cache
                              && r.cache[date.GetOr(PreviousTradingDay(now))] == r.table.value
    ensures r.table.None? ==> r.cache == cache
  {
    var day := date.GetOr(PreviousTradingDay(now));
    if day in cache then Fetched(Some(cache[day]), cache)
    else match download
      case Some(t) =>
        if |t.rows| > 0 then Fetched(Some(t), cache[day := t]) else Fetched(None, cache)
      case None => Fetched(None, cache)
  }

  /** A cache hit does not look at the download: any two downloads give the same answer. */
  lemma CacheHitIgnoresDownload(cache: Cache, day: int, now: int, d1: Option<DayTable>, d2: Option<DayTable>)
    requires day in cache
    ensures FetchDeliveryData(cache, Some(day), now, d1) == FetchDeliveryData(cache, Some(day), now, d2)
    ensures FetchDeliveryData(cache, Some(day), now, d1) == Fetched(Some(cache[day]), cache)
  {
  }

  /** Fetching a day a second time is a hit that returns the first answer. */
  lemma SecondFetchIsHit(cache: Cache, day: int, now: int, d1: Option<DayTable>, d2: Option<DayTable>)
    requires FetchDeliveryData(cache, Some(day), now, d1).table.Some?
    ensures var first := FetchDeliveryData(cache, Some(day), now, d1);
            FetchDeliveryData(first.cache, Some(day), now, d2) == first
  {
  }

  /** An empty or failed download is never stored. */
  lemma EmptyDownloadNotCached(cache: Cache, day: int, now: int, t: DayTable)
    requires day !in cache && |t.rows| == 0
    ensures FetchDeliveryData(cache, Some(day), now, Some(t)) == Fetched(None, cache)
    ensures FetchDeliveryData(cache, Some(day), now, None) == Fetched(None, cache)
  {
  }

  /** The date-list loop of `warmup_cache`: starting at the previous trading
      day and stepping back one calendar day at a time, collect weekdays until
      `days` are found or `3 * days` calendar days have been examined. */
  method WarmupDates(now: int, days: int) returns (dates: seq<int>, examined: nat)
    ensures days <= 0 ==> dates == [] && examined == 0
    ensures days > 0 ==> |dates| <= days && examined <= 3 * days
    ensures forall i :: 0 <= i < |dates| ==> IsTradingDay(dates[i])
    ensures Ranking.StrictlyDescending(dates)
    ensures |dates| > 0 ==> dates[0] == PreviousTradingDay(now)
    ensures forall i :: 0 <= i < |dates| ==> PreviousTradingDay(now) - examined < dates[i] <= PreviousTradingDay(now)
    ensures forall d :: PreviousTradingDay(now) - examined < d <= PreviousTradingDay(now) && IsTradingDay(d) ==> d in dates
    ensures |dates| < days ==> examined == 3 * days
  {
    var start := PreviousTradingDay(now);
    var current := start;
    dates := [];
    examined := 0;
    while |dates| < days && examined < days * 3
      invariant current == start - examined
      invariant days > 0 ==> examined <= 3 * days
      invariant days <= 0 ==> examined == 0 && dates == []
      invariant |dates| <= examined
      invariant days > 0 ==> |dates| <= days
      invariant forall i :: 0 <= i < |dates| ==> IsTradingDay(dates[i])
      invariant forall i :: 0 <= i < |dates| ==> current < dates[i] <= start
      invariant Ranking.StrictlyDescending(dates)
      invariant |dates| > 0 ==> dates[0] == start
      invariant examined > 0 ==> |dates| > 0
      invariant forall d :: current < d <= start && IsTradingDay(d) ==> d in dates
      decreases 3 * days - examined
    {
      if IsTradingDay(current) {
        dates := dates + [current];
      }
      current := current - 1;
      examined := examined + 1;
    }
  }

  /** How many of `dates` have a table in `c`. */
  function CountCached(dates: seq<int>, c: Cache): (n: nat)
    ensures n <= |dates|
  {
    if |dates| == 0 then 0
    else (if dates[0] in c then 1 else 0) + CountCached(dates[1..], c)
  }

  /** `warmup_cache`, run one date after another: every date is fetched through
      the cache, and the number of dates that yield a table is reported. */
  method WarmupCache(cache: Cache, now: int, days: int, download: int -> Option<DayTable>)
    returns (updated: Cache, successful: nat, dates: seq<int>)
    requires CachedTablesNonEmpty(cache)
    ensures CachedTablesNonEmpty(updated)
    ensures forall d :: d in cache ==> d in updated && updated[d] == cache[d]
    ensures forall d :: d in updated && d !in cache ==> d in dates
    ensures days > 0 ==> |dates| <= days
    ensures successful == CountCached(dates, updated)
    ensures forall i :: 0 <= i < |dates| ==>
              (dates[i] in updated <==> dates[i] in cache || (download(dates[i]).Some? && |download(dates[i]).value.rows| > 0))
  {
    var examined;
    dates, examined := WarmupDates(now, days);
    updated, successful := FetchAll(cache, dates, now, download);
  }

  /** The fetch loop of `warmup_cache` over dates that strictly decrease. */
  method FetchAll(cache: Cache, dates: seq<int>, now: int, download: int -> Option<DayTable>)
    returns (updated: Cache, successful: nat)
    requires CachedTablesNonEmpty(cache) && Ranking.StrictlyDescending(dates)
    ensures CachedTablesNonEmpty(updated)
    ensures forall d :: d in cache ==> d in updated && updated[d] == cache[d]
    ensures forall d :: d in updated && d !in cache ==> d in dates
    ensures successful == CountCached(dates, updated)
    ensures forall i :: 0 <= i < |dates| ==>
              (dates[i] in updated <==> dates[i] in cache || (download(dates[i]).Some? && |download(dates[i]).value.rows| > 0))
  {
    updated := cache;
    successful := 0;
    var i := 0;
    while i < |dates|
      invariant 0 <= i <= |dates|
      invariant WarmedUp(cache, dates, i, updated, successful, download)
    {
      var r := FetchDeliveryData(updated, Some(dates[i]), now, download(dates[i]));
      WarmupStep(cache, dates, i, updated, successful, now, download);
      updated := r.cache;
      if r.table.Some? {
        successful := successful + 1;
      }
      i := i + 1;
    }
    WarmedUpAll(cache, dates, updated, successful, download);
  }

  /** After the last date the facts speak of all the dates. */
  lemma WarmedUpAll(cache: Cache, dates: seq<int>, updated: Cache, successful: nat, download: int -> Option<DayTable>)
    requires WarmedUp(cache, dates, |dates|, updated, successful, download)
    ensures CachedTablesNonEmpty(updated)
    ensures forall d :: d in cache ==> d in updated && updated[d] == cache[d]
    ensures forall d :: d in updated && d !in cache ==> d in dates
    ensures successful == CountCached(dates, updated)
    ensures forall i :: 0 <= i < |dates| ==>
              (dates[i] in updated <==> dates[i] in cache || (download(dates[i]).Some? && |download(dates[i]).value.rows| > 0))
  {
    assert dates[..|dates|] == dates;
  }

  /** What holds after the first `i` dates of the warm-up have been fetched. */
  predicate WarmedUp(cache: Cache, dates: seq<int>, i: nat, updated: Cache, successful: nat,
                     download: int -> Option<DayTable>)
    requires i <= |dates|
  {
    && CachedTablesNonEmpty(updated)
    && (forall d :: d in cache ==> d in updated && updated[d] == cache[d])
    && (forall d :: d in updated && d !in cache ==> d in dates[..i])
    && successful == CountCached(dates[..i], updated)
    && forall j :: 0 <= j < i ==>
         (dates[j] in updated <==> dates[j] in cache || (download(dates[j]).Some? && |download(dates[j]).value.rows| > 0))
  }

  /** Fetching the next date keeps the warm-up's facts. */
  lemma WarmupStep(cache: Cache, dates: seq<int>, i: nat, updated: Cache, successful: nat, now: int,
                   download: int -> Option<DayTable>)
    requires i < |dates| && Ranking.StrictlyDescending(dates)
    requires WarmedUp(cache, dates, i, updated, successful, download)
    ensures var r := FetchDeliveryData(updated, Some(dates[i]), now, download(dates[i]));
            WarmedUp(cache, dates, i + 1, r.cache, successful + (if r.table.Some? then 1 else 0), download)
  {
    var r := FetchDeliveryData(updated, Some(dates[i]), now, download(dates[i]));
    FetchDayFacts(updated, dates[i], now, download(dates[i]));
    assert dates[i] !in dates[..i] by {
      assert forall j :: 0 <= j < i ==> dates[..i][j] == dates[j] > dates[i];
    }
    CountCachedUnchanged(dates[..i], updated, r.cache, dates[i]);
    CountCachedAppend(dates[..i], dates[i], r.cache);
    assert dates[..i + 1] == dates[..i] + [dates[i]];
  }

  /** Fetching one day through the cache: the day is cached afterwards exactly
      when a table came back, which is when it was cached before or the
      download had rows; no other day is added. */
  lemma FetchDayFacts(c: Cache, day: int, now: int, dl: Option<DayTable>)
    ensures var r := FetchDeliveryData(c, Some(day), now, dl);
            && (day in r.cache <==> r.table.Some?)
            && (day in r.cache <==> day in c || (dl.Some? && |dl.value.rows| > 0))
            && (forall d :: d in r.cache ==> d in c || d == day)
  {
  }

  /** Adding a day outside `dates` does not change how many of them are cached. */
  lemma {:induction false} CountCachedUnchanged(dates: seq<int>, c1: Cache, c2: Cache, day: int)
    requires day !in dates
    requires forall d :: d in c1 ==> d in c2
    requires forall d :: d in c2 ==> d in c1 || d == day
    ensures CountCached(dates, c1) == CountCached(dates, c2)
  {
    if |dates| > 0 {
      CountCachedUnchanged(dates[1..], c1, c2, day);
    }
  }

  lemma {:induction false} CountCachedAppend(dates: seq<int>, day: int, c: Cache)
    ensures CountCached(dates + [day], c) == CountCached(dates, c) + (if day in c then 1 else 0)
  {
    if |dates| > 0 {
      assert (dates + [day])[1..] == dates[1..] + [day];
      CountCachedAppend(dates[1..], day, c);
    } else {
      assert dates + [day] == [day];
    }
  }

  /** The days `fetch_delivery_trend` consults: the `days` most recent cached days,
      newest first. A cached day left out is older than every consulted one. */
  function ConsultedDays(cache: Cache, days: int): (r: seq<int>)
    ensures forall i :: 0 <= i < |r| ==> r[i] in cache
    ensures Ranking.StrictlyDescending(r)
    ensures days >= 0 ==> |r| == if days <= |cache| then days else |cache|
    ensures forall k :: k in cache && k !in r ==> forall i :: 0 <= i < |r| ==> k < r[i]
  {
    var sorted := Ranking.SortedKeysDesc(cache.Keys);
    var r := Ranking.PySliceTo(sorted, days);
    PrefixOutranksRest(sorted, |r|);
    r
  }

  /** In a strictly descending sequence, every element past a prefix is below every element of it. */
  lemma PrefixOutranksRest(s: seq<int>, n: nat)
    requires n <= |s| && Ranking.StrictlyDescending(s)
    ensures forall k :: k in s && k !in s[..n] ==> forall i :: 0 <= i < n ==> k < s[i]
  {
    forall k | k in s && k !in s[..n]
      ensures forall i :: 0 <= i < n ==> k < s[i]
    {
      assert forall i :: 0 <= i < n ==> s[..n][i] == s[i];
      var j :| 0 <= j < |s| && s[j] == k;
    }
  }

  /** The first row for `symbol` in a table: its index, if any. */
  function FirstRowIndex(rows: seq<Row>, symbol: string): (r: Option<nat>)
    ensures r.Some? ==> r.value < |rows| && rows[r.value].symbol == symbol
                        && forall j :: 0 <= j < r.value ==> rows[j].symbol != symbol
    ensures r.None? <==> forall j :: 0 <= j < |rows| ==> rows[j].symbol != symbol
  {
    if |rows| == 0 then None
    else if rows[0].symbol == symbol then Some(0)
    else match FirstRowIndex(rows[1..], symbol)
      case Some(i) => Some(i + 1)
      case None => None
  }

  /** One day's figures for the symbol, from the first matching row. */
  datatype DayRecord = DayRecord(day: int, pct: Option<real>, qty: Option<real>, traded: Option<real>)

  /** The per-day records the trend is computed from, in the order of `days`. */
  function CollectRecords(cache: Cache, days: seq<int>, symbol: string): (r: seq<DayRecord>)
    requires forall i :: 0 <= i < |days| ==> days[i] in cache
    ensures |r| <= |days|
    ensures forall i :: 0 <= i < |r| ==> r[i].day in days
    ensures Ranking.StrictlyDescending(days) ==> forall i, j :: 0 <= i < j < |r| ==> r[i].day > r[j].day
    ensures r == [] <==> forall i :: 0 <= i < |days| ==>
              !cache[days[i]].hasSymbolColumn || FirstRowIndex(cache[days[i]].rows, symbol).None?
  {
    if |days| == 0 then []
    else
      var t := cache[days[0]];
      var rest := CollectRecords(cache, days[1..], symbol);
      assert forall i :: 0 <= i < |rest| ==> rest[i].day in days[1..];
      DescendingTail(days);
      if t.hasSymbolColumn && FirstRowIndex(t.rows, symbol).Some? then
        var row := t.rows[FirstRowIndex(t.rows, symbol).value];
        [DayRecord(days[0], row.deliveryPct, row.deliveryQty, row.tradedQty)] + rest
      else rest
  }

  /** The tail of a strictly descending list is one too, below its head. */
  lemma DescendingTail(days: seq<int>)
    requires |days| > 0
    ensures Ranking.StrictlyDescending(days) ==>
              Ranking.StrictlyDescending(days[1..]) && forall d :: d in days[1..] ==> d < days[0]
  {
    if Ranking.StrictlyDescending(days) {
      forall d | d in days[1..] ensures d < days[0] {
        var j :| 0 <= j < |days[1..]| && days[1..][j] == d;
        assert days[j + 1] == d;
      }
    }
  }

  /** The values that are present and positive (`[x for x in xs if x > 0]`; NaN fails the test). */
  function PositiveValues(xs: seq<Option<real>>): (r: seq<real>)
    ensures |r| <= |xs|
    ensures forall i :: 0 <= i < |r| ==> r[i] > 0.0
    ensures AllPresent(xs) && (forall i :: 0 <= i < |xs| ==> xs[i].value > 0.0) ==> r == Values(xs)
    ensures (forall i :: 0 <= i < |xs| ==> xs[i].None? || xs[i].value <= 0.0) ==> r == []
  {
    if |xs| == 0 then []
    else if xs[0].Some? && xs[0].value > 0.0 then [xs[0].value] + PositiveValues(xs[1..])
    else PositiveValues(xs[1..])
  }

  function QtyColumn(records: seq<DayRecord>): (r: seq<Option<real>>)
    ensures |r| == |records| && forall i :: 0 <= i < |records| ==> r[i] == records[i].qty
  {
    seq(|records|, i requires 0 <= i < |records| => records[i].qty)
  }

  function PctColumn(records: seq<DayRecord>): (r: seq<Option<real>>)
    ensures |r| == |records| && forall i :: 0 <= i < |records| ==> r[i] == records[i].pct
  {
    seq(|records|, i requires 0 <= i < |records| => records[i].pct)
  }

  function Present(xs: seq<real>): (r: seq<Option<real>>)
    ensures |r| == |xs| && forall i :: 0 <= i < |xs| ==> r[i] == Some(xs[i])
  {
    seq(|xs|, i requires 0 <= i < |xs| => Some(xs[i]))
  }

  predicate AllPresent(xs: seq<Option<real>>) {
    forall i :: 0 <= i < |xs| ==> xs[i].Some?
  }

  function Values(xs: seq<Option<real>>): (r: seq<real>)
    requires AllPresent(xs)
    ensures |r| == |xs| && forall i :: 0 <= i < |xs| ==> Some(r[i]) == xs[i]
  {
    seq(|xs|, i requires 0 <= i < |xs| => xs[i].value)
  }

  datatype Trend = Rising | Falling | Stable | InsufficientData

  /** `_calculate_trend`: compares the mean of the second half (indices from
      `n // 2` on) with the mean of the first half. Rising and falling need a
      change beyond 5 percent from a positive first-half mean; a NaN anywhere
      makes every comparison false, which reads as stable. */
  function CalculateTrend(xs: seq<Option<real>>): (t: Trend)
    ensures t == InsufficientData <==> |xs| < 2
    ensures t == Rising <==>
              |xs| >= 2 && AllPresent(xs)
              && var v := Values(xs); var h := |xs| / 2;
                 Stats.Mean(v[..h]) > 0.0 && Stats.Mean(v[h..]) > Stats.Mean(v[..h]) * 1.05
    ensures t == Falling <==>
              |xs| >= 2 && AllPresent(xs)
              && var v := Values(xs); var h := |xs| / 2;
                 Stats.Mean(v[..h]) > 0.0 && Stats.Mean(v[h..]) < Stats.Mean(v[..h]) * 0.95
  {
    if |xs| < 2 then InsufficientData
    else if !AllPresent(xs) then Stable
    else
      var v := Values(xs);
      var h := |xs| / 2;
      var first := Stats.Mean(v[..h]);
      var second := Stats.Mean(v[h..]);
      if first > 0.0 then
        Stats.PercentChangeThreshold(first, second, 5.0);
        Stats.PercentChangeThreshold(first, second, -5.0);
        var diff := Stats.PercentChange(first, second);
        if diff > 5.0 then Rising else if diff < -5.0 then Falling else Stable
      else Stable
  }

  /** The trend of a history listed newest first, read in time order: the
      rule is applied oldest first, so the second half is the recent one.
      `fetch_delivery_trend` applies the rule to its newest-first lists
      directly, which compares the older half against the newer one. */
  function TrendOfNewestFirst(xs: seq<Option<real>>): (t: Trend)
    ensures t == InsufficientData <==> |xs| < 2
  {
    CalculateTrend(Ranking.Reverse(xs))
  }

  /** Reversing twice gives the sequence back. */
  lemma ReverseReverse<T>(s: seq<T>)
    ensures Ranking.Reverse(Ranking.Reverse(s)) == s
  {
    var r := Ranking.Reverse(Ranking.Reverse(s));
    assert |r| == |s|;
    forall i | 0 <= i < |s|
      ensures r[i] == s[i]
    {
      assert Ranking.Reverse(s)[|s| - 1 - i] == s[i];
    }
  }

  /** A history read newest first gets the trend the rule gives it oldest first. */
  lemma NewestFirstReadsInTimeOrder(oldestFirst: seq<Option<real>>)
    ensures TrendOfNewestFirst(Ranking.Reverse(oldestFirst)) == CalculateTrend(oldestFirst)
  {
    ReverseReverse(oldestFirst);
  }

  /** Two days with positive figures: read in time order, the trend is rising
      exactly when the newer figure exceeds the older by more than 5%; the rule
      applied to the newest-first list instead calls it rising exactly when
      the older figure exceeds the newer one by more than 5%. */
  lemma TwoDayTrends(newer: real, older: real)
    requires newer > 0.0 && older > 0.0
    ensures TrendOfNewestFirst([Some(newer), Some(older)]) == Rising <==> newer > older * 1.05
    ensures TrendOfNewestFirst([Some(newer), Some(older)]) == Falling <==> newer < older * 0.95
    ensures CalculateTrend([Some(newer), Some(older)]) == Rising <==> older > newer * 1.05
    ensures CalculateTrend([Some(newer), Some(older)]) == Falling <==> older < newer * 0.95
  {
    var xs := [Some(newer), Some(older)];
    var rev := Ranking.Reverse(xs);
    assert rev == [Some(older), Some(newer)];
    assert Values(rev)[..1] == [older] && Values(rev)[1..] == [newer];
    assert Values(xs)[..1] == [newer] && Values(xs)[1..] == [older];
    assert [older][1..] == [] && [newer][1..] == [];
    assert Stats.Sum([older]) == older + Stats.Sum([]) && Stats.Sum([newer]) == newer + Stats.Sum([]);
    assert Stats.Sum([older]) == older && Stats.Sum([newer]) == newer;
  }

  /** Delivery of 40% yesterday and 60% today: `_calculate_trend` on the
      newest-first list reports a falling trend, while in time order the
      trend is rising. */
  lemma TrendInvertedAsWritten()
    ensures CalculateTrend([Some(60.0), Some(40.0)]) == Falling
    ensures TrendOfNewestFirst([Some(60.0), Some(40.0)]) == Rising
  {
    TwoDayTrends(60.0, 40.0);
  }

  /** The dictionary `fetch_delivery_trend` returns. */
  datatype DeliveryTrend = DeliveryTrend(
    symbol: string,
    latestQty: real, avgQty: real, baselineQty: real,
    spikeRatio: real, hasSpike: bool,
    latestPct: real, avgPct: real,
    qtyTrend: Trend, pctTrend: Trend,
    dataPoints: nat, lookbackDays: int)

  /** Spike statistics of the positive delivery quantities, newest first. */
  datatype Spike = Spike(latest: real, avg: real, baseline: real, ratio: real, hasSpike: bool)

  /** The quantity analysis of `fetch_delivery_trend`: the latest quantity,
      the mean, and the mean of all but the latest as the baseline (the mean
      itself for a single sample, which makes the ratio 1). A spike is a
      ratio at or above the threshold. */
  function QtySpike(q: seq<real>, spikeThreshold: real): (s: Spike)
    requires |q| > 0 && forall i :: 0 <= i < |q| ==> q[i] > 0.0
    ensures s.latest == q[0] && s.avg == Stats.Mean(q) > 0.0 && s.baseline > 0.0
    ensures |q| == 1 ==> s.baseline == s.avg == q[0] && s.ratio == 1.0
    ensures |q| > 1 ==> s.baseline == Stats.Mean(q[1..])
    ensures s.ratio == s.latest / s.baseline
    ensures s.hasSpike <==> s.ratio >= spikeThreshold
  {
    BaselinePositive(q);
    var avg := Stats.Mean(q);
    var baseline := if |q| > 1 then Stats.Mean(q[1..]) else avg;
    var ratio := if baseline > 0.0 then q[0] / baseline else 1.0;
    assert |q| == 1 ==> ratio == 1.0 by {
      if |q| == 1 {
        Stats.RatioAtLeastOne(q[0], baseline);
      }
    }
    Spike(q[0], avg, baseline, ratio, ratio >= spikeThreshold)
  }

  /** The statistics `fetch_delivery_trend` reports for the records found for
      one symbol, newest first. There is no result without a positive
      quantity; percentages fall back to 0 when none is positive. The two
      trends apply `_calculate_trend` to the newest-first lists as they
      are, so they compare the older half against the newer one. */
  function Summarize(clean: string, records: seq<DayRecord>, days: int, spikeThreshold: real): (r: Option<DeliveryTrend>)
    ensures r.None? <==> |PositiveValues(QtyColumn(records))| == 0
    ensures r.Some? ==>
              var s := QtySpike(PositiveValues(QtyColumn(records)), spikeThreshold);
              && r.value.symbol == clean
              && r.value.latestQty == s.latest && r.value.avgQty == s.avg && r.value.baselineQty == s.baseline
              && r.value.spikeRatio == s.ratio && r.value.hasSpike == s.hasSpike
              && r.value.qtyTrend == CalculateTrend(QtyColumn(records))
              && r.value.dataPoints == |records| && r.value.lookbackDays == days
    ensures r.Some? ==>
              var p := PositiveValues(PctColumn(records));
              && (|p| == 0 ==> r.value.latestPct == 0.0 && r.value.avgPct == 0.0)
              && (|p| > 0 ==> r.value.latestPct == p[0] > 0.0 && r.value.avgPct == Stats.Mean(p))
              && r.value.pctTrend == CalculateTrend(Present(p))
  {
    var quantities := PositiveValues(QtyColumn(records));
    var percentages := PositiveValues(PctColumn(records));
    if |quantities| == 0 then None
    else
      var s := QtySpike(quantities, spikeThreshold);
      var latestPct := if |percentages| > 0 then percentages[0] else 0.0;
      var avgPct := if |percentages| > 0 then Stats.Mean(percentages) else 0.0;
      Some(DeliveryTrend(clean, s.latest, s.avg, s.baseline, s.ratio, s.hasSpike,
                         latestPct, avgPct, CalculateTrend(QtyColumn(records)),
                         CalculateTrend(Present(percentages)), |records|, days))
  }

  /** The statistics as the trend rule evidently intends them: every figure
      is the one `Summarize` reports, except that both trends are read in
      time order, the newer half against the older one. */
  function SummarizeCorrected(clean: string, records: seq<DayRecord>, days: int, spikeThreshold: real): (r: Option<DeliveryTrend>)
    ensures r.None? <==> Summarize(clean, records, days, spikeThreshold).None?
    ensures r.Some? ==>
              var w := Summarize(clean, records, days, spikeThreshold).value;
              && r.value.(qtyTrend := w.qtyTrend, pctTrend := w.pctTrend) == w
              && r.value.qtyTrend == TrendOfNewestFirst(QtyColumn(records))
              && r.value.pctTrend == TrendOfNewestFirst(Present(PositiveValues(PctColumn(records))))
  {
    match Summarize(clean, records, days, spikeThreshold)
    case None => None
    case Some(w) =>
      Some(w.(qtyTrend := TrendOfNewestFirst(QtyColumn(records)),
              pctTrend := TrendOfNewestFirst(Present(PositiveValues(PctColumn(records))))))
  }

  /** Two days with equal quantities, 40% delivered yesterday and 60% today:
      the statistics as written report a falling percentage trend, the
      corrected ones a rising trend, and the quantity trend is stable in both. */
  lemma SummaryTrendInverted()
    ensures var records := [DayRecord(2, Some(60.0), Some(100.0), Some(200.0)),
                            DayRecord(1, Some(40.0), Some(100.0), Some(200.0))];
            && Summarize("INFY", records, 90, 2.0).Some?
            && Summarize("INFY", records, 90, 2.0).value.pctTrend == Falling
            && SummarizeCorrected("INFY", records, 90, 2.0).value.pctTrend == Rising
            && SummarizeCorrected("INFY", records, 90, 2.0).value.qtyTrend == Stable
  {
    var records := [DayRecord(2, Some(60.0), Some(100.0), Some(200.0)),
                    DayRecord(1, Some(40.0), Some(100.0), Some(200.0))];
    assert QtyColumn(records) == [Some(100.0), Some(100.0)];
    assert PctColumn(records) == [Some(60.0), Some(40.0)];
    assert PositiveValues([Some(100.0), Some(100.0)]) == [100.0, 100.0];
    assert PositiveValues([Some(60.0), Some(40.0)]) == [60.0, 40.0];
    assert Present([60.0, 40.0]) == [Some(60.0), Some(40.0)];
    TwoDayTrends(60.0, 40.0);
    TwoDayTrends(100.0, 100.0);
  }

  /** `fetch_delivery_trend` over the cache as warm-up left it: an invalid
      symbol has no trend; otherwise the first matching row of each of the
      `days` newest cached days is summarised. */
  function FetchDeliveryTrend(symbol: string, days: int, spikeThreshold: real, cache: Cache): (r: Option<DeliveryTrend>)
    ensures Validators.SanitizeSymbol(symbol).None? ==> r.None?
    ensures r.Some? ==> r.value.symbol == Validators.SanitizeSymbol(symbol).value
    ensures r.Some? ==> 1 <= r.value.dataPoints <= |cache| && (days >= 0 ==> r.value.dataPoints <= days)
    ensures |cache| == 0 ==> r.None?
    ensures Validators.SanitizeSymbol(symbol).Some? ==>
              var clean := Validators.SanitizeSymbol(symbol).value;
              var records := CollectRecords(cache, ConsultedDays(cache, days), clean);
              && (|records| == 0 ==> r.None?)
              && (|records| > 0 ==> r == Summarize(clean, records, days, spikeThreshold))
  {
    match Validators.SanitizeSymbol(symbol)
    case None => None
    case Some(clean) =>
      var consulted := ConsultedDays(cache, days);
      var records := CollectRecords(cache, consulted, clean);
      assert |records| <= |consulted|;
      if |records| == 0 then None
      else Summarize(clean, records, days, spikeThreshold)
  }

  /** The mean of positive quantities, and of all but the first of them, is positive. */
  lemma BaselinePositive(q: seq<real>)
    requires |q| > 0 && forall i :: 0 <= i < |q| ==> q[i] > 0.0
    ensures Stats.Mean(q) > 0.0
    ensures |q| > 1 ==> Stats.Mean(q[1..]) > 0.0
    ensures |q| == 1 ==> Stats.Mean(q) == q[0]
  {
    Stats.MeanPositive(q);
    if |q| == 1 {
      Stats.MeanOfConstant(q, q[0]);
    }
    if |q| > 1 {
      Stats.MeanPositive(q[1..]);
    }
  }

  /** `fetch_delivery_trend` including its first step: when warm-up has not run
      and fewer than `days` days are cached, the cache is warmed up first. */
  method FetchDeliveryTrendWarm(symbol: string, days: int, spikeThreshold: real,
                                cache: Cache, warmupComplete: bool, now: int,
                                download: int -> Option<DayTable>)
    returns (r: Option<DeliveryTrend>, updated: Cache, complete: bool)
    requires CachedTablesNonEmpty(cache)
    ensures CachedTablesNonEmpty(updated)
    ensures forall d :: d in cache ==> d in updated && updated[d] == cache[d]
    ensures (warmupComplete || |cache| >= days) ==> updated == cache && complete == warmupComplete
    ensures Validators.SanitizeSymbol(symbol).Some? && !warmupComplete && |cache| < days ==> complete
    ensures Validators.SanitizeSymbol(symbol).None? ==> r.None? && updated == cache
    ensures r == FetchDeliveryTrend(symbol, days, spikeThreshold, updated)
  {
    updated, complete := cache, warmupComplete;
    if Validators.SanitizeSymbol(symbol).Some? && !warmupComplete && |cache| < days {
      var successful, dates;
      updated, successful, dates := WarmupCache(cache, now, days, download);
      complete := true;
    }
    r := FetchDeliveryTrend(symbol, days, spikeThreshold, updated);
  }

  /** `clear_cache`. */
  function ClearCache(cache: Cache): (r: Cache)
    ensures |r| == 0 && CachedTablesNonEmpty(r)
  {
    map[]
  }

  /** After clearing, no symbol has a delivery trend. */
  lemma ClearedCacheHasNoTrend(cache: Cache, symbol: string, days: int, spikeThreshold: real)
    ensures FetchDeliveryTrend(symbol, days, spikeThreshold, ClearCache(cache)).None?
  {
    var c := ClearCache(cache);
    if Validators.SanitizeSymbol(symbol).Some? {
      assert ConsultedDays(c, days) == [];
    }
  }

  /** A latest quantity at least every older one never has a spike ratio below 1. */
  lemma LatestPeakHasRatioAtLeastOne(q: seq<real>, spikeThreshold: real)
    requires |q| > 0 && forall i :: 0 <= i < |q| ==> 0.0 < q[i] <= q[0]
    ensures QtySpike(q, spikeThreshold).ratio >= 1.0
    ensures spikeThreshold <= 1.0 ==> QtySpike(q, spikeThreshold).hasSpike
  {
    var s := QtySpike(q, spikeThreshold);
    PeakOverBaseline(q, s.baseline);
    Stats.RatioAtLeastOne(s.latest, s.baseline);
  }

  lemma PeakOverBaseline(q: seq<real>, baseline: real)
    requires |q| > 0 && forall i :: 0 <= i < |q| ==> 0.0 < q[i] <= q[0]
    requires |q| == 1 ==> baseline == q[0]
    requires |q| > 1 ==> baseline == Stats.Mean(q[1..])
    ensures 0.0 < baseline <= q[0]
  {
    if |q| > 1 {
      var older := q[1..];
      assert forall i :: 0 <= i < |older| ==> 0.0 < older[i] <= q[0];
      Stats.MeanBetween(older, 0.0, q[0]);
      Stats.MeanPositive(older);
    }
  }

  function Rec(day: int, qty: real): DayRecord {
    DayRecord(day, None, Some(qty), Some(qty))
  }

  /** Three times the usual quantity on the newest day is a spike at the default threshold 2. */
  lemma SpikeExample()
    ensures var r := Summarize("INFY", [Rec(4, 300.0), Rec(3, 100.0), Rec(2, 100.0), Rec(1, 100.0)], 90, 2.0);
            r.Some? && r.value.spikeRatio == 3.0 && r.value.hasSpike
            && r.value.avgQty == 150.0 && r.value.latestPct == 0.0 && r.value.dataPoints == 4
  {
    var records := [Rec(4, 300.0), Rec(3, 100.0), Rec(2, 100.0), Rec(1, 100.0)];
    var qs := QtyColumn(records);
    assert qs == [Some(300.0), Some(100.0), Some(100.0), Some(100.0)];
    assert Values(qs) == [300.0, 100.0, 100.0, 100.0];
    var q := PositiveValues(qs);
    assert q == [300.0, 100.0, 100.0, 100.0];
    assert q[1..] == [100.0, 100.0, 100.0];
    assert Stats.Sum(q[1..]) == 300.0 && Stats.Sum(q) == 600.0;
    var ps := PctColumn(records);
    assert forall i :: 0 <= i < |ps| ==> ps[i].None?;
    var s := QtySpike(q, 2.0);
    assert s.baseline == 100.0 && s.avg == 150.0 && s.ratio == 3.0;
  }

  /** Worked trends: a change of more than 5 percent either way, and one within it. */
  lemma TrendExamples()
    ensures CalculateTrend([Some(40.0), Some(42.0), Some(45.0)]) == Rising
    ensures CalculateTrend([Some(50.0), Some(48.0), Some(46.0)]) == Falling
    ensures CalculateTrend([Some(40.0), Some(41.0), Some(40.5)]) == Stable
    ensures CalculateTrend([Some(40.0), None, Some(90.0)]) == Stable
    ensures CalculateTrend([Some(40.0)]) == InsufficientData
  {
    var a := [Some(40.0), Some(42.0), Some(45.0)];
    assert Values(a) == [40.0, 42.0, 45.0];
    assert Values(a)[..1] == [40.0] && Values(a)[1..] == [42.0, 45.0];
    assert Stats.Sum([40.0]) == 40.0 && Stats.Sum([42.0, 45.0]) == 87.0;
    var b := [Some(50.0), Some(48.0), Some(46.0)];
    assert Values(b) == [50.0, 48.0, 46.0];
    assert Values(b)[..1] == [50.0] && Values(b)[1..] == [48.0, 46.0];
    assert Stats.Sum([50.0]) == 50.0 && Stats.Sum([48.0, 46.0]) == 94.0;
    var c := [Some(40.0), Some(41.0), Some(40.5)];
    assert Values(c) == [40.0, 41.0, 40.5];
    assert Values(c)[..1] == [40.0] && Values(c)[1..] == [41.0, 40.5];
    assert Stats.Sum([40.0]) == 40.0 && Stats.Sum([41.0, 40.5]) == 81.5;
    assert ![Some(40.0), None, Some(90.0)][1].Some?;
  }
}
