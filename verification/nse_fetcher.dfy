/** The decision logic of the NSE fetcher (src/data_fetchers/nse_fetcher.py):
    which day counts as the last trading day, which days the multi-day
    bhavcopy fetch asks for, how one symbol's delivery figures are read from
    a bhavcopy table, how the equity list is parsed, and in which order the
    symbol sources are tried. Downloads, files and the clock are inputs. */
module NseFetcher {
  import opened Wrappers
  import opened PyValues
  import opened PyStrings
  import opened Calendar
  import Validators
  import Ranking

  // ---------------------------------------------------------------- days

  /** The market is taken to have closed from 16:00. */
  const MarketCloseHour := 16

  /** The last trading day as `_get_last_trading_day` defines it: today from
      16:00 on a weekday, otherwise the trading day before. */
  function LastTradingDayRef(today: int, hour: int): int {
    if IsTradingDay(today) then
      (if hour >= MarketCloseHour then today else TradingDayAtOrBefore(today - 1))
    else TradingDayAtOrBefore(today)
  }

  /** `_get_last_trading_day`, with the clock's day and hour as inputs. */
  method LastTradingDay(today: int, hour: int) returns (d: int)
    ensures d == LastTradingDayRef(today, hour)
    ensures IsTradingDay(d) && today - 3 <= d <= today
    ensures d == today <==> IsTradingDay(today) && hour >= MarketCloseHour
    ensures forall k :: d < k < today ==> !IsTradingDay(k)
  {
    d := today;
    while Weekday(d) >= 5
      invariant today - 2 <= d <= today
      invariant forall k :: d < k <= today ==> !IsTradingDay(k)
      invariant TradingDayAtOrBefore(d) == TradingDayAtOrBefore(today)
      decreases d - (today - 2)
    {
      WeekendNeighbours(d);
      d := d - 1;
    }
    if d == today && hour < MarketCloseHour {
      d := d - 1;
      while Weekday(d) >= 5
        invariant today - 3 <= d <= today - 1
        invariant forall k :: d < k < today ==> !IsTradingDay(k)
        invariant TradingDayAtOrBefore(d) == TradingDayAtOrBefore(today - 1)
        decreases d - (today - 3)
      {
        WeekendNeighbours(d);
        d := d - 1;
      }
    }
  }

  // ----------------------------------------------------------- bhavcopy

  /** A bhavcopy table: its column names and its rows (cell per column). */
  datatype Table = Table(columns: seq<string>, rows: seq<map<string, Value>>)

  /** `fetch_bhavcopy(date)`: the archives first, then the reports; a method
      that fails, gives nothing or gives an empty table is passed over. */
  function FetchBhavcopy(day: int, archives: int -> Option<Table>, reports: int -> Option<Table>): (r: Option<Table>)
    ensures r.Some? ==> |r.value.rows| > 0
    ensures r.Some? <==> (archives(day).Some? && |archives(day).value.rows| > 0)
                         || (reports(day).Some? && |reports(day).value.rows| > 0)
    ensures archives(day).Some? && |archives(day).value.rows| > 0 ==> r == archives(day)
  {
    if archives(day).Some? && |archives(day).value.rows| > 0 then archives(day)
    else if reports(day).Some? && |reports(day).value.rows| > 0 then reports(day)
    else None
  }

  /** `days` lists, newest first, exactly the trading days in (lo, hi]. */
  ghost predicate TradingWindow(days: seq<int>, lo: int, hi: int) {
    && Ranking.StrictlyDescending(days)
    && (forall i :: 0 <= i < |days| ==> lo < days[i] <= hi)
    && (forall k :: k in days <==> lo < k <= hi && IsTradingDay(k))
  }

  /** Looking at one more, older, day keeps the window exact. */
  lemma WindowStep(days: seq<int>, current: int, hi: int)
    requires current <= hi && TradingWindow(days, current, hi)
    ensures TradingWindow(if IsTradingDay(current) then days + [current] else days, current - 1, hi)
  {
    var next := if IsTradingDay(current) then days + [current] else days;
    forall k ensures k in next <==> current - 1 < k <= hi && IsTradingDay(k) {
      if IsTradingDay(current) {
        assert next == days + [current];
        assert k in next <==> k in days || k == current;
      } else {
        assert next == days;
      }
    }
  }

  /** `data` holds the fetched tables of exactly the requested days that gave one. */
  ghost predicate FetchedTables(data: map<int, Table>, requested: seq<int>, fetch: int -> Option<Table>) {
    (forall k :: k in data <==> k in requested && fetch(k).Some?)
    && (forall k :: k in data ==> data[k] == fetch(k).value)
  }

  /** `fetch_multiple_bhavcopy(days)`: walking back from the last trading
      day, weekdays are fetched until `days` tables are found or `3 * days`
      dates have been looked at. `requested` lists the days asked for. */
  method FetchMultipleBhavcopy(today: int, hour: int, days: int, fetch: int -> Option<Table>)
    returns (data: map<int, Table>, requested: seq<int>, examined: nat)
    ensures days <= 0 ==> data == map[] && requested == [] && examined == 0
    ensures days > 0 ==> |data| <= days && examined <= 3 * days
    ensures forall i :: 0 <= i < |requested| ==> IsTradingDay(requested[i])
    ensures Ranking.StrictlyDescending(requested)
    ensures var start := LastTradingDayRef(today, hour);
            forall k :: k in requested <==> start - examined < k <= start && IsTradingDay(k)
    ensures FetchedTables(data, requested, fetch)
    ensures |data| < days ==> examined == 3 * days
  {
    var start := LastTradingDay(today, hour);
    var current := start;
    data := map[];
    requested := [];
    examined := 0;
    var fetched: nat := 0;
    while fetched < days && examined < days * 3
      invariant current == start - examined
      invariant days > 0 ==> examined <= 3 * days
      invariant days <= 0 ==> examined == 0 && requested == [] && data == map[]
      invariant fetched == |data| && (days > 0 ==> fetched <= days)
      invariant TradingWindow(requested, current, start)
      invariant FetchedTables(data, requested, fetch)
      decreases 3 * days - examined
    {
      WindowStep(requested, current, start);
      assert current !in data;
      if Weekday(current) < 5 {
        requested := requested + [current];
        var table := fetch(current);
        if table.Some? {
          data := data[current := table.value];
          fetched := fetched + 1;
        }
      }
      current := current - 1;
      examined := examined + 1;
    }
    assert forall i :: 0 <= i < |requested| ==> requested[i] in requested;
  }

  // ------------------------------------------------------- delivery data

  /** The column names tried, in order, for each figure. */
  const SymbolNames: seq<string> := ["SYMBOL", "SYMB"]
  const DeliveredColumns: seq<string> := ["DELIV_QTY", "NO_OF_TRADES", "QTY_PER_TRADE"]
  const TradedColumns: seq<string> := ["TTL_TRD_QNTY", "TOTTRDQTY", "TRADED_QTY"]
  const PercentColumns: seq<string> := ["DELIV_PER", "DELIV_PCT", "%DELY QTY TO TRADED QTY"]

  /** The first candidate that is one of the columns. */
  function FirstPresent(candidates: seq<string>, columns: seq<string>): (r: Option<nat>)
    ensures r.Some? ==> r.value < |candidates| && candidates[r.value] in columns
    ensures r.Some? ==> forall j :: 0 <= j < r.value ==> candidates[j] !in columns
    ensures r.None? <==> forall j :: 0 <= j < |candidates| ==> candidates[j] !in columns
  {
    if |candidates| == 0 then None
    else if candidates[0] in columns then Some(0)
    else match FirstPresent(candidates[1..], columns)
         case None => None
         case Some(i) => Some(i + 1)
  }

  /** The first column whose upper-cased name is SYMBOL or SYMB. */
  function SymbolColumn(columns: seq<string>): (r: Option<nat>)
    ensures r.Some? ==> r.value < |columns| && Upper(columns[r.value]) in SymbolNames
    ensures r.Some? ==> forall j :: 0 <= j < r.value ==> Upper(columns[j]) !in SymbolNames
    ensures r.None? <==> forall j :: 0 <= j < |columns| ==> Upper(columns[j]) !in SymbolNames
  {
    if |columns| == 0 then None
    else if Upper(columns[0]) in SymbolNames then Some(0)
    else match SymbolColumn(columns[1..])
         case None => None
         case Some(i) => Some(i + 1)
  }

  /** A row's cell; a row without the column reads as `None`. */
  function Cell(row: map<string, Value>, column: string): Value {
    Get(row, column, VNone)
  }

  /** `df[col].str.upper() == symbol.upper()`: non-strings never match. */
  predicate SymbolMatches(row: map<string, Value>, column: string, symbol: string) {
    Cell(row, column).VStr? && Upper(Cell(row, column).s) == Upper(symbol)
  }

  /** The first row whose symbol matches. */
  function FirstMatchingRow(rows: seq<map<string, Value>>, column: string, symbol: string): (r: Option<nat>)
    ensures r.Some? ==> r.value < |rows| && SymbolMatches(rows[r.value], column, symbol)
    ensures r.Some? ==> forall j :: 0 <= j < r.value ==> !SymbolMatches(rows[j], column, symbol)
    ensures r.None? <==> forall j :: 0 <= j < |rows| ==> !SymbolMatches(rows[j], column, symbol)
  {
    if |rows| == 0 then None
    else if SymbolMatches(rows[0], column, symbol) then Some(0)
    else match FirstMatchingRow(rows[1..], column, symbol)
         case None => None
         case Some(i) => Some(i + 1)
  }

  /** The value of the first present candidate column in `row`, `None` when none is present. */
  function Pick(row: map<string, Value>, candidates: seq<string>, columns: seq<string>): (v: Value)
    ensures FirstPresent(candidates, columns).None? ==> v == VNone
    ensures FirstPresent(candidates, columns).Some? ==> v == Cell(row, candidates[FirstPresent(candidates, columns).value])
  {
    match FirstPresent(candidates, columns)
    case None => VNone
    case Some(i) => Cell(row, candidates[i])
  }

  datatype Delivery = Delivery(deliverableQty: Value, tradedQty: Value, deliveryPct: real)

  /** The percentage computed from the quantities when no percentage is
      given: both quantities truthy and the traded one positive. Comparing
      or dividing non-numbers raises. */
  function ComputedPercent(delivered: Value, traded: Value): (r: Result<Option<real>>)
    ensures r == Ok(None) <==>
              (!Truthy(delivered) || !Truthy(traded) || (AsNumber(traded).Some? && AsNumber(traded).value <= 0.0))
    ensures r.Ok? && r.value.Some? ==>
              AsNumber(delivered).Some? && AsNumber(traded).Some? && AsNumber(traded).value > 0.0
              && r.value.value == AsNumber(delivered).value / AsNumber(traded).value * 100.0
  {
    if !Truthy(delivered) || !Truthy(traded) then Ok(None)
    else match AsNumber(traded)
      case None => Err("TypeError")
      case Some(t) =>
        if t <= 0.0 then Ok(None)
        else match AsNumber(delivered)
          case None => Err("TypeError")
          case Some(q) => Ok(Some(q / t * 100.0))
  }

  /** `get_delivery_data(symbol, df)`; any exception inside gives `None`. */
  function GetDeliveryData(symbol: string, df: Table): (r: Option<Delivery>)
    ensures SymbolColumn(df.columns).None? ==> r.None?
    ensures (SymbolColumn(df.columns).Some? &&
             FirstMatchingRow(df.rows, df.columns[SymbolColumn(df.columns).value], symbol).None?) ==> r.None?
    ensures r.Some? ==>
              var row := df.rows[FirstMatchingRow(df.rows, df.columns[SymbolColumn(df.columns).value], symbol).value];
              var pct := Pick(row, PercentColumns, df.columns);
              && r.value.deliverableQty == Pick(row, DeliveredColumns, df.columns)
              && r.value.tradedQty == Pick(row, TradedColumns, df.columns)
              && (pct != VNone ==> Ok(r.value.deliveryPct) == Validators.ToFloat(pct))
              && (pct == VNone ==> ComputedPercent(r.value.deliverableQty, r.value.tradedQty) == Ok(Some(r.value.deliveryPct)))
    ensures (r.None? && SymbolColumn(df.columns).Some? &&
             FirstMatchingRow(df.rows, df.columns[SymbolColumn(df.columns).value], symbol).Some?) ==>
              var row := df.rows[FirstMatchingRow(df.rows, df.columns[SymbolColumn(df.columns).value], symbol).value];
              var pct := Pick(row, PercentColumns, df.columns);
              (pct != VNone && Validators.ToFloat(pct).Err?)
              || (pct == VNone && (ComputedPercent(Pick(row, DeliveredColumns, df.columns), Pick(row, TradedColumns, df.columns)).Err?
                                   || ComputedPercent(Pick(row, DeliveredColumns, df.columns), Pick(row, TradedColumns, df.columns)) == Ok(None)))
  {
    match SymbolColumn(df.columns)
    case None => None
    case Some(c) =>
      match FirstMatchingRow(df.rows, df.columns[c], symbol)
      case None => None
      case Some(i) =>
        var row := df.rows[i];
        var delivered := Pick(row, DeliveredColumns, df.columns);
        var traded := Pick(row, TradedColumns, df.columns);
        var pct := Pick(row, PercentColumns, df.columns);
        if pct != VNone then
          match Validators.ToFloat(pct)
          case Ok(x) => Some(Delivery(delivered, traded, x))
          case Err(_) => None
        else
          match ComputedPercent(delivered, traded)
          case Ok(Some(x)) => Some(Delivery(delivered, traded, x))
          case _ => None
  }

  /** The delivered-quantity column wins over the trade-count columns, and
      a stated percentage wins over the computed one. */
  lemma CandidateOrderExamples()
    ensures FirstPresent(DeliveredColumns, ["QTY_PER_TRADE", "NO_OF_TRADES", "DELIV_QTY"]) == Some(0)
    ensures FirstPresent(DeliveredColumns, ["QTY_PER_TRADE", "NO_OF_TRADES"]) == Some(1)
    ensures FirstPresent(PercentColumns, ["SYMBOL", "DELIV_QTY"]) == None
  {
  }

  /** A lower-case symbol column and symbol still match, and with no
      percentage column the percentage is delivered / traded * 100. */
  lemma DeliveryExample()
    ensures var df := Table(["symbol", "DELIV_QTY", "TTL_TRD_QNTY"],
                            [map["symbol" := VStr("abc"), "DELIV_QTY" := VInt(400), "TTL_TRD_QNTY" := VInt(1000)]]);
            GetDeliveryData("ABC", df) == Some(Delivery(VInt(400), VInt(1000), 40.0))
  {
    var columns := ["symbol", "DELIV_QTY", "TTL_TRD_QNTY"];
    var row := map["symbol" := VStr("abc"), "DELIV_QTY" := VInt(400), "TTL_TRD_QNTY" := VInt(1000)];
    DeliveryExampleLookups(columns, row);
  }

  lemma DeliveryExampleLookups(columns: seq<string>, row: map<string, Value>)
    requires columns == ["symbol", "DELIV_QTY", "TTL_TRD_QNTY"]
    requires row == map["symbol" := VStr("abc"), "DELIV_QTY" := VInt(400), "TTL_TRD_QNTY" := VInt(1000)]
    ensures SymbolColumn(columns) == Some(0) && FirstMatchingRow([row], "symbol", "ABC") == Some(0)
    ensures Pick(row, DeliveredColumns, columns) == VInt(400) && Pick(row, TradedColumns, columns) == VInt(1000)
    ensures Pick(row, PercentColumns, columns) == VNone
    ensures ComputedPercent(VInt(400), VInt(1000)) == Ok(Some(40.0))
  {
    SymbolLookupExample(columns, row);
    ColumnLookupExample(columns);
  }

  lemma SymbolLookupExample(columns: seq<string>, row: map<string, Value>)
    requires columns == ["symbol", "DELIV_QTY", "TTL_TRD_QNTY"]
    requires row == map["symbol" := VStr("abc"), "DELIV_QTY" := VInt(400), "TTL_TRD_QNTY" := VInt(1000)]
    ensures SymbolColumn(columns) == Some(0) && FirstMatchingRow([row], "symbol", "ABC") == Some(0)
  {
    assert Upper("symbol") == "SYMBOL";
    assert Upper("abc") == "ABC" && Upper("ABC") == "ABC";
    assert SymbolMatches(row, "symbol", "ABC");
  }

  lemma ColumnLookupExample(columns: seq<string>)
    requires columns == ["symbol", "DELIV_QTY", "TTL_TRD_QNTY"]
    ensures FirstPresent(DeliveredColumns, columns) == Some(0)
    ensures FirstPresent(TradedColumns, columns) == Some(0)
    ensures FirstPresent(PercentColumns, columns) == None
  {
    assert columns[1] == DeliveredColumns[0] && columns[2] == TradedColumns[0];
  }

  // --------------------------------------------------------- equity list

  /** A symbol the equity-list parser keeps: after removing '&' and '-',
      non-empty and alphanumeric. */
  predicate ListedSymbol(symbol: string) {
    IsAlnumString(Without(Without(symbol, '&'), '-'))
  }

  /** What every kept symbol looks like: non-empty, listed, a single CSV
      field and free of surrounding whitespace. */
  predicate KeptSymbol(s: string) {
    |s| > 0 && ListedSymbol(s) && ',' !in s && Strip(s) == s
  }

  /** The symbol a line of the equity list contributes, if any. */
  function LineSymbol(line: string): (r: Option<string>)
    ensures r.Some? ==> KeptSymbol(r.value)
  {
    var first := Split(line, ',')[0];
    var field := Strip(first);
    if |field| > 0 && ListedSymbol(field) then
      StripKeepsOut(first, ',');
      StrippedIsStripped(field);
      Some(field)
    else None
  }

  lemma StrippedIsStripped(s: string)
    requires |s| == 0 || (!IsSpace(s[0]) && !IsSpace(s[|s| - 1]))
    ensures Strip(s) == s
  {
  }

  function KeptSymbols(lines: seq<string>): (r: seq<string>)
    ensures |r| <= |lines|
    ensures forall i :: 0 <= i < |r| ==> KeptSymbol(r[i])
  {
    if |lines| == 0 then []
    else match LineSymbol(lines[0])
      case Some(s) => [s] + KeptSymbols(lines[1..])
      case None => KeptSymbols(lines[1..])
  }

  /** `_fetch_from_equity_list` after the download: the header is skipped,
      and a response with fewer than two lines, or with no symbol kept, raises. */
  function ParseEquityList(text: string): (r: Result<seq<string>>)
    ensures |Split(Strip(text), '\n')| < 2 ==> r.Err?
    ensures r.Ok? ==> |r.value| > 0 && |r.value| < |Split(Strip(text), '\n')|
    ensures r.Ok? ==> forall i :: 0 <= i < |r.value| ==> KeptSymbol(r.value[i])
  {
    var lines := Split(Strip(text), '\n');
    if |lines| < 2 then Err("Empty or invalid CSV response")
    else
      var symbols := KeptSymbols(lines[1..]);
      if |symbols| == 0 then Err("No symbols found in CSV") else Ok(symbols)
  }

  /** Character set of a symbol the list can carry unchanged on its own line. */
  predicate PlainSymbol(s: string) {
    |s| > 0 && (forall i :: 0 <= i < |s| ==> IsAlnum(s[i]))
  }

  lemma PlainSymbolKept(s: string)
    requires PlainSymbol(s)
    ensures LineSymbol(s) == Some(s)
  {
    assert ',' !in s by {
      forall i | 0 <= i < |s| ensures s[i] != ',' { assert IsAlnum(s[i]); }
    }
    assert Split(s, ',') == [s];
    assert !IsSpace(s[0]) && !IsSpace(s[|s| - 1]);
    StrippedIsStripped(s);
    assert Without(s, '&') == s;
    assert Without(s, '-') == s;
  }

  lemma {:induction false} KeptPlainSymbols(symbols: seq<string>)
    requires forall i :: 0 <= i < |symbols| ==> PlainSymbol(symbols[i])
    ensures KeptSymbols(symbols) == symbols
  {
    if |symbols| > 0 {
      var head, tail := symbols[0], symbols[1..];
      assert symbols == [head] + tail;
      PlainSymbolKept(head);
      assert forall i :: 0 <= i < |tail| ==> PlainSymbol(tail[i]) by {
        forall i | 0 <= i < |tail| ensures PlainSymbol(tail[i]) {
          assert tail[i] == symbols[i + 1];
        }
      }
      KeptPlainSymbols(tail);
    }
  }

  /** A list of alphanumeric symbols under a header parses back to itself. */
  lemma {:induction false} EquityListRoundTrip(header: string, symbols: seq<string>)
    requires PlainSymbol(header) && |symbols| > 0
    requires forall i :: 0 <= i < |symbols| ==> PlainSymbol(symbols[i])
    ensures ParseEquityList(Join([header] + symbols, '\n')) == Ok(symbols)
  {
    var lines := [header] + symbols;
    assert forall i :: 0 <= i < |lines| ==> PlainSymbol(lines[i]);
    forall i | 0 <= i < |lines| ensures '\n' !in lines[i] {
      assert PlainSymbol(lines[i]);
      forall j | 0 <= j < |lines[i]| ensures lines[i][j] != '\n' { assert IsAlnum(lines[i][j]); }
    }
    var text := Join(lines, '\n');
    JoinEnds(lines);
    StrippedIsStripped(text);
    SplitJoin(lines, '\n');
    assert lines[1..] == symbols;
    KeptPlainSymbols(symbols);
  }

  /** A join of plain symbols starts and ends with a plain character. */
  lemma {:induction false} JoinEnds(lines: seq<string>)
    requires |lines| > 0 && forall i :: 0 <= i < |lines| ==> PlainSymbol(lines[i])
    ensures var t := Join(lines, '\n'); |t| > 0 && IsAlnum(t[0]) && IsAlnum(t[|t| - 1])
  {
    if |lines| > 1 {
      JoinEnds(lines[1..]);
      var rest := Join(lines[1..], '\n');
      assert Join(lines, '\n') == lines[0] + ['\n'] + rest;
      assert IsAlnum(lines[0][0]);
    } else {
      assert IsAlnum(lines[0][0]) && IsAlnum(lines[0][|lines[0]| - 1]);
    }
  }

  // -------------------------------------------------------- symbol cache

  const CacheTtlHours := 24.0

  /** What the `last_updated` entry holds: absent, not an ISO timestamp, or
      a time in seconds. */
  datatype Stamp = NoStamp | Malformed | At(seconds: real)

  /** The cache file, `None` when it is missing or not readable JSON. */
  datatype CacheFile = CacheFile(symbols: Option<seq<string>>, lastUpdated: Stamp)

  /** `_load_from_cache(silent, ignore_ttl)` at time `now` (seconds). The
      age is checked unless `ignore_ttl`; an entry exactly 24 hours old is
      still fresh. Reporting the age when not silent parses the stamp again. */
  function LoadFromCache(file: Option<CacheFile>, now: real, silent: bool, ignoreTtl: bool): (r: Option<seq<string>>)
    ensures file.None? || file.value.symbols.None? || file.value.lastUpdated.NoStamp? ==> r.None?
    ensures r.Some? ==> r == file.value.symbols
    ensures r.Some? && !ignoreTtl ==> file.value.lastUpdated.At? && (now - file.value.lastUpdated.seconds) / 3600.0 <= CacheTtlHours
    ensures r.Some? && !silent ==> file.value.lastUpdated.At?
    ensures (file.Some? && file.value.symbols.Some? && file.value.lastUpdated.At? &&
             (ignoreTtl || (now - file.value.lastUpdated.seconds) / 3600.0 <= CacheTtlHours)) ==> r.Some?
    ensures file.Some? && file.value.symbols.Some? && file.value.lastUpdated.Malformed? ==> (r.Some? <==> ignoreTtl && silent)
  {
    match file
    case None => None
    case Some(f) =>
      if f.symbols.None? || f.lastUpdated.NoStamp? then None
      else if !ignoreTtl && (f.lastUpdated.Malformed? || (now - f.lastUpdated.seconds) / 3600.0 > CacheTtlHours) then None
      else if !silent && f.lastUpdated.Malformed? then None
      else f.symbols
  }

  /** An entry exactly 24 hours old is used; one a second older is not. */
  lemma CacheAgeBoundary()
    ensures LoadFromCache(Some(CacheFile(Some(["TCS"]), At(0.0))), 86400.0, true, false) == Some(["TCS"])
    ensures LoadFromCache(Some(CacheFile(Some(["TCS"]), At(0.0))), 86401.0, true, false) == None
    ensures LoadFromCache(Some(CacheFile(Some(["TCS"]), At(0.0))), 86401.0, true, true) == Some(["TCS"])
  {
  }

  /** Where `fetch_all_nse_symbols` got its answer. */
  datatype Source = FreshCache | EquityList | MarketData | StaleCache | NoSource

  /** `fetch_all_nse_symbols`: fresh cache, equity list, market data, then
      (unless refreshing) the cache whatever its age; `[]` when all fail.
      `saved` is what is written back to the cache file. */
  function FetchAllNseSymbols(file: Option<CacheFile>, now: real, silent: bool, forceRefresh: bool,
                              equityList: Result<seq<string>>, marketData: Result<seq<string>>)
    : (r: (seq<string>, Source, Option<seq<string>>))
    ensures r.1 == NoSource <==> r.0 == []
    ensures r.2.Some? <==> r.1 == EquityList || r.1 == MarketData
    ensures r.2.Some? ==> r.2.value == r.0
    ensures forceRefresh ==> r.1 != FreshCache && r.1 != StaleCache
    ensures r.1 == FreshCache ==> Some(r.0) == LoadFromCache(file, now, silent, false)
    ensures r.1 == EquityList ==>
              (equityList == Ok(r.0)
               && (forceRefresh || LoadFromCache(file, now, silent, false).None? || LoadFromCache(file, now, silent, false) == Some([])))
    ensures r.1 == MarketData ==> marketData == Ok(r.0) && (equityList.Err? || equityList == Ok([]))
    ensures r.1 == StaleCache ==>
              (Some(r.0) == LoadFromCache(file, now, silent, true)
               && (equityList.Err? || equityList == Ok([])) && (marketData.Err? || marketData == Ok([])))
    ensures r.1 == NoSource ==> (equityList.Err? || equityList == Ok([])) && (marketData.Err? || marketData == Ok([]))
  {
    var cached := if forceRefresh then None else LoadFromCache(file, now, silent, false);
    if cached.Some? && |cached.value| > 0 then (cached.value, FreshCache, None)
    else if equityList.Ok? && |equityList.value| > 0 then (equityList.value, EquityList, Some(equityList.value))
    else if marketData.Ok? && |marketData.value| > 0 then (marketData.value, MarketData, Some(marketData.value))
    else
      var stale := if forceRefresh then None else LoadFromCache(file, now, silent, true);
      if stale.Some? && |stale.value| > 0 then (stale.value, StaleCache, None)
      else ([], NoSource, None)
  }

  /** Offline, an expired cache is still used unless a refresh was forced. */
  lemma OfflineFallback(file: CacheFile, now: real)
    requires file.symbols.Some? && |file.symbols.value| > 0 && file.lastUpdated.At?
    requires (now - file.lastUpdated.seconds) / 3600.0 > CacheTtlHours
    ensures FetchAllNseSymbols(Some(file), now, true, false, Err("offline"), Err("offline")) ==
            (file.symbols.value, StaleCache, None)
    ensures FetchAllNseSymbols(Some(file), now, true, true, Err("offline"), Err("offline")) == ([], NoSource, None)
  {
  }
}
