/** The async Yahoo Finance fetcher's cache and field normalisation
    (src/data_fetchers/async_yfinance_fetcher.py). The Yahoo calls are
    inputs: `info` is what `Ticker(sym + ".NS").info` yields (`None` when it
    raises), `history` what `Ticker.history(...)` yields. The clock is the
    `now` parameter, in seconds; concurrent requests are taken one after
    another. */
module AsyncYFinanceFetcher {
  import opened Wrappers
  import opened PyValues
  import opened PyStrings
  import Validators

  /** A price table; `closes` are daily closes, `weeklyCloses` their weekly
      resample (computed by pandas, so taken as given). */
  datatype PriceHistory = PriceHistory(closes: seq<real>, weeklyCloses: seq<real>)

  predicate NonEmpty(h: PriceHistory) { |h.closes| > 0 }

  /** What the cache stores under a key. */
  datatype Entry = FundEntry(fundamentals: Fundamentals) | PriceEntry(history: PriceHistory)

  /** `_cache` and `_cache_timestamps`. */
  datatype Cache = Cache(entries: map<string, Entry>, stamps: map<string, real>)

  /** The fetcher's state: its cache, `cache_ttl` and `price_history_days`. */
  datatype Fetcher = Fetcher(cache: Cache, ttl: real, priceHistoryDays: nat)

  const FundPrefix := "fundamentals_"
  const PricePrefix := "price_"

  /** A fresh fetcher with the constructor's defaults: a one-hour TTL and the
      configured 1825 days of history. */
  const DefaultFetcher := Fetcher(Cache(map[], map[]), 3600.0, 1825)

  function FundKey(clean: string): (k: string)
    ensures StartsWith(k, FundPrefix) && !StartsWith(k, PricePrefix)
  {
    var k := FundPrefix + clean;
    assert k[..|FundPrefix|] == FundPrefix;
    assert k[0] == 'f';
    k
  }

  function PriceKey(clean: string, period: string, interval: string): (k: string)
    ensures StartsWith(k, PricePrefix) && !StartsWith(k, FundPrefix)
  {
    var k := PricePrefix + (clean + "_" + period + "_" + interval);
    assert k[..|PricePrefix|] == PricePrefix;
    assert k[0] == 'p';
    k
  }

  /** The cache's own invariant: fundamentals keys hold fundamentals and
      price keys hold price tables, every stored key has one of the two
      prefixes, and every stored key has a timestamp. */
  predicate WellKeyed(c: Cache) {
    && (forall k :: k in c.entries ==> k in c.stamps)
    && (forall k :: k in c.entries ==> (StartsWith(k, FundPrefix) <==> c.entries[k].FundEntry?))
    && (forall k :: k in c.entries ==> (StartsWith(k, PricePrefix) <==> c.entries[k].PriceEntry?))
  }

  /** `_is_cache_valid`: the key is stored with a timestamp younger than the TTL. */
  predicate IsCacheValid(c: Cache, key: string, now: real, ttl: real) {
    key in c.entries && key in c.stamps && now - c.stamps[key] < ttl
  }

  /** An entry is valid right after it is stored exactly when the TTL is positive. */
  lemma FreshEntryValid(c: Cache, key: string, e: Entry, now: real, ttl: real)
    ensures IsCacheValid(Cache(c.entries[key := e], c.stamps[key := now]), key, now, ttl) <==> ttl > 0.0
  {
  }

  function Store(c: Cache, key: string, e: Entry, now: real): (r: Cache)
    requires WellKeyed(c)
    requires StartsWith(key, FundPrefix) <==> e.FundEntry?
    requires StartsWith(key, PricePrefix) <==> e.PriceEntry?
    ensures WellKeyed(r)
    ensures r.entries.Keys == c.entries.Keys + {key}
  {
    Cache(c.entries[key := e], c.stamps[key := now])
  }

  /** `x * 100` for a truthy value: numbers scale (an `int` stays an `int`),
      a string repeats, anything else raises. */
  function TimesHundred(v: Value): (r: Option<Value>)
    ensures AsNumber(v).Some? ==> r.Some? && AsNumber(r.value) == Some(AsNumber(v).value * 100.0)
  {
    match v
    case VBool(b) => Some(VInt(if b then 100 else 0))
    case VInt(i) => Some(VInt(i * 100))
    case VFloat(f) => Some(VFloat(f * 100.0))
    case VStr(s) => Some(VStr(Repeat(s, 100)))
    case _ => None
  }

  function Repeat(s: string, n: nat): (r: string)
    ensures |r| == |s| * n
  {
    if n == 0 then "" else s + Repeat(s, n - 1)
  }

  /** `x / d` (true division) for a number; anything else raises. */
  function DividedBy(v: Value, d: real): (r: Option<Value>)
    requires d != 0.0
    ensures r.Some? <==> AsNumber(v).Some?
    ensures r.Some? ==> r.value == VFloat(AsNumber(v).value / d)
  {
    match AsNumber(v)
    case Some(x) => Some(VFloat(x / d))
    case None => None
  }

  /** `x op if x else 0`: a falsy or missing value becomes 0; `None` when the
      operation raises, which makes the whole normalisation fail. */
  function ScaledOrZero(info: Dict, key: string, op: Value -> Option<Value>): (r: Option<Value>)
    ensures (key !in info || !Truthy(info[key])) ==> r == Some(VInt(0))
    ensures key in info && Truthy(info[key]) ==> r == op(info[key])
  {
    if key in info && Truthy(info[key]) then op(info[key]) else Some(VInt(0))
  }

  /** The dictionary `_fetch_fundamentals_sync` builds, field by field. */
  datatype Fundamentals = Fundamentals(
    symbol: string, companyName: Value, marketCap: Value, peRatio: Value, pbRatio: Value,
    roe: Value, debtToEquity: Value, beta: Value, sector: Value, industry: Value, currentPrice: Value)

  /** The same record as the dictionary the analyzers read. */
  function ToDict(x: Fundamentals): (d: Dict)
    ensures |d| > 0
    ensures "pe_ratio" in d && d["pe_ratio"] == x.peRatio
    ensures "roe" in d && d["roe"] == x.roe
    ensures "debt_to_equity" in d && d["debt_to_equity"] == x.debtToEquity
    ensures "pb_ratio" in d && d["pb_ratio"] == x.pbRatio
    ensures "market_cap" in d && d["market_cap"] == x.marketCap
    ensures "sector" in d && d["sector"] == x.sector
    ensures "company_name" in d && d["company_name"] == x.companyName
  {
    map["symbol" := VStr(x.symbol), "company_name" := x.companyName, "market_cap" := x.marketCap,
        "pe_ratio" := x.peRatio, "pb_ratio" := x.pbRatio, "roe" := x.roe,
        "debt_to_equity" := x.debtToEquity, "beta" := x.beta, "sector" := x.sector,
        "industry" := x.industry, "current_price" := x.currentPrice]
  }

  /** `_fetch_fundamentals_sync` after the Yahoo call: nothing without a
      `symbol` entry; market cap in crores (÷ 1e7), ROE in percent (× 100),
      debt-to-equity as a ratio (÷ 100), each 0 when missing or falsy; the
      company name falls back from `longName` to `shortName` to the symbol.
      A scaling that raises makes the whole call return `None`. */
  function NormalizeFundamentals(clean: string, info: Option<Dict>): (r: Option<Fundamentals>)
    ensures info.None? || "symbol" !in info.value ==> r.None?
    ensures r.Some? ==>
              var i := info.value;
              && r.value.symbol == clean
              && r.value.peRatio == Get(i, "trailingPE", VInt(0))
              && r.value.pbRatio == Get(i, "priceToBook", VInt(0))
              && r.value.beta == Get(i, "beta", VInt(1))
              && r.value.sector == Get(i, "sector", VStr("N/A"))
              && r.value.industry == Get(i, "industry", VStr("N/A"))
              && r.value.companyName == Get(i, "longName", Get(i, "shortName", VStr(clean)))
              && Some(r.value.marketCap) == ScaledOrZero(i, "marketCap", v => DividedBy(v, 10000000.0))
              && Some(r.value.roe) == ScaledOrZero(i, "returnOnEquity", TimesHundred)
              && Some(r.value.debtToEquity) == ScaledOrZero(i, "debtToEquity", v => DividedBy(v, 100.0))
    ensures info.Some? && "symbol" in info.value ==>
              var i := info.value;
              (r.Some? <==> ScaledOrZero(i, "marketCap", v => DividedBy(v, 10000000.0)).Some?
                            && ScaledOrZero(i, "returnOnEquity", TimesHundred).Some?
                            && ScaledOrZero(i, "debtToEquity", v => DividedBy(v, 100.0)).Some?)
  {
    match info
    case None => None
    case Some(i) =>
      if "symbol" !in i then None
      else
        var mc := ScaledOrZero(i, "marketCap", v => DividedBy(v, 10000000.0));
        var roe := ScaledOrZero(i, "returnOnEquity", TimesHundred);
        var de := ScaledOrZero(i, "debtToEquity", v => DividedBy(v, 100.0));
        if mc.None? || roe.None? || de.None? then None
        else Some(Fundamentals(
          clean,
          Get(i, "longName", Get(i, "shortName", VStr(clean))),
          mc.value,
          Get(i, "trailingPE", VInt(0)),
          Get(i, "priceToBook", VInt(0)),
          roe.value,
          de.value,
          Get(i, "beta", VInt(1)),
          Get(i, "sector", VStr("N/A")),
          Get(i, "industry", VStr("N/A")),
          Get(i, "currentPrice", Get(i, "regularMarketPrice", VInt(0)))))
  }

  /** Numeric scale fields never make the normalisation fail; missing ones read as 0. */
  lemma NumericInfoNormalizes(clean: string, i: Dict)
    requires "symbol" in i
    requires forall k :: k in ["marketCap", "returnOnEquity", "debtToEquity"] && k in i ==> AsNumber(i[k]).Some?
    ensures NormalizeFundamentals(clean, Some(i)).Some?
    ensures "returnOnEquity" !in i ==> NormalizeFundamentals(clean, Some(i)).value.roe == VInt(0)
  {
    assert "marketCap" in ["marketCap", "returnOnEquity", "debtToEquity"];
    assert "returnOnEquity" in ["marketCap", "returnOnEquity", "debtToEquity"];
    assert "debtToEquity" in ["marketCap", "returnOnEquity", "debtToEquity"];
  }

  /** A worked normalisation: a market cap of 2e11 rupees is 20000 crores,
      an ROE of 0.18 is 18 percent and a D/E of 45 is 0.45. */
  lemma NormalizeExample()
    ensures var r := NormalizeFundamentals("INFY", Some(map["symbol" := VStr("INFY.NS"),
                                                           "marketCap" := VInt(200000000000),
                                                           "returnOnEquity" := VFloat(0.18),
                                                           "debtToEquity" := VFloat(45.0)]));
            r.Some? && r.value.marketCap == VFloat(20000.0) && r.value.roe == VFloat(18.0)
            && r.value.debtToEquity == VFloat(0.45) && r.value.companyName == VStr("INFY")
  {
    var i := map["symbol" := VStr("INFY.NS"), "marketCap" := VInt(200000000000),
                 "returnOnEquity" := VFloat(0.18), "debtToEquity" := VFloat(45.0)];
    assert "longName" !in i && "shortName" !in i;
    assert ScaledOrZero(i, "marketCap", v => DividedBy(v, 10000000.0)) == Some(VFloat(20000.0));
    assert ScaledOrZero(i, "returnOnEquity", TimesHundred) == Some(VFloat(18.0));
    assert ScaledOrZero(i, "debtToEquity", v => DividedBy(v, 100.0)) == Some(VFloat(0.45));
  }

  /** The result of one cached fetch: the value, the fetcher afterwards, and
      how many times the Yahoo call was made. */
  datatype FundFetch = FundFetch(result: Option<Fundamentals>, fetcher: Fetcher, calls: nat)

  /** `fetch_fundamentals`: an invalid symbol is refused before the cache is
      consulted; a valid cache entry is returned without calling Yahoo;
      otherwise Yahoo is called once and a truthy result is stored. */
  function FetchFundamentals(f: Fetcher, symbol: string, now: real, info: string -> Option<Dict>): (r: FundFetch)
    requires WellKeyed(f.cache)
    ensures WellKeyed(r.fetcher.cache)
    ensures r.fetcher.ttl == f.ttl && r.fetcher.priceHistoryDays == f.priceHistoryDays
    ensures Validators.SanitizeSymbol(symbol).None? ==> r == FundFetch(None, f, 0)
    ensures Validators.SanitizeSymbol(symbol).Some? ==>
              var clean := Validators.SanitizeSymbol(symbol).value;
              var key := FundKey(clean);
              && (IsCacheValid(f.cache, key, now, f.ttl) ==>
                    r == FundFetch(Some(f.cache.entries[key].fundamentals), f, 0))
              && (!IsCacheValid(f.cache, key, now, f.ttl) ==>
                    && r.calls == 1
                    && r.result == NormalizeFundamentals(clean, info(clean))
                    && (r.result.None? ==> r.fetcher == f)
                    && (r.result.Some? ==> r.fetcher.cache.entries == f.cache.entries[key := FundEntry(r.result.value)]
                                           && r.fetcher.cache.stamps == f.cache.stamps[key := now]))
  {
    match Validators.SanitizeSymbol(symbol)
    case None => FundFetch(None, f, 0)
    case Some(clean) =>
      var key := FundKey(clean);
      if IsCacheValid(f.cache, key, now, f.ttl) then
        FundFetch(Some(f.cache.entries[key].fundamentals), f, 0)
      else
        var fundamentals := NormalizeFundamentals(clean, info(clean));
        match fundamentals
        case Some(d) => FundFetch(fundamentals, f.(cache := Store(f.cache, key, FundEntry(d), now)), 1)
        case None => FundFetch(None, f, 1)
  }

  /** Every stored fundamentals entry is what Yahoo's answer normalises to. */
  ghost predicate FundamentalsCoherent(c: Cache, info: string -> Option<Dict>) {
    forall clean :: FundKey(clean) in c.entries && c.entries[FundKey(clean)].FundEntry? ==>
      Some(c.entries[FundKey(clean)].fundamentals) == NormalizeFundamentals(clean, info(clean))
  }

  lemma FundKeyInjective(a: string, b: string)
    ensures FundKey(a) == FundKey(b) ==> a == b
  {
    if FundKey(a) == FundKey(b) {
      assert a == FundKey(a)[|FundPrefix|..];
      assert b == FundKey(b)[|FundPrefix|..];
    }
  }

  /** The cache is transparent: over a coherent cache, a fetch returns what a
      direct call would, and the cache stays coherent. */
  lemma {:induction false} FundamentalsCacheTransparent(f: Fetcher, symbol: string, now: real, info: string -> Option<Dict>)
    requires WellKeyed(f.cache)
    ensures FundamentalsCoherent(f.cache, info) ==>
            var r := FetchFundamentals(f, symbol, now, info);
            && FundamentalsCoherent(r.fetcher.cache, info)
            && (Validators.SanitizeSymbol(symbol).Some? ==>
                  r.result == NormalizeFundamentals(Validators.SanitizeSymbol(symbol).value,
                                                    info(Validators.SanitizeSymbol(symbol).value)))
  {
    var r := FetchFundamentals(f, symbol, now, info);
    if FundamentalsCoherent(f.cache, info) && Validators.SanitizeSymbol(symbol).Some? {
      var clean := Validators.SanitizeSymbol(symbol).value;
      var key := FundKey(clean);
      if !IsCacheValid(f.cache, key, now, f.ttl) && r.result.Some? {
        CoherentAfterStore(f.cache, info, clean, r.result.value, r.fetcher.cache);
      }
    }
  }

  /** Storing what Yahoo's answer normalises to keeps a coherent cache coherent. */
  lemma CoherentAfterStore(c: Cache, info: string -> Option<Dict>, clean: string, d: Fundamentals, c2: Cache)
    requires FundamentalsCoherent(c, info)
    requires Some(d) == NormalizeFundamentals(clean, info(clean))
    requires c2.entries == c.entries[FundKey(clean) := FundEntry(d)]
    ensures FundamentalsCoherent(c2, info)
  {
    forall other | FundKey(other) in c2.entries && c2.entries[FundKey(other)].FundEntry?
      ensures Some(c2.entries[FundKey(other)].fundamentals) == NormalizeFundamentals(other, info(other))
    {
      FundKeyInjective(other, clean);
    }
  }

  /** A second fetch within the TTL is served from the cache. */
  lemma SecondFundamentalsFetchIsHit(f: Fetcher, symbol: string, now: real, later: real, info: string -> Option<Dict>)
    requires WellKeyed(f.cache)
    requires now <= later < now + f.ttl
    requires FetchFundamentals(f, symbol, now, info).result.Some?
    requires FetchFundamentals(f, symbol, now, info).calls == 1
    ensures var first := FetchFundamentals(f, symbol, now, info);
            var second := FetchFundamentals(first.fetcher, symbol, later, info);
            second.calls == 0 && second.result == first.result && second.fetcher == first.fetcher
  {
  }

  datatype PriceFetch = PriceFetch(result: Option<PriceHistory>, fetcher: Fetcher, calls: nat)

  /** The period used when none is given: `"{price_history_days}d"`. */
  function DefaultPeriod(f: Fetcher): (p: string)
    ensures |p| >= 2 && p[|p| - 1] == 'd' && AllDigits(p[..|p| - 1])
    ensures DigitsValue(p[..|p| - 1]) == f.priceHistoryDays
  {
    var digits := NatToString(f.priceHistoryDays);
    NatToStringRoundTrip(f.priceHistoryDays);
    assert (digits + "d")[..|digits|] == digits;
    digits + "d"
  }

  /** `fetch_price_history`: like the fundamentals fetch, but keyed by symbol,
      period and interval, and only a non-empty table is stored or returned. */
  function FetchPriceHistory(f: Fetcher, symbol: string, period: Option<string>, interval: string, now: real,
                             history: (string, string, string) -> Option<PriceHistory>): (r: PriceFetch)
    requires WellKeyed(f.cache)
    ensures WellKeyed(r.fetcher.cache)
    ensures r.fetcher.ttl == f.ttl && r.fetcher.priceHistoryDays == f.priceHistoryDays
    ensures r.result.Some? ==> NonEmpty(r.result.value) || r.calls == 0
    ensures Validators.SanitizeSymbol(symbol).None? ==> r == PriceFetch(None, f, 0)
    ensures Validators.SanitizeSymbol(symbol).Some? ==>
              var clean := Validators.SanitizeSymbol(symbol).value;
              var p := period.GetOr(DefaultPeriod(f));
              var key := PriceKey(clean, p, interval);
              && (IsCacheValid(f.cache, key, now, f.ttl) ==>
                    r == PriceFetch(Some(f.cache.entries[key].history), f, 0))
              && (!IsCacheValid(f.cache, key, now, f.ttl) ==>
                    && r.calls == 1
                    && (r.result.Some? <==> history(clean, p, interval).Some? && NonEmpty(history(clean, p, interval).value))
                    && (r.result.Some? ==> r.result == history(clean, p, interval)
                                           && r.fetcher.cache.entries == f.cache.entries[key := PriceEntry(r.result.value)])
                    && (r.result.None? ==> r.fetcher == f))
  {
    match Validators.SanitizeSymbol(symbol)
    case None => PriceFetch(None, f, 0)
    case Some(clean) =>
      var p := period.GetOr(DefaultPeriod(f));
      var key := PriceKey(clean, p, interval);
      if IsCacheValid(f.cache, key, now, f.ttl) then
        PriceFetch(Some(f.cache.entries[key].history), f, 0)
      else
        match history(clean, p, interval)
        case Some(h) =>
          if NonEmpty(h) then PriceFetch(Some(h), f.(cache := Store(f.cache, key, PriceEntry(h), now)), 1)
          else PriceFetch(None, f, 1)
        case None => PriceFetch(None, f, 1)
  }

  /** An empty price table is never stored or returned. */
  lemma EmptyHistoryNotCached(f: Fetcher, symbol: string, period: Option<string>, interval: string, now: real,
                              history: (string, string, string) -> Option<PriceHistory>)
    requires WellKeyed(f.cache)
    requires forall c, p, i :: history(c, p, i).Some? ==> !NonEmpty(history(c, p, i).value)
    ensures var r := FetchPriceHistory(f, symbol, period, interval, now, history);
            r.fetcher == f && (r.calls == 1 ==> r.result.None?)
  {
  }

  /** `fetch_complete_data`: both fetches for one symbol. */
  datatype Complete = Complete(fundamentals: Option<Fundamentals>, priceHistory: Option<PriceHistory>)

  function FetchCompleteData(f: Fetcher, symbol: string, now: real, info: string -> Option<Dict>,
                             history: (string, string, string) -> Option<PriceHistory>): (r: (Complete, Fetcher))
    requires WellKeyed(f.cache)
    ensures WellKeyed(r.1.cache)
    ensures Validators.SanitizeSymbol(symbol).None? ==> r == (Complete(None, None), f)
    ensures FundamentalsCoherent(f.cache, info) && Validators.SanitizeSymbol(symbol).Some? ==>
              r.0.fundamentals == NormalizeFundamentals(Validators.SanitizeSymbol(symbol).value,
                                                        info(Validators.SanitizeSymbol(symbol).value))
  {
    FundamentalsCacheTransparent(f, symbol, now, info);
    var a := FetchFundamentals(f, symbol, now, info);
    var b := FetchPriceHistory(a.fetcher, symbol, None, "1d", now, history);
    (Complete(a.result, b.result), b.fetcher)
  }

  /** `fetch_fundamentals_batch`: a map from each input symbol to its result;
      for a repeated symbol the last fetch wins. */
  function FetchFundamentalsBatch(f: Fetcher, symbols: seq<string>, now: real, info: string -> Option<Dict>):
    (r: (map<string, Option<Fundamentals>>, Fetcher))
    requires WellKeyed(f.cache)
    ensures WellKeyed(r.1.cache)
    ensures r.0.Keys == SymbolSet(symbols)
    ensures forall s :: s in r.0 && Validators.SanitizeSymbol(s).None? ==> r.0[s].None?
    decreases |symbols|
  {
    if |symbols| == 0 then (map[], f)
    else
      var last := symbols[|symbols| - 1];
      var prefix := FetchFundamentalsBatch(f, symbols[..|symbols| - 1], now, info);
      var one := FetchFundamentals(prefix.1, last, now, info);
      var m := prefix.0[last := one.result];
      SnocEntry(prefix.0, symbols, one.result, None, m);
      (m, one.fetcher)
  }

  /** The symbols of a list, as a set. */
  function SymbolSet(symbols: seq<string>): (r: set<string>)
    ensures forall s :: s in r <==> s in symbols
  {
    set s | s in symbols
  }

  lemma SymbolSetSnoc(front: seq<string>, last: string)
    ensures SymbolSet(front + [last]) == SymbolSet(front) + {last}
  {
    forall s ensures s in front + [last] <==> s in front || s == last {
    }
  }

  /** Adding the last symbol's result to the map built from the others: the
      keys become the whole list, and an invalid symbol still maps to `none`. */
  lemma SnocEntry<V>(m: map<string, V>, symbols: seq<string>, v: V, none: V, m2: map<string, V>)
    requires |symbols| > 0 && m2 == m[symbols[|symbols| - 1] := v]
    requires m.Keys == SymbolSet(symbols[..|symbols| - 1])
    requires forall s {:trigger m[s]} :: s in m && Validators.SanitizeSymbol(s).None? ==> m[s] == none
    requires Validators.SanitizeSymbol(symbols[|symbols| - 1]).None? ==> v == none
    ensures m2.Keys == SymbolSet(symbols)
    ensures forall s :: s in m2 && Validators.SanitizeSymbol(s).None? ==> m2[s] == none
  {
    var front, last := symbols[..|symbols| - 1], symbols[|symbols| - 1];
    assert symbols == front + [last];
    SymbolSetSnoc(front, last);
    assert m2.Keys == m.Keys + {last};
    forall s | s in m2 && Validators.SanitizeSymbol(s).None?
      ensures m2[s] == none
    {
      if s != last {
        assert m2[s] == m[s];
      }
    }
  }

  /** Over a coherent cache the batch returns, for every valid symbol, what
      Yahoo's answer normalises to, and leaves the cache coherent. */
  lemma {:induction false} FundamentalsBatchTransparent(f: Fetcher, symbols: seq<string>, now: real,
                                                        info: string -> Option<Dict>)
    requires WellKeyed(f.cache) && FundamentalsCoherent(f.cache, info)
    ensures var r := FetchFundamentalsBatch(f, symbols, now, info);
            && FundamentalsCoherent(r.1.cache, info)
            && forall s :: s in r.0 && Validators.SanitizeSymbol(s).Some? ==>
                 r.0[s] == NormalizeFundamentals(Validators.SanitizeSymbol(s).value,
                                                 info(Validators.SanitizeSymbol(s).value))
    decreases |symbols|
  {
    if |symbols| > 0 {
      var last := symbols[|symbols| - 1];
      var prefix := FetchFundamentalsBatch(f, symbols[..|symbols| - 1], now, info);
      FundamentalsBatchTransparent(f, symbols[..|symbols| - 1], now, info);
      FundamentalsCacheTransparent(prefix.1, last, now, info);
    }
  }

  /** `fetch_price_history_batch`, with the same shape as the fundamentals batch. */
  function FetchPriceHistoryBatch(f: Fetcher, symbols: seq<string>, period: string, interval: string, now: real,
                                  history: (string, string, string) -> Option<PriceHistory>):
    (r: (map<string, Option<PriceHistory>>, Fetcher))
    requires WellKeyed(f.cache)
    ensures WellKeyed(r.1.cache)
    ensures r.0.Keys == SymbolSet(symbols)
    ensures forall s :: s in r.0 && Validators.SanitizeSymbol(s).None? ==> r.0[s].None?
    decreases |symbols|
  {
    if |symbols| == 0 then (map[], f)
    else
      var last := symbols[|symbols| - 1];
      var prefix := FetchPriceHistoryBatch(f, symbols[..|symbols| - 1], period, interval, now, history);
      var one := FetchPriceHistory(prefix.1, last, Some(period), interval, now, history);
      var m := prefix.0[last := one.result];
      SnocEntry(prefix.0, symbols, one.result, None, m);
      (m, one.fetcher)
  }

  /** `fetch_complete_data_batch`: every input symbol maps to both its results. */
  function FetchCompleteDataBatch(f: Fetcher, symbols: seq<string>, now: real, info: string -> Option<Dict>,
                                  history: (string, string, string) -> Option<PriceHistory>):
    (r: (map<string, Complete>, Fetcher))
    requires WellKeyed(f.cache)
    ensures WellKeyed(r.1.cache)
    ensures r.0.Keys == SymbolSet(symbols)
    ensures forall s :: s in r.0 && Validators.SanitizeSymbol(s).None? ==> r.0[s] == Complete(None, None)
    decreases |symbols|
  {
    if |symbols| == 0 then (map[], f)
    else
      var last := symbols[|symbols| - 1];
      var prefix := FetchCompleteDataBatch(f, symbols[..|symbols| - 1], now, info, history);
      var one := FetchCompleteData(prefix.1, last, now, info, history);
      var m := prefix.0[last := one.0];
      SnocEntry(prefix.0, symbols, one.0, Complete(None, None), m);
      (m, one.1)
  }

  /** `clear_cache`: nothing is valid afterwards. */
  function ClearCache(f: Fetcher): (r: Fetcher)
    ensures WellKeyed(r.cache) && |r.cache.entries| == 0 && |r.cache.stamps| == 0
    ensures forall key, now :: !IsCacheValid(r.cache, key, now, r.ttl)
    ensures r.ttl == f.ttl && r.priceHistoryDays == f.priceHistoryDays
  {
    f.(cache := Cache(map[], map[]))
  }

  datatype CacheStats = CacheStats(totalItems: nat, fundamentals: nat, priceHistory: nat)

  /** The cached keys that start with `prefix`. */
  function KeysWith(c: Cache, prefix: string): (r: set<string>)
    ensures forall k :: k in r <==> k in c.entries && StartsWith(k, prefix)
  {
    set k | k in c.entries && StartsWith(k, prefix)
  }

  /** `get_cache_stats`: the number of entries, of keys starting with
      `fundamentals_` and of keys starting with `price_`. In a well-keyed
      cache these are the fundamentals and the price entries, and the two
      add up to the total. */
  function GetCacheStats(c: Cache): (r: CacheStats)
    requires WellKeyed(c)
    ensures r.totalItems == |c.entries|
    ensures r.fundamentals == |KeysWith(c, FundPrefix)| && r.priceHistory == |KeysWith(c, PricePrefix)|
    ensures r.fundamentals == |set k | k in c.entries && c.entries[k].FundEntry?|
    ensures r.fundamentals + r.priceHistory == r.totalItems
  {
    var fund := KeysWith(c, FundPrefix);
    var price := KeysWith(c, PricePrefix);
    assert fund == set k | k in c.entries && c.entries[k].FundEntry?;
    assert fund * price == {};
    assert fund + price == c.entries.Keys;
    CardUnion(fund, price);
    CacheStats(|c.entries|, |fund|, |price|)
  }

  lemma {:induction false} CardUnion(a: set<string>, b: set<string>)
    requires a * b == {}
    ensures |a + b| == |a| + |b|
    decreases |a|
  {
    if a != {} {
      var x :| x in a;
      assert (a - {x}) + b == (a + b) - {x};
      CardUnion(a - {x}, b);
    } else {
      assert a + b == b;
    }
  }
}
