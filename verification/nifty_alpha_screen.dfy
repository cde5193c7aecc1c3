/** The alpha screen of nifty_alpha_screen.py: per-stock momentum figures,
    the three filters, min-max normalised composite scores, the top-n
    selection, and the drawdown and win-rate figures of a value series.
    A float that pandas or NumPy would make NaN is `None` here. */
module NiftyAlphaScreen {
  import opened Wrappers
  import Stats
  import Ranking
  import SS = StockScreener

  // ------------------------------------------------------------- metrics

  /** Trading days in a year and in a month. */
  const LookbackDays := 252
  const MonthDays := 21

  /** The highs of `df.tail(252)`. */
  function TailHighs(bars: seq<SS.Bar>): (r: seq<real>)
    ensures |r| == if |bars| < LookbackDays then |bars| else LookbackDays
    ensures forall k :: 0 <= k < |r| ==> r[k] == bars[|bars| - |r| + k].high
  {
    var n := if |bars| < LookbackDays then |bars| else LookbackDays;
    seq(n, k requires 0 <= k < n => bars[|bars| - n + k].high)
  }

  /** `calculate_retracement_from_52w_high(df)`: how far, in percent, the last
      close sits below the highest high of the last 252 rows. No data gives
      NaN. A zero high gives NaN in Python when the last close is zero too
      and an infinity otherwise; both are `None` here. */
  function Retracement52W(df: Option<seq<SS.Bar>>): (r: Option<real>)
    ensures r.Some? <==> df.Some? && |df.value| > 0 && Stats.Max(TailHighs(df.value)) != 0.0
    ensures r.Some? ==>
              r.value == -Stats.PercentChange(Stats.Max(TailHighs(df.value)), df.value[|df.value| - 1].close)
  {
    if df.None? || |df.value| == 0 then None
    else
      var high := Stats.Max(TailHighs(df.value));
      var price := df.value[|df.value| - 1].close;
      if high == 0.0 then None
      else
        var d := (high - price) / high;
        assert d * high == high - price;
        assert (price - high) / high * high == price - high;
        Some(d * 100.0)
  }

  /** Rows whose high is at least the close and whose close is not negative. */
  predicate WellFormed(bars: seq<SS.Bar>) {
    forall i :: 0 <= i < |bars| ==> 0.0 <= bars[i].close <= bars[i].high
  }

  /** With well-formed rows, the retracement is a percentage in [0, 100]. */
  lemma RetracementIsPercentage(bars: seq<SS.Bar>)
    requires WellFormed(bars)
    ensures Retracement52W(Some(bars)).Some? ==> 0.0 <= Retracement52W(Some(bars)).value <= 100.0
  {
    if Retracement52W(Some(bars)).Some? {
      var highs := TailHighs(bars);
      var high := Stats.Max(highs);
      var price := bars[|bars| - 1].close;
      assert highs[|highs| - 1] == bars[|bars| - 1].high;
      assert 0.0 <= price <= high;
      Stats.PercentChangeThreshold(high, price, 0.0);
      Stats.PercentChangeThreshold(high, price, -100.0);
    }
  }

  /** With a year of positive rows this is the stock screener's retracement
      with the sign turned: both take the same 252-day high. */
  lemma RetracementMirrorsScreener(bars: seq<SS.Bar>)
    requires |bars| >= SS.YearDays && SS.PositiveBars(bars)
    ensures Retracement52W(Some(bars)) == Some(-SS.Retracement(Some(bars)).value)
  {
    var highs := TailHighs(bars);
    var m := Stats.Max(highs);
    var h := SS.High52(bars);
    var k :| 0 <= k < |highs| && highs[k] == m;
    assert bars[|bars| - LookbackDays + k].high == m;
    var j :| |bars| - SS.YearDays <= j < |bars| && bars[j].high == h;
    assert highs[j - (|bars| - LookbackDays)] == h;
  }

  /** The row `iloc[-days]` reads: from the end, except that `iloc[-0]` is the first row. */
  function StartIndex(n: nat, days: nat): (i: nat)
    requires 0 < n && days <= n
    ensures i < n
    ensures days > 0 ==> i == n - days
  {
    if days == 0 then 0 else n - days
  }

  /** `calculate_returns(df, months)`: the percentage change of the close
      over `months * 21` rows; NaN (`None`) without data or with too few
      rows. From a zero starting close Python gives NaN when the last close
      is zero too and an infinity otherwise; both are `None` here. */
  function Returns(df: Option<seq<SS.Bar>>, months: nat): (r: Option<real>)
    ensures r.Some? <==> && df.Some? && |df.value| > 0 && |df.value| >= months * MonthDays
                         && df.value[StartIndex(|df.value|, months * MonthDays)].close != 0.0
    ensures r.Some? ==> r.value == Stats.PercentChange(df.value[StartIndex(|df.value|, months * MonthDays)].close,
                                                       df.value[|df.value| - 1].close)
  {
    if df.None? || |df.value| == 0 then None
    else
      var days := months * MonthDays;
      if |df.value| < days then None
      else
        match Ranking.PyAt(df.value, -days)
        case Some(start) =>
          if start.close == 0.0 then None
          else Some((df.value[|df.value| - 1].close - start.close) / start.close * 100.0)
        case None => None
  }

  /** `calculate_volatility_adjusted_return`: the return over the volatility,
      NaN when either is NaN or the volatility is zero. */
  function VolAdjustedReturn(ret: Option<real>, vol: Option<real>): (r: Option<real>)
    ensures r.Some? <==> ret.Some? && vol.Some? && vol.value != 0.0
    ensures r.Some? ==> r.value * vol.value == ret.value
  {
    if ret.None? || vol.None? || vol.value == 0.0 then None
    else Some(ret.value / vol.value)
  }

  /** Over a positive volatility the adjusted return keeps the return's sign. */
  lemma VolAdjustedSign(ret: real, vol: real)
    requires vol > 0.0
    ensures VolAdjustedReturn(Some(ret), Some(vol)).value > 0.0 <==> ret > 0.0
  {
    var q := ret / vol;
    assert q * vol == ret;
    if q > 0.0 {
      Stats.MulStrict(vol, 0.0, q);
    } else if q < 0.0 {
      Stats.MulStrict(vol, q, 0.0);
    }
  }

  /** `calculate_relative_strength`: the stock's return minus the index's,
      NaN when either is NaN. */
  function RelativeStrength(stock: Option<seq<SS.Bar>>, index: Option<seq<SS.Bar>>, months: nat): (r: Option<real>)
    ensures r.Some? <==> Returns(stock, months).Some? && Returns(index, months).Some?
    ensures r.Some? ==> r.value + Returns(index, months).value == Returns(stock, months).value
    ensures r.Some? ==> (r.value > 0.0 <==> Returns(stock, months).value > Returns(index, months).value)
  {
    var s := Returns(stock, months);
    var i := Returns(index, months);
    if s.None? || i.None? then None else Some(s.value - i.value)
  }

  // ----------------------------------------------------------- filtering

  /** One row of the metrics table (the columns the filters and the score read). */
  datatype Row = Row(symbol: string, retracement: Option<real>, return6m: Option<real>, volAdj: Option<real>,
                     relStrength: Option<real>)

  /** `df[mask]`: the rows that satisfy `keep`, in order. */
  function Where<T(==,!new)>(rows: seq<T>, keep: T -> bool): (r: seq<T>)
    ensures |r| <= |rows|
    ensures multiset(r) <= multiset(rows)
    ensures forall row :: row in r <==> row in rows && keep(row)
    ensures forall i :: 0 <= i < |r| ==> keep(r[i])
  {
    if |rows| == 0 then []
    else
      var rest := Where(rows[1..], keep);
      assert rows == [rows[0]] + rows[1..];
      if keep(rows[0]) then [rows[0]] + rest else rest
  }

  /** Filtering a sequence with a known first element. */
  lemma WhereCons<T(!new)>(h: T, t: seq<T>, keep: T -> bool)
    ensures Where([h] + t, keep) == (if keep(h) then [h] else []) + Where(t, keep)
  {
    var s := [h] + t;
    assert s[0] == h && s[1..] == t;
  }

  /** `x <= 30`, false for NaN. */
  predicate NearHigh(row: Row) {
    row.retracement.Some? && row.retracement.value <= 30.0
  }

  /** `x > 0`, false for NaN. */
  predicate BeatsIndex(row: Row) {
    row.relStrength.Some? && row.relStrength.value > 0.0
  }

  /** The known values of a column (pandas skips NaN in `min`, `max`, `quantile`). */
  function Known(col: seq<Option<real>>): (r: seq<real>)
    ensures |r| <= |col|
    ensures forall i :: 0 <= i < |col| && col[i].Some? ==> col[i].value in r
    ensures forall x :: x in r ==> exists i :: 0 <= i < |col| && col[i] == Some(x)
  {
    if |col| == 0 then []
    else
      var rest := Known(col[1..]);
      assert forall i :: 1 <= i < |col| ==> col[i] == col[1..][i - 1];
      match col[0]
      case Some(x) => [x] + rest
      case None => rest
  }

  function Id(x: real): real {
    x
  }

  /** `Series.quantile(0.5)` with linear interpolation: the middle of the
      sorted values, or the mean of the middle two; NaN for no values. The
      upper half of the sorted values reaches it and the lower half does not
      pass it. */
  function Median(vals: seq<real>): (r: Option<real>)
    ensures r.None? <==> |vals| == 0
    ensures r.Some? ==> var sorted := Ranking.SortDescBy(vals, Id);
              && (forall i :: 0 <= i < (|vals| + 1) / 2 ==> sorted[i] >= r.value)
              && (forall i :: |vals| / 2 <= i < |vals| ==> sorted[i] <= r.value)
  {
    if |vals| == 0 then None
    else
      var w := Ranking.SortDescBy(vals, Id);
      MiddleBounds(w);
      Some(Middle(w))
  }

  /** The middle element of an odd-length sequence, or the mean of the middle two. */
  function Middle(w: seq<real>): real
    requires |w| > 0
  {
    var m := |w|;
    if m % 2 == 1 then w[(m - 1) / 2] else (w[m / 2 - 1] + w[m / 2]) / 2.0
  }

  /** In a descending sequence the first half reaches the middle and the second half does not pass it. */
  lemma MiddleBounds(w: seq<real>)
    requires |w| > 0 && Ranking.SortedDescBy(w, Id)
    ensures forall i :: 0 <= i < (|w| + 1) / 2 ==> w[i] >= Middle(w)
    ensures forall i :: |w| / 2 <= i < |w| ==> w[i] <= Middle(w)
  {
    var m := |w|;
    var v := Middle(w);
    assert forall i, j :: 0 <= i < j < m ==> w[i] >= w[j];
    if m % 2 == 1 {
      var k := (m - 1) / 2;
      assert v == w[k];
      assert (m + 1) / 2 == k + 1 && m / 2 == k;
    } else {
      var lo, hi := w[m / 2 - 1], w[m / 2];
      assert v == (lo + hi) / 2.0;
      assert lo >= hi;
      assert hi <= v <= lo;
      assert (m + 1) / 2 == m / 2;
      forall i | 0 <= i < m / 2 ensures w[i] >= v {
        assert w[i] >= lo;
      }
      forall i | m / 2 <= i < m ensures w[i] <= v {
        assert w[i] <= hi;
      }
    }
  }

  /** The 6-month returns of the rows. */
  function ReturnColumn(rows: seq<Row>): (r: seq<Option<real>>)
    ensures |r| == |rows|
    ensures forall i :: 0 <= i < |rows| ==> r[i] == rows[i].return6m
  {
    seq(|rows|, i requires 0 <= i < |rows| => rows[i].return6m)
  }

  /** The return filter's cut: the median 6-month return of the rows near their high. */
  function ReturnThreshold(rows: seq<Row>): Option<real> {
    Median(Known(ReturnColumn(Where(rows, NearHigh))))
  }

  /** `Return_6M >= threshold`, false for NaN on either side. */
  predicate InTopHalf(row: Row, threshold: Option<real>) {
    threshold.Some? && row.return6m.Some? && row.return6m.value >= threshold.value
  }

  /** `apply_filters(df)`: retracement at most 30%, then 6-month return at
      least the median of what is left, then positive relative strength;
      each later filter runs only on a non-empty table. */
  function ApplyFilters(rows: seq<Row>): (r: seq<Row>)
    ensures multiset(r) <= multiset(rows)
    ensures forall row :: row in r <==>
              row in rows && NearHigh(row) && InTopHalf(row, ReturnThreshold(rows)) && BeatsIndex(row)
  {
    var near := Where(rows, NearHigh);
    var t := ReturnThreshold(rows);
    var top := if |near| > 0 then Where(near, row => InTopHalf(row, t)) else near;
    var strong := if |top| > 0 then Where(top, BeatsIndex) else top;
    strong
  }

  /** Some stock near its high has a known return, so the return filter keeps at least one. */
  lemma ReturnFilterKeepsSome(rows: seq<Row>, i: nat)
    requires i < |rows| && NearHigh(rows[i]) && rows[i].return6m.Some?
    ensures exists row :: row in rows && NearHigh(row) && InTopHalf(row, ReturnThreshold(rows))
  {
    var near := Where(rows, NearHigh);
    var col := ReturnColumn(near);
    assert rows[i] in near;
    var k :| 0 <= k < |near| && near[k] == rows[i];
    assert col[k].Some?;
    var vals := Known(col);
    var t := Median(vals);
    var w := Ranking.SortDescBy(vals, Id);
    assert w[0] >= t.value;
    assert w[0] in multiset(vals);
    assert w[0] in vals;
    var j :| 0 <= j < |col| && col[j] == Some(w[0]);
    assert near[j] in rows && NearHigh(near[j]) && InTopHalf(near[j], t);
  }

  // ------------------------------------------------------------- scoring

  /** The `1e-10` added to every normaliser's range. */
  const Eps: real := 0.0000000001

  /** One column of the metrics table. */
  function Column(rows: seq<Row>, col: Row -> Option<real>): (r: seq<Option<real>>)
    ensures |r| == |rows|
    ensures forall i :: 0 <= i < |rows| ==> r[i] == col(rows[i])
  {
    seq(|rows|, i requires 0 <= i < |rows| => col(rows[i]))
  }

  /** Where `x` falls between `lo` and `hi`, on the normaliser's slightly widened range. */
  function Rescale(x: real, lo: real, hi: real): real
    requires lo <= hi
  {
    (x - lo) / (hi - lo + Eps)
  }

  lemma RescaleBounds(x: real, lo: real, hi: real)
    requires lo <= x <= hi
    ensures 0.0 <= Rescale(x, lo, hi) < 1.0
  {
    var d := hi - lo + Eps;
    var q := (x - lo) / d;
    assert q * d == x - lo;
    if q < 0.0 {
      Stats.MulStrict(d, q, 0.0);
    } else if q > 1.0 {
      Stats.MulStrict(d, 1.0, q);
    }
  }

  lemma RescaleMonotone(x: real, y: real, lo: real, hi: real)
    requires lo <= hi && x <= y
    ensures Rescale(x, lo, hi) <= Rescale(y, lo, hi)
  {
    var d := hi - lo + Eps;
    assert Rescale(y, lo, hi) - Rescale(x, lo, hi) == (y - x) / d;
  }

  /** `(col - col.min()) / (col.max() - col.min() + 1e-10)`: every known value
      moved into [0, 1) without changing their order; NaN stays NaN, and a
      column with no known value is all NaN. */
  function Normalise(col: seq<Option<real>>): (r: seq<Option<real>>)
    ensures |r| == |col|
    ensures forall i :: 0 <= i < |col| ==> (r[i].Some? <==> col[i].Some?)
    ensures forall i :: 0 <= i < |col| && r[i].Some? ==> 0.0 <= r[i].value < 1.0
    ensures forall i, j ::
              (0 <= i < |col| && 0 <= j < |col| && col[i].Some? && col[j].Some? && col[i].value <= col[j].value)
              ==> r[i].value <= r[j].value
  {
    var vals := Known(col);
    if |vals| == 0 then
      col
    else
      var lo := Stats.Min(vals);
      var hi := Stats.Max(vals);
      RescaleAll(col, vals, lo, hi);
      seq(|col|, i requires 0 <= i < |col| => if col[i].None? then None else Some(Rescale(col[i].value, lo, hi)))
  }

  lemma RescaleAll(col: seq<Option<real>>, vals: seq<real>, lo: real, hi: real)
    requires forall i :: 0 <= i < |col| && col[i].Some? ==> col[i].value in vals
    requires forall x :: x in vals ==> lo <= x <= hi
    requires lo <= hi
    ensures forall i :: 0 <= i < |col| && col[i].Some? ==> 0.0 <= Rescale(col[i].value, lo, hi) < 1.0
    ensures forall x, y :: x <= y ==> Rescale(x, lo, hi) <= Rescale(y, lo, hi)
  {
    forall i | 0 <= i < |col| && col[i].Some?
      ensures 0.0 <= Rescale(col[i].value, lo, hi) < 1.0
    {
      RescaleBounds(col[i].value, lo, hi);
    }
    forall x: real, y: real | x <= y
      ensures Rescale(x, lo, hi) <= Rescale(y, lo, hi)
    {
      RescaleMonotone(x, y, lo, hi);
    }
  }

  /** The weights of the 6-month return, the volatility-adjusted return and
      the relative strength in the composite score. */
  datatype Weights = Weights(ret: real, volAdj: real, rs: real)

  const DefaultWeights := Weights(0.4, 0.3, 0.3)

  predicate NonNegative(w: Weights) {
    w.ret >= 0.0 && w.volAdj >= 0.0 && w.rs >= 0.0
  }

  function ReturnOf(row: Row): Option<real> { row.return6m }
  function VolAdjOf(row: Row): Option<real> { row.volAdj }
  function StrengthOf(row: Row): Option<real> { row.relStrength }

  /** The weighted sum of three normalised values, NaN if any is NaN. */
  function Weighted(a: Option<real>, b: Option<real>, c: Option<real>, w: Weights): Option<real> {
    if a.None? || b.None? || c.None? then None
    else Some(w.ret * a.value + w.volAdj * b.value + w.rs * c.value)
  }

  /** `calculate_composite_score(df, ...)`: each row's weighted sum of its
      three normalised metrics. A row scores exactly when its three metrics
      are known, and with non-negative weights the score lies between 0 and
      the sum of the weights. */
  function CompositeScores(rows: seq<Row>, w: Weights): (r: seq<Option<real>>)
    ensures |r| == |rows|
    ensures forall i :: 0 <= i < |rows| ==>
              (r[i].Some? <==> rows[i].return6m.Some? && rows[i].volAdj.Some? && rows[i].relStrength.Some?)
    ensures NonNegative(w) ==> forall i :: 0 <= i < |rows| && r[i].Some? ==>
              0.0 <= r[i].value <= w.ret + w.volAdj + w.rs
  {
    var a := NormalisedColumn(rows, ReturnOf);
    var b := NormalisedColumn(rows, VolAdjOf);
    var c := NormalisedColumn(rows, StrengthOf);
    WeightedBounds(a, b, c, w);
    seq(|rows|, i requires 0 <= i < |rows| => Weighted(a[i], b[i], c[i], w))
  }

  /** One metric column, normalised: known where the metric is known, in [0, 1). */
  function NormalisedColumn(rows: seq<Row>, col: Row -> Option<real>): (r: seq<Option<real>>)
    ensures |r| == |rows|
    ensures forall i :: 0 <= i < |rows| ==> (r[i].Some? <==> col(rows[i]).Some?)
    ensures forall i :: 0 <= i < |rows| && r[i].Some? ==> 0.0 <= r[i].value < 1.0
  {
    var k := Column(rows, col);
    var r := Normalise(k);
    assert forall i :: 0 <= i < |rows| ==> (r[i].Some? <==> k[i].Some?);
    r
  }

  /** A weighted sum of values in [0, 1) lies between 0 and the sum of the weights. */
  lemma WeightedSumBetween(w: Weights, x: real, y: real, z: real)
    requires NonNegative(w)
    requires 0.0 <= x < 1.0 && 0.0 <= y < 1.0 && 0.0 <= z < 1.0
    ensures 0.0 <= w.ret * x + w.volAdj * y + w.rs * z <= w.ret + w.volAdj + w.rs
  {
    Stats.MulNonneg(w.ret, x);
    Stats.MulNonneg(w.volAdj, y);
    Stats.MulNonneg(w.rs, z);
    Stats.MulNonneg(w.ret, 1.0 - x);
    Stats.MulNonneg(w.volAdj, 1.0 - y);
    Stats.MulNonneg(w.rs, 1.0 - z);
  }

  lemma WeightedBounds(a: seq<Option<real>>, b: seq<Option<real>>, c: seq<Option<real>>, w: Weights)
    requires |a| == |b| == |c|
    requires forall i :: 0 <= i < |a| && a[i].Some? ==> 0.0 <= a[i].value < 1.0
    requires forall i :: 0 <= i < |b| && b[i].Some? ==> 0.0 <= b[i].value < 1.0
    requires forall i :: 0 <= i < |c| && c[i].Some? ==> 0.0 <= c[i].value < 1.0
    ensures NonNegative(w) ==> forall i :: 0 <= i < |a| && Weighted(a[i], b[i], c[i], w).Some? ==>
              0.0 <= Weighted(a[i], b[i], c[i], w).value <= w.ret + w.volAdj + w.rs
  {
    if NonNegative(w) {
      forall i | 0 <= i < |a| && Weighted(a[i], b[i], c[i], w).Some?
        ensures 0.0 <= Weighted(a[i], b[i], c[i], w).value <= w.ret + w.volAdj + w.rs
      {
        WeightedSumBetween(w, a[i].value, b[i].value, c[i].value);
      }
    }
  }

  /** With the default weights every known score lies in [0, 1]. */
  lemma DefaultScoresAreFractions(rows: seq<Row>)
    ensures forall i :: 0 <= i < |rows| && CompositeScores(rows, DefaultWeights)[i].Some? ==>
              0.0 <= CompositeScores(rows, DefaultWeights)[i].value <= 1.0
  {
    assert NonNegative(DefaultWeights);
  }

  /** A row at least as good as another on all three known metrics scores at
      least as high, whatever the non-negative weights. */
  lemma ScoreRespectsDominance(rows: seq<Row>, w: Weights, i: nat, j: nat)
    requires i < |rows| && j < |rows| && NonNegative(w)
    requires rows[i].return6m.Some? && rows[i].volAdj.Some? && rows[i].relStrength.Some?
    requires rows[j].return6m.Some? && rows[j].volAdj.Some? && rows[j].relStrength.Some?
    requires rows[i].return6m.value <= rows[j].return6m.value
    requires rows[i].volAdj.value <= rows[j].volAdj.value
    requires rows[i].relStrength.value <= rows[j].relStrength.value
    ensures CompositeScores(rows, w)[i].value <= CompositeScores(rows, w)[j].value
  {
    var a := Normalise(Column(rows, ReturnOf));
    var b := Normalise(Column(rows, VolAdjOf));
    var c := Normalise(Column(rows, StrengthOf));
    NormaliseKeepsOrder(rows, ReturnOf, i, j);
    NormaliseKeepsOrder(rows, VolAdjOf, i, j);
    NormaliseKeepsOrder(rows, StrengthOf, i, j);
    ScoreOfRow(rows, w, i);
    ScoreOfRow(rows, w, j);
    WeightedMonotone(w, a[i], b[i], c[i], a[j], b[j], c[j]);
  }

  lemma ScoreOfRow(rows: seq<Row>, w: Weights, i: nat)
    requires i < |rows|
    ensures CompositeScores(rows, w)[i] ==
              Weighted(Normalise(Column(rows, ReturnOf))[i], Normalise(Column(rows, VolAdjOf))[i],
                       Normalise(Column(rows, StrengthOf))[i], w)
  {
    assert NormalisedColumn(rows, ReturnOf) == Normalise(Column(rows, ReturnOf));
    assert NormalisedColumn(rows, VolAdjOf) == Normalise(Column(rows, VolAdjOf));
    assert NormalisedColumn(rows, StrengthOf) == Normalise(Column(rows, StrengthOf));
  }

  lemma NormaliseKeepsOrder(rows: seq<Row>, col: Row -> Option<real>, i: nat, j: nat)
    requires i < |rows| && j < |rows|
    requires col(rows[i]).Some? && col(rows[j]).Some? && col(rows[i]).value <= col(rows[j]).value
    ensures Normalise(Column(rows, col))[i].Some? && Normalise(Column(rows, col))[j].Some?
    ensures Normalise(Column(rows, col))[i].value <= Normalise(Column(rows, col))[j].value
  {
    var k := Column(rows, col);
    assert k[i] == col(rows[i]) && k[j] == col(rows[j]);
  }

  /** Raising each of three values does not lower their weighted sum. */
  lemma WeightedMonotone(w: Weights, x: Option<real>, y: Option<real>, z: Option<real>,
                         x2: Option<real>, y2: Option<real>, z2: Option<real>)
    requires NonNegative(w) && x.Some? && y.Some? && z.Some? && x2.Some? && y2.Some? && z2.Some?
    requires x.value <= x2.value && y.value <= y2.value && z.value <= z2.value
    ensures Weighted(x, y, z, w).value <= Weighted(x2, y2, z2, w).value
  {
    Stats.MulNonneg(w.ret, x2.value - x.value);
    Stats.MulNonneg(w.volAdj, y2.value - y.value);
    Stats.MulNonneg(w.rs, z2.value - z.value);
  }

  // ----------------------------------------------------------- selection

  /** A metrics row with its composite score. */
  datatype Scored = Scored(row: Row, score: Option<real>)

  predicate HasScore(s: Scored) {
    s.score.Some?
  }

  predicate NoScore(s: Scored) {
    s.score.None?
  }

  /** The sort key of a scored row (only read for rows that have a score). */
  function ScoreKey(s: Scored): real {
    if s.score.Some? then s.score.value else 0.0
  }

  /** `sort_values('Composite_Score', ascending=False)`: the scored rows,
      highest first, then the NaN rows (pandas puts NaN last). */
  function RankAll(scored: seq<Scored>): (r: seq<Scored>)
    ensures |r| == |scored|
    ensures multiset(r) == multiset(scored)
  {
    var known := Where(scored, HasScore);
    var unknown := Where(scored, NoScore);
    SplitCount(scored);
    Ranking.SortDescBy(known, ScoreKey) + unknown
  }

  lemma {:induction false} SplitCount(s: seq<Scored>)
    ensures multiset(Where(s, HasScore)) + multiset(Where(s, NoScore)) == multiset(s)
  {
    if |s| > 0 {
      var h, t := s[0], s[1..];
      SplitCount(t);
      SplitCountStep(h, t);
      assert [h] + t == s;
    }
  }

  lemma SplitCountStep(h: Scored, t: seq<Scored>)
    requires multiset(Where(t, HasScore)) + multiset(Where(t, NoScore)) == multiset(t)
    ensures multiset(Where([h] + t, HasScore)) + multiset(Where([h] + t, NoScore)) == multiset([h] + t)
  {
    WhereCons(h, t, HasScore);
    WhereCons(h, t, NoScore);
    assert multiset([h] + t) == multiset{h} + multiset(t);
    if h.score.Some? {
      assert HasScore(h) && !NoScore(h);
      assert multiset([h] + Where(t, HasScore)) == multiset{h} + multiset(Where(t, HasScore));
    } else {
      assert !HasScore(h) && NoScore(h);
      assert multiset([h] + Where(t, NoScore)) == multiset{h} + multiset(Where(t, NoScore));
    }
  }

  /** A sequence ranked by score: a row with a score is preceded only by rows
      with scores at least as high. */
  predicate Ranked(r: seq<Scored>) {
    forall i, j :: 0 <= i < j < |r| && r[j].score.Some? ==>
      r[i].score.Some? && r[i].score.value >= r[j].score.value
  }

  lemma RankAllIsRanked(scored: seq<Scored>)
    ensures Ranked(RankAll(scored))
    ensures forall k :: 0 <= k < |RankAll(scored)| ==>
              (RankAll(scored)[k].score.Some? <==> k < |Where(scored, HasScore)|)
  {
    var known := Where(scored, HasScore);
    var sorted := Ranking.SortDescBy(known, ScoreKey);
    var unknown := Where(scored, NoScore);
    var r := RankAll(scored);
    assert r == sorted + unknown;
    forall k | 0 <= k < |sorted|
      ensures sorted[k].score.Some?
    {
      assert sorted[k] in multiset(known);
    }
    forall k | 0 <= k < |unknown|
      ensures unknown[k].score.None?
    {
    }
  }

  /** `select_top_stocks(df, top_n)`: the first `top_n` rows of the ranking
      (`head` takes all but the last `-top_n` for a negative `top_n`). */
  function SelectTopStocks(scored: seq<Scored>, topN: int): (r: seq<Scored>)
    ensures 0 <= topN ==> |r| == if topN <= |scored| then topN else |scored|
    ensures multiset(r) <= multiset(scored)
  {
    var all := RankAll(scored);
    var r := Ranking.PySliceTo(all, topN);
    assert all == r + all[|r|..];
    r
  }

  /** In a ranked sequence a scored row past the first `n` never scores
      above one of the first `n`. */
  lemma {:induction false} PrefixOutranks(all: seq<Scored>, n: nat)
    requires Ranked(all) && n <= |all|
    ensures Ranked(all[..n])
    ensures forall x, i ::
              (x in multiset(all) - multiset(all[..n]) && x.score.Some? && 0 <= i < n) ==>
              all[i].score.Some? && x.score.value <= all[i].score.value
  {
    assert all == all[..n] + all[n..];
    forall x, i | x in multiset(all) - multiset(all[..n]) && x.score.Some? && 0 <= i < n
      ensures all[i].score.Some? && x.score.value <= all[i].score.value
    {
      assert multiset(all) == multiset(all[..n]) + multiset(all[n..]);
      assert x in multiset(all[n..]);
      var m :| 0 <= m < |all[n..]| && all[n..][m] == x;
      assert all[n + m] == x;
    }
  }

  /** The selection is ranked, and a scored row left out never scores above
      a row that was kept. */
  lemma SelectionOutranksTheRest(scored: seq<Scored>, topN: int)
    ensures Ranked(SelectTopStocks(scored, topN))
    ensures forall x, i ::
              (x in multiset(scored) - multiset(SelectTopStocks(scored, topN)) && x.score.Some? &&
               0 <= i < |SelectTopStocks(scored, topN)|) ==>
              SelectTopStocks(scored, topN)[i].score.Some? &&
              x.score.value <= SelectTopStocks(scored, topN)[i].score.value
  {
    var all := RankAll(scored);
    var r := SelectTopStocks(scored, topN);
    RankAllIsRanked(scored);
    assert r == all[..|r|];
    assert multiset(all) == multiset(scored);
    PrefixOutranks(all, |r|);
    forall x, i | x in multiset(scored) - multiset(r) && x.score.Some? && 0 <= i < |r|
      ensures r[i].score.Some? && x.score.value <= r[i].score.value
    {
      assert x in multiset(all) - multiset(all[..|r|]);
      assert r[i] == all[i];
    }
  }

  // ----------------------------------------------------- backtest figures

  /** The running maximum `expanding().max()` at row `i`. */
  function Peak(values: seq<real>, i: nat): (p: real)
    requires i < |values|
    ensures values[i] <= p
    ensures forall k :: 0 <= k <= i ==> values[k] <= p
    ensures exists k :: 0 <= k <= i && values[k] == p
  {
    var m := Stats.Max(values[..i + 1]);
    assert forall k :: 0 <= k <= i ==> values[..i + 1][k] == values[k];
    m
  }

  /** `calculate_drawdowns(values)`: each value's percentage below the
      running peak; NaN (or an infinity) where the peak is zero. */
  function Drawdowns(values: seq<real>): (r: seq<Option<real>>)
    ensures |r| == |values|
    ensures forall i :: 0 <= i < |values| ==> (r[i].Some? <==> Peak(values, i) != 0.0)
    ensures forall i :: 0 <= i < |values| && r[i].Some? ==> r[i].value == Stats.PercentChange(Peak(values, i), values[i])
  {
    seq(|values|, i requires 0 <= i < |values| =>
      var p := Peak(values, i);
      if p == 0.0 then None else Some(Stats.PercentChange(p, values[i])))
  }

  predicate Positive(values: seq<real>) {
    forall i :: 0 <= i < |values| ==> values[i] > 0.0
  }

  /** For a positive series each drawdown is known and lies in (-100, 0], and
      it is zero exactly at a new running high. */
  lemma DrawdownBounds(values: seq<real>, i: nat)
    requires Positive(values) && i < |values|
    ensures Drawdowns(values)[i].Some?
    ensures -100.0 < Drawdowns(values)[i].value <= 0.0
    ensures Drawdowns(values)[i].value == 0.0 <==> forall k :: 0 <= k <= i ==> values[k] <= values[i]
  {
    var p := Peak(values, i);
    var k :| 0 <= k <= i && values[k] == p;
    assert p > 0.0;
    DropBounds(p, values[i]);
  }

  /** The percentage drop from a positive peak to a positive value at most the peak. */
  lemma DropBounds(p: real, v: real)
    requires 0.0 < v <= p
    ensures -100.0 < Stats.PercentChange(p, v) <= 0.0
    ensures Stats.PercentChange(p, v) == 0.0 <==> v == p
  {
    Stats.PercentChangeThreshold(p, v, 0.0);
    Stats.PercentChangeThreshold(p, v, -100.0);
  }

  /** `calculate_max_drawdown(values)`: the smallest known drawdown, NaN if none. */
  function MaxDrawdown(values: seq<real>): (r: Option<real>)
    ensures r.None? <==> forall i :: 0 <= i < |values| ==> Drawdowns(values)[i].None?
    ensures r.Some? ==> (exists i :: 0 <= i < |values| && Drawdowns(values)[i] == r) &&
                        forall i :: 0 <= i < |values| && Drawdowns(values)[i].Some? ==> r.value <= Drawdowns(values)[i].value
  {
    var known := Known(Drawdowns(values));
    if |known| == 0 then None else Some(Stats.Min(known))
  }

  /** A series that never rises. */
  predicate NonDecreasing(values: seq<real>) {
    forall i, j :: 0 <= i < j < |values| ==> values[i] <= values[j]
  }

  /** For a positive non-empty series the maximum drawdown is known, lies in
      (-100, 0], and is zero exactly when the series never falls. */
  lemma MaxDrawdownBounds(values: seq<real>)
    requires Positive(values) && |values| > 0
    ensures MaxDrawdown(values).Some?
    ensures -100.0 < MaxDrawdown(values).value <= 0.0
    ensures MaxDrawdown(values).value == 0.0 <==> NonDecreasing(values)
  {
    DrawdownBounds(values, 0);
    var r := MaxDrawdown(values);
    var dd := Drawdowns(values);
    var w :| 0 <= w < |values| && dd[w] == r;
    DrawdownBounds(values, w);
    DrawdownBounds(values, |values| - 1);
    if NonDecreasing(values) {
      DrawdownBounds(values, w);
    }
    if r.value == 0.0 {
      forall i, j | 0 <= i < j < |values|
        ensures values[i] <= values[j]
      {
        DrawdownBounds(values, j);
      }
    }
  }

  /** One step of `pct_change() > 0`, NaN (dropped) for 0 to 0; from a zero
      base the change is infinite and its sign is the sign of the new value. */
  function Gain(prev: real, cur: real): (g: Option<bool>)
    ensures g.None? <==> prev == 0.0 && cur == 0.0
    ensures prev > 0.0 ==> g == Some(cur > prev)
    ensures prev < 0.0 ==> g == Some(cur < prev)
  {
    if prev == 0.0 then (if cur == 0.0 then None else Some(cur > 0.0))
    else
      var q := (cur - prev) / prev;
      ChangeSign(prev, cur);
      Some(q > 0.0)
  }

  /** The sign of `(cur - prev) / prev` for a non-zero base. */
  lemma ChangeSign(prev: real, cur: real)
    requires prev != 0.0
    ensures prev > 0.0 ==> ((cur - prev) / prev > 0.0 <==> cur > prev)
    ensures prev < 0.0 ==> ((cur - prev) / prev > 0.0 <==> cur < prev)
  {
    var q := (cur - prev) / prev;
    assert q * prev == cur - prev;
    if q > 0.0 {
      if prev > 0.0 { Stats.MulStrict(prev, 0.0, q); } else { Stats.MulStrict(q, prev, 0.0); }
    } else if q < 0.0 {
      if prev > 0.0 { Stats.MulStrict(prev, q, 0.0); } else { Stats.MulStrict(-q, prev, 0.0); }
    }
  }

  /** The steps `pct_change().dropna()` keeps, each marked with whether it
      is a gain. */
  function Steps(values: seq<real>): (r: seq<bool>)
    ensures |values| < 2 ==> r == []
    ensures |values| >= 2 ==> |r| <= |values| - 1
    decreases |values|
  {
    if |values| < 2 then []
    else
      var n := |values|;
      var earlier := Steps(values[..n - 1]);
      match Gain(values[n - 2], values[n - 1])
      case Some(g) => earlier + [g]
      case None => earlier
  }

  function Wins(steps: seq<bool>): (w: nat)
    ensures w <= |steps|
  {
    if |steps| == 0 then 0 else (if steps[0] then 1 else 0) + Wins(steps[1..])
  }

  /** `calculate_win_rate(values)`: the share of kept steps that are gains,
      in percent; NaN for fewer than two values or no kept step. */
  function WinRate(values: seq<real>): (r: Option<real>)
    ensures r.None? <==> |Steps(values)| == 0
    ensures r.Some? ==> 0.0 <= r.value <= 100.0
    ensures r.Some? ==> (r.value == 100.0 <==> Wins(Steps(values)) == |Steps(values)|)
    ensures r.Some? ==> (r.value == 0.0 <==> Wins(Steps(values)) == 0)
  {
    if |values| < 2 then None
    else
      var steps := Steps(values);
      if |steps| == 0 then None
      else
        Stats.RatioBounds(Wins(steps), |steps|);
        Some(Wins(steps) as real / |steps| as real * 100.0)
  }

  predicate AllGains(steps: seq<bool>) {
    forall i :: 0 <= i < |steps| ==> steps[i]
  }

  lemma {:induction false} WinsOfAllGains(steps: seq<bool>)
    ensures Wins(steps) == |steps| <==> AllGains(steps)
  {
    if |steps| > 0 {
      WinsOfAllGains(steps[1..]);
      assert forall i :: 1 <= i < |steps| ==> steps[i] == steps[1..][i - 1];
    }
  }

  /** A positive series that rises at every step wins every period, so its
      win rate is 100. */
  lemma {:induction false} RisingSeriesAlwaysWins(values: seq<real>)
    requires |values| >= 2 && Positive(values)
    requires forall i :: 0 < i < |values| ==> values[i - 1] < values[i]
    ensures |Steps(values)| == |values| - 1 && AllGains(Steps(values))
    ensures WinRate(values) == Some(100.0)
  {
    var n := |values|;
    if n > 2 {
      RisingSeriesAlwaysWins(values[..n - 1]);
    }
    assert Gain(values[n - 2], values[n - 1]) == Some(true);
    WinsOfAllGains(Steps(values));
  }

  predicate NoGains(steps: seq<bool>) {
    forall i :: 0 <= i < |steps| ==> !steps[i]
  }

  lemma {:induction false} WinsOfNoGains(steps: seq<bool>)
    ensures Wins(steps) == 0 <==> NoGains(steps)
  {
    if |steps| > 0 {
      WinsOfNoGains(steps[1..]);
      assert forall i :: 1 <= i < |steps| ==> steps[i] == steps[1..][i - 1];
    }
  }

  /** A positive series that never rises wins no period, so its win rate is 0. */
  lemma {:induction false} FlatOrFallingSeriesNeverWins(values: seq<real>)
    requires |values| >= 2 && Positive(values)
    requires forall i :: 0 < i < |values| ==> values[i] <= values[i - 1]
    ensures |Steps(values)| == |values| - 1 && NoGains(Steps(values))
    ensures WinRate(values) == Some(0.0)
  {
    var n := |values|;
    if n > 2 {
      FlatOrFallingSeriesNeverWins(values[..n - 1]);
    }
    assert Gain(values[n - 2], values[n - 1]) == Some(false);
    WinsOfNoGains(Steps(values));
  }
}

