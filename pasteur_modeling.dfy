/**
 * The mosquito time-series pipeline (institut_pasteur_project/pasteur_modeling.py):
 * the synthetic daily series with its circular rainfall lags, the feature
 * frame built by `engineer_features` (lags by `shift`, rolling means, calendar
 * columns, `dropna`), and the chronological train/test split with the
 * predictor columns of `train_evaluate`.
 *
 * Dates are day indices counted from 2019-01-01. The random draws, already
 * combined with their seasonal sine terms, are inputs; so are the calendar
 * fields (month and day-of-year sine and cosine) of every day index.
 */
module PasteurModeling {
  import opened Wrappers
  import Text

  // ---------------------------------------------------------------------------
  // synthesize_data
  // ---------------------------------------------------------------------------

  /** One row of the synthetic frame. */
  datatype SeriesRow = SeriesRow(date: nat, temperature: real, humidity: real, rainfall: real, eggs: real)

  /**
   * The drawn values at day t: temperature and humidity with their seasonal
   * terms and noise, rainfall before clipping, and the noise added to the eggs index.
   */
  datatype ClimateDraws = ClimateDraws(
    temperature: nat -> real, humidity: nat -> real, rainfall: nat -> real, noise: nat -> real)

  /** `np.clip(x, 0, None)`. */
  function Clip0(x: real): (r: real)
    ensures r >= 0.0
    ensures x >= 0.0 ==> r == x
    ensures x < 0.0 ==> r == 0.0
  {
    if x < 0.0 then 0.0 else x
  }

  /**
   * `np.roll(a, k)`: a circular shift to the right by k places, so element t
   * of the result is element (t - k) mod n of `a`.
   */
  function Roll(a: seq<real>, k: nat): (r: seq<real>)
    ensures |r| == |a|
  {
    if |a| == 0 then []
    else
      var s := k % |a|;
      a[|a| - s..] + a[..|a| - s]
  }

  /** The remainder is the unique m in [0, n) with x == q * n + m. */
  lemma ModOfMultiple(x: int, n: int, q: int, m: int)
    requires n > 0 && 0 <= m < n && x == q * n + m
    ensures x % n == m
  {
    var d := x / n - q;
    assert d * n == m - x % n;
  }

  lemma RollAt(a: seq<real>, k: nat, t: nat)
    requires t < |a|
    ensures Roll(a, k)[t] == a[(t - k) % |a|]
  {
    var n := |a|;
    var s := k % n;
    var q := k / n;
    assert k == q * n + s;
    if t < s {
      assert Roll(a, k)[t] == a[n - s + t];
      ModOfMultiple(t - k, n, -q - 1, n - s + t);
    } else {
      assert Roll(a, k)[t] == a[t - s];
      ModOfMultiple(t - k, n, -q, t - s);
    }
  }

  /** The lag reads the previous k days, and the first k days read from the end of the series. */
  lemma RollWrapsAround(a: seq<real>, k: nat, t: nat)
    requires k <= |a| && t < |a|
    ensures t < k ==> Roll(a, k)[t] == a[|a| - k + t]
    ensures t >= k ==> Roll(a, k)[t] == a[t - k]
  {
    RollAt(a, k, t);
    if t < k {
      ModOfMultiple(t - k, |a|, -1, |a| - k + t);
    } else {
      ModOfMultiple(t - k, |a|, 0, t - k);
    }
  }

  /** The clipped rainfall series. */
  function ClippedRainfall(days: nat, draws: ClimateDraws): (r: seq<real>)
    ensures |r| == days && forall t :: 0 <= t < days ==> r[t] >= 0.0
  {
    var r := seq(days, t requires 0 <= t < days => Clip0(draws.rainfall(t)));
    assert forall t :: 0 <= t < days ==> r[t] == Clip0(draws.rainfall(t));
    r
  }

  /** `20 + 0.8 * max(temp - 20, 0) + 0.3 * (humidity - 50)`. */
  function Baseline(temperature: real, humidity: real): real {
    20.0 + 0.8 * (if temperature > 20.0 then temperature - 20.0 else 0.0) + 0.3 * (humidity - 50.0)
  }

  function EggsIndex(temperature: real, humidity: real, lag7: real, lag14: real, noise: real): (r: real)
    ensures r >= 0.0
  {
    Clip0(Baseline(temperature, humidity) + 0.9 * lag7 + 0.6 * lag14 + noise)
  }

  /** `synthesize_data(days)`: one row per day, from day 0 onwards. */
  function SynthesizeData(days: nat, draws: ClimateDraws): (rows: seq<SeriesRow>)
    ensures |rows| == days
    ensures forall t :: 0 <= t < days ==> rows[t].date == t
    ensures forall t :: 0 <= t < days ==> rows[t].rainfall >= 0.0 && rows[t].eggs >= 0.0
    ensures forall t :: 0 <= t < days ==>
      rows[t].temperature == draws.temperature(t) && rows[t].humidity == draws.humidity(t)
  {
    var rain := ClippedRainfall(days, draws);
    var lag7 := Roll(rain, 7);
    var lag14 := Roll(rain, 14);
    var rows := seq(days, t requires 0 <= t < days => SynthesizedRow(t, draws, rain[t], lag7[t], lag14[t]));
    assert forall t :: 0 <= t < days ==> rows[t] == SynthesizedRow(t, draws, rain[t], lag7[t], lag14[t]);
    rows
  }

  /** The row of day t given its clipped rainfall and the two lagged rainfall values. */
  function SynthesizedRow(t: nat, draws: ClimateDraws, rain: real, lag7: real, lag14: real): (r: SeriesRow)
    requires rain >= 0.0
    ensures r.date == t && r.rainfall == rain && r.eggs >= 0.0
    ensures r.temperature == draws.temperature(t) && r.humidity == draws.humidity(t)
  {
    SeriesRow(t, draws.temperature(t), draws.humidity(t), rain,
              EggsIndex(draws.temperature(t), draws.humidity(t), lag7, lag14, draws.noise(t)))
  }

  /**
   * The eggs index of day t reads the rainfall of days t - 7 and t - 14
   * modulo the length of the series.
   */
  lemma EggsReadCircularLags(days: nat, draws: ClimateDraws, t: nat)
    requires t < days
    ensures var rows := SynthesizeData(days, draws);
      rows[t].eggs == EggsIndex(rows[t].temperature, rows[t].humidity,
                           rows[(t - 7) % days].rainfall, rows[(t - 14) % days].rainfall, draws.noise(t))
  {
    var rain := ClippedRainfall(days, draws);
    var rows := SynthesizeData(days, draws);
    RollAt(rain, 7, t);
    RollAt(rain, 14, t);
    var i, j := (t - 7) % days, (t - 14) % days;
    assert rows[t] == SynthesizedRow(t, draws, rain[t], Roll(rain, 7)[t], Roll(rain, 14)[t]);
    assert rows[i].rainfall == rain[i] && rows[j].rainfall == rain[j];
  }

  // ---------------------------------------------------------------------------
  // sort_values('date')
  // ---------------------------------------------------------------------------

  predicate SortedByDate(rows: seq<SeriesRow>) {
    forall i, j :: 0 <= i < j < |rows| ==> rows[i].date <= rows[j].date
  }

  /** Inserts `r` after every row of `s` whose date is not later than its own. */
  function Insert(s: seq<SeriesRow>, r: SeriesRow): (t: seq<SeriesRow>)
    ensures |t| == |s| + 1
    ensures multiset(t) == multiset(s) + multiset{r}
    decreases |s|
  {
    if s == [] || s[|s| - 1].date <= r.date then
      s + [r]
    else
      assert s == s[..|s| - 1] + [s[|s| - 1]];
      Insert(s[..|s| - 1], r) + [s[|s| - 1]]
  }

  lemma {:induction false} InsertSorted(s: seq<SeriesRow>, r: SeriesRow)
    requires SortedByDate(s)
    ensures SortedByDate(Insert(s, r))
    decreases |s|
  {
    if s != [] && s[|s| - 1].date > r.date {
      var init, last := s[..|s| - 1], s[|s| - 1];
      InsertSorted(init, r);
      var u := Insert(init, r);
      forall i | 0 <= i < |u|
        ensures u[i].date <= last.date
      {
        assert u[i] in multiset(u);
        if u[i] != r {
          assert u[i] in multiset(init);
          var j :| 0 <= j < |init| && init[j] == u[i];
        }
      }
    }
  }

  /** `sort_values('date')`, modelled as a stable insertion sort. */
  function SortByDate(rows: seq<SeriesRow>): (r: seq<SeriesRow>)
    ensures |r| == |rows|
    ensures multiset(r) == multiset(rows)
    ensures SortedByDate(r)
  {
    if rows == [] then []
    else
      assert rows == rows[..|rows| - 1] + [rows[|rows| - 1]];
      InsertSorted(SortByDate(rows[..|rows| - 1]), rows[|rows| - 1]);
      Insert(SortByDate(rows[..|rows| - 1]), rows[|rows| - 1])
  }

  /** Sorting a frame that is already in date order leaves it as it is. */
  lemma {:induction false} SortSorted(rows: seq<SeriesRow>)
    requires SortedByDate(rows)
    ensures SortByDate(rows) == rows
  {
    if rows != [] {
      var init := rows[..|rows| - 1];
      assert SortedByDate(init);
      SortSorted(init);
    }
  }

  /** Each row is dated strictly after the one before it. */
  predicate StrictlyByDate(rows: seq<SeriesRow>) {
    forall i, j :: 0 <= i < j < |rows| ==> rows[i].date < rows[j].date
  }

  /** No two rows share a date. */
  predicate DistinctDates(rows: seq<SeriesRow>) {
    forall i, j :: 0 <= i < j < |rows| ==> rows[i].date != rows[j].date
  }

  /** With distinct dates, no row occurs twice. */
  lemma {:induction false} DistinctDatesOnce(rows: seq<SeriesRow>, x: SeriesRow)
    requires DistinctDates(rows)
    ensures multiset(rows)[x] <= 1
  {
    if rows != [] {
      var init, last := rows[..|rows| - 1], rows[|rows| - 1];
      assert DistinctDates(init);
      DistinctDatesOnce(init, x);
      assert rows == init + [last];
      if last == x {
        forall k | 0 <= k < |init|
          ensures init[k] != x
        {
          assert rows[k].date != rows[|rows| - 1].date;
        }
        assert x !in init;
      }
    }
  }

  /** With distinct dates, a row is determined by its date. */
  lemma SameDateSameRow(rows: seq<SeriesRow>, x: SeriesRow, y: SeriesRow)
    requires DistinctDates(rows) && x in rows && y in rows && x.date == y.date
    ensures x == y
  {
    var a :| 0 <= a < |rows| && rows[a] == x;
    var b :| 0 <= b < |rows| && rows[b] == y;
    assert a == b;
  }

  /** A value at two positions of a sequence occurs at least twice in it. */
  lemma TwiceInMultiset(r: seq<SeriesRow>, i: nat, j: nat)
    requires i < j < |r| && r[i] == r[j]
    ensures multiset(r)[r[i]] >= 2
  {
    assert r == r[..j] + [r[j]] + r[j + 1..];
    assert r[i] in r[..j];
  }

  /** Sorting keeps the dates distinct, so the sorted dates strictly ascend. */
  lemma SortKeepsDistinctDates(rows: seq<SeriesRow>)
    requires DistinctDates(rows)
    ensures StrictlyByDate(SortByDate(rows))
  {
    var r := SortByDate(rows);
    forall i, j | 0 <= i < j < |r|
      ensures r[i].date < r[j].date
    {
      if r[i].date == r[j].date {
        assert r[i] in multiset(r) && r[j] in multiset(r);
        assert r[i] in rows && r[j] in rows;
        SameDateSameRow(rows, r[i], r[j]);
        TwiceInMultiset(r, i, j);
        DistinctDatesOnce(rows, r[i]);
      }
    }
  }

  /** The synthetic series is in date order already. */
  lemma SynthesizedIsSorted(days: nat, draws: ClimateDraws)
    ensures SortByDate(SynthesizeData(days, draws)) == SynthesizeData(days, draws)
  {
    SortSorted(SynthesizeData(days, draws));
  }

  // ---------------------------------------------------------------------------
  // engineer_features
  // ---------------------------------------------------------------------------

  /** A numeric column; `None` stands for NaN. */
  datatype Column = Column(name: string, values: seq<Option<real>>)

  /** A frame: the `date` column, then the other columns in order. */
  datatype Frame = Frame(dates: seq<nat>, columns: seq<Column>)

  predicate WellShaped(f: Frame) {
    forall k :: 0 <= k < |f.columns| ==> |f.columns[k].values| == |f.dates|
  }

  function ColumnNames(cols: seq<Column>): (r: seq<string>)
    ensures |r| == |cols| && forall k :: 0 <= k < |cols| ==> r[k] == cols[k].name
  {
    if cols == [] then [] else ColumnNames(cols[..|cols| - 1]) + [cols[|cols| - 1].name]
  }

  /** `df.columns`. */
  function Names(f: Frame): seq<string> {
    ["date"] + ColumnNames(f.columns)
  }

  /** `df[name] = values` for a name the frame does not have yet: the column goes last. */
  function AddColumn(f: Frame, c: Column): (r: Frame)
    ensures r.dates == f.dates && r.columns == f.columns + [c]
  {
    Frame(f.dates, f.columns + [c])
  }

  /** The new column's name is the last of the frame's names; the others keep their order. */
  lemma AddColumnNames(f: Frame, c: Column)
    ensures Names(AddColumn(f, c)) == Names(f) + [c.name]
  {
    assert ColumnNames(AddColumn(f, c).columns)[..|f.columns|] == ColumnNames(f.columns);
  }

  datatype Measure = Temperature | Humidity | Rainfall | Eggs

  function Measured(row: SeriesRow, m: Measure): real {
    match m
    case Temperature => row.temperature
    case Humidity => row.humidity
    case Rainfall => row.rainfall
    case Eggs => row.eggs
  }

  /** `df[column]` of one measured quantity. */
  function Series(rows: seq<SeriesRow>, m: Measure): (r: seq<real>)
    ensures |r| == |rows| && forall i :: 0 <= i < |rows| ==> r[i] == Measured(rows[i], m)
  {
    seq(|rows|, i requires 0 <= i < |rows| => Measured(rows[i], m))
  }

  function Dates(rows: seq<SeriesRow>): (r: seq<nat>)
    ensures |r| == |rows| && forall i :: 0 <= i < |rows| ==> r[i] == rows[i].date
  {
    seq(|rows|, i requires 0 <= i < |rows| => rows[i].date)
  }

  function Nones(n: nat): (r: seq<Option<real>>)
    ensures |r| == n && forall i :: 0 <= i < n ==> r[i] == None
  {
    seq(n, _ => None)
  }

  function Somes(xs: seq<real>): (r: seq<Option<real>>)
    ensures |r| == |xs| && forall i :: 0 <= i < |xs| ==> r[i] == Some(xs[i])
  {
    seq(|xs|, i requires 0 <= i < |xs| => Some(xs[i]))
  }

  /** `series.shift(l)`: the values move l rows down, and the first l rows become NaN. */
  function Shift(xs: seq<real>, l: nat): (r: seq<Option<real>>)
    ensures |r| == |xs|
  {
    if l >= |xs| then Nones(|xs|) else Nones(l) + Somes(xs[..|xs| - l])
  }

  /** Row i of the lag-l column is row i - l of the source, and NaN for the first l rows. */
  lemma ShiftAt(xs: seq<real>, l: nat, i: nat)
    requires i < |xs|
    ensures Shift(xs, l)[i] == if i < l then None else Some(xs[i - l])
  {
    if l < |xs| && i >= l {
      assert Shift(xs, l)[i] == Somes(xs[..|xs| - l])[i - l];
    }
  }

  /** A lag never reads a later row: it depends only on the rows up to its own. */
  lemma ShiftNoLookAhead(xs: seq<real>, ys: seq<real>, l: nat, i: nat)
    requires i < |xs| && i < |ys| && xs[..i + 1] == ys[..i + 1]
    ensures Shift(xs, l)[i] == Shift(ys, l)[i]
  {
    ShiftAt(xs, l, i);
    ShiftAt(ys, l, i);
    if i >= l {
      assert xs[i - l] == xs[..i + 1][i - l];
      assert ys[i - l] == ys[..i + 1][i - l];
    }
  }

  function Sum(xs: seq<real>): real {
    if xs == [] then 0.0 else Sum(xs[..|xs| - 1]) + xs[|xs| - 1]
  }

  /** `series.rolling(w).mean()`: the mean of rows i - w + 1 to i, NaN while fewer than w rows exist. */
  function RollingMean(xs: seq<real>, w: nat): (r: seq<Option<real>>)
    requires w > 0
    ensures |r| == |xs|
    ensures forall i :: 0 <= i < |xs| ==> (r[i].None? <==> i + 1 < w)
  {
    seq(|xs|, i requires 0 <= i < |xs| =>
      if i + 1 < w then None else Some(Sum(xs[i + 1 - w..i + 1]) / w as real))
  }

  /** A rolling mean never reads a later row. */
  lemma RollingMeanNoLookAhead(xs: seq<real>, ys: seq<real>, w: nat, i: nat)
    requires w > 0 && i < |xs| && i < |ys| && xs[..i + 1] == ys[..i + 1]
    ensures RollingMean(xs, w)[i] == RollingMean(ys, w)[i]
  {
    if i + 1 >= w {
      assert xs[i + 1 - w..i + 1] == xs[..i + 1][i + 1 - w..];
      assert ys[i + 1 - w..i + 1] == ys[..i + 1][i + 1 - w..];
    }
  }

  lemma {:induction false} SumBounds(xs: seq<real>, lo: real, hi: real)
    requires forall k :: 0 <= k < |xs| ==> lo <= xs[k] <= hi
    ensures lo * |xs| as real <= Sum(xs) <= hi * |xs| as real
  {
    if xs != [] {
      SumBounds(xs[..|xs| - 1], lo, hi);
    }
  }

  /** A rolling mean lies between the least and the greatest value of its window. */
  lemma RollingMeanBounds(xs: seq<real>, w: nat, i: nat, lo: real, hi: real)
    requires w > 0 && w <= i + 1 && i < |xs|
    requires forall k :: i + 1 - w <= k <= i ==> lo <= xs[k] <= hi
    ensures RollingMean(xs, w)[i].Some?
    ensures lo <= RollingMean(xs, w)[i].value <= hi
  {
    var window := xs[i + 1 - w..i + 1];
    assert forall k :: 0 <= k < |window| ==> window[k] == xs[i + 1 - w + k];
    SumBounds(window, lo, hi);
    assert RollingMean(xs, w)[i] == Some(Sum(window) / w as real);
    DivideBounds(Sum(window), w as real, lo, hi);
  }

  lemma DivideBounds(total: real, n: real, lo: real, hi: real)
    requires n > 0.0 && lo * n <= total <= hi * n
    ensures lo <= total / n <= hi
  {
    assert total / n * n == total;
  }

  /** The lag lengths and window lengths of the feature loops. */
  const LAGS: seq<nat> := [7, 14, 21]
  const WINDOWS: seq<nat> := [7, 14]

  /** The calendar attributes of a date: `dt.month` and the sine and cosine of `dt.dayofyear`. */
  datatype CalendarFields = CalendarFields(month: nat, doySin: real, doyCos: real)

  function BaseColumns(rows: seq<SeriesRow>): seq<Column> {
    [Column("temperature", Somes(Series(rows, Temperature))),
     Column("humidity", Somes(Series(rows, Humidity))),
     Column("rainfall", Somes(Series(rows, Rainfall))),
     Column("eggs", Somes(Series(rows, Eggs)))]
  }

  /** The three columns one pass of the lag loop adds. */
  function LagTriple(rows: seq<SeriesRow>, l: nat): seq<Column> {
    [Column("rainfall_lag_" + Text.NatToString(l), Shift(Series(rows, Rainfall), l)),
     Column("temp_lag_" + Text.NatToString(l), Shift(Series(rows, Temperature), l)),
     Column("hum_lag_" + Text.NatToString(l), Shift(Series(rows, Humidity), l))]
  }

  function LagColumns(rows: seq<SeriesRow>, ls: seq<nat>): seq<Column> {
    if ls == [] then [] else LagColumns(rows, ls[..|ls| - 1]) + LagTriple(rows, ls[|ls| - 1])
  }

  /** The three columns one pass of the rolling loop adds. */
  function RollTriple(rows: seq<SeriesRow>, w: nat): seq<Column>
    requires w > 0
  {
    [Column("rainfall_roll_" + Text.NatToString(w), RollingMean(Series(rows, Rainfall), w)),
     Column("temp_roll_" + Text.NatToString(w), RollingMean(Series(rows, Temperature), w)),
     Column("hum_roll_" + Text.NatToString(w), RollingMean(Series(rows, Humidity), w))]
  }

  predicate Positive(ws: seq<nat>) {
    forall j :: 0 <= j < |ws| ==> ws[j] > 0
  }

  function RollColumns(rows: seq<SeriesRow>, ws: seq<nat>): seq<Column>
    requires Positive(ws)
  {
    if ws == [] then [] else RollColumns(rows, ws[..|ws| - 1]) + RollTriple(rows, ws[|ws| - 1])
  }

  function CalendarColumns(rows: seq<SeriesRow>, calendar: nat -> CalendarFields): seq<Column> {
    [Column("month", seq(|rows|, i requires 0 <= i < |rows| => Some(calendar(rows[i].date).month as real))),
     Column("doy_sin", seq(|rows|, i requires 0 <= i < |rows| => Some(calendar(rows[i].date).doySin))),
     Column("doy_cos", seq(|rows|, i requires 0 <= i < |rows| => Some(calendar(rows[i].date).doyCos)))]
  }

  /** Every column of `cols` has n values. */
  predicate HasLength(cols: seq<Column>, n: nat) {
    forall k :: 0 <= k < |cols| ==> |cols[k].values| == n
  }

  /** No column of `cols` is NaN at row i. */
  predicate RowPresent(cols: seq<Column>, i: nat) {
    forall k :: 0 <= k < |cols| ==> i < |cols[k].values| && cols[k].values[i].Some?
  }

  lemma RowPresentConcat(a: seq<Column>, b: seq<Column>, i: nat)
    ensures RowPresent(a + b, i) <==> RowPresent(a, i) && RowPresent(b, i)
  {
    if RowPresent(a, i) && RowPresent(b, i) {
      forall k | 0 <= k < |a + b|
        ensures i < |(a + b)[k].values| && (a + b)[k].values[i].Some?
      {
        if k >= |a| {
          assert (a + b)[k] == b[k - |a|];
        }
      }
    }
    if RowPresent(a + b, i) {
      forall k | 0 <= k < |a|
        ensures i < |a[k].values| && a[k].values[i].Some?
      {
        assert (a + b)[k] == a[k];
      }
      forall k | 0 <= k < |b|
        ensures i < |b[k].values| && b[k].values[i].Some?
      {
        assert (a + b)[|a| + k] == b[k];
      }
    }
  }

  lemma {:induction false} LagColumnsLength(rows: seq<SeriesRow>, ls: seq<nat>)
    ensures HasLength(LagColumns(rows, ls), |rows|)
  {
    if ls != [] {
      LagColumnsLength(rows, ls[..|ls| - 1]);
    }
  }

  lemma {:induction false} RollColumnsLength(rows: seq<SeriesRow>, ws: seq<nat>)
    requires Positive(ws)
    ensures HasLength(RollColumns(rows, ws), |rows|)
  {
    if ws != [] {
      RollColumnsLength(rows, ws[..|ws| - 1]);
    }
  }

  lemma LagTriplePresent(rows: seq<SeriesRow>, l: nat, i: nat)
    requires i < |rows|
    ensures RowPresent(LagTriple(rows, l), i) <==> l <= i
  {
    var t := LagTriple(rows, l);
    ShiftAt(Series(rows, Rainfall), l, i);
    ShiftAt(Series(rows, Temperature), l, i);
    ShiftAt(Series(rows, Humidity), l, i);
    if i < l {
      assert t[0].values[i].None?;
    }
  }

  lemma RollTriplePresent(rows: seq<SeriesRow>, w: nat, i: nat)
    requires i < |rows| && w > 0
    ensures RowPresent(RollTriple(rows, w), i) <==> w <= i + 1
  {
    var t := RollTriple(rows, w);
    if i + 1 < w {
      assert t[0].values[i].None?;
    }
  }

  /** Row i of the lag columns is complete exactly when i is at least every lag. */
  lemma AllAtMostSnoc(xs: seq<nat>, init: seq<nat>, bound: nat)
    requires xs != [] && init == xs[..|xs| - 1]
    ensures (forall j :: 0 <= j < |xs| ==> xs[j] <= bound) <==>
      (forall j :: 0 <= j < |init| ==> init[j] <= bound) && xs[|xs| - 1] <= bound
  {
    assert forall j :: 0 <= j < |init| ==> init[j] == xs[j];
  }

  lemma {:induction false} LagColumnsPresent(rows: seq<SeriesRow>, ls: seq<nat>, i: nat)
    requires i < |rows|
    ensures RowPresent(LagColumns(rows, ls), i) <==> forall j :: 0 <= j < |ls| ==> ls[j] <= i
  {
    if ls != [] {
      var init, l := ls[..|ls| - 1], ls[|ls| - 1];
      LagColumnsPresent(rows, init, i);
      LagTriplePresent(rows, l, i);
      RowPresentConcat(LagColumns(rows, init), LagTriple(rows, l), i);
      AllAtMostSnoc(ls, init, i);
    }
  }

  /** Row i of the rolling columns is complete exactly when every window fits in rows 0 to i. */
  lemma {:induction false} RollColumnsPresent(rows: seq<SeriesRow>, ws: seq<nat>, i: nat)
    requires i < |rows| && Positive(ws)
    ensures RowPresent(RollColumns(rows, ws), i) <==> forall j :: 0 <= j < |ws| ==> ws[j] <= i + 1
  {
    if ws != [] {
      var init, w := ws[..|ws| - 1], ws[|ws| - 1];
      RollColumnsPresent(rows, init, i);
      RollTriplePresent(rows, w, i);
      RowPresentConcat(RollColumns(rows, init), RollTriple(rows, w), i);
      AllAtMostSnoc(ws, init, i + 1);
    }
  }

  /** The frame `engineer_features` holds just before `dropna`, for rows already in date order. */
  function Features(rows: seq<SeriesRow>, calendar: nat -> CalendarFields): (f: Frame)
    ensures WellShaped(f) && |f.dates| == |rows|
  {
    LagColumnsLength(rows, LAGS);
    RollColumnsLength(rows, WINDOWS);
    var f := Frame(Dates(rows),
      BaseColumns(rows) + LagColumns(rows, LAGS) + RollColumns(rows, WINDOWS) + CalendarColumns(rows, calendar));
    assert HasLength(BaseColumns(rows) + LagColumns(rows, LAGS), |rows|);
    assert HasLength(BaseColumns(rows) + LagColumns(rows, LAGS) + RollColumns(rows, WINDOWS), |rows|);
    f
  }

  /** A row of the feature frame has no NaN exactly when it is row 21 or later. */
  lemma FeaturesRowPresent(rows: seq<SeriesRow>, calendar: nat -> CalendarFields, i: nat)
    requires i < |rows|
    ensures RowPresent(Features(rows, calendar).columns, i) <==> i >= 21
  {
    var base, lags, rolls, cal := BaseColumns(rows), LagColumns(rows, LAGS), RollColumns(rows, WINDOWS), CalendarColumns(rows, calendar);
    LagColumnsPresent(rows, LAGS, i);
    RollColumnsPresent(rows, WINDOWS, i);
    assert RowPresent(base, i) && RowPresent(cal, i);
    RowPresentConcat(base, lags, i);
    RowPresentConcat(base + lags, rolls, i);
    RowPresentConcat(base + lags + rolls, cal, i);
    assert (forall j :: 0 <= j < |LAGS| ==> LAGS[j] <= i) <==> i >= 21;
    assert (forall j :: 0 <= j < |WINDOWS| ==> WINDOWS[j] <= i + 1) <==> i >= 13;
  }

  // ---------------------------------------------------------------------------
  // dropna().reset_index(drop=True)
  // ---------------------------------------------------------------------------

  /** The complete rows among the first n, in ascending order. */
  function PresentRows(f: Frame, n: nat): (r: seq<nat>)
    requires WellShaped(f) && n <= |f.dates|
    ensures forall j :: 0 <= j < |r| ==> r[j] < n && RowPresent(f.columns, r[j])
    ensures forall i :: 0 <= i < n && RowPresent(f.columns, i) ==> i in r
    ensures forall a, b :: 0 <= a < b < |r| ==> r[a] < r[b]
  {
    if n == 0 then [] else PresentRows(f, n - 1) + (if RowPresent(f.columns, n - 1) then [n - 1] else [])
  }

  /** The frame made of the rows `idx` of `f`, numbered afresh from 0. */
  function KeepRows(f: Frame, idx: seq<nat>): (r: Frame)
    requires WellShaped(f) && forall j :: 0 <= j < |idx| ==> idx[j] < |f.dates|
    ensures WellShaped(r) && |r.dates| == |idx| && |r.columns| == |f.columns|
    ensures forall j :: 0 <= j < |idx| ==> r.dates[j] == f.dates[idx[j]]
    ensures forall k, j :: 0 <= k < |f.columns| && 0 <= j < |idx| ==>
      r.columns[k].name == f.columns[k].name && r.columns[k].values[j] == f.columns[k].values[idx[j]]
  {
    Frame(seq(|idx|, j requires 0 <= j < |idx| => f.dates[idx[j]]),
          seq(|f.columns|, k requires 0 <= k < |f.columns| =>
            Column(f.columns[k].name, seq(|idx|, j requires 0 <= j < |idx| => f.columns[k].values[idx[j]]))))
  }

  /** `dropna()`: the rows with no NaN, renumbered; no NaN is left. */
  function DropNa(f: Frame): (r: Frame)
    requires WellShaped(f)
    ensures WellShaped(r) && ColumnNames(r.columns) == ColumnNames(f.columns)
    ensures forall j :: 0 <= j < |r.dates| ==> RowPresent(r.columns, j)
  {
    var idx := PresentRows(f, |f.dates|);
    KeepRowsNames(f, idx);
    KeepPresentRows(f, idx);
    KeepRows(f, idx)
  }

  lemma KeepRowsNames(f: Frame, idx: seq<nat>)
    requires WellShaped(f) && forall j :: 0 <= j < |idx| ==> idx[j] < |f.dates|
    ensures ColumnNames(KeepRows(f, idx).columns) == ColumnNames(f.columns)
  {
    var r := KeepRows(f, idx);
    assert forall k :: 0 <= k < |f.columns| ==> ColumnNames(r.columns)[k] == ColumnNames(f.columns)[k];
  }

  lemma KeepPresentRows(f: Frame, idx: seq<nat>)
    requires WellShaped(f) && forall j :: 0 <= j < |idx| ==> idx[j] < |f.dates| && RowPresent(f.columns, idx[j])
    ensures forall j :: 0 <= j < |idx| ==> RowPresent(KeepRows(f, idx).columns, j)
  {
  }

  /**
   * `dropna()` keeps exactly the complete rows, in their original order: the
   * kept rows are those of `f` at strictly increasing indices, and an index is
   * among them when, and only when, its row has no NaN.
   */
  lemma DropNaKeepsCompleteRowsInOrder(f: Frame)
    requires WellShaped(f)
    ensures var r := DropNa(f);
      exists idx: seq<nat> ::
        && |idx| == |r.dates|
        && (forall a, b :: 0 <= a < b < |idx| ==> idx[a] < idx[b])
        && (forall i :: 0 <= i < |f.dates| ==> (i in idx <==> RowPresent(f.columns, i)))
        && (forall j :: 0 <= j < |idx| ==> idx[j] < |f.dates| && r.dates[j] == f.dates[idx[j]])
        && (forall k, j :: 0 <= k < |f.columns| && 0 <= j < |idx| ==>
              r.columns[k].values[j] == f.columns[k].values[idx[j]])
  {
    var idx := PresentRows(f, |f.dates|);
    assert DropNa(f) == KeepRows(f, idx);
  }

  /** Rows lo to hi - 1 of `f`. */
  function Slice(f: Frame, lo: nat, hi: nat): (r: Frame)
    requires WellShaped(f) && lo <= hi <= |f.dates|
    ensures WellShaped(r) && |r.dates| == hi - lo && ColumnNames(r.columns) == ColumnNames(f.columns)
  {
    Frame(f.dates[lo..hi],
          seq(|f.columns|, k requires 0 <= k < |f.columns| => Column(f.columns[k].name, f.columns[k].values[lo..hi])))
  }

  function Range(lo: nat, hi: nat): (r: seq<nat>)
    requires lo <= hi
    ensures |r| == hi - lo && forall j :: 0 <= j < |r| ==> r[j] == lo + j
  {
    seq(hi - lo, j requires 0 <= j < hi - lo => lo + j)
  }

  lemma RangeSnoc(lo: nat, hi: nat)
    requires lo <= hi
    ensures Range(lo, hi) + [hi] == Range(lo, hi + 1)
  {
  }

  function Min(a: nat, b: nat): nat {
    if a < b then a else b
  }

  /** When exactly the rows from m on are complete, they are the ones `dropna` keeps. */
  lemma {:induction false} PresentRowsFrom(f: Frame, n: nat, m: nat)
    requires WellShaped(f) && n <= |f.dates|
    requires forall i :: 0 <= i < n ==> (RowPresent(f.columns, i) <==> i >= m)
    ensures PresentRows(f, n) == Range(Min(m, n), n)
  {
    if n > 0 {
      PresentRowsFrom(f, n - 1, m);
      assert PresentRows(f, n - 1) == Range(Min(m, n - 1), n - 1);
      if n - 1 >= m {
        assert RowPresent(f.columns, n - 1);
        assert PresentRows(f, n) == Range(m, n - 1) + [n - 1];
        RangeSnoc(m, n - 1);
      } else {
        assert !RowPresent(f.columns, n - 1);
        assert PresentRows(f, n) == Range(n - 1, n - 1);
      }
    }
  }

  lemma KeepRange(f: Frame, lo: nat)
    requires WellShaped(f) && lo <= |f.dates|
    ensures KeepRows(f, Range(lo, |f.dates|)) == Slice(f, lo, |f.dates|)
  {
    var a, b := KeepRows(f, Range(lo, |f.dates|)), Slice(f, lo, |f.dates|);
    assert a.dates == b.dates;
    forall k | 0 <= k < |f.columns|
      ensures a.columns[k] == b.columns[k]
    {
      assert a.columns[k].values == b.columns[k].values;
    }
    assert a.columns == b.columns;
  }

  /** After `dropna` the feature frame is rows 21 to N - 1 of the sorted input, in order. */
  lemma DropNaOfFeatures(rows: seq<SeriesRow>, calendar: nat -> CalendarFields)
    ensures DropNa(Features(rows, calendar)) == Slice(Features(rows, calendar), Min(21, |rows|), |rows|)
  {
    var f := Features(rows, calendar);
    forall i | 0 <= i < |rows|
      ensures RowPresent(f.columns, i) <==> i >= 21
    {
      FeaturesRowPresent(rows, calendar, i);
    }
    PresentRowsFrom(f, |rows|, 21);
    KeepRange(f, Min(21, |rows|));
  }

  /**
   * `engineer_features(df)`: sort a copy by date, add the lag columns for
   * l in 7, 14, 21 and the rolling means for w in 7, 14, then the calendar
   * columns, and drop the rows with a NaN. The caller's rows are a value and
   * stay as they are.
   */
  method EngineerFeatures(df: seq<SeriesRow>, calendar: nat -> CalendarFields) returns (out: Frame)
    ensures out == DropNa(Features(SortByDate(df), calendar))
    ensures out == Slice(Features(SortByDate(df), calendar), Min(21, |df|), |df|)
    ensures |out.dates| == if |df| > 21 then |df| - 21 else 0
    ensures forall i, j :: 0 <= i < j < |out.dates| ==> out.dates[i] <= out.dates[j]
    ensures DistinctDates(df) ==> forall i, j :: 0 <= i < j < |out.dates| ==> out.dates[i] < out.dates[j]
  {
    var rows := SortByDate(df);
    var frame := Frame(Dates(rows), BaseColumns(rows));
    frame := AddLags(rows, frame);
    frame := AddRollingMeans(rows, frame);
    frame := AddCalendar(rows, calendar, frame);
    assert frame == Features(rows, calendar);
    out := DropNa(frame);
    DropNaOfFeatures(rows, calendar);
    SlicedDatesAscend(rows, calendar, Min(21, |df|));
    if DistinctDates(df) {
      EngineeredDatesStrict(df, calendar);
    }
  }

  /** `for l in [7, 14, 21]`: three lag columns per pass. */
  method AddLags(rows: seq<SeriesRow>, start: Frame) returns (frame: Frame)
    ensures frame == Frame(start.dates, start.columns + LagColumns(rows, LAGS))
  {
    frame := start;
    for i := 0 to |LAGS|
      invariant frame == Frame(start.dates, start.columns + LagColumns(rows, LAGS[..i]))
    {
      var l := LAGS[i];
      var before := frame.columns;
      var rainfallLag := Column("rainfall_lag_" + Text.NatToString(l), Shift(Series(rows, Rainfall), l));
      var tempLag := Column("temp_lag_" + Text.NatToString(l), Shift(Series(rows, Temperature), l));
      var humLag := Column("hum_lag_" + Text.NatToString(l), Shift(Series(rows, Humidity), l));
      frame := AddColumn(frame, rainfallLag);
      frame := AddColumn(frame, tempLag);
      frame := AddColumn(frame, humLag);
      LagColumnsStep(rows, LAGS, i);
      assert frame.columns == before + LagTriple(rows, l);
    }
    assert LAGS[..|LAGS|] == LAGS;
  }

  lemma LagColumnsStep(rows: seq<SeriesRow>, ls: seq<nat>, i: nat)
    requires i < |ls|
    ensures LagColumns(rows, ls[..i + 1]) == LagColumns(rows, ls[..i]) + LagTriple(rows, ls[i])
  {
    assert ls[..i + 1][..i] == ls[..i];
  }

  lemma RollColumnsStep(rows: seq<SeriesRow>, ws: seq<nat>, i: nat)
    requires Positive(ws) && i < |ws|
    ensures Positive(ws[..i]) && Positive(ws[..i + 1])
    ensures RollColumns(rows, ws[..i + 1]) == RollColumns(rows, ws[..i]) + RollTriple(rows, ws[i])
  {
    assert ws[..i + 1][..i] == ws[..i];
  }

  /** `for w in [7, 14]`: three rolling-mean columns per pass. */
  method AddRollingMeans(rows: seq<SeriesRow>, start: Frame) returns (frame: Frame)
    ensures frame == Frame(start.dates, start.columns + RollColumns(rows, WINDOWS))
  {
    frame := start;
    for i := 0 to |WINDOWS|
      invariant frame == Frame(start.dates, start.columns + RollColumns(rows, WINDOWS[..i]))
    {
      var w := WINDOWS[i];
      var before := frame.columns;
      var rainfallRoll := Column("rainfall_roll_" + Text.NatToString(w), RollingMean(Series(rows, Rainfall), w));
      var tempRoll := Column("temp_roll_" + Text.NatToString(w), RollingMean(Series(rows, Temperature), w));
      var humRoll := Column("hum_roll_" + Text.NatToString(w), RollingMean(Series(rows, Humidity), w));
      frame := AddColumn(frame, rainfallRoll);
      frame := AddColumn(frame, tempRoll);
      frame := AddColumn(frame, humRoll);
      RollColumnsStep(rows, WINDOWS, i);
      assert frame.columns == before + RollTriple(rows, w);
    }
    assert WINDOWS[..|WINDOWS|] == WINDOWS;
  }

  /** The month and day-of-year columns. */
  method AddCalendar(rows: seq<SeriesRow>, calendar: nat -> CalendarFields, start: Frame) returns (frame: Frame)
    ensures frame == Frame(start.dates, start.columns + CalendarColumns(rows, calendar))
  {
    var calendarColumns := CalendarColumns(rows, calendar);
    frame := AddColumn(start, calendarColumns[0]);
    frame := AddColumn(frame, calendarColumns[1]);
    frame := AddColumn(frame, calendarColumns[2]);
    assert frame.columns == start.columns + calendarColumns;
  }

  lemma SlicedDatesAscend(rows: seq<SeriesRow>, calendar: nat -> CalendarFields, lo: nat)
    requires SortedByDate(rows) && lo <= |rows|
    ensures var d := Slice(Features(rows, calendar), lo, |rows|).dates;
      forall i, j :: 0 <= i < j < |d| ==> d[i] <= d[j]
  {
    var d := Slice(Features(rows, calendar), lo, |rows|).dates;
    assert forall i :: 0 <= i < |d| ==> d[i] == rows[lo + i].date;
  }

  /** Input rows with distinct dates give a feature table whose dates strictly ascend. */
  lemma EngineeredDatesStrict(df: seq<SeriesRow>, calendar: nat -> CalendarFields)
    requires DistinctDates(df)
    ensures var d := DropNa(Features(SortByDate(df), calendar)).dates;
      forall i, j :: 0 <= i < j < |d| ==> d[i] < d[j]
  {
    var rows := SortByDate(df);
    SortKeepsDistinctDates(df);
    DropNaOfFeatures(rows, calendar);
    SlicedDatesStrict(rows, calendar, Min(21, |rows|));
  }

  lemma SlicedDatesStrict(rows: seq<SeriesRow>, calendar: nat -> CalendarFields, lo: nat)
    requires StrictlyByDate(rows)
    requires lo <= |rows|
    ensures var d := Slice(Features(rows, calendar), lo, |rows|).dates;
      forall i, j :: 0 <= i < j < |d| ==> d[i] < d[j]
  {
    var d := Slice(Features(rows, calendar), lo, |rows|).dates;
    assert forall i :: 0 <= i < |d| ==> d[i] == rows[lo + i].date;
  }

  // ---------------------------------------------------------------------------
  // train_evaluate: the split and the predictor columns
  // ---------------------------------------------------------------------------

  /** `int(n * 0.8)`: the greatest integer not above 0.8 n. */
  function SplitIndex(n: nat): (s: nat)
    ensures s <= n
    ensures s as real <= 0.8 * n as real < s as real + 1.0
    ensures 0 < n ==> s < n
    ensures s == 0 <==> n < 2
  {
    n * 4 / 5
  }

  /** `df.iloc[:split]` and `df.iloc[split:]`. */
  function TrainTest(f: Frame): (r: (Frame, Frame))
    requires WellShaped(f)
  {
    var s := SplitIndex(|f.dates|);
    (Slice(f, 0, s), Slice(f, s, |f.dates|))
  }

  /**
   * The split is a partition of the rows: train has the first `SplitIndex(n)` rows,
   * test the rest, and train followed by test is the frame again, column by column.
   */
  lemma SplitIsPartition(f: Frame)
    requires WellShaped(f)
    ensures var (train, test) := TrainTest(f);
      && |train.dates| == SplitIndex(|f.dates|)
      && train.dates + test.dates == f.dates
      && |train.columns| == |test.columns| == |f.columns|
      && forall k :: 0 <= k < |f.columns| ==>
           train.columns[k].name == test.columns[k].name == f.columns[k].name
           && train.columns[k].values + test.columns[k].values == f.columns[k].values
  {
    var s := SplitIndex(|f.dates|);
    assert f.dates[0..s] + f.dates[s..] == f.dates;
    forall k | 0 <= k < |f.columns|
      ensures f.columns[k].values[0..s] + f.columns[k].values[s..|f.dates|] == f.columns[k].values
    {
    }
  }

  /** With the rows in date order, no training row is dated after a test row. */
  lemma TrainPrecedesTest(f: Frame)
    requires WellShaped(f)
    requires forall i, j :: 0 <= i < j < |f.dates| ==> f.dates[i] <= f.dates[j]
    ensures var (train, test) := TrainTest(f);
      forall i, j :: 0 <= i < |train.dates| && 0 <= j < |test.dates| ==> train.dates[i] <= test.dates[j]
  {
    var s := SplitIndex(|f.dates|);
    var (train, test) := TrainTest(f);
    forall i, j | 0 <= i < |train.dates| && 0 <= j < |test.dates|
      ensures train.dates[i] <= test.dates[j]
    {
      assert train.dates[i] == f.dates[i] && test.dates[j] == f.dates[s + j];
    }
  }

  /** With strictly ascending dates, every training row is dated before every test row. */
  lemma TrainStrictlyPrecedesTest(f: Frame)
    requires WellShaped(f)
    requires forall i, j :: 0 <= i < j < |f.dates| ==> f.dates[i] < f.dates[j]
    ensures var (train, test) := TrainTest(f);
      forall i, j :: 0 <= i < |train.dates| && 0 <= j < |test.dates| ==> train.dates[i] < test.dates[j]
  {
    var s := SplitIndex(|f.dates|);
    var (train, test) := TrainTest(f);
    forall i, j | 0 <= i < |train.dates| && 0 <= j < |test.dates|
      ensures train.dates[i] < test.dates[j]
    {
      assert train.dates[i] == f.dates[i] && test.dates[j] == f.dates[s + j];
    }
  }

  /**
   * On the synthetic series (one row per day) the feature table has strictly
   * ascending dates, so the model is trained only on days before every test day.
   */
  lemma SynthesizedTrainPrecedesTest(days: nat, draws: ClimateDraws, calendar: nat -> CalendarFields)
    ensures var out := DropNa(Features(SortByDate(SynthesizeData(days, draws)), calendar));
      var (train, test) := TrainTest(out);
      forall i, j :: 0 <= i < |train.dates| && 0 <= j < |test.dates| ==> train.dates[i] < test.dates[j]
  {
    var rows := SynthesizeData(days, draws);
    SynthesizedIsSorted(days, draws);
    DropNaOfFeatures(rows, calendar);
    SlicedDatesStrict(rows, calendar, Min(21, |rows|));
    TrainStrictlyPrecedesTest(DropNa(Features(rows, calendar)));
  }

  /** `[c for c in df_feat.columns if c not in ['date', 'eggs']]`. */
  function FeatureColumns(names: seq<string>): (r: seq<string>)
    ensures forall x :: x in r <==> x in names && x != "date" && x != "eggs"
    ensures |r| <= |names|
  {
    if names == [] then []
    else
      var last := names[|names| - 1];
      assert names == names[..|names| - 1] + [last];
      FeatureColumns(names[..|names| - 1]) + (if last != "date" && last != "eggs" then [last] else [])
  }

  lemma ColumnNamesConcat(a: seq<Column>, b: seq<Column>)
    ensures ColumnNames(a + b) == ColumnNames(a) + ColumnNames(b)
  {
    assert forall k :: 0 <= k < |a + b| ==> ColumnNames(a + b)[k] == (ColumnNames(a) + ColumnNames(b))[k];
  }

  /** Every name in `cols` is longer than `date` and `eggs`. */
  predicate LongNames(cols: seq<Column>) {
    forall k :: 0 <= k < |cols| ==> |cols[k].name| > 4
  }

  lemma {:induction false} LagNamesLong(rows: seq<SeriesRow>, ls: seq<nat>)
    ensures LongNames(LagColumns(rows, ls))
  {
    if ls != [] {
      LagNamesLong(rows, ls[..|ls| - 1]);
    }
  }

  lemma {:induction false} RollNamesLong(rows: seq<SeriesRow>, ws: seq<nat>)
    requires Positive(ws)
    ensures LongNames(RollColumns(rows, ws))
  {
    if ws != [] {
      RollNamesLong(rows, ws[..|ws| - 1]);
    }
  }

  lemma {:induction false} FeatureColumnsConcat(a: seq<string>, b: seq<string>)
    ensures FeatureColumns(a + b) == FeatureColumns(a) + FeatureColumns(b)
    decreases |b|
  {
    if b != [] {
      var init := b[..|b| - 1];
      assert (a + b)[..|a + b| - 1] == a + init;
      FeatureColumnsConcat(a, init);
    } else {
      assert a + b == a;
    }
  }

  /** Columns other than `date` and `eggs` are kept in their order. */
  lemma {:induction false} FeatureColumnsKeep(a: seq<string>)
    requires "date" !in a && "eggs" !in a
    ensures FeatureColumns(a) == a
  {
    if a != [] {
      var init := a[..|a| - 1];
      assert forall x :: x in init ==> x in a;
      FeatureColumnsKeep(init);
      assert a == init + [a[|a| - 1]];
    }
  }

  lemma BaseNames(rows: seq<SeriesRow>)
    ensures ColumnNames(BaseColumns(rows)) == ["temperature", "humidity", "rainfall", "eggs"]
  {
    var names := ColumnNames(BaseColumns(rows));
    assert |names| == 4;
    assert names[0] == "temperature" && names[1] == "humidity" && names[2] == "rainfall" && names[3] == "eggs";
  }

  lemma LongNamesConcat(a: seq<Column>, b: seq<Column>)
    requires LongNames(a) && LongNames(b)
    ensures LongNames(a + b)
  {
    assert forall k :: 0 <= k < |a + b| ==> (a + b)[k] == if k < |a| then a[k] else b[k - |a|];
  }

  /** The columns the feature step derives from the four series. */
  function DerivedColumns(rows: seq<SeriesRow>, calendar: nat -> CalendarFields): seq<Column> {
    LagColumns(rows, LAGS) + RollColumns(rows, WINDOWS) + CalendarColumns(rows, calendar)
  }

  lemma DerivedNamesLong(rows: seq<SeriesRow>, calendar: nat -> CalendarFields)
    ensures LongNames(DerivedColumns(rows, calendar))
  {
    var lags, rolls := LagColumns(rows, LAGS), RollColumns(rows, WINDOWS);
    LagNamesLong(rows, LAGS);
    RollNamesLong(rows, WINDOWS);
    LongNamesConcat(lags, rolls);
    LongNamesConcat(lags + rolls, CalendarColumns(rows, calendar));
  }

  /** The frame's names: `date`, the four series, then the long derived names. */
  lemma FeatureNamesShape(rows: seq<SeriesRow>, calendar: nat -> CalendarFields)
    ensures Names(Features(rows, calendar)) == HEAD_NAMES + ColumnNames(DerivedColumns(rows, calendar))
  {
    var base, rest := BaseColumns(rows), DerivedColumns(rows, calendar);
    assert Features(rows, calendar).columns == base + rest;
    ColumnNamesConcat(base, rest);
    BaseNames(rows);
    assert HEAD_NAMES == ["date"] + ColumnNames(base);
  }

  const HEAD_NAMES: seq<string> := ["date", "temperature", "humidity", "rainfall", "eggs"]

  lemma FeatureColumnsSnoc(a: seq<string>, x: string)
    ensures FeatureColumns(a + [x]) == FeatureColumns(a) + (if x != "date" && x != "eggs" then [x] else [])
  {
    assert (a + [x])[..|a|] == a;
  }

  lemma FeatureColumnsOfHead()
    ensures FeatureColumns(HEAD_NAMES) == ["temperature", "humidity", "rainfall"]
  {
    var h1, h2, h3, h4 := ["date"], ["date", "temperature"], ["date", "temperature", "humidity"], ["date", "temperature", "humidity", "rainfall"];
    assert h1 == [] + ["date"] && h2 == h1 + ["temperature"] && h3 == h2 + ["humidity"];
    assert h4 == h3 + ["rainfall"] && HEAD_NAMES == h4 + ["eggs"];
    FeatureColumnsSnoc([], "date");
    FeatureColumnsSnoc(h1, "temperature");
    FeatureColumnsSnoc(h2, "humidity");
    FeatureColumnsSnoc(h3, "rainfall");
    FeatureColumnsSnoc(h4, "eggs");
  }

  lemma LongNamesKept(cols: seq<Column>)
    requires LongNames(cols)
    ensures FeatureColumns(ColumnNames(cols)) == ColumnNames(cols)
  {
    var names := ColumnNames(cols);
    assert forall x :: x in names ==> |x| > 4;
    FeatureColumnsKeep(names);
  }

  /**
   * On the engineered frame the predictors are all columns but `date` and
   * `eggs`, in frame order: the target is never a predictor.
   */
  lemma PredictorsOfFeatures(rows: seq<SeriesRow>, calendar: nat -> CalendarFields)
    ensures FeatureColumns(Names(Features(rows, calendar)))
      == ["temperature", "humidity", "rainfall"] + ColumnNames(DerivedColumns(rows, calendar))
    ensures "eggs" !in FeatureColumns(Names(Features(rows, calendar)))
  {
    var rest := DerivedColumns(rows, calendar);
    FeatureNamesShape(rows, calendar);
    FeatureColumnsConcat(HEAD_NAMES, ColumnNames(rest));
    FeatureColumnsOfHead();
    DerivedNamesLong(rows, calendar);
    LongNamesKept(rest);
  }

  /** With the default 900 days: 879 rows survive `dropna`, split 703 / 176. */
  lemma DefaultSizes(df: seq<SeriesRow>, calendar: nat -> CalendarFields)
    requires |df| == 900
    ensures var out := DropNa(Features(SortByDate(df), calendar));
      |out.dates| == 879 && SplitIndex(879) == 703 && |TrainTest(out).1.dates| == 176
  {
    DropNaOfFeatures(SortByDate(df), calendar);
  }
}
