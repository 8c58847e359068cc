/** Recursive (autoregressive) forecaster for one parking lot: each synthesized
    occupancy value is appended to the working series and becomes a lag
    feature of the steps after it. */
module LotForecaster {
  import opened Wrappers
  import opened ParkingTypes

  /** Largest lag offset read back from the end of the working series. */
  const MaxLag: nat := 20

  /** Lower bound of an occupancy percentage; the upper one is `Full`. */
  const Floor: real := 0.0

  function Dist(x: real, y: real): real {
    if x <= y then y - x else x - y
  }

  /** The cap applied to every raw prediction: the point of [0, 100] nearest
      to `v`, which leaves values inside the interval unchanged. */
  function Clamp(v: real): (r: real)
    ensures Floor <= r <= Full
    ensures Floor <= v <= Full ==> r == v
    ensures forall y :: Floor <= y <= Full ==> Dist(r, v) <= Dist(y, v)
  {
    if v < Floor then Floor else if v > Full then Full else v
  }

  /** `isWeekend`: 1 on Saturday and Sunday (day of week 5 or 6), else 0. */
  function WeekendFlag(dayOfWeek: int): (flag: int)
    ensures flag == 0 || flag == 1
    ensures flag == 1 <==> dayOfWeek == 5 || dayOfWeek == 6
  {
    if dayOfWeek in {5, 6} then 1 else 0
  }

  /** `iloc[-j]` on the `Occupancy_Rate` column: the occupancy j rows back
      from the end of the series. */
  function Lag(series: seq<Row>, j: nat): (v: real)
    requires 1 <= j <= |series|
    ensures v == series[|series| - j].occupancy
  {
    series[|series| - j].occupancy
  }

  /** The row synthesized for target time `ts` from the series as it stands:
      the body of one loop iteration. */
  function NextRow(series: seq<Row>, ts: Timestamp, scaler: Scaler, model: Model): (row: Row)
    requires |series| >= MaxLag
    ensures row.time == ts
    ensures row.features.dayOfWeek == ts.dayOfWeek
    ensures row.features.isWeekend == 1 <==> ts.dayOfWeek in {5, 6}
    ensures row.features.lag1 == series[|series| - 1].occupancy
    ensures row.features.lag20 == series[|series| - 20].occupancy
    ensures Floor <= row.occupancy <= Full
    ensures row.occupancy == Clamp(model(scaler(row.features)))
  {
    var sample := Features(ts.year, ts.month, ts.day, ts.dayOfWeek, WeekendFlag(ts.dayOfWeek),
                           ts.hour, ts.minute,
                           Lag(series, 1), Lag(series, 2), Lag(series, 3),
                           Lag(series, 18), Lag(series, 19), Lag(series, 20));
    Row(ts, sample, Clamp(model(scaler(sample))))
  }

  /** The working series after `n` steps: the history, then one synthesized
      row per step, each computed from the series extended so far. */
  function Extended(history: seq<Row>, index: seq<Timestamp>, n: nat, scaler: Scaler, model: Model): (ext: seq<Row>)
    requires n == 0 || |history| >= MaxLag
    requires n <= |index|
    ensures |ext| == |history| + n
    ensures ext[..|history|] == history
  {
    if n == 0 then history
    else
      var prev := Extended(history, index, n - 1, scaler, model);
      prev + [NextRow(prev, index[n - 1], scaler, model)]
  }

  /** What `forcast_single_parkLot` returns: the extended series, or None when
      the loop raises (the forecast index has fewer than `steps` entries, or
      the history has fewer rows than the deepest lag). */
  function SingleLotForecast(steps: nat, history: seq<Row>, index: seq<Timestamp>,
                             scaler: Scaler, model: Model): (r: Option<seq<Row>>)
    ensures r.None? <==> steps > 0 && (|history| < MaxLag || steps > |index|)
    ensures r.Some? ==> |r.value| == |history| + steps && r.value[..|history|] == history
  {
    if steps == 0 then Some(history)
    else if |history| < MaxLag || steps > |index| then None
    else Some(Extended(history, index, steps, scaler, model))
  }

  /** `forcast_single_parkLot`: grows a copy of the history one predicted row
      per step. */
  method ForecastSingleLot(steps: nat, history: seq<Row>, index: seq<Timestamp>,
                           scaler: Scaler, model: Model) returns (r: Option<seq<Row>>)
    ensures r == SingleLotForecast(steps, history, index, scaler, model)
  {
    var series := history;
    var step := 0;
    while step < steps
      invariant step <= steps && step <= |index|
      invariant step == 0 || |history| >= MaxLag
      invariant series == Extended(history, index, step, scaler, model)
    {
      if step >= |index| {
        return None;
      }
      var ts := index[step];
      var isWeekend := if ts.dayOfWeek == 5 || ts.dayOfWeek == 6 then 1 else 0;
      var n := |series|;
      if n < MaxLag {
        return None;
      }
      var sample := Features(ts.year, ts.month, ts.day, ts.dayOfWeek, isWeekend, ts.hour, ts.minute,
                             series[n - 1].occupancy, series[n - 2].occupancy, series[n - 3].occupancy,
                             series[n - 18].occupancy, series[n - 19].occupancy, series[n - 20].occupancy);
      var pred := model(scaler(sample));
      pred := if pred < 0.0 then 0.0 else if pred > 100.0 then 100.0 else pred;
      series := series + [Row(ts, sample, pred)];
      step := step + 1;
    }
    return Some(series);
  }

  /** Later steps never rewrite earlier rows: the series after `m` steps is a
      prefix of the series after `n >= m` steps. */
  lemma {:induction false} ExtendedPrefix(history: seq<Row>, index: seq<Timestamp>, m: nat, n: nat,
                                          scaler: Scaler, model: Model)
    requires m <= n <= |index|
    requires n == 0 || |history| >= MaxLag
    ensures Extended(history, index, m, scaler, model)
            == Extended(history, index, n, scaler, model)[..|history| + m]
  {
    if m < n {
      ExtendedPrefix(history, index, m, n - 1, scaler, model);
      var prev := Extended(history, index, n - 1, scaler, model);
      assert Extended(history, index, n, scaler, model)[..|history| + m] == prev[..|history| + m];
    }
  }

  /** Appending a row moves every lag one step further back: what was lag j
      becomes lag j + 1, which is how a prediction becomes a later lag. */
  lemma LagShift(series: seq<Row>, row: Row, j: nat)
    requires 1 <= j <= |series|
    ensures Lag(series + [row], j + 1) == Lag(series, j)
    ensures Lag(series + [row], 1) == row.occupancy
  {
  }

  /** Synthesized row `s` is the row computed from the series after `s` steps. */
  lemma {:induction false} ExtendedRow(history: seq<Row>, index: seq<Timestamp>, n: nat, s: nat,
                    scaler: Scaler, model: Model)
    requires s < n <= |index| && |history| >= MaxLag
    ensures Extended(history, index, n, scaler, model)[|history| + s]
            == NextRow(Extended(history, index, s, scaler, model), index[s], scaler, model)
  {
    ExtendedPrefix(history, index, s + 1, n, scaler, model);
  }

  /** Every synthesized occupancy lies in [0, 100] and is the clamped
      prediction of the model on the scaled features of its own row. */
  lemma {:induction false} SynthesizedBounded(history: seq<Row>, index: seq<Timestamp>, n: nat,
                           scaler: Scaler, model: Model, k: nat)
    requires n <= |index| && |history| >= MaxLag
    requires |history| <= k < |history| + n
    ensures var ext := Extended(history, index, n, scaler, model);
            && Floor <= ext[k].occupancy <= Full
            && ext[k].occupancy == Clamp(model(scaler(ext[k].features)))
  {
    ExtendedRow(history, index, n, k - |history|, scaler, model);
  }

  /** Lag wiring: the lag-j feature of synthesized row k is the occupancy of
      row k - j of the extended series, which for j < k - |history| + 1 is an
      earlier prediction of the same call. */
  lemma {:induction false} LagsReadBack(history: seq<Row>, index: seq<Timestamp>, n: nat,
                     scaler: Scaler, model: Model, k: nat)
    requires n <= |index| && |history| >= MaxLag
    requires |history| <= k < |history| + n
    ensures var ext := Extended(history, index, n, scaler, model);
            && ext[k].features.lag1 == ext[k - 1].occupancy
            && ext[k].features.lag2 == ext[k - 2].occupancy
            && ext[k].features.lag3 == ext[k - 3].occupancy
            && ext[k].features.lag18 == ext[k - 18].occupancy
            && ext[k].features.lag19 == ext[k - 19].occupancy
            && ext[k].features.lag20 == ext[k - 20].occupancy
  {
    var s := k - |history|;
    ExtendedRow(history, index, n, s, scaler, model);
    ExtendedPrefix(history, index, s, n, scaler, model);
  }

  /** Synthesized row s is stamped with `index[s]` and carries that
      timestamp's calendar features, with the weekend flag set exactly on
      days 5 and 6. */
  lemma {:induction false} StampedFromIndex(history: seq<Row>, index: seq<Timestamp>, n: nat,
                         scaler: Scaler, model: Model, s: nat)
    requires s < n <= |index| && |history| >= MaxLag
    ensures var row := Extended(history, index, n, scaler, model)[|history| + s];
            && row.time == index[s]
            && row.features.year == index[s].year
            && row.features.month == index[s].month
            && row.features.day == index[s].day
            && row.features.dayOfWeek == index[s].dayOfWeek
            && row.features.hour == index[s].hour
            && row.features.minute == index[s].minute
            && (row.features.isWeekend == 1 <==> index[s].dayOfWeek in {5, 6})
            && (row.features.isWeekend == 0 <==> index[s].dayOfWeek !in {5, 6})
  {
    ExtendedRow(history, index, n, s, scaler, model);
  }
}
