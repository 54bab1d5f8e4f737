/**
  The forecast callback of the prediction page
  (src/pages/Prediction_panel.py:114-193), reduced to the data it plots: one
  point per forecast step, holding the step's timestamp, the predicted capacity
  percentage and the step's rainfall.
 */
module PredictionPanel {

  import opened Wrappers
  import opened Frames
  import opened Features
  import opened Rainfall
  import opened LagFeatures

  /** One plotted step: x value, capacity-percentage trace, rainfall trace. */
  datatype Point<T> = Point(time: T, percentage: real, rainfall: real)

  /** What the callback returns: an empty figure when the feed gave nothing, a chart, or a raised error. */
  datatype Figure<T> = EmptyFigure | Chart(points: seq<Point<T>>) | Raised(error: PredictError)

  /**
    The frame built from the feed (lines 126-136): the timestamp, the
    precipitation, the calendar columns (derived from the timestamp by the
    opaque `calendarOf`) and `rainfall_current`, a copy of the precipitation.
   */
  function Assemble<T>(series: seq<Sample<T>>, calendarOf: T -> Calendar): (r: Frame<Reading<T>>)
    ensures r.firstLabel == 0 && |r.rows| == |series|
  {
    Frame(seq(|series|, i requires 0 <= i < |series| =>
      Reading(series[i].time, series[i].precipitation, calendarOf(series[i].time), series[i].precipitation)), 0)
  }

  /**
    Row i of the built frame is feed entry i: its time and precipitation, the
    calendar of its time, and `rainfall_current` equal to the precipitation.
   */
  lemma AssembledColumns<T>(series: seq<Sample<T>>, calendarOf: T -> Calendar, i: nat)
    requires i < |series|
    ensures var row := Assemble(series, calendarOf).rows[i];
      && row.time == series[i].time
      && row.precipitation == series[i].precipitation
      && row.calendar == calendarOf(series[i].time)
      && row.rainfallCurrent == row.precipitation
  {
  }

  /** Drops the `time` and `precipitation` columns (lines 144-145); labels are kept. */
  function DropTimeAndPrecipitation<T>(f: Frame<ShiftedReading<T>>): (r: Frame<BaseFeatures>)
    ensures r.firstLabel == f.firstLabel && |r.rows| == |f.rows|
  {
    Frame(seq(|f.rows|, k requires 0 <= k < |f.rows| =>
      BaseFeatures(f.rows[k].reading.calendar, f.rows[k].reading.rainfallCurrent, f.rows[k].rainfallPrevious2Hours)),
      f.firstLabel)
  }

  /** Row k keeps every model-input column of row k: its calendar, its rainfall and its lookback. */
  lemma DroppedColumns<T>(f: Frame<ShiftedReading<T>>, k: nat)
    requires k < |f.rows|
    ensures var row := DropTimeAndPrecipitation(f).rows[k];
      && row.calendar == f.rows[k].reading.calendar
      && row.rainfallCurrent == f.rows[k].reading.rainfallCurrent
      && row.rainfallPrevious2Hours == f.rows[k].rainfallPrevious2Hours
  {
  }

  /**
    Reference definition of the model inputs the callback derives from a feed
    of n steps: one row per step after the first day, with that step's
    calendar and rainfall and the rainfall eight steps earlier.
   */
  function TrimmedFeatures<T>(series: seq<Sample<T>>, calendarOf: T -> Calendar): seq<BaseFeatures> {
    if |series| <= RowsPerDay then []
    else
      seq(|series| - RowsPerDay, k requires 0 <= k < |series| - RowsPerDay =>
        BaseFeatures(calendarOf(series[k + RowsPerDay].time), series[k + RowsPerDay].precipitation,
                     series[k + RowsPerDay - LookbackSteps].precipitation))
  }

  /** Row k of the reference features, read off the feed. */
  lemma TrimmedFeaturesAt<T>(series: seq<Sample<T>>, calendarOf: T -> Calendar, k: nat)
    requires k + RowsPerDay < |series|
    ensures |TrimmedFeatures(series, calendarOf)| == |series| - RowsPerDay
    ensures TrimmedFeatures(series, calendarOf)[k]
      == BaseFeatures(calendarOf(series[k + RowsPerDay].time), series[k + RowsPerDay].precipitation,
                      series[k + RowsPerDay - LookbackSteps].precipitation)
  {
  }

  /** The rows the first day's drop keeps, described directly in terms of the feed. */
  lemma KeptReadings<T>(series: seq<Sample<T>>, calendarOf: T -> Calendar)
    ensures var trimmed := DropFirstDay(CalculateRainfallPrevious2Hours(Assemble(series, calendarOf)));
      && |trimmed.rows| == |TrimmedFeatures(series, calendarOf)|
      && trimmed.firstLabel == RowsPerDay
      && forall k :: 0 <= k < |trimmed.rows| ==>
           trimmed.rows[k] == ShiftedReading(
             Reading(series[k + RowsPerDay].time, series[k + RowsPerDay].precipitation,
                     calendarOf(series[k + RowsPerDay].time), series[k + RowsPerDay].precipitation),
             series[k + RowsPerDay - LookbackSteps].precipitation)
  {
    var df := Assemble(series, calendarOf);
    var shifted := CalculateRainfallPrevious2Hours(df);
    var trimmed := DropFirstDay(shifted);
    forall k | 0 <= k < |trimmed.rows|
      ensures trimmed.rows[k] == ShiftedReading(
             Reading(series[k + RowsPerDay].time, series[k + RowsPerDay].precipitation,
                     calendarOf(series[k + RowsPerDay].time), series[k + RowsPerDay].precipitation),
             series[k + RowsPerDay - LookbackSteps].precipitation)
    {
      assert trimmed.rows[k] == shifted.rows[k + RowsPerDay];
      assert shifted.rows[k + RowsPerDay].reading == df.rows[k + RowsPerDay];
      assert shifted.rows[k + RowsPerDay].rainfallPrevious2Hours == df.rows[k + RowsPerDay - LookbackSteps].precipitation;
    }
  }

  /**
    Assembling, shifting, dropping the first day and dropping the two columns
    yields exactly the reference features, labelled from 96 on.
   */
  lemma FeaturePipeline<T>(series: seq<Sample<T>>, calendarOf: T -> Calendar)
    ensures var f := DropTimeAndPrecipitation(DropFirstDay(CalculateRainfallPrevious2Hours(Assemble(series, calendarOf))));
      f.rows == TrimmedFeatures(series, calendarOf) && f.firstLabel == RowsPerDay
  {
    var trimmed := DropFirstDay(CalculateRainfallPrevious2Hours(Assemble(series, calendarOf)));
    KeptReadings(series, calendarOf);
    var f := DropTimeAndPrecipitation(trimmed);
    var t := TrimmedFeatures(series, calendarOf);
    forall k | 0 <= k < |t|
      ensures f.rows[k] == t[k]
    {
      assert f.rows[k] == BaseFeatures(trimmed.rows[k].reading.calendar, trimmed.rows[k].reading.rainfallCurrent,
                                       trimmed.rows[k].rainfallPrevious2Hours);
      TrimmedFeaturesAt(series, calendarOf, k);
    }
  }

  /** The model-input frame of lines 126-145 and the timestamps set aside for plotting (line 141). */
  datatype Prepared<T> = Prepared(features: Frame<BaseFeatures>, times: seq<T>)

  /** The `time` column of a frame of shifted readings (line 141). */
  function TimeColumn<T>(f: Frame<ShiftedReading<T>>): (r: seq<T>)
    ensures |r| == |f.rows|
    ensures forall k :: 0 <= k < |r| ==> r[k] == f.rows[k].reading.time
  {
    seq(|f.rows|, k requires 0 <= k < |f.rows| => f.rows[k].reading.time)
  }

  /** Builds the model inputs from the feed and keeps the timestamps of the rows that survive the trim. */
  function Prepare<T>(series: seq<Sample<T>>, calendarOf: T -> Calendar): (r: Prepared<T>)
    ensures r.features.rows == TrimmedFeatures(series, calendarOf)
    ensures r.features.firstLabel == RowsPerDay
    ensures |r.times| == |r.features.rows|
    ensures forall k :: 0 <= k < |r.times| ==> r.times[k] == series[k + RowsPerDay].time
  {
    var trimmed := DropFirstDay(CalculateRainfallPrevious2Hours(Assemble(series, calendarOf)));
    var features := DropTimeAndPrecipitation(trimmed);
    var times := TimeColumn(trimmed);
    assert features.rows == TrimmedFeatures(series, calendarOf) && features.firstLabel == RowsPerDay by {
      FeaturePipeline(series, calendarOf);
    }
    assert |times| == |features.rows| && forall k :: 0 <= k < |times| ==> times[k] == series[k + RowsPerDay].time by {
      KeptReadings(series, calendarOf);
    }
    Prepared(features, times)
  }

  /** The points of the two traces: x from the kept timestamps, y from the percentages and the rainfall column. */
  function Plot<T>(times: seq<T>, percentages: seq<real>, table: seq<LaggedRow>): (r: seq<Point<T>>)
    requires |times| == |percentages| == |table|
    ensures |r| == |table|
    ensures forall k :: 0 <= k < |r| ==> r[k] == Point(times[k], percentages[k], table[k].base.rainfallCurrent)
  {
    seq(|table|, k requires 0 <= k < |table| => Point(times[k], percentages[k], table[k].base.rainfallCurrent))
  }

  /**
    The callback as written. A feed that answered with no data gives an empty
    figure. Otherwise the features are built, the first day dropped (so row
    labels start at 96), the lag loop run, and the whole final table predicted
    again in one batch WITHOUT the scaler; these batch values are plotted
    against the kept timestamps. A feed of at most one day leaves no row, and
    the batch prediction refuses it.
   */
  method UpdateGraph<T>(response: Option<seq<Sample<T>>>, calendarOf: T -> Calendar, m: Regressor)
    returns (fig: Figure<T>)
    ensures response.None? ==> fig == EmptyFigure
    ensures response.Some? && |response.value| <= RowsPerDay ==> fig == Raised(EmptyBatch)
    ensures response.Some? && |response.value| > RowsPerDay ==>
      var series := response.value;
      var table := LagTable(RowsPerDay, Predictor(m), TrimmedFeatures(series, calendarOf));
      && fig.Chart?
      && |fig.points| == |series| - RowsPerDay
      && forall k :: 0 <= k < |fig.points| ==>
           fig.points[k] == Point(series[k + RowsPerDay].time, m.estimate(Vector(table[k])),
                                  series[k + RowsPerDay].precipitation)
  {
    if response.None? {
      return EmptyFigure;
    }
    var series := response.value;
    var prepared := Prepare(series, calendarOf);
    ghost var reference := LagTable(RowsPerDay, Predictor(m), TrimmedFeatures(series, calendarOf));
    var table, predicted := InitLagFeatures(prepared.features, Predictor(m));
    assert table == reference;
    var results := BatchPredict(m, table);
    if results.Failure? {
      return Raised(results.error);
    }
    fig := Chart(Plot(prepared.times, results.value, table));
    forall k | 0 <= k < |fig.points|
      ensures fig.points[k] == Point(series[k + RowsPerDay].time, m.estimate(Vector(reference[k])),
                                     series[k + RowsPerDay].precipitation)
    {
      assert fig.points[k] == Point(prepared.times[k], results.value[k], table[k].base.rainfallCurrent);
      assert prepared.times[k] == series[k + RowsPerDay].time;
      assert results.value[k] == m.estimate(Vector(table[k]));
      assert table[k] == reference[k];
      assert table[k].base == TrimmedFeatures(series, calendarOf)[k];
      TrimmedFeaturesAt(series, calendarOf, k);
    }
  }

  /**
    The percentages the callback is evidently meant to plot: the loop's own
    predictions, made on scaled rows, with row labels restarting at 0 after
    the first day is dropped.
   */
  function IntendedPercentages<T>(series: seq<Sample<T>>, calendarOf: T -> Calendar, m: Regressor): (r: seq<real>)
    ensures |r| == |TrimmedFeatures(series, calendarOf)|
  {
    var table := LagTable(0, Predictor(m), TrimmedFeatures(series, calendarOf));
    seq(|table|, k requires 0 <= k < |table| => Predictor(m)(table[k]))
  }

  /**
    The corrected callback: labels are reset after the first day is dropped,
    so the loop's guard means "a next row exists", and the plotted values are
    the loop's own scaled predictions rather than an unscaled second batch.
   */
  method UpdateGraphCorrected<T>(response: Option<seq<Sample<T>>>, calendarOf: T -> Calendar, m: Regressor)
    returns (fig: Figure<T>)
    ensures response.None? ==> fig == EmptyFigure
    ensures response.Some? && |response.value| <= RowsPerDay ==> fig == Raised(EmptyBatch)
    ensures response.Some? && |response.value| > RowsPerDay ==>
      var series := response.value;
      var table := LagTable(0, Predictor(m), TrimmedFeatures(series, calendarOf));
      && fig.Chart?
      && |fig.points| == |series| - RowsPerDay
      && forall k :: 0 <= k < |fig.points| ==>
           && fig.points[k] == Point(series[k + RowsPerDay].time, IntendedPercentages(series, calendarOf, m)[k],
                                     series[k + RowsPerDay].precipitation)
           && (k + 1 < |fig.points| ==> table[k + 1].lags.p1 == fig.points[k].percentage)
  {
    if response.None? {
      return EmptyFigure;
    }
    var series := response.value;
    var prepared := Prepare(series, calendarOf);
    ghost var reference := LagTable(0, Predictor(m), TrimmedFeatures(series, calendarOf));
    var table, predicted := InitLagFeatures(Frame(prepared.features.rows, 0), Predictor(m));
    assert table == reference;
    if |table| == 0 {
      return Raised(EmptyBatch);
    }
    fig := Chart(Plot(prepared.times, predicted, table));
    forall k | 0 <= k < |fig.points|
      ensures fig.points[k] == Point(series[k + RowsPerDay].time, IntendedPercentages(series, calendarOf, m)[k],
                                     series[k + RowsPerDay].precipitation)
      ensures k + 1 < |fig.points| ==> reference[k + 1].lags.p1 == fig.points[k].percentage
    {
      assert fig.points[k] == Point(prepared.times[k], predicted[k], table[k].base.rainfallCurrent);
      assert prepared.times[k] == series[k + RowsPerDay].time;
      assert table[k] == reference[k];
      assert table[k].base == TrimmedFeatures(series, calendarOf)[k];
      TrimmedFeaturesAt(series, calendarOf, k);
      if k + 1 < |fig.points| {
        assert reference[k + 1].lags.p1 == predicted[k] by {
          LagTableRows(0, Predictor(m), TrimmedFeatures(series, calendarOf));
          assert reference[k + 1].lags == ShiftIn(reference[k].lags, Predictor(m)(reference[k]));
        }
      }
    }
  }

  /**
    The corrected forecast is causal end to end: the percentage plotted for
    kept step k depends only on feed entries 0..k+96, so two feeds that agree
    up to there plot the same value, whatever follows.
   */
  lemma CorrectedForecastIsCausal<T>(s1: seq<Sample<T>>, s2: seq<Sample<T>>, calendarOf: T -> Calendar, m: Regressor, k: nat)
    requires k + RowsPerDay < |s1| && k + RowsPerDay < |s2|
    requires s1[..k + RowsPerDay + 1] == s2[..k + RowsPerDay + 1]
    ensures IntendedPercentages(s1, calendarOf, m)[k] == IntendedPercentages(s2, calendarOf, m)[k]
  {
    var b1 := TrimmedFeatures(s1, calendarOf);
    var b2 := TrimmedFeatures(s2, calendarOf);
    forall q | 0 <= q <= k
      ensures b1[q] == b2[q]
    {
      assert s1[q + RowsPerDay] == s1[..k + RowsPerDay + 1][q + RowsPerDay];
      assert s2[q + RowsPerDay] == s2[..k + RowsPerDay + 1][q + RowsPerDay];
      assert s1[q + RowsPerDay - LookbackSteps] == s1[..k + RowsPerDay + 1][q + RowsPerDay - LookbackSteps];
      assert s2[q + RowsPerDay - LookbackSteps] == s2[..k + RowsPerDay + 1][q + RowsPerDay - LookbackSteps];
    }
    assert b1[..k + 1] == b2[..k + 1];
    PredictionsAreCausal(Predictor(m), b1, b2, k);
  }

  /**
    The plotted batch skips the scaler the loop applies, so it can disagree
    with the loop's prediction for the very same row: with a scaler that adds
    1 to the first feature and a model that returns the first feature, the
    loop predicts 2 for a row whose day is 1 while the batch reports 1.
   */
  lemma UnscaledBatchDiffers()
    ensures var m := Regressor(v => if |v| == 0 then v else [v[0] + 1.0] + v[1..], v => if |v| == 0 then 0.0 else v[0]);
      var row := LaggedRow(BaseFeatures(Calendar(1, 1, 0, 0), 0.0, 0.0), NoLags);
      && Predictor(m)(row) == 2.0
      && BatchPredict(m, [row]) == Success([1.0])
  {
    var m := Regressor(v => if |v| == 0 then v else [v[0] + 1.0] + v[1..], v => if |v| == 0 then 0.0 else v[0]);
    var row := LaggedRow(BaseFeatures(Calendar(1, 1, 0, 0), 0.0, 0.0), NoLags);
    assert Vector(row)[0] == 1.0;
    assert m.scale(Vector(row))[0] == 2.0;
    var batch := BatchPredict(m, [row]);
    assert batch.value[0] == 1.0;
    assert batch.value == [1.0];
  }
}
