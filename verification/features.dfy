/**
  The rows of the forecast table at each stage of the prediction callback, the
  feature vector handed to the regression model, and the model itself.
 */
module Features {

  import Wrappers

  /** Calendar attributes of a timestamp: day of month, month, weekday (Monday = 0) and hour. */
  datatype Calendar = Calendar(day: int, month: int, dayofweek: int, hour: int)

  /** One entry of the forecast feed: a timestamp and the precipitation of that 15-minute step. */
  datatype Sample<T> = Sample(time: T, precipitation: real)

  /** A row of the frame built from the feed: `time`, `precipitation`, the calendar columns and `rainfall_current`. */
  datatype Reading<T> = Reading(time: T, precipitation: real, calendar: Calendar, rainfallCurrent: real)

  /** A reading extended with its `rainfall_previous_2_hours` column. */
  datatype ShiftedReading<T> = ShiftedReading(reading: Reading<T>, rainfallPrevious2Hours: real)

  /** The non-lag model inputs, left once `time` and `precipitation` are dropped. */
  datatype BaseFeatures = BaseFeatures(calendar: Calendar, rainfallCurrent: real, rainfallPrevious2Hours: real)

  /** The lag columns `percentage_previous_1` .. `percentage_previous_6`. */
  datatype Lags = Lags(p1: real, p2: real, p3: real, p4: real, p5: real, p6: real) {

    /** The column `percentage_previous_k`. */
    function Get(k: int): real
      requires 1 <= k <= 6
    {
      if k == 1 then p1
      else if k == 2 then p2
      else if k == 3 then p3
      else if k == 4 then p4
      else if k == 5 then p5
      else p6
    }
  }

  /** The value every lag column starts from. */
  const DefaultLag: real := 0.0

  /** A row whose six lag columns all hold the default. */
  const NoLags: Lags := Lags(DefaultLag, DefaultLag, DefaultLag, DefaultLag, DefaultLag, DefaultLag)

  /** A full model input row: the base features followed by the six lag columns. */
  datatype LaggedRow = LaggedRow(base: BaseFeatures, lags: Lags)

  /**
    The row's values in the frame's column order, which is the order the
    scaler and the model receive them in: the four calendar columns,
    `rainfall_current`, `rainfall_previous_2_hours`, then the six lag columns
    from `percentage_previous_1` to `percentage_previous_6`.
   */
  function Vector(r: LaggedRow): (v: seq<real>)
    ensures |v| == 12
    ensures v[0] == r.base.calendar.day as real && v[1] == r.base.calendar.month as real
    ensures v[2] == r.base.calendar.dayofweek as real && v[3] == r.base.calendar.hour as real
    ensures v[4] == r.base.rainfallCurrent && v[5] == r.base.rainfallPrevious2Hours
    ensures forall k :: 1 <= k <= 6 ==> v[5 + k] == r.lags.Get(k)
  {
    [ r.base.calendar.day as real, r.base.calendar.month as real,
      r.base.calendar.dayofweek as real, r.base.calendar.hour as real,
      r.base.rainfallCurrent, r.base.rainfallPrevious2Hours,
      r.lags.p1, r.lags.p2, r.lags.p3, r.lags.p4, r.lags.p5, r.lags.p6 ]
  }

  /** Reads a row back from its values; calendar values are whole numbers, so nothing is lost. */
  function FromVector(v: seq<real>): LaggedRow
    requires |v| == 12
  {
    LaggedRow(BaseFeatures(Calendar(v[0].Floor, v[1].Floor, v[2].Floor, v[3].Floor), v[4], v[5]),
              Lags(v[6], v[7], v[8], v[9], v[10], v[11]))
  }

  /** The value vector keeps every column of the row: reading it back gives the row. */
  lemma VectorRoundTrip(r: LaggedRow)
    ensures FromVector(Vector(r)) == r
  {
  }

  /**
    The pre-trained artifacts, opaque: the fitted feature scaler and the
    regression model's estimate for one feature vector.
   */
  datatype Regressor = Regressor(scale: seq<real> -> seq<real>, estimate: seq<real> -> real)

  /** How the lag loop predicts a row (lines 46-49): scale the row's values, then estimate. */
  function Predictor(m: Regressor): LaggedRow -> real {
    r => m.estimate(m.scale(Vector(r)))
  }

  /** Why the final batch prediction can fail. */
  datatype PredictError = EmptyBatch

  /**
    The batch prediction over the final table (src/pages/Prediction_panel.py:149):
    the model applied to every row's values, without the scaler. The model
    refuses a batch of zero rows.
   */
  function BatchPredict(m: Regressor, rows: seq<LaggedRow>): (r: Wrappers.Result<seq<real>, PredictError>)
    ensures r.Success? <==> |rows| > 0
    ensures r.Success? ==> |r.value| == |rows|
    ensures r.Success? ==> forall p :: 0 <= p < |rows| ==> r.value[p] == m.estimate(Vector(rows[p]))
  {
    if |rows| == 0 then Wrappers.Failure(EmptyBatch)
    else Wrappers.Success(seq(|rows|, p requires 0 <= p < |rows| => m.estimate(Vector(rows[p]))))
  }
}
