# Forecast feature pipeline of the prediction panel

A Dafny model of the core of the sewer-capacity forecast page of the
Brabantse Delta capstone front end. The page turns a 15-minute
precipitation feed into model inputs and predicts a capacity percentage
for every step, feeding each prediction back into the next steps as lag
features. The model covers:

- the 2-hour rainfall lookback `calculate_rainfall_previous_2_hours_corrected`.
  Each row receives the precipitation of the row eight steps earlier, or 0.
- `drop_first_day`, the positional slice that discards yesterday's 96 rows
  and keeps the labels of the rows it keeps;
- `init_lag_features`, the autoregressive loop that fills the lag columns
  `percentage_previous_1..6`. It includes the label-versus-length guard and
  the inner `index + 1 >= k` guards;
- the part of `update_graph` that assembles the frame from the feed, runs
  the three steps above, drops `time` and `precipitation`, predicts the
  final table in one batch and pairs the results with the kept timestamps.

How the pieces are represented:

- A data frame is a `Frame`: its rows in position order, plus the label of
  the first row. This is how the offset of 96 left by the slice reaches the
  loop's guard.
- The scaler and the model are a `Regressor`: two total function values.
  The loop predicts with the scaler (`Predictor`); the final batch does
  not (`BatchPredict`).
- The calendar columns come from an opaque `calendarOf` function.
- Timestamps are a type parameter.

Modules:

- `Frames` (frames.dfy)
- `Features` (features.dfy)
- `Rainfall` (rainfall.dfy)
- `LagFeatures` (lags.dfy)
- `PredictionPanel` (panel.dfy)
- `Wrappers` (wrappers.dfy)

The lag loop is modelled twice:

- `InitLagFeatures` is a method that follows lines 43-63 step by step,
  including the guarded cascade.
- `LagTable` is a reference definition built from an unguarded shift.

The method is proved equal to the reference for every first label.

The loop is meant to pass each prediction on to the next record (the
comment at src/pages/Prediction_panel.py:51), so the forecast should be
causal: each step's value should depend only on earlier steps. The code as
written does not behave that way, because the loop's guard compares a row
label with the row count. The model follows the code and records the
discrepancy under "## Findings". The corrected callback,
`UpdateGraphCorrected`, is proved causal.

## Model

| member | source | states |
|---|---|---|
| Frames.DropFirstDay | src/pages/Prediction_panel.py:29-31 | Keeps max(0, n-96) rows. Kept row k is input row k+96 and keeps the label it had there. A table of at most 96 rows becomes empty rather than an error. |
| Frames.DropFirstDayKeepsRest | src/pages/Prediction_panel.py:29-31 | For at least 96 rows, the first day followed by the kept rows is exactly the input, so nothing else is lost. |
| Rainfall.ShiftPrefix | src/pages/Prediction_panel.py:16-21 | The loop's rows built in order. Each keeps its reading. Rows 0-7 get 0 and row j >= 8 gets the precipitation of row j-8. |
| Rainfall.CalculateRainfallPrevious2Hours | src/pages/Prediction_panel.py:11-26 | Same row count, order and columns. The new column is the 8-step (2-hour) lagged precipitation with a 0 fill, and labels restart at 0 after the index reset. |
| Rainfall.TrimmedLookbackIsReal | src/pages/Prediction_panel.py:18-30 | After the first day is dropped, no kept row holds the zero fill. Kept row k's lookback is input row k+88's precipitation. |
| Features.Vector | src/pages/Prediction_panel.py:126-149 | The values the scaler and the model receive, in the frame's column order: day, month, dayofweek, hour, `rainfall_current`, `rainfall_previous_2_hours`, then lags 1 to 6 as positions 6 to 11. |
| Features.VectorRoundTrip | src/pages/Prediction_panel.py:46 | The value vector loses no column: reading the 12 values back gives the row. |
| Features.BatchPredict | src/pages/Prediction_panel.py:149 | Succeeds exactly when the table has rows, with one result per row, in row order. Each result is the model applied to the row's unscaled values. |
| LagFeatures.ZeroFill | src/pages/Prediction_panel.py:35-41 | Adds the six lag columns, every one holding the default 0. The row count and every other column are kept. |
| LagFeatures.Cascade | src/pages/Prediction_panel.py:53-63 | The guarded writes as written. Lag 1 takes the prediction. Lag k takes the previous row's lag k-1 when `index + 1 >= k`, and otherwise keeps its current value. With all guards open it is the plain shift. |
| LagFeatures.ShiftIn | src/pages/Prediction_panel.py:53-63 | The unguarded reference shift: lag 1 becomes the new prediction and lag k (k = 2..6) becomes the previous row's lag k-1. `CascadeIsShift` and `InitLagFeatures` prove the guarded cascade equal to it. |
| LagFeatures.CascadeIsShift | src/pages/Prediction_panel.py:54-63 | The inner `index + 1 >= k` guards only skip copies of lags that are still 0, so the guarded cascade into a fresh row is the plain shift. |
| LagFeatures.LagsZeroBelowLabel | src/pages/Prediction_panel.py:36-63 | Lag k of a row whose label is below k is still the default 0, for any first label. |
| LagFeatures.RowAtShifted | src/pages/Prediction_panel.py:52-63 | A row whose predecessor passed the guard holds the predecessor's lags shifted, with the predecessor's prediction in front. |
| LagFeatures.IterationStep | src/pages/Prediction_panel.py:44-63 | One iteration turns the table after i iterations into the table after i+1. When the guard fails, it writes nothing. |
| LagFeatures.InitLagFeatures | src/pages/Prediction_panel.py:33-65 | The loop as written leaves exactly the reference table for every first label, so the inner guards are redundant. It yields one prediction per row, made on the row as the loop reaches it. |
| LagFeatures.LagTableRows | src/pages/Prediction_panel.py:52-63 | Where the label guard holds at p, row p+1 carries row p's lags shifted in by row p's prediction. Row 0, and every row whose predecessor failed the guard, keeps all six defaults. |
| LagFeatures.ShippedLabelsFreezeTail | src/pages/Prediction_panel.py:30-52 | With the first label 96 left by the slice, the last 96 rows never receive any lag. |
| LagFeatures.ShippedOneDayHasNoLags | src/pages/Prediction_panel.py:30-52 | With the first label 96, a table of at most 97 rows, such as the one-day horizon, gets no lag at all. |
| LagFeatures.RowAtLags | src/pages/Prediction_panel.py:44-63 | For labels starting at 0, lag k of row p is the prediction for row p-k, or 0 when p < k. |
| LagFeatures.CausalLags | src/pages/Prediction_panel.py:44-63 | The same propagation stated on the finished table: lag k of row p is the prediction made for row p-k. |
| LagFeatures.RowAtIsCausal | src/pages/Prediction_panel.py:44-63 | For labels starting at 0, row p depends only on the non-lag features of rows 0..p. |
| LagFeatures.PredictionsAreCausal | src/pages/Prediction_panel.py:44-63 | Two tables that agree on rows 0..p before the loop agree on rows 0..p and on their predictions after it, however many rows follow. |
| LagFeatures.ShippedLabelsBreakCausality | src/pages/Prediction_panel.py:52 | With first label 96 and identical rows, row 1's lag 1 is 0 in a 97-row table but 1 in a 98-row one. With first label 0 it is 1. |
| PredictionPanel.Assemble | src/pages/Prediction_panel.py:126-136 | The frame built from the feed has one row per sample, labelled from 0. |
| PredictionPanel.AssembledColumns | src/pages/Prediction_panel.py:126-136 | Row i holds sample i's time and precipitation and the calendar of its time, and `rainfall_current` is a copy of the precipitation. |
| PredictionPanel.DropTimeAndPrecipitation | src/pages/Prediction_panel.py:144-145 | Dropping the two columns keeps the row count and the labels. |
| PredictionPanel.DroppedColumns | src/pages/Prediction_panel.py:144-145 | Each row keeps its calendar, `rainfall_current` and `rainfall_previous_2_hours`. |
| PredictionPanel.TrimmedFeaturesAt | src/pages/Prediction_panel.py:126-145 | Model-input row k holds the calendar and rainfall of feed step k+96 and the rainfall of feed step k+88. |
| PredictionPanel.KeptReadings | src/pages/Prediction_panel.py:126-140 | After assembly, the lookback and the drop, row k is feed step k+96 with its calendar, its rainfall and the rainfall of step k+88. The labels start at 96. |
| PredictionPanel.FeaturePipeline | src/pages/Prediction_panel.py:126-145 | The four steps of the callback give exactly the reference features, labelled from 96. |
| PredictionPanel.Prepare | src/pages/Prediction_panel.py:126-145 | The model-input frame equals the reference features with first label 96. The timestamps kept for plotting are those of feed steps 96 onward, one per row. |
| PredictionPanel.UpdateGraph | src/pages/Prediction_panel.py:114-193 | With no data it returns an empty figure. At most one day of data is refused by the batch predict. Otherwise there are n-96 points: step k+96's time and rainfall, and the unscaled estimate of row k of the lag table built under first label 96. |
| PredictionPanel.UpdateGraphCorrected | src/pages/Prediction_panel.py:114-193 | The same error cases. Each plotted percentage is the loop's own scaled prediction under labels starting at 0, and it is exactly the lag 1 that the next row carries. |
| PredictionPanel.CorrectedForecastIsCausal | src/pages/Prediction_panel.py:126-149 | The corrected forecast for kept step k depends only on feed steps 0..k+96. |
| PredictionPanel.UnscaledBatchDiffers | src/pages/Prediction_panel.py:46-49 | The batch at line 149 skips the scaler, so it can disagree with the loop's prediction for the same row (2 against 1 in the exhibited case). |

## Left out

- The HTTP request, the status check and JSON decoding (lines 115-123) are modelled only by their outcome: an optional sequence of samples. A reply without `minutely_15` would raise a key error, which is not modelled.
- Loading the scaler and model from pickle files (lines 77-87) is left out. They are parameters, and their internals are opaque function values.
- Deriving day, month, day of week and hour from a timestamp (lines 132-135) is the opaque parameter `calendarOf`.
- Plot styling and layout (lines 152-189), the dropdown and the page registration are left out. The figure is its list of points.
- The other pages of the application are not part of this model.
- Predictions and rainfall are `real`, not floating point. Values are only copied, so rounding plays no part.
- The loop's prediction is modelled on the table row as the loop reaches it. pandas `iterrows` hands out a copy of each row, and whether that copy sees earlier lag writes depends on pandas internals that this model does not cover.
- Column dtypes are not modelled, for example the integer default 0 that is upcast when a float prediction is written.
- The lookback addresses rows by timestamp. The model addresses them by position, which agrees when the feed's timestamps are distinct, as they are for a 15-minute grid.
- Features.BatchPredict: a model that rejects a table with the wrong column count would raise an error that is not modelled. The 12 columns always match here. The refusal of a zero-row batch is modelled as the `EmptyBatch` failure.

## Findings

| source | as written | input that shows it | evidently intended | confidence | as-written member | corrected member |
|---|---|---|---|---|---|---|
| src/pages/Prediction_panel.py:52 | The guard `index + 1 < len(df)` compares a row label with the row count. After `df[96:]` the labels start at 96, so the last 96 rows get no lags and an early row's lags depend on how many rows follow. | 97 versus 98 identical feature rows, with a predictor that always returns 1: row 1's lag 1 is 0 with 97 rows and 1 with 98 | Labels reset to 0 before the loop, so that every row after the first receives the previous predictions and the forecast is causal | medium, not executed | LagFeatures.ShippedLabelsBreakCausality | PredictionPanel.UpdateGraphCorrected |
| src/pages/Prediction_panel.py:149 | The plotted values come from a second batch prediction made on the unscaled table, while the model was fed scaled rows in the loop | A scaler that adds 1 to the day and a model that returns the day, on a row with day 1: the loop predicts 2 and the batch 1 | Plot the loop's own scaled predictions, or scale the batch | medium, not executed | PredictionPanel.UnscaledBatchDiffers | PredictionPanel.UpdateGraphCorrected |
