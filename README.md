# Parking availability forecast — verified model of the forecasting engine

This project models the autoregressive forecasting engine of the parking
availability predictor (`PredictOnUserInput` in `src/pipeline/predict_pipeline.py`):

- **Step resolver** (`get_forecast_steps`): the user's timestamp is looked up in
  the shared forecast index (the index of lot 1's `test` frame); the step count
  is the 1-based position of its first exact match, and a missing match (or an
  index that was never loaded) gives None.
- **Single-lot forecaster** (`forcast_single_parkLot`): starting from a copy of
  the lot's history, each step takes the next forecast timestamp, derives its
  calendar features (`isWeekend` is 1 exactly on day of week 5 and 6), reads six
  lags (offsets 1, 2, 3, 18, 19, 20) from the end of the series as extended so
  far, runs the lot's scaler and regressor, caps the prediction to [0, 100] and
  appends the new row. Earlier predictions therefore become later lags.
- **Batch and availability** (`forcast_all_parkLots`, `occupancy_to_availability`):
  every lot keeps its stored `train` and `test` occupancy columns, takes the last
  `steps` values of its extended series as `forecast`, and every value v is then
  reported as availability 100 - v.

Modules: `Wrappers` (Option), `ParkingTypes` (timestamps, rows, series, bundles,
artifacts), `StepResolver`, `LotForecaster`, `Availability`, `BatchForecast`.
The imperative loops of the source are methods (`ForecastSingleLot`,
`OccupancyToAvailability`, `ForecastAllParkLots`) proved equal to specification
functions (`SingleLotForecast`, `AvailabilityMap`, `AvailabilityForecast`), and
the properties are lemmas about those functions.

Modelling choices:
- Occupancy values are `real`; the scaler and the regressor are function
  parameters (`Features -> seq<real>`, `seq<real> -> real`) with no assumed
  properties.
- A timestamp is a record of its calendar fields, the day of the week included;
  equality of timestamps is equality of the record.
- Every exception in the core is caught, printed and turned into an implicit
  `None`; the model returns `Option` and does not say which exception it was.
- `PredictOnUserInput`'s fields are written only by its constructor and by
  `load_artifacts`; the core only reads them, so the model passes them
  explicitly (an `Artifacts` record and the user's `Timestamp`) instead of
  modelling a class.
- Python iterates `list(d.keys())`; the batch and conversion methods take that
  key list as a parameter (`ListsKeys`), and their results do not depend on its order.
- The code has no per-lot isolation and no distinguishable errors: a lot whose scaler or regressor is missing, or
  whose forecast is None (then `df_forecasted['Occupancy_Rate']` raises), makes
  the whole batch None. With no step count every lot fails, so the batch is None
  unless there are no lots at all, in which case it is an empty dictionary. The
  model follows the code.

## Model

| member | source | states |
|---|---|---|
| `StepResolver.FirstMatch` | src/pipeline/predict_pipeline.py:44 | the result is the position of the first entry equal to the timestamp, with no earlier match; None exactly when the timestamp is not in the index |
| `StepResolver.ForecastSteps` | src/pipeline/predict_pipeline.py:41-49 | a step count `s` satisfies `1 <= s <= |index|`, `index[s-1]` is the timestamp and no earlier entry equals it; None exactly when the index was not loaded or the timestamp is absent |
| `LotForecaster.Clamp` | src/pipeline/predict_pipeline.py:103 | the capped value lies in [0, 100], equals the input when the input is inside, and is the point of [0, 100] nearest to the raw prediction |
| `LotForecaster.WeekendFlag` | src/pipeline/predict_pipeline.py:70 | the flag is 0 or 1, and 1 exactly when the day of week is 5 or 6 |
| `LotForecaster.Lag` | src/pipeline/predict_pipeline.py:78-83 | `iloc[-j].loc['Occupancy_Rate']` is the occupancy j rows back from the end of the series as it stands; how this wires earlier predictions into later steps is stated by `LagShift` and `LagsReadBack` |
| `LotForecaster.NextRow` | src/pipeline/predict_pipeline.py:62-110 | one loop iteration: the new row is stamped with the target time, carries its day of week and a weekend flag that is 1 iff the day is 5 or 6, reads lag 1 and lag 20 from the series' end, and holds the capped regressor output on its own scaled features, in [0, 100]; every row of the extended series is such a row (`ExtendedRow`, `LagsReadBack`, `SynthesizedBounded`, `StampedFromIndex`) |
| `LotForecaster.LagShift` | src/pipeline/predict_pipeline.py:78-114 | appending a row makes it lag 1 and turns every former lag j into lag j + 1 |
| `LotForecaster.Extended` | src/pipeline/predict_pipeline.py:57-114 | after n steps the working series has `|history| + n` rows and its first `|history|` rows are the history unchanged |
| `LotForecaster.SingleLotForecast` | src/pipeline/predict_pipeline.py:53-122 | None exactly when `steps > 0` and the history has fewer than 20 rows or the forecast index fewer than `steps` entries; otherwise length `|history| + steps` with the history as prefix |
| `LotForecaster.ForecastSingleLot` | src/pipeline/predict_pipeline.py:53-122 | the loop's result equals `SingleLotForecast` of the same inputs |
| `LotForecaster.ExtendedPrefix` | src/pipeline/predict_pipeline.py:59-114 | later steps never change earlier rows: the series after m steps is a prefix of the series after n >= m steps |
| `LotForecaster.ExtendedRow` | src/pipeline/predict_pipeline.py:59-114 | synthesized row s is computed from the series as it stood after s steps and from `index[s]` |
| `LotForecaster.SynthesizedBounded` | src/pipeline/predict_pipeline.py:95-110 | every synthesized occupancy lies in [0, 100] and is the capped prediction of the regressor on the scaled features of its own row |
| `LotForecaster.LagsReadBack` | src/pipeline/predict_pipeline.py:78-91 | for synthesized row k, lag j (j in 1, 2, 3, 18, 19, 20) is the occupancy of row k - j of the extended series, including rows synthesized earlier in the same call |
| `LotForecaster.StampedFromIndex` | src/pipeline/predict_pipeline.py:63-72 | synthesized row s has time `index[s]`, that timestamp's year, month, day, day of week, hour and minute, and weekend flag 1 iff the day of week is 5 or 6 |
| `Availability.Complement` | src/pipeline/predict_pipeline.py:132-134 | the converted series has the same length and times, and each value is 100 - v |
| `Availability.ComplementInvolution` | src/pipeline/predict_pipeline.py:132-134 | converting a series twice gives it back |
| `Availability.BundleAvailability` | src/pipeline/predict_pipeline.py:131-134 | a lot's availability bundle has train, test and forecast of the same lengths and times as the occupancy bundle, each value 100 - v |
| `Availability.AvailabilityMap` | src/pipeline/predict_pipeline.py:128-131 | the availability dictionary has the same lot keys as the occupancy dictionary |
| `Availability.AvailabilityInvolution` | src/pipeline/predict_pipeline.py:125-136 | converting a whole dictionary twice gives it back |
| `Availability.OccupancyToAvailability` | src/pipeline/predict_pipeline.py:125-140 | same keys; every train, test and forecast point keeps its time and has value 100 - v; the result equals `AvailabilityMap` |
| `ParkingTypes.OccupancyColumn` | src/pipeline/predict_pipeline.py:179-180 | the `Occupancy_Rate` column has one point per row, with the row's time and occupancy |
| `ParkingTypes.Times` | src/pipeline/predict_pipeline.py:33 | a frame's index lists the time of each row, in order |
| `BatchForecast.ForecastIndex` | src/pipeline/predict_pipeline.py:33 | the forecast index exists exactly when lot 1 exists and is the index of lot 1's test frame |
| `BatchForecast.Tail` | src/pipeline/predict_pipeline.py:181 | `iloc[-n:]` yields n points, the last n of the series in order |
| `BatchForecast.LotSucceeds` | src/pipeline/predict_pipeline.py:165-181 | for a step count of at least 1, a lot gets through the loop body exactly when its scaler and regressor are present, its history has at least 20 rows and the forecast index has at least `steps` entries |
| `BatchForecast.LotBundle` | src/pipeline/predict_pipeline.py:177-181 | a lot's entry holds its stored train and test occupancy columns unchanged and exactly `steps` forecast points (their contents are stated by `ForecastPoint` and `LotBundleShape`) |
| `BatchForecast.OccupancyForecast` | src/pipeline/predict_pipeline.py:161-181 | a successful batch has exactly the lots of the data dictionary as keys |
| `BatchForecast.LotFailureFailsBatch` | src/pipeline/predict_pipeline.py:163-181 | one lot without scaler, regressor, step count or forecast makes the whole batch None |
| `BatchForecast.AllLotsSucceed` | src/pipeline/predict_pipeline.py:161-181 | when every lot succeeds, the dictionary of their bundles is the batch result |
| `BatchForecast.AvailabilityForecast` | src/pipeline/predict_pipeline.py:145-198 | the result exists exactly when the occupancy batch succeeds, has the data's lot keys, and holds each lot's occupancy bundle converted to availability |
| `BatchForecast.ForecastAllParkLots` | src/pipeline/predict_pipeline.py:145-198 | the loop over the lots followed by the conversion returns exactly `AvailabilityForecast` |
| `BatchForecast.BatchEntry` | src/pipeline/predict_pipeline.py:163-181 | in a successful batch every lot had a step count and a forecast, and its entry is that lot's bundle |
| `BatchForecast.ForecastPoint` | src/pipeline/predict_pipeline.py:181 | forecast point i is stamped `index[i]`, is synthesized row i of the extended series and lies in [0, 100] |
| `BatchForecast.LotBundleShape` | src/pipeline/predict_pipeline.py:163-181 | `train` and `test` are the stored occupancy columns unmodified, `forecast` has exactly `steps` points, each the synthesized occupancy at `index[i]`, in [0, 100]; the history has at least 20 rows and `steps <= |index|` |
| `BatchForecast.BatchSucceedsIff` | src/pipeline/predict_pipeline.py:153-181 | for a non-empty data dictionary the batch succeeds iff lot 1 exists, the user's timestamp is in its test index and every lot has a scaler, a regressor and at least 20 history rows |
| `BatchForecast.ColumnAvailability` | src/pipeline/predict_pipeline.py:132-133 | the availability of a stored `Occupancy_Rate` column is 100 - v at each row's own time |
| `BatchForecast.StoredEntry` | src/pipeline/predict_pipeline.py:179-185 | a lot's availability `train` and `test` are the complements of its stored occupancy columns |
| `BatchForecast.StoredAvailability` | src/pipeline/predict_pipeline.py:179-185 | the result has the data's keys, and every stored train and test occupancy v is reported as 100 - v at its own time |
| `BatchForecast.ForecastAvailability` | src/pipeline/predict_pipeline.py:181-185 | every forecast availability point is 100 minus the occupancy forecast at the same time, and lies in [0, 100] |
| `BatchForecast.SaturatedForecastPoint` | src/pipeline/predict_pipeline.py:102-103 | under a regressor that never predicts below 100, every forecast occupancy of the lot is exactly 100 |
| `BatchForecast.SaturatedModelLeavesNoAvailability` | src/pipeline/predict_pipeline.py:102-110 | a regressor that never predicts below 100 leaves a forecast availability of 0 at every step |
| `BatchForecast.AvailabilityRecoversOccupancy` | app.py:353-354 | complementing the availability result again gives the occupancy dictionary back |

## Left out

- `load_artifacts` reading the three pickled dictionaries from disk (file I/O); the model starts from the loaded `Artifacts`. Only its derivation of the forecast index from lot 1 (line 33) is modelled.
- Parsing the user's date and time strings into a timestamp, and pandas deriving the day of week from a date: the timestamp's fields are given.
- The fitted StandardScaler and XGBoost regressor: opaque functions; an exception raised inside them is not modelled (they are total functions here).
- Floating point: values are reals, so NaN predictions (which the cap would let through) and rounding are not modelled.
- Printing the caught exceptions (`CustomException`, which formats interpreter traceback frames): only the resulting None is modelled.
- Timestamps carry no seconds or smaller units: the equality of line 44 is modelled exactly only while every forecast-index entry falls on a whole minute, as the user's input (always `:00` seconds) does.
- The consistency of the test index across lots is a property of the stored artifacts, not of the forecaster, and is not modelled; every lot is forecast on lot 1's index, as in the code.
- `iloc[-0:]` (the whole series) cannot be reached: the step count is at least 1.
- The `__main__` demo block, the Streamlit page, maps and plots in `app.py`, and the pickle helpers in `src/utils.py`.
