# Daily stock-balance forecasting core, in Dafny

This project models the forecasting core of a small .NET script. The script
forecasts a daily inventory balance (`SaldoEstoque`: a date `Data` and a
balance `Saldo`). It has two algorithms:

- **Feature builder** (`fnCreateFeatures`). It orders the observations by
  date. For every index `i >= 7` it emits one `TimeSeriesSaldo` row:
  - the label, the balance at `i`;
  - `Lag1` and `Lag7`, the balances at `i - 1` and `i - 7`;
  - `RollingMean7`, the mean of the seven balances before `i`;
  - the calendar fields of the target date, including `IsWeekend`.
- **Iterative forecast** (`ForecastNextNDays`). It orders a private copy of
  the history by date, then repeats `forecastDays` times:
  1. take the day after the last entry;
  2. build the lag and rolling features from the tail of the copy (a degraded
     mode applies when it has fewer than seven entries);
  3. call the predictor;
  4. record `(nextDate, prediction)`;
  5. append the prediction to the copy as if it had been observed.

Modules, one per component:

- `series.dfy` (module `Series`):
  - day ordinals, .NET's `DayOfWeek` and the weekend flag;
  - sums and means;
  - `OrderBy(x => x.Data)`, modelled as a stable insertion sort `SortByDate`.
- `features.dfy` (module `Features`): the row record, the reference row
  `TrainingRow`, and the loop `CreateFeatures`.
- `forecast.dfy` (module `Forecast`):
  - the forecast-time features `ForecastFeatures`;
  - the specification `IsForecast` of what the loop produces;
  - the loop `ForecastNextNDays`;
  - the lemmas about fallbacks, feedback, and agreement with training rows;
  - a worked ten-day example.

Representation choices:

- **Dates** are day ordinals counted from 0001-01-01 (a Monday, day 0) up to
  9999-12-31 (day 3652058), `DateTime`'s range. `AddDays(1)` is `+ 1`.
  Going past 9999-12-31 throws in .NET, and the model returns `Err(DateOutOfRange)`.
- **Day of week** is `(d + 1) % 7`, .NET's numbering (Sunday = 0 … Saturday = 6).
- **Year, month and day of month** come from a `Calendar` parameter; the
  Gregorian arithmetic is not modelled.
- **Balances** are `real`.
- **The predictor** is a parameter `FeatureRow -> real`. It stands for the
  prediction engine of the trained model and is deterministic. The
  forecast-time row carries label 0, the default of the unset `Saldo`.
- **The caller's list** is an `array<Observation>`. Neither method has a
  `modifies` clause, so neither can change it. Both sort a copy, as the
  source's rebinding of `historicalData` does.
- **An empty history with `forecastDays > 0`** makes `Last()` throw in .NET.
  The model returns `Err(NoElements)`. When `forecastDays <= 0` the loop does
  not run, and the result is `Ok([])` for any history.
- **Seven or fewer observations.** The loop at Program.cs:16 never runs, so
  `fnCreateFeatures` returns an empty list and raises no error.
  `CreateFeatures` returns `[]` the same way.

## Model

| member | source | states |
|---|---|---|
| `Series.DayOfWeek` | LinearRegression/Program.cs:33 | the day of week is in 0..6 and is Monday exactly on ordinals divisible by 7 |
| `Series.IsWeekend` | LinearRegression/Program.cs:34 | the flag is 0 or 1, and it is 1 exactly when the ordinal is 5 or 6 mod 7 (Saturday or Sunday) |
| `Series.AverageOfSeven` | LinearRegression/Program.cs:20 | the mean of a seven-element window is the sum of those seven values over 7 |
| `Series.InsertByDate` | LinearRegression/Program.cs:13 | inserting one observation adds exactly that observation (length and multiset) |
| `Series.InsertByDateSorted` | LinearRegression/Program.cs:13 | inserting into a date-sorted list keeps it sorted |
| `Series.SortByDate` | LinearRegression/Program.cs:13 | the ordered copy is sorted by date and is a permutation of the input |
| `Series.SortByDateStable` | LinearRegression/Program.cs:51 | the ordering is stable: for every date, the observations with that date keep their input order |
| `Series.DatedOnInsert` | LinearRegression/Program.cs:13 | insertion places the new observation after every earlier one with the same date |
| `Series.SortByDateOfSorted` | LinearRegression/Program.cs:51 | ordering an already date-sorted series returns it unchanged |
| `Series.LastSortedIsLatest` | LinearRegression/Program.cs:55 | the last entry of the sorted copy is a historical observation carrying the latest date |
| `Features.Row` | LinearRegression/Program.cs:24-35 | the row's `IsWeekend` is 1 exactly when its day of week is Saturday or Sunday, and is 0 otherwise |
| `Features.CreateFeatures` | LinearRegression/Program.cs:10-39 | returns exactly max(0, n - 7) rows; row k is the training row of sorted index k + 7 |
| `Features.TrainingRowContents` | LinearRegression/Program.cs:18-34 | in the row for target i: label = balance i, Lag1 = balance i-1, Lag7 = balance i-7, RollingMean7 = (the seven balances i-7..i-1 summed) / 7; Year, Month, Day, DayOfWeek and IsWeekend are those of date i |
| `Features.RollingMeanIsLocal` | LinearRegression/Program.cs:18-20 | two series that agree on balances i-7..i-1 give the same RollingMean7, Lag1 and Lag7 at i; the target and anything outside the window do not matter |
| `Features.TrainingRowOfPrefix` | LinearRegression/Program.cs:16-36 | a row depends on nothing after its target index |
| `Forecast.ForecastNextNDays` | LinearRegression/Program.cs:41-92 | `forecastDays <= 0` gives `Ok([])`; `Err(NoElements)` exactly when days > 0 and the history is empty; `Err(DateOutOfRange)` exactly when the last date + days passes 9999-12-31; success exactly in the remaining cases, with exactly `forecastDays` points satisfying `IsForecast` |
| `Forecast.ExtendForecast` | LinearRegression/Program.cs:78-88 | recording the point predicted from the current working list extends a valid forecast by one step |
| `Forecast.ForecastFallback` | LinearRegression/Program.cs:59-63 | with 1 to 6 entries, lag7 equals lag1 (the last balance) and the rolling value is the mean of all entries |
| `Forecast.ForecastFullWindow` | LinearRegression/Program.cs:59-63 | with 7 or more entries, lag7 is the balance at Count - 7 and the rolling value is the sum of the last seven over 7 |
| `Forecast.ForecastCalendar` | LinearRegression/Program.cs:70-74 | the forecast-time calendar fields, including the weekend flag, are those of `nextDate` |
| `Forecast.ForecastMatchesTraining` | LinearRegression/Program.cs:59-75 | with 7 or more entries, the forecast features equal the feature builder's row at index Count of the series extended by the new day, apart from the label |
| `Forecast.WorkingGrowth` | LinearRegression/Program.cs:84-88 | each step grows the working list by exactly (nextDate, prediction), keeps the earlier entries, and dates the point one day after the list's last entry |
| `Forecast.FeedbackLag1` | LinearRegression/Program.cs:59 | the lag1 used at step j + 1 is the prediction made at step j |
| `Forecast.FeedbackFullySynthetic` | LinearRegression/Program.cs:59-63 | from step 7 on, lag1, lag7 and the rolling value are built only from the previous seven predictions |
| `Forecast.ForecastDates` | LinearRegression/Program.cs:55-56 | every forecast date is after every historical date, and the dates are consecutive days |
| `Forecast.ForecastDetermined` | LinearRegression/Program.cs:53-89 | `IsForecast` determines the forecast uniquely for a given length |
| `Forecast.WorkingSorted` | LinearRegression/Program.cs:84-88 | the working list stays in date order as predictions are appended |
| `Forecast.RetrainingAgrees` | LinearRegression/Program.cs:16-36 | re-ordering the history plus its forecast changes nothing, and the training rows over it equal, for every step with seven entries to draw on, the features that step predicted from, labelled with its prediction |
| `Forecast.RetrainingAgreesAt` | LinearRegression/Program.cs:18-20 | the same agreement for one step `j` |
| `Forecast.TenDaysSorted` | LinearRegression/Program.cs:51 | the ten-day example series is already in date order |
| `Forecast.TenDayFeatures` | LinearRegression/Program.cs:59-63 | for the ten-day example, the next-day features are lag1 = 105, lag7 = 102 and rolling = 705/7 |
| `Forecast.TenDayScenario` | LinearRegression/Program.cs:53-81 | a one-day forecast from the ten-day example is dated day 10 and is the prediction from those features |

## Left out

- CSV loading (`File.ReadAllLines`, `DateTime.Parse`, `float.Parse`; Program.cs:99-104) is file I/O and library parsing.
- The ML.NET pipeline (Program.cs:47 and 187-206) is not modelled: data views, the train/test split, feature concatenation, the LightGbm trainer, `Fit`, `Transform` and `CreatePredictionEngine`. These are foreign library calls with randomised training. Only the predictor's interface remains, as the `predict` parameter.
- The regression metrics RMSE, MSE and MAE (Program.cs:206-210) are library floating-point numerics.
- Console output (Program.cs:208-219) is formatting only.
- The commented-out SSA forecast and chart export (Program.cs:106-183, 221-275) are dead code.
- The unused `Random` (Program.cs:97) has no effect.
- `float` rounding is not modelled: balances and means are exact reals, and a mean is the sum over the count.
- The Gregorian year, month and day of month are not computed. They come from the `Calendar` parameter.
- Time of day is not modelled: a date is a whole day ordinal. So `OrderBy` compares days, and `AddDays(1)` moves one whole day.
- `ForecastNextNDays`: on an error it returns the error only. The predictor calls made before the exception are not described, since they have no observable effect.
