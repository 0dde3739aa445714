/** The iterative multi-step forecast (`ForecastNextNDays`): predict the day
    after the working series, record the prediction, append it to the series
    as if it had been observed, and repeat. */
module Forecast {
  import opened Series
  import opened Features

  /** One element of the returned list: a date and its forecast. */
  datatype ForecastPoint = ForecastPoint(date: Day, forecast: real)

  /** The exceptions the loop can raise: `Last()` on an empty list, and
      `AddDays(1)` past 9999-12-31. */
  datatype Error = NoElements | DateOutOfRange

  datatype Result<T> = Ok(value: T) | Err(error: Error)

  /** The features the loop predicts `nextDate` from: `lag1` is the last
      balance; with seven or more entries `lag7` is the balance seven places
      from the end and the rolling value the mean of the last seven balances;
      with fewer, `lag7` falls back to `lag1` and the rolling value to the
      mean of every entry. The label is left at its default, 0. */
  function ForecastFeatures(work: seq<Observation>, nextDate: Day, cal: Calendar): (row: FeatureRow)
    requires |work| > 0
  {
    var n := |work|;
    var lag1 := work[n - 1].balance;
    var lag7 := if n >= 7 then work[n - 7].balance else lag1;
    var rolling7 := if n >= 7 then Average(Balances(work[n - 7..])) else Average(Balances(work));
    Row(0.0, lag1, lag7, rolling7, nextDate, cal)
  }

  /** The forecasts as observations, the form in which they are fed back. */
  function AsObservations(points: seq<ForecastPoint>): (observations: seq<Observation>)
  {
    seq(|points|, k requires 0 <= k < |points| => Observation(points[k].date, points[k].forecast))
  }

  /** The working list at the start of step `j`: the sorted history followed
      by the first `j` forecasts. */
  function Working(sorted: seq<Observation>, points: seq<ForecastPoint>, j: int): (work: seq<Observation>)
    requires 0 <= j <= |points|
  {
    sorted + AsObservations(points[..j])
  }

  /** `points` is what the loop produces from the sorted history: point `j`
      is dated `j + 1` days after the last historical date, and its value is
      the prediction from the features of the working list at step `j`. */
  ghost predicate IsForecast(predict: FeatureRow -> real, cal: Calendar,
                             sorted: seq<Observation>, points: seq<ForecastPoint>)
  {
    |sorted| > 0 &&
    (forall j :: 0 <= j < |points| ==> points[j].date == sorted[|sorted| - 1].date + j + 1) &&
    (forall j :: 0 <= j < |points| ==> PredictedAt(predict, cal, sorted, points, j))
  }

  /** The value of point `j` is the prediction from the working list at step `j`. */
  ghost predicate PredictedAt(predict: FeatureRow -> real, cal: Calendar,
                              sorted: seq<Observation>, points: seq<ForecastPoint>, j: int)
    requires |sorted| > 0 && 0 <= j < |points|
  {
    points[j].forecast == predict(ForecastFeatures(Working(sorted, points, j), points[j].date, cal))
  }

  /** `ForecastNextNDays`. The predictor is the trained model's prediction
      function. The caller's list is only read (there is no modifies clause):
      the loop works on a sorted copy. */
  method ForecastNextNDays(predict: FeatureRow -> real, cal: Calendar,
                           historicalData: array<Observation>, forecastDays: int)
    returns (r: Result<seq<ForecastPoint>>)
    ensures forecastDays <= 0 ==> r == Ok([])
    ensures r == Err(NoElements) <==> forecastDays > 0 && historicalData.Length == 0
    ensures r == Err(DateOutOfRange) <==>
      forecastDays > 0 && historicalData.Length > 0 &&
      SortByDate(historicalData[..])[historicalData.Length - 1].date + forecastDays > MaxDay
    ensures r.Ok? <==>
      forecastDays <= 0 ||
      (historicalData.Length > 0 &&
       SortByDate(historicalData[..])[historicalData.Length - 1].date + forecastDays <= MaxDay)
    ensures r.Ok? && forecastDays > 0 ==>
      |r.value| == forecastDays && IsForecast(predict, cal, SortByDate(historicalData[..]), r.value)
  {
    var results: seq<ForecastPoint> := [];
    var data := SortByDate(historicalData[..]);
    ghost var sorted := data;
    var i := 0;
    while i < forecastDays
      invariant 0 <= i && (i <= forecastDays || i == 0)
      invariant |results| == i
      invariant data == sorted + AsObservations(results)
      invariant i > 0 ==> |sorted| > 0 && data[|data| - 1].date == sorted[|sorted| - 1].date + i
      invariant i > 0 ==> IsForecast(predict, cal, sorted, results)
    {
      if |data| == 0 {
        return Err(NoElements);
      }
      var lastDate := data[|data| - 1].date;
      if lastDate == MaxDay {
        return Err(DateOutOfRange);
      }
      var nextDate: Day := lastDate + 1;

      var nextFeatures := ForecastFeatures(data, nextDate, cal);
      var predicted := predict(nextFeatures);
      ExtendForecast(predict, cal, sorted, results, ForecastPoint(nextDate, predicted));
      results := results + [ForecastPoint(nextDate, predicted)];
      data := data + [Observation(nextDate, predicted)];
      i := i + 1;
    }
    return Ok(results);
  }

  lemma AsObservationsAppend(points: seq<ForecastPoint>, p: ForecastPoint)
    ensures AsObservations(points + [p]) == AsObservations(points) + [Observation(p.date, p.forecast)]
  {
  }

  /** One loop step keeps `IsForecast`: appending the point predicted from
      the current working list. */
  lemma ExtendForecast(predict: FeatureRow -> real, cal: Calendar, sorted: seq<Observation>,
                       points: seq<ForecastPoint>, p: ForecastPoint)
    requires |sorted| > 0
    requires points == [] || IsForecast(predict, cal, sorted, points)
    requires p.date == sorted[|sorted| - 1].date + |points| + 1
    requires p.forecast == predict(ForecastFeatures(sorted + AsObservations(points), p.date, cal))
    ensures IsForecast(predict, cal, sorted, points + [p])
  {
    var ext := points + [p];
    forall j | 0 <= j < |ext|
      ensures PredictedAt(predict, cal, sorted, ext, j)
    {
      assert ext[..j] == if j < |points| then points[..j] else points;
      if j < |points| {
        assert PredictedAt(predict, cal, sorted, points, j);
      }
    }
  }

  // ---------------------------------------------------------------------
  // The features of one step

  /** Fewer than seven entries (degraded mode): `lag7` is `lag1`, the last
      balance, and the rolling value is the mean of all entries. */
  lemma ForecastFallback(work: seq<Observation>, nextDate: Day, cal: Calendar)
    requires 0 < |work| < 7
    ensures ForecastFeatures(work, nextDate, cal).lag1 == work[|work| - 1].balance
    ensures ForecastFeatures(work, nextDate, cal).lag7 == ForecastFeatures(work, nextDate, cal).lag1
    ensures ForecastFeatures(work, nextDate, cal).rollingMean7 == Sum(Balances(work)) / (|work| as real)
  {
  }

  /** Seven or more entries: `lag7` is the balance at `Count - 7` and the
      rolling value is the mean of exactly the last seven balances. */
  lemma ForecastFullWindow(work: seq<Observation>, nextDate: Day, cal: Calendar)
    requires |work| >= 7
    ensures ForecastFeatures(work, nextDate, cal).lag1 == work[|work| - 1].balance
    ensures ForecastFeatures(work, nextDate, cal).lag7 == work[|work| - 7].balance
    ensures ForecastFeatures(work, nextDate, cal).rollingMean7
            == (work[|work| - 7].balance + work[|work| - 6].balance + work[|work| - 5].balance
                + work[|work| - 4].balance + work[|work| - 3].balance + work[|work| - 2].balance
                + work[|work| - 1].balance) / 7.0
  {
    AverageOfSeven(Balances(work[|work| - 7..]));
  }

  /** The calendar fields of a forecast step are those of `nextDate`. */
  lemma ForecastCalendar(work: seq<Observation>, nextDate: Day, cal: Calendar)
    requires |work| > 0
    ensures ForecastFeatures(work, nextDate, cal).year == cal.year(nextDate)
    ensures ForecastFeatures(work, nextDate, cal).month == cal.month(nextDate)
    ensures ForecastFeatures(work, nextDate, cal).day == cal.dayOfMonth(nextDate)
    ensures ForecastFeatures(work, nextDate, cal).dayOfWeek == DayOfWeek(nextDate)
    ensures ForecastFeatures(work, nextDate, cal).isWeekend == 1 <==> nextDate % 7 == 5 || nextDate % 7 == 6
  {
  }

  /** With seven or more entries the forecast-time features are exactly the
      training row the feature builder would compute for the new day once it
      is appended with value `x`, apart from the label. */
  lemma ForecastMatchesTraining(work: seq<Observation>, nextDate: Day, x: real, cal: Calendar)
    requires |work| >= 7
    ensures TrainingRow(work + [Observation(nextDate, x)], |work|, cal)
            == ForecastFeatures(work, nextDate, cal).(balance := x)
  {
    var ext := work + [Observation(nextDate, x)];
    assert ext[|work| - 7..|work|] == work[|work| - 7..];
  }

  // ---------------------------------------------------------------------
  // The feedback step

  /** Each step grows the working list by exactly the new point, leaves the
      earlier entries as they were, and dates the point one day after the
      working list's last entry. */
  lemma {:induction false} WorkingGrowth(predict: FeatureRow -> real, cal: Calendar,
                                         sorted: seq<Observation>, points: seq<ForecastPoint>, j: int)
    requires IsForecast(predict, cal, sorted, points)
    requires 0 <= j < |points|
    ensures |Working(sorted, points, j)| == |sorted| + j
    ensures Working(sorted, points, j + 1)
            == Working(sorted, points, j) + [Observation(points[j].date, points[j].forecast)]
    ensures points[j].date == Working(sorted, points, j)[|sorted| + j - 1].date + 1
  {
    assert points[..j + 1] == points[..j] + [points[j]];
    AsObservationsAppend(points[..j], points[j]);
    if j > 0 {
      assert Working(sorted, points, j)[|sorted| + j - 1] == Observation(points[j - 1].date, points[j - 1].forecast);
    }
  }

  /** The `lag1` of every step after the first is the previous step's
      prediction, not an observed balance. */
  lemma FeedbackLag1(predict: FeatureRow -> real, cal: Calendar,
                     sorted: seq<Observation>, points: seq<ForecastPoint>, j: int)
    requires IsForecast(predict, cal, sorted, points)
    requires 0 <= j && j + 1 < |points|
    ensures ForecastFeatures(Working(sorted, points, j + 1), points[j + 1].date, cal).lag1
            == points[j].forecast
  {
    WorkingGrowth(predict, cal, sorted, points, j);
  }

  /** From the eighth step on every lag and rolling feature is built from
      predictions alone: `lag1` and `lag7` are the predictions one and seven
      steps back and the rolling value is the mean of the last seven
      predictions. */
  lemma FeedbackFullySynthetic(predict: FeatureRow -> real, cal: Calendar,
                               sorted: seq<Observation>, points: seq<ForecastPoint>, j: int)
    requires IsForecast(predict, cal, sorted, points)
    requires 7 <= j < |points|
    ensures ForecastFeatures(Working(sorted, points, j), points[j].date, cal).lag1 == points[j - 1].forecast
    ensures ForecastFeatures(Working(sorted, points, j), points[j].date, cal).lag7 == points[j - 7].forecast
    ensures ForecastFeatures(Working(sorted, points, j), points[j].date, cal).rollingMean7
            == (points[j - 7].forecast + points[j - 6].forecast + points[j - 5].forecast
                + points[j - 4].forecast + points[j - 3].forecast + points[j - 2].forecast
                + points[j - 1].forecast) / 7.0
  {
    var w := Working(sorted, points, j);
    assert |w| == |sorted| + j;
    forall m | j - 7 <= m < j
      ensures w[|sorted| + m] == Observation(points[m].date, points[m].forecast)
    {
      assert w[|sorted| + m] == AsObservations(points[..j])[m];
    }
    ForecastFullWindow(w, points[j].date, cal);
  }

  // ---------------------------------------------------------------------
  // The whole forecast

  /** The forecast is strictly after every historical observation, and its
      dates are consecutive days. */
  lemma ForecastDates(predict: FeatureRow -> real, cal: Calendar,
                      history: seq<Observation>, points: seq<ForecastPoint>)
    requires IsForecast(predict, cal, SortByDate(history), points)
    ensures forall j, o :: 0 <= j < |points| && o in history ==> o.date < points[j].date
    ensures forall j :: 0 < j < |points| ==> points[j].date == points[j - 1].date + 1
  {
    LastSortedIsLatest(history);
  }

  /** `IsForecast` leaves no freedom: two forecasts of the same length from
      the same history, predictor and calendar are equal. */
  lemma ForecastDetermined(predict: FeatureRow -> real, cal: Calendar,
                           sorted: seq<Observation>, a: seq<ForecastPoint>, b: seq<ForecastPoint>)
    requires IsForecast(predict, cal, sorted, a) && IsForecast(predict, cal, sorted, b)
    requires |a| == |b|
    ensures a == b
  {
    var j := 0;
    while j < |a|
      invariant 0 <= j <= |a|
      invariant a[..j] == b[..j]
    {
      assert Working(sorted, a, j) == Working(sorted, b, j);
      assert PredictedAt(predict, cal, sorted, a, j) && PredictedAt(predict, cal, sorted, b, j);
      assert a[j] == b[j];
      assert a[..j + 1] == a[..j] + [a[j]] && b[..j + 1] == b[..j] + [b[j]];
      j := j + 1;
    }
    assert a == a[..|a|] && b == b[..|b|];
  }

  /** Appending the forecast keeps the working list in date order. */
  lemma WorkingSorted(predict: FeatureRow -> real, cal: Calendar,
                      sorted: seq<Observation>, points: seq<ForecastPoint>)
    requires SortedByDate(sorted)
    requires IsForecast(predict, cal, sorted, points)
    ensures SortedByDate(Working(sorted, points, |points|))
  {
    var w := Working(sorted, points, |points|);
    assert points[..|points|] == points;
    forall i, j | 0 <= i < j < |w|
      ensures w[i].date <= w[j].date
    {
      if j >= |sorted| {
        assert w[j].date == points[j - |sorted|].date;
        if i >= |sorted| {
          assert w[i].date == points[i - |sorted|].date;
        } else {
          assert w[i] == sorted[i];
        }
      }
    }
  }

  /** Training-time and forecast-time features agree: building training rows
      over the history extended by its forecast (sorted again, which changes
      nothing) gives, for every forecast step that had seven entries to draw
      on, the features that step predicted from, labelled with its
      prediction. */
  lemma RetrainingAgrees(predict: FeatureRow -> real, cal: Calendar,
                         sorted: seq<Observation>, points: seq<ForecastPoint>)
    requires SortedByDate(sorted)
    requires IsForecast(predict, cal, sorted, points)
    ensures SortByDate(Working(sorted, points, |points|)) == Working(sorted, points, |points|)
    ensures forall j :: 0 <= j < |points| && |sorted| + j >= 7 ==>
      TrainingRow(Working(sorted, points, |points|), |sorted| + j, cal)
      == ForecastFeatures(Working(sorted, points, j), points[j].date, cal).(balance := points[j].forecast)
  {
    WorkingSorted(predict, cal, sorted, points);
    SortByDateOfSorted(Working(sorted, points, |points|));
    forall j | 0 <= j < |points| && |sorted| + j >= 7
      ensures TrainingRow(Working(sorted, points, |points|), |sorted| + j, cal)
              == ForecastFeatures(Working(sorted, points, j), points[j].date, cal).(balance := points[j].forecast)
    {
      RetrainingAgreesAt(predict, cal, sorted, points, j);
    }
  }

  lemma RetrainingAgreesAt(predict: FeatureRow -> real, cal: Calendar,
                           sorted: seq<Observation>, points: seq<ForecastPoint>, j: int)
    requires IsForecast(predict, cal, sorted, points)
    requires 0 <= j < |points| && |sorted| + j >= 7
    ensures TrainingRow(Working(sorted, points, |points|), |sorted| + j, cal)
            == ForecastFeatures(Working(sorted, points, j), points[j].date, cal).(balance := points[j].forecast)
  {
    var full := Working(sorted, points, |points|);
    var i := |sorted| + j;
    WorkingGrowth(predict, cal, sorted, points, j);
    assert full[..i + 1] == Working(sorted, points, j + 1) by {
      assert points[..|points|] == points;
      assert points[..j + 1] == points[..|points|][..j + 1];
      assert AsObservations(points)[..j + 1] == AsObservations(points[..j + 1]);
    }
    TrainingRowOfPrefix(full, i, i + 1, cal);
    ForecastMatchesTraining(Working(sorted, points, j), points[j].date, points[j].forecast, cal);
  }

  // ---------------------------------------------------------------------
  // A worked example

  /** Ten consecutive days starting at `d0` with balances
      100, 101, 99, 102, 98, 103, 97, 104, 96, 105. */
  function TenDays(d0: Day): (history: seq<Observation>)
    requires d0 + 10 <= MaxDay
  {
    [Observation(d0, 100.0), Observation(d0 + 1, 101.0), Observation(d0 + 2, 99.0),
     Observation(d0 + 3, 102.0), Observation(d0 + 4, 98.0), Observation(d0 + 5, 103.0),
     Observation(d0 + 6, 97.0), Observation(d0 + 7, 104.0), Observation(d0 + 8, 96.0),
     Observation(d0 + 9, 105.0)]
  }

  /** The ten days are already in date order, so the sorted copy the loop
      works on is the series itself. */
  lemma TenDaysSorted(d0: Day)
    requires d0 + 10 <= MaxDay
    ensures SortByDate(TenDays(d0)) == TenDays(d0)
  {
    var h := TenDays(d0);
    assert forall k :: 0 <= k < 10 ==> h[k].date == d0 + k;
    SortByDateOfSorted(h);
  }

  /** A one-day forecast from those ten days is dated `d0 + 10` and predicted
      from `lag1 = 105`, `lag7 = 102` (the balance at index 10 - 7 = 3) and the
      mean of the balances at indices 3..9, 705 / 7. */
  lemma TenDayScenario(predict: FeatureRow -> real, cal: Calendar, d0: Day, points: seq<ForecastPoint>)
    requires d0 + 10 <= MaxDay
    requires IsForecast(predict, cal, TenDays(d0), points) && |points| == 1
    ensures points[0] == ForecastPoint(d0 + 10, predict(Row(0.0, 105.0, 102.0, 705.0 / 7.0, d0 + 10, cal)))
  {
    var h := TenDays(d0);
    assert PredictedAt(predict, cal, h, points, 0);
    assert Working(h, points, 0) == h;
    TenDayFeatures(d0, cal);
  }

  lemma TenDayFeatures(d0: Day, cal: Calendar)
    requires d0 + 10 <= MaxDay
    ensures ForecastFeatures(TenDays(d0), d0 + 10, cal) == Row(0.0, 105.0, 102.0, 705.0 / 7.0, d0 + 10, cal)
  {
    ForecastFullWindow(TenDays(d0), d0 + 10, cal);
  }
}
