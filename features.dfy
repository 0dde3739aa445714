/** The lag/rolling feature builder (`fnCreateFeatures`): one supervised
    learning row per observation that has seven predecessors. */
module Features {
  import opened Series

  /** `TimeSeriesSaldo`: the label `Saldo` (here `balance`), the lag and rolling-window
      features and the calendar features of one day. */
  datatype FeatureRow = FeatureRow(
    balance: real,
    lag1: real,
    lag7: real,
    rollingMean7: real,
    year: int,
    month: int,
    day: int,
    dayOfWeek: int,
    isWeekend: int)

  /** The object initialiser both feature sites use: the calendar fields are
      those of `date`. */
  function Row(balance: real, lag1: real, lag7: real, rollingMean7: real, date: Day, cal: Calendar): (r: FeatureRow)
    ensures r.isWeekend == 1 <==> r.dayOfWeek == Saturday || r.dayOfWeek == Sunday
    ensures r.isWeekend == 0 || r.isWeekend == 1
  {
    FeatureRow(balance, lag1, lag7, rollingMean7,
               cal.year(date), cal.month(date), cal.dayOfMonth(date),
               DayOfWeek(date), IsWeekend(date))
  }

  /** Reference definition of the row for target index `i` of a date-sorted
      series: the label is the balance at `i`, the lags the balances one and
      seven places back, the rolling mean the mean of the seven balances
      before `i`, and the calendar fields those of the date at `i`. */
  function TrainingRow(sorted: seq<Observation>, i: int, cal: Calendar): (row: FeatureRow)
    requires 7 <= i < |sorted|
  {
    Row(sorted[i].balance, sorted[i - 1].balance, sorted[i - 7].balance,
        Average(Balances(sorted[i - 7..i])), sorted[i].date, cal)
  }

  /** `fnCreateFeatures`: sorts a copy of the observations by date and emits
      the rows for the targets 7, 8, ..., n - 1 in that order. The caller's
      list is only read. */
  method CreateFeatures(rawData: array<Observation>, cal: Calendar) returns (rows: seq<FeatureRow>)
    ensures |rows| == if rawData.Length >= 7 then rawData.Length - 7 else 0
    ensures forall k :: 0 <= k < |rows| ==> rows[k] == TrainingRow(SortByDate(rawData[..]), k + 7, cal)
  {
    var sorted := SortByDate(rawData[..]);
    var result: seq<FeatureRow> := [];
    var i := 7;
    while i < |sorted|
      invariant 7 <= i
      invariant i <= |sorted| || i == 7
      invariant |result| == i - 7
      invariant forall k :: 0 <= k < |result| ==> result[k] == TrainingRow(sorted, k + 7, cal)
    {
      var lag1 := sorted[i - 1].balance;
      var lag7 := sorted[i - 7].balance;
      var rollingMean7 := Average(Balances(sorted[i - 7..][..7]));
      var date := sorted[i].date;
      assert sorted[i - 7..][..7] == sorted[i - 7..i];
      result := result + [Row(sorted[i].balance, lag1, lag7, rollingMean7, date, cal)];
      i := i + 1;
    }
    rows := result;
  }

  /** Row contents: the label and both lags come from the target index and
      the indices one and seven before it, the rolling mean is the mean of
      exactly the seven balances at `i - 7 .. i - 1`, and every calendar
      field is that of the target's date. */
  lemma TrainingRowContents(sorted: seq<Observation>, i: int, cal: Calendar)
    requires 7 <= i < |sorted|
    ensures TrainingRow(sorted, i, cal).balance == sorted[i].balance
    ensures TrainingRow(sorted, i, cal).lag1 == sorted[i - 1].balance
    ensures TrainingRow(sorted, i, cal).lag7 == sorted[i - 7].balance
    ensures TrainingRow(sorted, i, cal).rollingMean7
            == (sorted[i - 7].balance + sorted[i - 6].balance + sorted[i - 5].balance
                + sorted[i - 4].balance + sorted[i - 3].balance + sorted[i - 2].balance
                + sorted[i - 1].balance) / 7.0
    ensures TrainingRow(sorted, i, cal).year == cal.year(sorted[i].date)
    ensures TrainingRow(sorted, i, cal).month == cal.month(sorted[i].date)
    ensures TrainingRow(sorted, i, cal).day == cal.dayOfMonth(sorted[i].date)
    ensures TrainingRow(sorted, i, cal).dayOfWeek == DayOfWeek(sorted[i].date)
    ensures TrainingRow(sorted, i, cal).isWeekend == IsWeekend(sorted[i].date)
  {
    AverageOfSeven(Balances(sorted[i - 7..i]));
  }

  /** The rolling mean of row `i` depends on the seven balances before `i`
      and on nothing else: neither the target's own balance nor any balance
      outside the window changes it. */
  lemma RollingMeanIsLocal(s1: seq<Observation>, s2: seq<Observation>, i: int, cal: Calendar)
    requires 7 <= i < |s1| && i < |s2|
    requires forall k :: i - 7 <= k < i ==> s1[k].balance == s2[k].balance
    ensures TrainingRow(s1, i, cal).rollingMean7 == TrainingRow(s2, i, cal).rollingMean7
    ensures TrainingRow(s1, i, cal).lag1 == TrainingRow(s2, i, cal).lag1
    ensures TrainingRow(s1, i, cal).lag7 == TrainingRow(s2, i, cal).lag7
  {
    assert Balances(s1[i - 7..i]) == Balances(s2[i - 7..i]);
  }

  /** A row sees nothing after its target: it is the same row when computed
      over any prefix of the series that still holds the target. */
  lemma TrainingRowOfPrefix(s: seq<Observation>, i: int, n: int, cal: Calendar)
    requires 7 <= i < n <= |s|
    ensures TrainingRow(s[..n], i, cal) == TrainingRow(s, i, cal)
  {
    assert s[..n][i - 7..i] == s[i - 7..i];
  }
}
