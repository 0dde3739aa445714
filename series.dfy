/** Observations of a daily stock balance (the `SaldoEstoque` record), the
    calendar facts the features need, ordering a series by date and the
    arithmetic mean behind the rolling-window features. */
module Series {

  /** Dates are whole days counted from 0001-01-01, the first day a .NET
      `DateTime` can hold; `MaxDay` is 9999-12-31, the last one. */
  const MaxDay: int := 3652058
  type Day = d: int | 0 <= d <= MaxDay

  /** .NET's `DayOfWeek` numbering. */
  const Sunday: int := 0
  const Monday: int := 1
  const Saturday: int := 6

  /** `SaldoEstoque`: the balance observed on one date. */
  datatype Observation = Observation(date: Day, balance: real)

  /** `Year`, `Month` and `Day` of a date: the Gregorian arithmetic is not
      modelled, so a calendar is a parameter of the model. */
  datatype Calendar = Calendar(year: Day -> int, month: Day -> int, dayOfMonth: Day -> int)

  /** `DateTime.DayOfWeek`: day 0 (0001-01-01) was a Monday. */
  function DayOfWeek(d: Day): (w: int)
    ensures 0 <= w <= 6
    ensures w == Monday <==> d % 7 == 0
  {
    (d + 1) % 7
  }

  /** The `IsWeekend` feature: 1 on Saturdays and Sundays, 0 on other days. */
  function IsWeekend(d: Day): (flag: int)
    ensures flag == 0 || flag == 1
    ensures flag == 1 <==> d % 7 == 5 || d % 7 == 6
  {
    if DayOfWeek(d) == Saturday || DayOfWeek(d) == Sunday then 1 else 0
  }

  // ---------------------------------------------------------------------
  // Means

  /** The balances of a list of observations, in order (the selector
      `x => x.Saldo`). */
  function Balances(s: seq<Observation>): (balances: seq<real>)
  {
    seq(|s|, k requires 0 <= k < |s| => s[k].balance)
  }

  /** Sum from the left, as `Enumerable.Average` accumulates. */
  function Sum(xs: seq<real>): (total: real)
  {
    if xs == [] then 0.0 else Sum(xs[..|xs| - 1]) + xs[|xs| - 1]
  }

  /** `Enumerable.Average`: the sum over the count. .NET throws on an empty
      sequence; every caller here averages a non-empty one. */
  function Average(xs: seq<real>): (mean: real)
    requires |xs| > 0
  {
    Sum(xs) / (|xs| as real)
  }

  /** The mean of a seven-element window is the sum of exactly those seven
      values divided by seven. */
  lemma AverageOfSeven(xs: seq<real>)
    requires |xs| == 7
    ensures Average(xs) == (xs[0] + xs[1] + xs[2] + xs[3] + xs[4] + xs[5] + xs[6]) / 7.0
  {
    assert xs[..1][..0] == [];
    assert Sum(xs[..1]) == xs[0];
    assert xs[..2][..1] == xs[..1];
    assert Sum(xs[..2]) == xs[0] + xs[1];
    assert xs[..3][..2] == xs[..2];
    assert Sum(xs[..3]) == xs[0] + xs[1] + xs[2];
    assert xs[..4][..3] == xs[..3];
    assert Sum(xs[..4]) == xs[0] + xs[1] + xs[2] + xs[3];
    assert xs[..5][..4] == xs[..4];
    assert Sum(xs[..5]) == xs[0] + xs[1] + xs[2] + xs[3] + xs[4];
    assert xs[..6][..5] == xs[..5];
    assert Sum(xs[..6]) == xs[0] + xs[1] + xs[2] + xs[3] + xs[4] + xs[5];
    assert xs[..7][..6] == xs[..6];
    assert xs[..7] == xs;
  }

  // ---------------------------------------------------------------------
  // Ordering by date (`OrderBy(x => x.Data)`, a stable sort)

  predicate SortedByDate(s: seq<Observation>)
  {
    forall i, j :: 0 <= i < j < |s| ==> s[i].date <= s[j].date
  }

  /** Inserts `o` after the last element dated on or before `o.date`,
      scanning from the end. */
  function InsertByDate(o: Observation, s: seq<Observation>): (r: seq<Observation>)
    ensures |r| == |s| + 1
    ensures multiset(r) == multiset(s) + multiset{o}
  {
    if s == [] || s[|s| - 1].date <= o.date then
      s + [o]
    else
      var init := s[..|s| - 1];
      assert s == init + [s[|s| - 1]];
      InsertByDate(o, init) + [s[|s| - 1]]
  }

  /** Inserting into a sorted list keeps it sorted, and no element of the
      result is dated after both `o` and the list's last element. */
  lemma {:induction false} InsertByDateSorted(o: Observation, s: seq<Observation>)
    requires SortedByDate(s)
    ensures SortedByDate(InsertByDate(o, s))
    ensures forall k :: 0 <= k < |s| + 1 ==>
      InsertByDate(o, s)[k].date <= o.date || (s != [] && InsertByDate(o, s)[k].date <= s[|s| - 1].date)
  {
    if s != [] && s[|s| - 1].date > o.date {
      var init := s[..|s| - 1];
      var last := s[|s| - 1];
      assert SortedByDate(init);
      InsertByDateSorted(o, init);
      var r := InsertByDate(o, init);
      assert init != [] ==> init[|init| - 1].date <= last.date;
      assert forall k :: 0 <= k < |r| ==> r[k].date <= last.date;
      assert InsertByDate(o, s) == r + [last];
    }
  }

  /** The series in ascending date order; among equal dates the input order
      is kept (see `SortByDateStable`). */
  function SortByDate(s: seq<Observation>): (r: seq<Observation>)
    ensures |r| == |s|
    ensures SortedByDate(r)
    ensures multiset(r) == multiset(s)
  {
    if s == [] then
      []
    else
      assert s == s[..|s| - 1] + [s[|s| - 1]];
      InsertByDateSorted(s[|s| - 1], SortByDate(s[..|s| - 1]));
      InsertByDate(s[|s| - 1], SortByDate(s[..|s| - 1]))
  }

  /** Sorting a series that is already in date order returns it unchanged. */
  lemma {:induction false} SortByDateOfSorted(s: seq<Observation>)
    requires SortedByDate(s)
    ensures SortByDate(s) == s
  {
    if s != [] {
      var init := s[..|s| - 1];
      assert SortedByDate(init);
      SortByDateOfSorted(init);
      assert init == [] || init[|init| - 1].date <= s[|s| - 1].date;
      assert s == init + [s[|s| - 1]];
    }
  }

  /** The last element of the sorted series carries the latest date of the
      input, and it is one of the input's observations. */
  lemma LastSortedIsLatest(s: seq<Observation>)
    requires |s| > 0
    ensures SortByDate(s)[|s| - 1] in s
    ensures forall o :: o in s ==> o.date <= SortByDate(s)[|s| - 1].date
  {
    var r := SortByDate(s);
    assert r[|r| - 1] in multiset(r);
    forall o | o in s
      ensures o.date <= r[|r| - 1].date
    {
      assert o in multiset(s);
      assert o in multiset(r);
      var k :| 0 <= k < |r| && r[k] == o;
    }
  }

  /** The observations of a series dated `d`, in series order. */
  function DatedOn(s: seq<Observation>, d: Day): (dated: seq<Observation>)
  {
    if s == [] then []
    else DatedOn(s[..|s| - 1], d) + (if s[|s| - 1].date == d then [s[|s| - 1]] else [])
  }

  lemma DatedOnSnoc(s: seq<Observation>, x: Observation, d: Day)
    ensures DatedOn(s + [x], d) == DatedOn(s, d) + (if x.date == d then [x] else [])
  {
    assert (s + [x])[..|s|] == s;
  }

  lemma {:induction false} DatedOnInsert(o: Observation, s: seq<Observation>, d: Day)
    ensures DatedOn(InsertByDate(o, s), d)
            == DatedOn(s, d) + (if o.date == d then [o] else [])
  {
    if s == [] || s[|s| - 1].date <= o.date {
      DatedOnSnoc(s, o, d);
    } else {
      var init := s[..|s| - 1];
      var last := s[|s| - 1];
      DatedOnInsert(o, init, d);
      DatedOnSnoc(InsertByDate(o, init), last, d);
      assert s == init + [last];
      DatedOnSnoc(init, last, d);
    }
  }

  /** Stability: for every date, the observations carrying it appear in the
      sorted series in the same order as in the input. */
  lemma {:induction false} SortByDateStable(s: seq<Observation>, d: Day)
    ensures DatedOn(SortByDate(s), d) == DatedOn(s, d)
  {
    if s != [] {
      var init := s[..|s| - 1];
      SortByDateStable(init, d);
      DatedOnInsert(s[|s| - 1], SortByDate(init), d);
    }
  }
}
