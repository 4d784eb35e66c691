/**
 * The historical daily precipitation table and its startup annotation:
 * two derived columns, the expanding mean of precipitation per calendar
 * month and per day of the year, walked in table (file) order.
 */
module Climatology {
  import opened Calendar
  import opened Grouped

  /** One row of the annotated history: an observed day and its two derived averages. */
  datatype Record = Record(time: CalendarDate, prcp: real, monthlyAverage: real, dayOfYearAverage: real)

  /** The grouping key of each row for the monthly average (`index.month`). */
  function MonthKeys(time: seq<CalendarDate>): (keys: seq<int>)
    ensures |keys| == |time|
    ensures forall i :: 0 <= i < |time| ==> keys[i] == time[i].month && 1 <= keys[i] <= 12
  {
    seq(|time|, i requires 0 <= i < |time| => time[i].month)
  }

  /** The grouping key of each row for the day-of-year average (`index.day_of_year`). */
  function DayOfYearKeys(time: seq<CalendarDate>): (keys: seq<int>)
    ensures |keys| == |time|
    ensures forall i :: 0 <= i < |time| ==> keys[i] == DayOfYear(time[i]) && 1 <= keys[i] <= 366
  {
    seq(|time|, i requires 0 <= i < |time| => DayOfYear(time[i]))
  }

  /**
   * The table after annotation: the same rows in the same order with the
   * same dates and precipitation, plus the two expanding averages.
   */
  function Annotated(time: seq<CalendarDate>, prcp: seq<real>): (table: seq<Record>)
    requires |time| == |prcp|
    ensures |table| == |time|
    ensures forall i :: 0 <= i < |table| ==> table[i].time == time[i] && table[i].prcp == prcp[i]
  {
    seq(|time|, i requires 0 <= i < |time| =>
      Record(time[i], prcp[i],
             ExpandingMean(MonthKeys(time), prcp, i),
             ExpandingMean(DayOfYearKeys(time), prcp, i)))
  }

  /**
   * The in-memory history table, column by column. The two average
   * columns are empty until the startup annotation assigns them.
   */
  class WeatherHistory {
    var time: seq<CalendarDate>
    var prcp: seq<real>
    var monthlyAverage: seq<real>
    var dayOfYearAverage: seq<real>

    /** Every column that is present has one entry per row. */
    predicate Valid()
      reads this
    {
      && |prcp| == |time|
      && (|monthlyAverage| == 0 || |monthlyAverage| == |time|)
      && (|dayOfYearAverage| == 0 || |dayOfYearAverage| == |time|)
    }

    predicate IsAnnotated()
      reads this
    {
      Valid() && |monthlyAverage| == |time| && |dayOfYearAverage| == |time|
    }

    /** The loaded table, dates already parsed, before any derived column exists. */
    constructor (time: seq<CalendarDate>, prcp: seq<real>)
      requires |time| == |prcp|
      ensures Valid()
      ensures this.time == time && this.prcp == prcp
      ensures monthlyAverage == [] && dayOfYearAverage == []
    {
      this.time := time;
      this.prcp := prcp;
      monthlyAverage := [];
      dayOfYearAverage := [];
    }

    /** The rows of an annotated table, the date moved back from the index into a column. */
    function Table(): (table: seq<Record>)
      reads this
      requires IsAnnotated()
      ensures |table| == |time|
      ensures forall i :: 0 <= i < |table| ==>
                && table[i].time == time[i] && table[i].prcp == prcp[i]
                && table[i].monthlyAverage == monthlyAverage[i]
                && table[i].dayOfYearAverage == dayOfYearAverage[i]
    {
      seq(|time|, i requires 0 <= i < |time| && IsAnnotated() reads this =>
        Record(time[i], prcp[i], monthlyAverage[i], dayOfYearAverage[i]))
    }

    /** Assigns the `monthly_average` column; nothing else changes. */
    method AddMonthlyAverage()
      requires Valid()
      modifies this
      ensures Valid()
      ensures time == old(time) && prcp == old(prcp) && dayOfYearAverage == old(dayOfYearAverage)
      ensures |monthlyAverage| == |time|
      ensures forall i :: 0 <= i < |time| ==> monthlyAverage[i] == ExpandingMean(MonthKeys(time), prcp, i)
    {
      monthlyAverage := RunningMeans(MonthKeys(time), prcp);
    }

    /** Assigns the `day_of_year_average` column; nothing else changes. */
    method AddDayOfYearAverage()
      requires Valid()
      modifies this
      ensures Valid()
      ensures time == old(time) && prcp == old(prcp) && monthlyAverage == old(monthlyAverage)
      ensures |dayOfYearAverage| == |time|
      ensures forall i :: 0 <= i < |time| ==> dayOfYearAverage[i] == ExpandingMean(DayOfYearKeys(time), prcp, i)
    {
      dayOfYearAverage := RunningMeans(DayOfYearKeys(time), prcp);
    }

    /** The startup block: both derived columns, dates and precipitation untouched. */
    method Annotate()
      requires Valid()
      modifies this
      ensures IsAnnotated()
      ensures time == old(time) && prcp == old(prcp)
      ensures Table() == Annotated(old(time), old(prcp))
    {
      AddMonthlyAverage();
      AddDayOfYearAverage();
    }
  }

  /** The first row of a calendar month in file order gets its own precipitation as its monthly average. */
  lemma FirstRowOfMonthKeepsItsPrecipitation(time: seq<CalendarDate>, prcp: seq<real>, i: nat)
    requires |time| == |prcp| && i < |time|
    requires forall j :: 0 <= j < i ==> time[j].month != time[i].month
    ensures Annotated(time, prcp)[i].monthlyAverage == prcp[i]
  {
    var keys := MonthKeys(time);
    AnnotatedRow(time, prcp, i);
    FirstOfGroup(keys, prcp, time[i].month, i);
  }

  /** The first row of a day of the year in file order gets its own precipitation as its day-of-year average. */
  lemma FirstRowOfDayOfYearKeepsItsPrecipitation(time: seq<CalendarDate>, prcp: seq<real>, i: nat)
    requires |time| == |prcp| && i < |time|
    requires forall j :: 0 <= j < i ==> DayOfYear(time[j]) != DayOfYear(time[i])
    ensures Annotated(time, prcp)[i].dayOfYearAverage == prcp[i]
  {
    var keys := DayOfYearKeys(time);
    AnnotatedRow(time, prcp, i);
    FirstOfGroup(keys, prcp, DayOfYear(time[i]), i);
  }

  /**
   * Averages stay within the range of the precipitation they average: with
   * every reading in `[lo, hi]` (non-negative readings: `lo` = 0), both
   * derived columns are in `[lo, hi]` too.
   */
  lemma AveragesWithinPrecipitationRange(time: seq<CalendarDate>, prcp: seq<real>, lo: real, hi: real)
    requires |time| == |prcp|
    requires forall j :: 0 <= j < |prcp| ==> lo <= prcp[j] <= hi
    ensures forall i :: 0 <= i < |time| ==>
              && lo <= Annotated(time, prcp)[i].monthlyAverage <= hi
              && lo <= Annotated(time, prcp)[i].dayOfYearAverage <= hi
  {
    forall i | 0 <= i < |time|
      ensures lo <= Annotated(time, prcp)[i].monthlyAverage <= hi
      ensures lo <= Annotated(time, prcp)[i].dayOfYearAverage <= hi
    {
      AnnotatedRow(time, prcp, i);
      MeanWithinBounds(MonthKeys(time), prcp, i, lo, hi);
      MeanWithinBounds(DayOfYearKeys(time), prcp, i, lo, hi);
    }
  }

  /** Dates strictly increase along the table: file order is date order. */
  predicate StrictlyIncreasing(time: seq<CalendarDate>) {
    forall i, j :: 0 <= i < j < |time| ==> NotAfter(time[i], time[j]) && time[i] != time[j]
  }

  /** Sum of `values[j]` over every row with key `k` dated on or before `d`, wherever it sits in the table. */
  function ChronoSum(time: seq<CalendarDate>, keys: seq<int>, values: seq<real>, k: int, d: Date, n: nat): real
    requires |time| == |keys| == |values| && n <= |keys|
  {
    if n == 0 then 0.0
    else ChronoSum(time, keys, values, k, d, n - 1)
         + (if keys[n - 1] == k && NotAfter(time[n - 1], d) then values[n - 1] else 0.0)
  }

  /** Number of rows with key `k` dated on or before `d`. */
  function ChronoCount(time: seq<CalendarDate>, keys: seq<int>, k: int, d: Date, n: nat): (c: nat)
    requires |time| == |keys| && n <= |keys|
    ensures c > 0 <==> exists j :: 0 <= j < n && keys[j] == k && NotAfter(time[j], d)
  {
    if n == 0 then 0
    else ChronoCount(time, keys, k, d, n - 1) + (if keys[n - 1] == k && NotAfter(time[n - 1], d) then 1 else 0)
  }

  /** The chronological reading of a group average: the mean over the group's rows dated up to row `i`'s date. */
  function ChronologicalMean(time: seq<CalendarDate>, keys: seq<int>, values: seq<real>, i: nat): real
    requires |time| == |keys| == |values| && i < |keys|
  {
    NotAfterIsTotalOrder(time[i], time[i], time[i]);
    assert ChronoCount(time, keys, keys[i], time[i], |keys|) > 0;
    ChronoSum(time, keys, values, keys[i], time[i], |keys|)
      / ChronoCount(time, keys, keys[i], time[i], |keys|) as real
  }

  /** Rows up to and including `i` all fall on or before row `i`'s date. */
  lemma {:induction false} ChronoPrefix(time: seq<CalendarDate>, keys: seq<int>, values: seq<real>, i: nat, n: nat)
    requires |time| == |keys| == |values| && n <= i + 1 && i < |keys|
    requires StrictlyIncreasing(time)
    ensures ChronoSum(time, keys, values, keys[i], time[i], n) == GroupSum(keys, values, keys[i], n)
    ensures ChronoCount(time, keys, keys[i], time[i], n) == GroupCount(keys, keys[i], n)
  {
    if n > 0 {
      ChronoPrefix(time, keys, values, i, n - 1);
      NotAfterIsTotalOrder(time[n - 1], time[i], time[i]);
    }
  }

  /** Rows after `i` all fall after row `i`'s date, so they add nothing. */
  lemma {:induction false} ChronoSuffix(time: seq<CalendarDate>, keys: seq<int>, values: seq<real>, i: nat, n: nat)
    requires |time| == |keys| == |values| && i < n <= |keys|
    requires StrictlyIncreasing(time)
    ensures ChronoSum(time, keys, values, keys[i], time[i], n) == ChronoSum(time, keys, values, keys[i], time[i], i + 1)
    ensures ChronoCount(time, keys, keys[i], time[i], n) == ChronoCount(time, keys, keys[i], time[i], i + 1)
  {
    if n > i + 1 {
      ChronoSuffix(time, keys, values, i, n - 1);
      NotAfterIsTotalOrder(time[i], time[n - 1], time[i]);
      assert !NotAfter(time[n - 1], time[i]);
    }
  }

  /**
   * When the table is sorted by date, the file-order expanding mean of any
   * grouping is the chronological one: "earlier in the file" and "on or
   * before this date" select the same rows.
   */
  lemma SortedFileOrderIsChronological(time: seq<CalendarDate>, keys: seq<int>, values: seq<real>, i: nat)
    requires |time| == |keys| == |values| && i < |keys|
    requires StrictlyIncreasing(time)
    ensures ExpandingMean(keys, values, i) == ChronologicalMean(time, keys, values, i)
  {
    ChronoSuffix(time, keys, values, i, |keys|);
    ChronoPrefix(time, keys, values, i, i + 1);
  }

  /** Both derived columns of a date-sorted table are chronological group averages. */
  lemma SortedHistoryAveragesAreChronological(time: seq<CalendarDate>, prcp: seq<real>, i: nat)
    requires |time| == |prcp| && i < |time|
    requires StrictlyIncreasing(time)
    ensures Annotated(time, prcp)[i].monthlyAverage == ChronologicalMean(time, MonthKeys(time), prcp, i)
    ensures Annotated(time, prcp)[i].dayOfYearAverage == ChronologicalMean(time, DayOfYearKeys(time), prcp, i)
  {
    AnnotatedRow(time, prcp, i);
    SortedFileOrderIsChronological(time, MonthKeys(time), prcp, i);
    SortedFileOrderIsChronological(time, DayOfYearKeys(time), prcp, i);
  }

  /**
   * Without sorting the two readings differ: with 2 June before 1 June in
   * the file, 1 June's monthly average also counts 2 June.
   */
  lemma UnsortedFileOrderIsNotChronological()
    ensures var time := [Date(2020, 6, 2), Date(2020, 6, 1)];
            var prcp := [10.0, 0.0];
            && ExpandingMean(MonthKeys(time), prcp, 1) == 5.0
            && ChronologicalMean(time, MonthKeys(time), prcp, 1) == 0.0
  {
    var time: seq<CalendarDate> := [Date(2020, 6, 2), Date(2020, 6, 1)];
    var keys := MonthKeys(time);
    assert keys == [6, 6];
    assert ChronoCount(time, keys, 6, time[1], 2) == 1;
  }

  /** A group key of 366 selects only 31 December of leap years. */
  lemma DayOfYear366GroupIsLeapYearEnd(time: seq<CalendarDate>, i: nat, j: nat)
    requires i < |time| && j < |time|
    requires DayOfYearKeys(time)[i] == 366
    ensures DayOfYearKeys(time)[j] == DayOfYearKeys(time)[i] <==> time[j].month == 12 && time[j].day == 31 && IsLeapYear(time[j].year)
  {
    DayOfYear366(time[j]);
  }

  /** Row `i` of the annotated table carries the two expanding means of row `i`. */
  lemma AnnotatedRow(time: seq<CalendarDate>, prcp: seq<real>, i: nat)
    requires |time| == |prcp| && i < |time|
    ensures Annotated(time, prcp)[i].monthlyAverage == ExpandingMean(MonthKeys(time), prcp, i)
    ensures Annotated(time, prcp)[i].dayOfYearAverage == ExpandingMean(DayOfYearKeys(time), prcp, i)
  {
  }

  /** A month of rows [0, 10, 20] on 1, 2 and 3 June gives monthly averages [0, 5, 10]. */
  lemma ThreeJuneDays()
    ensures var table := Annotated([Date(2020, 6, 1), Date(2020, 6, 2), Date(2020, 6, 3)], [0.0, 10.0, 20.0]);
            && table[0].monthlyAverage == 0.0
            && table[1].monthlyAverage == 5.0
            && table[2].monthlyAverage == 10.0
  {
    var time: seq<CalendarDate> := [Date(2020, 6, 1), Date(2020, 6, 2), Date(2020, 6, 3)];
    var prcp := [0.0, 10.0, 20.0];
    assert MonthKeys(time) == [6, 6, 6];
    assert ExpandingMean([6, 6, 6], prcp, 0) == 0.0;
    assert ExpandingMean([6, 6, 6], prcp, 1) == 10.0 / 2.0;
    assert ExpandingMean([6, 6, 6], prcp, 2) == 30.0 / 3.0;
    AnnotatedRow(time, prcp, 0);
    AnnotatedRow(time, prcp, 1);
    AnnotatedRow(time, prcp, 2);
  }
}
