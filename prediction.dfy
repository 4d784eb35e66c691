/**
 * The prediction request: resolve the two climatological baselines of the
 * requested date in the annotated history, build the six-feature row,
 * run the classifier on it and format its answer.
 */
module Prediction {
  import opened Wrappers
  import opened Calendar
  import opened Grouped
  import opened Climatology

  /** A prediction request, its date already parsed from `YYYY-MM-DD`. */
  datatype WeatherData = WeatherData(tempAvg: real, tempMin: real, tempMax: real, prcp: real, predictDate: CalendarDate)

  /**
   * Why a request fails: no history row carries the requested date (the
   * `values[0]` of an empty selection), or the classifier gave no answer
   * for the row (the `[0]` of an empty prediction).
   */
  datatype PredictionError = DateLookupError | ClassifierError

  /**
   * The pretrained classifier, of which only its input and output are
   * known: a matrix of feature rows in, one level per row out, each level
   * in its printed form.
   */
  type Classifier = seq<seq<real>> -> seq<string>

  const ResponsePrefix: string := "Predicted Level: "

  /** The rows whose date satisfies `keep`, in table order (a boolean-mask selection). */
  function Where(table: seq<Record>, keep: CalendarDate -> bool): (rows: seq<Record>)
    ensures |rows| <= |table|
    ensures forall row :: row in rows <==> row in table && keep(row.time)
  {
    if table == [] then []
    else (if keep(table[0].time) then [table[0]] else []) + Where(table[1..], keep)
  }

  /** Row `i` is the first row of `table` dated exactly `target`. */
  ghost predicate IsFirstOn(table: seq<Record>, target: Date, i: int) {
    && 0 <= i < |table|
    && table[i].time == target
    && forall j :: 0 <= j < i ==> table[j].time != target
  }

  /** The first row dated exactly `target`, if there is one. */
  function FirstOn(table: seq<Record>, target: Date): (r: Option<Record>)
    ensures r.None? <==> forall j :: 0 <= j < |table| ==> table[j].time != target
    ensures r.Some? ==> r.value in table && r.value.time == target
  {
    if table == [] then None
    else if table[0].time == target then Some(table[0])
    else FirstOn(table[1..], target)
  }

  /** `FirstOn` finds the first row with the date, by position. */
  lemma {:induction false} FirstOnIsFirst(table: seq<Record>, target: Date, i: int)
    requires IsFirstOn(table, target, i)
    ensures FirstOn(table, target) == Some(table[i])
  {
    if i > 0 {
      assert IsFirstOn(table[1..], target, i - 1);
      FirstOnIsFirst(table[1..], target, i - 1);
    }
  }

  /**
   * A selection that keeps the target date cannot change which row is the
   * first one on that date: the rows it drops are all on other dates.
   */
  lemma {:induction false} WhereKeepsFirstOn(table: seq<Record>, keep: CalendarDate -> bool, target: CalendarDate)
    requires keep(target)
    ensures FirstOn(Where(table, keep), target) == FirstOn(table, target)
  {
    if table != [] {
      var rest := Where(table[1..], keep);
      WhereKeepsFirstOn(table[1..], keep, target);
      if keep(table[0].time) {
        var w := [table[0]] + rest;
        assert Where(table, keep) == w;
        assert w[0] == table[0] && w[1..] == rest;
      } else {
        assert Where(table, keep) == rest;
        assert table[0].time != target;
      }
    }
  }

  /**
   * The monthly baseline: the `monthly_average` of the first row dated
   * exactly `target`, looked up among the rows of the same month dated no
   * later in the month; that selection always keeps the target's own row,
   * so the result is an exact-date match and absent when the date is.
   */
  function MonthlyBaseline(table: seq<Record>, target: CalendarDate): (r: Option<real>)
    ensures r.None? <==> forall j :: 0 <= j < |table| ==> table[j].time != target
    ensures forall i :: IsFirstOn(table, target, i) ==> r == Some(table[i].monthlyAverage)
  {
    var keep := (d: CalendarDate) => d.month == target.month && d.day <= target.day;
    WhereKeepsFirstOn(table, keep, target);
    assert forall i :: IsFirstOn(table, target, i) ==> FirstOn(table, target) == Some(table[i]) by {
      forall i | IsFirstOn(table, target, i) { FirstOnIsFirst(table, target, i); }
    }
    match FirstOn(Where(table, keep), target)
    case None => None
    case Some(row) => Some(row.monthlyAverage)
  }

  /**
   * The day-of-year baseline: the `day_of_year_average` of the first row
   * dated exactly `target`, looked up among the rows with the target's
   * ordinal date; again an exact-date match.
   */
  function DayOfYearBaseline(table: seq<Record>, target: CalendarDate): (r: Option<real>)
    ensures r.None? <==> forall j :: 0 <= j < |table| ==> table[j].time != target
    ensures forall i :: IsFirstOn(table, target, i) ==> r == Some(table[i].dayOfYearAverage)
  {
    var dayOfYear := DayOfYear(target);
    var keep := (d: CalendarDate) => DayOfYear(d) == dayOfYear;
    WhereKeepsFirstOn(table, keep, target);
    assert forall i :: IsFirstOn(table, target, i) ==> FirstOn(table, target) == Some(table[i]) by {
      forall i | IsFirstOn(table, target, i) { FirstOnIsFirst(table, target, i); }
    }
    match FirstOn(Where(table, keep), target)
    case None => None
    case Some(row) => Some(row.dayOfYearAverage)
  }

  /**
   * The classifier input: one row of six features in the fixed order
   * temperature average, minimum, maximum, precipitation, monthly
   * baseline, day-of-year baseline.
   */
  function FeatureMatrix(data: WeatherData, monthlyAverage: real, dayOfYearAverage: real): (m: seq<seq<real>>)
    ensures |m| == 1 && |m[0]| == 6
    ensures m[0][0] == data.tempAvg && m[0][1] == data.tempMin && m[0][2] == data.tempMax
    ensures m[0][3] == data.prcp && m[0][4] == monthlyAverage && m[0][5] == dayOfYearAverage
  {
    [[data.tempAvg, data.tempMin, data.tempMax, data.prcp, monthlyAverage, dayOfYearAverage]]
  }

  /** The response text: the fixed prefix, then the level exactly as printed. */
  function Message(level: string): (s: string)
    ensures |s| == |ResponsePrefix| + |level|
    ensures s[..|ResponsePrefix|] == ResponsePrefix && s[|ResponsePrefix|..] == level
  {
    ResponsePrefix + level
  }

  /** Distinct levels give distinct responses: the level can be read back from the message. */
  lemma MessageIsInjective(a: string, b: string)
    requires Message(a) == Message(b)
    ensures a == b
  {
    assert a == Message(a)[|ResponsePrefix|..];
  }

  /**
   * The whole request: fails with `DateLookupError` exactly when no history
   * row carries the requested date; otherwise classifies the feature row
   * built from the request and the first such row's two averages.
   */
  function PredictFlood(table: seq<Record>, model: Classifier, data: WeatherData): (r: Result<string, PredictionError>)
    ensures r == Failure(DateLookupError) <==> forall j :: 0 <= j < |table| ==> table[j].time != data.predictDate
    ensures forall i :: IsFirstOn(table, data.predictDate, i) ==>
              var levels := model(FeatureMatrix(data, table[i].monthlyAverage, table[i].dayOfYearAverage));
              r == if |levels| == 0 then Failure(ClassifierError) else Success(Message(levels[0]))
  {
    match MonthlyBaseline(table, data.predictDate)
    case None => Failure(DateLookupError)
    case Some(monthlyAverage) =>
      match DayOfYearBaseline(table, data.predictDate)
      case None => Failure(DateLookupError)
      case Some(dayOfYearAverage) =>
        var levels := model(FeatureMatrix(data, monthlyAverage, dayOfYearAverage));
        if |levels| == 0 then Failure(ClassifierError) else Success(Message(levels[0]))
  }

  /**
   * A request against the history as the startup block leaves it: when row
   * `i` is the first row dated the requested day, the classifier sees the
   * request's four readings followed by row `i`'s month-keyed and
   * ordinal-keyed expanding means of precipitation, in file order.
   */
  lemma PredictFloodOnAnnotatedHistory(time: seq<CalendarDate>, prcp: seq<real>, model: Classifier, data: WeatherData, i: nat)
    requires |time| == |prcp| && i < |time|
    requires time[i] == data.predictDate
    requires forall j :: 0 <= j < i ==> time[j] != data.predictDate
    ensures var levels := model(FeatureMatrix(data, ExpandingMean(MonthKeys(time), prcp, i),
                                                    ExpandingMean(DayOfYearKeys(time), prcp, i)));
            PredictFlood(Annotated(time, prcp), model, data)
              == if |levels| == 0 then Failure(ClassifierError) else Success(Message(levels[0]))
  {
    AnnotatedRow(time, prcp, i);
    assert IsFirstOn(Annotated(time, prcp), data.predictDate, i);
  }

  /** The annotated two-row June history used below. */
  lemma TwoJuneRows()
    ensures var table := Annotated([Date(2019, 6, 30), Date(2020, 6, 1)], [10.0, 0.0]);
            && table[0].time == Date(2019, 6, 30)
            && table[1].time == Date(2020, 6, 1)
            && table[1].monthlyAverage == 5.0
  {
    var time: seq<CalendarDate> := [Date(2019, 6, 30), Date(2020, 6, 1)];
    var prcp := [10.0, 0.0];
    assert MonthKeys(time) == [6, 6];
    assert ExpandingMean([6, 6], prcp, 1) == 10.0 / 2.0;
    AnnotatedRow(time, prcp, 1);
  }

  /**
   * The monthly baseline is not "the month up to that day": the expanding
   * mean also counts days of earlier years that fall later in the month.
   * Here 30 June 2019 (10.0) enters the baseline of 1 June 2020 (0.0).
   */
  lemma MonthlyBaselineCountsLaterDaysOfEarlierYears()
    ensures MonthlyBaseline(Annotated([Date(2019, 6, 30), Date(2020, 6, 1)], [10.0, 0.0]), Date(2020, 6, 1)) == Some(5.0)
  {
    TwoJuneRows();
    var table := Annotated([Date(2019, 6, 30), Date(2020, 6, 1)], [10.0, 0.0]);
    assert IsFirstOn(table, Date(2020, 6, 1), 1);
  }

  /** The six features of a concrete request come out in the documented order. */
  lemma ConcreteFeatureRow()
    ensures FeatureMatrix(WeatherData(28.0, 24.0, 32.0, 5.0, Date(2024, 7, 1)), 3.2, 1.8)
         == [[28.0, 24.0, 32.0, 5.0, 3.2, 1.8]]
  {
  }
}
