# Flood-level prediction: climatology features

A Dafny model of the computational core of a small flood-prediction web
server (`serverApp.py`). At startup the server loads a multi-decade table of
daily precipitation, indexes it by date and adds two derived columns to every
row: `monthly_average`, the expanding (cumulative) mean of precipitation over
the rows of the same calendar month, and `day_of_year_average`, the same over
the rows of the same ordinal day. A `/predict` request names a date and gives
today's temperatures and precipitation; the server looks up the two averages
of the row dated exactly that day, builds a six-feature row and asks a
pretrained classifier for a flood level, answered as `"Predicted Level: <level>"`.

Modules:

- `Calendar` (`calendar.dfy`): Gregorian dates, `CalendarDate` (the valid
  ones, years 1 to 9999 as `datetime` allows), and the ordinal date of
  section 4.1.3 of ISO 8601:2004 (`DayOfYear`, 1..365 or 1..366).
- `Grouped` (`grouped.dfy`): prefix sums and counts by key, the expanding
  mean they define, its properties (first of a group, bounds, incremental
  form) and `RunningMeans`, the one-pass loop with a running sum and count
  per key, proved equal to the expanding mean at every row.
- `Climatology` (`climatology.dfy`): the annotated table (`Annotated`), the
  class `WeatherHistory` whose methods assign the two derived columns in
  place as the startup block does, and the lemmas relating file order to
  date order.
- `Prediction` (`prediction.dfy`): the request pipeline as pure functions:
  the row selections, the exact-date lookup, the feature row, the response.
- `Wrappers` (`wrappers.dfy`): `Option` and `Result`.

Behaviour as written, where it differs from the documented intent:

- The expanding means walk each group in table (file) order, not in date
  order. When the file is sorted by date the two coincide
  (`SortedFileOrderIsChronological`); when it is not they differ
  (`UnsortedFileOrderIsNotChronological`). A design that re-sorts each group
  by date before averaging would differ from the code on unsorted input; the
  model follows the code.
- The month and day filter applied before the monthly lookup
  (`serverApp.py:177-178`) has no effect: the row dated exactly the target
  always passes it (`WhereKeepsFirstOn`). On the annotated history the
  monthly baseline is therefore the expanding mean over every row of that
  month up to the requested row in the file (`PredictFloodOnAnnotatedHistory`),
  including days later in the month of earlier years, not "the month up to
  that day" (`MonthlyBaselineCountsLaterDaysOfEarlierYears`).
- The day-of-year key is an ordinal position, so from March on a leap year's
  calendar day shares its group with the next calendar day of a common year
  (`OrdinalShiftsAfterFebruary`, `FirstOfMarchInLeapYear`); ordinal 366 is 31 December of leap years
  only and never shares the group of 365 (`DayOfYear366`).
- A request for a date that is not in the history fails
  (`DateLookupError`), also for future dates.
- Every call is a function of the table, the classifier and the request, so
  two identical requests against the same table and classifier give the
  same answer, and annotating the same table twice gives the same columns.

## Model

| member | source | states |
|---|---|---|
| `Calendar.DayOfYear` | serverApp.py:184 | the ordinal date lies in 1..365 (1..366 in a leap year) and within the month's span of ordinals |
| `Calendar.DaysBeforeMonthIsPrefixSum` | serverApp.py:184 | the month-offset table is the running total of the month lengths and ends at the year length |
| `Calendar.DayOfYearDeterminesDate` | serverApp.py:29 | in years of the same kind, equal ordinals mean equal month and day |
| `Calendar.DayOfYear366` | serverApp.py:29 | ordinal 366 holds exactly for 31 December of a leap year, so it forms its own group apart from 365 |
| `Calendar.OrdinalShiftsAfterFebruary` | serverApp.py:29 | from March on the same calendar day is one ordinal later in a leap year than in a common year |
| `Calendar.FirstOfMarchInLeapYear` | serverApp.py:29 | 1 March 2020 and 2 March 2019 share ordinal 61, while 1 March 2019 is ordinal 60 |
| `Grouped.ExpandingMean` | serverApp.py:28-29 | the expanding mean of row `i` times the number of rows up to `i` with row `i`'s key (at least one, row `i` itself) is the sum of their values |
| `Grouped.RunningMeans` | serverApp.py:28-29 | a single pass with a running sum and count per key yields, at every row, the mean of the values of the rows up to it with the same key |
| `Grouped.FirstOfGroup` | serverApp.py:28-29 | the first row of a group has its own value as its expanding mean (one observation suffices) |
| `Grouped.MeanWithinBounds` | serverApp.py:28-29 | any lower and upper bound on the group prefix's values bounds its expanding mean (non-negative in, non-negative out; never above the prefix maximum) |
| `Grouped.IncrementalMean` | serverApp.py:28-29 | the expanding mean satisfies `avg_i = avg_p + (x_i - avg_p) / c_i` with `p` the group's previous row and `c_i` the group position |
| `Climatology.MonthKeys` | serverApp.py:28 | one grouping key per row, the row's calendar month in 1..12 (`index.month`) |
| `Climatology.DayOfYearKeys` | serverApp.py:29 | one grouping key per row, the row's ordinal date in 1..366 (`index.day_of_year`) |
| `Climatology.Annotated` | serverApp.py:24-32 | annotation keeps the row count, the row order, every date and every precipitation value |
| `Climatology.WeatherHistory.constructor` | serverApp.py:21-25 | the loaded table holds the parsed dates and precipitation, with no derived column yet |
| `Climatology.WeatherHistory.Table` | serverApp.py:32 | after `reset_index` row `i` holds the date, the reading and the two averages of position `i`, one row per date entry |
| `Climatology.WeatherHistory.AddMonthlyAverage` | serverApp.py:28 | assigns `monthly_average` as the month-keyed expanding mean of every row; no other column changes |
| `Climatology.WeatherHistory.AddDayOfYearAverage` | serverApp.py:29 | assigns `day_of_year_average` as the ordinal-keyed expanding mean of every row; no other column changes |
| `Climatology.WeatherHistory.Annotate` | serverApp.py:24-32 | after the startup block the table's rows are exactly `Annotated` of the loaded dates and precipitation |
| `Climatology.FirstRowOfMonthKeepsItsPrecipitation` | serverApp.py:28 | the first row of a month in file order has its own precipitation as its monthly average |
| `Climatology.FirstRowOfDayOfYearKeepsItsPrecipitation` | serverApp.py:29 | the first row of an ordinal day in file order has its own precipitation as its day-of-year average |
| `Climatology.AveragesWithinPrecipitationRange` | serverApp.py:28-29 | when every reading lies in `[lo, hi]`, both derived columns lie in `[lo, hi]` |
| `Climatology.SortedFileOrderIsChronological` | serverApp.py:28-29 | on a table strictly sorted by date, the file-order expanding mean equals the mean over the group's rows dated on or before the row |
| `Climatology.SortedHistoryAveragesAreChronological` | serverApp.py:24-29 | on a date-sorted table both derived columns are chronological group averages |
| `Climatology.UnsortedFileOrderIsNotChronological` | serverApp.py:28 | with 2 June before 1 June in the file, 1 June's monthly average is 5.0 where the chronological one is 0.0 |
| `Climatology.DayOfYear366GroupIsLeapYearEnd` | serverApp.py:29 | the group of a row with ordinal 366 holds exactly the rows dated 31 December of leap years |
| `Climatology.ThreeJuneDays` | serverApp.py:28 | June readings 0, 10, 20 on three consecutive days give monthly averages 0, 5, 10 |
| `Prediction.Where` | serverApp.py:177-178 | a boolean-mask selection keeps exactly the rows whose date passes the mask, never more rows than the table |
| `Prediction.FirstOn` | serverApp.py:181 | finds a row dated exactly the target, and finds none exactly when no row carries that date |
| `Prediction.FirstOnIsFirst` | serverApp.py:181 | the row found is the first in table order with that date |
| `Prediction.WhereKeepsFirstOn` | serverApp.py:177-190 | a selection that keeps the target date does not change the first row on that date |
| `Prediction.MonthlyBaseline` | serverApp.py:172-181 | the monthly baseline is the `monthly_average` of the first row dated exactly the target, and absent exactly when the date is not in the table |
| `Prediction.DayOfYearBaseline` | serverApp.py:183-190 | the day-of-year baseline is the `day_of_year_average` of the first row dated exactly the target, absent exactly when the date is not in the table |
| `Prediction.FeatureMatrix` | serverApp.py:193-200 | the classifier input is one row of six features in the order tempAvg, tempMin, tempMax, prcp, monthly baseline, day-of-year baseline |
| `Prediction.ConcreteFeatureRow` | serverApp.py:193-200 | a request (28, 24, 32, 5) with baselines 3.2 and 1.8 gives the row [28, 24, 32, 5, 3.2, 1.8] |
| `Prediction.Message` | serverApp.py:205-207 | the response is the prefix `Predicted Level: ` followed by the level exactly as printed |
| `Prediction.MessageIsInjective` | serverApp.py:206 | different levels give different responses |
| `Prediction.PredictFlood` | serverApp.py:160-207 | fails with a date-lookup error exactly when no row carries the requested date; otherwise answers with the classifier's first level for the feature row built from the request and that row's two averages |
| `Prediction.PredictFloodOnAnnotatedHistory` | serverApp.py:170-207 | on the annotated history, a request whose date first appears at row `i` is classified on its four readings followed by row `i`'s month-keyed and ordinal-keyed expanding means |
| `Prediction.MonthlyBaselineCountsLaterDaysOfEarlierYears` | serverApp.py:172-181 | the baseline of 1 June 2020 also averages in 30 June 2019 |

## Left out

- Reading the CSV file and parsing its `%d-%m-%Y` dates (`serverApp.py:21`, `serverApp.py:24`): the table arrives as parsed dates and readings.
- Parsing the request date with `strptime` in the `YYYY-MM-DD` extended calendar-date form of section 4.1.2.2 of ISO 8601:2004 (`serverApp.py:170`), and its failure on a malformed date: the request carries a valid date.
- `set_index` and `reset_index` (`serverApp.py:25`, `serverApp.py:32`): they only move the date column between the index and the columns; the model keeps it as a column throughout. The grouped `transform` result is aligned back to the rows by position, repeated dates included, which is how the model assigns the columns; a repeated date is looked up at its first row.
- Missing precipitation readings (NaN): pandas' expanding mean skips them and gives NaN for a group prefix with no reading; the model assumes every reading is present.
- Floating-point rounding: averages are exact `real` quotients; no bit-exact agreement with pandas is claimed. Non-finite request numbers are not modelled.
- The pandas `Timestamp` range (years 1677 to 2262) is narrower than the `datetime` range the model's dates use; dates outside it are not modelled.
- Loading the pickled classifier and its algorithm (`serverApp.py:47-48`, `serverApp.py:203`): the classifier is a function parameter from feature rows to printed levels. How a numpy level is printed is part of that parameter.
- The hourly weather fetch, the scheduler, the IMU endpoints and CSV appends, static files, routing and the `latest_*` globals (`serverApp.py:15-18`, `serverApp.py:34-44`, `serverApp.py:69-158`, `serverApp.py:209-210`): network, threads and file I/O outside the feature pipeline.
- Startup ordering (no request before the table is annotated) is not a separate state machine: a request takes any table of records. `WeatherHistory.Annotate` yields `Annotated` of the loaded columns, and `PredictFloodOnAnnotatedHistory` states the answer on that table.
