# Daily weather fetch and completeness check — a Dafny model

The Streamlit script (in two near-identical versions, `Prophet_1_0.py` and
`openmeteo.py`) asks the Open-Meteo archive for the daily maximum and minimum
temperature and the precipitation sum of one place over an inclusive date
range. It normalises the answer into a four-column table (`date`,
`temp_max_C`, `temp_min_C`, `rain_mm`) and then reports which calendar days
of the range have no row. This project models that logic as pure Dafny
functions and proves its properties:

- `Calendar` — proleptic-Gregorian dates as Python's `datetime.date` holds
  them (years 1–9999). It covers the leap-year rule, month lengths, the day
  number (`date.toordinal()`), the next day, and chronological order.
- `FullDate` — the `YYYY-MM-DD` grammar (section 5.6 of RFC 3339). It
  covers `strftime("%Y-%m-%d")` and the strict subset of `pd.to_datetime`
  the provider's `time` strings use, with round trips in both directions.
- `Days` — `pd.date_range(start, end, freq="D")`: every day from start to
  end inclusive.
- `Frame` — the provider's answer as an abstract value: a status code and a
  body that is either not JSON or an object that may carry a `daily` block
  of parallel arrays. It also defines the output table and the steps of
  normalisation. Temperatures and rain are an opaque type parameter `V`,
  since they are only passed through.
- `Fetch` — `fetch_daily_weather`. The two versions differ only when the
  `daily` block has no `time` array. `Prophet_1_0.py` then gives every row
  a NaT date; `openmeteo.py` raises `KeyError`. This is the `TimePolicy`
  parameter (`NullDatesWhenAbsent`, `TimeRequired`).
- `Completeness` — `check_missing_days_daily`.
- `App` — the main flow once the button is pressed. The HTTP call is a
  function parameter that receives the two query date strings.

What the code does in the cases that matter:

- An HTTP status other than exactly 200, a body that is not JSON, and a body
  without `daily` are not errors. All three return the empty frame
  `pd.DataFrame()`, and the page shows a "no data" warning.
- A `time` string that does not parse is not dropped. Its row stays, with a
  NaT date.
- pandas raises in three places, and these become `PandasError` values: arrays
  of unequal length in `pd.DataFrame(daily)`, a missing `time` (openmeteo.py
  only), and a projection onto a variable the block lacks.
- For an empty table the checker returns every expected day and `False`,
  even when the range is empty.

## Model

| member | source | states |
|---|---|---|
| `Calendar.DaysInMonth` | Prophet_1_0.py:108 | month lengths lie between 28 and 31, and a month has 29 days exactly when it is February of a leap year |
| `Calendar.NextDay` | Prophet_1_0.py:108 | the next day comes chronologically after the date, and it is a valid date for every date except 9999-12-31 |
| `Calendar.NextDayOrdinal` | Prophet_1_0.py:108 | the next day is exactly one day number later, across month and year ends alike |
| `Calendar.OrdinalOrder` | Prophet_1_0.py:108 | on valid dates, chronological order is the order of day numbers, and equal day numbers mean equal dates |
| `Days.DayRange` | Prophet_1_0.py:108 | the range is empty exactly when end is before start; otherwise it starts at start and ends at end; every entry is a valid date |
| `Days.DayRangeOrdinals` | Prophet_1_0.py:108 | entry i of the range is start plus i days, so the range has end − start + 1 days when start ≤ end |
| `Days.DayRangeIncreasing` | Prophet_1_0.py:108 | the range is strictly chronological |
| `Days.DayRangeConsecutive` | openmeteo.py:94 | each entry of the range is the next day of the one before it |
| `Days.DayRangeMembers` | openmeteo.py:94 | a date is in the range exactly when it is a valid date not before start and not after end |
| `FullDate.Format` | Prophet_1_0.py:167-168 | a date is written as ten characters: four year digits, two month digits, two day digits, separated by dashes |
| `FullDate.Parse` | Prophet_1_0.py:84 | a string parses only if it has the full-date shape and its fields form a valid date |
| `FullDate.ParseFormat` | openmeteo.py:149-150 | parsing a formatted date gives back that date |
| `FullDate.FormatParse` | openmeteo.py:75 | formatting a parsed date gives back the original string, so each date has one spelling |
| `App.QueryDates` | openmeteo.py:149-150 | the start and end strings sent to the provider have the full-date shape and parse back to the requested dates |
| `Frame.Height` | Prophet_1_0.py:79 | building the frame succeeds exactly when all arrays have the same length, which is then the row count; otherwise it fails with the unequal-length error |
| `Frame.ToDate` | Prophet_1_0.py:84 | a date read from a `time` entry is a valid date, and the entry is a string that the formatter would write for exactly that date |
| `Frame.ToDateSpellings` | Prophet_1_0.py:84 | a `time` entry gives a date exactly when it is a string that is the formatter's spelling of some valid date; everything else becomes NaT |
| `Frame.ToDateFormat` | Prophet_1_0.py:84 | the spelling of a valid date reads back as that date |
| `Frame.Renamed` | Prophet_1_0.py:88-95 | each of the three provider variables is renamed to the output column in its position after `date`; every other label is left as it is |
| `Frame.NoData` | Prophet_1_0.py:64 | the frame returned on the early exits has no columns, and the page's `df.empty` test holds of it |
| `Frame.Absent` | Prophet_1_0.py:98 | the list of missing projection columns is empty exactly when all three variables are present, and holds only renamed names of absent variables |
| `Frame.Project` | Prophet_1_0.py:88-98 | projection succeeds exactly when all three variables are present; the columns are then `date`, `temp_max_C`, `temp_min_C`, `rain_mm`, and row i holds the i-th date and the i-th value of each variable; otherwise it raises a not-in-index error naming at least one column |
| `Fetch.Normalize` | Prophet_1_0.py:78-98 | normalisation succeeds exactly for blocks with equal-length arrays, all three variables and, where required, `time`; the result is the block zipped row by row under the four output columns, row i dated by the parsed `time[i]`, or NaT when `time` is absent; each kind of failure is the one pandas raises first |
| `Fetch.FetchDailyWeather` | Prophet_1_0.py:34-100 | a status other than 200, an unreadable body and a body without `daily` each give the empty frame; a 200 answer whose `daily` block can be normalised gives that block row by row under the four output columns; a result with columns comes only from such an answer; it fails exactly when the block cannot be normalised |
| `Fetch.NormalizedEmptiness` | Prophet_1_0.py:110 | a normalised frame is empty, in the `df.empty` sense, exactly when every array of the provider's block is empty |
| `Fetch.StatusGate` | Prophet_1_0.py:61-64 | for a status other than 200 the result does not depend on the body, and it is the empty frame |
| `Fetch.AbsentTimeGivesNullDates` | Prophet_1_0.py:83-86 | with no `time` array the Prophet version still gives one row per index, every date NaT |
| `Fetch.AbsentTimeIsError` | openmeteo.py:75 | with no `time` array the openmeteo version raises `KeyError('time')` for any block whose arrays have equal length |
| `Fetch.UnparseableDateKeepsRow` | openmeteo.py:75 | a `time` entry that does not parse keeps its row at its index with a NaT date, and no row is dropped |
| `Fetch.FetchEncode` | openmeteo.py:71-85 | laying out any rows with NaT-or-valid dates as the provider's parallel arrays and fetching them gives back exactly those rows under the four output columns, in both versions |
| `Completeness.Missing` | Prophet_1_0.py:114 | a day is kept exactly when it is expected and absent from the table's dates; the result is an in-order subsequence of the expected days |
| `Completeness.Found` | Prophet_1_0.py:114 | a day is kept exactly when it is expected and present among the table's dates (the complement that `missing` leaves out) |
| `Completeness.CheckMissingDaysDaily` | Prophet_1_0.py:103-116 | an empty table gives every expected day and `False`; otherwise the flag is true exactly when nothing is missing; a day is reported exactly when it lies in the range and has no row (every day in the range for an empty table); the report is a subsequence of the expected days |
| `Completeness.MissingIncreasing` | Prophet_1_0.py:114 | filtering chronological days keeps them chronological |
| `Completeness.MissingFoundPartition` | openmeteo.py:99-100 | the missing days and the found days split the expected days between them, counting repeats, so their lengths add up |
| `Completeness.ReportChronological` | openmeteo.py:94-100 | the reported days are strictly chronological |
| `Completeness.ReportPartition` | openmeteo.py:99-102 | for a non-empty table, every expected day is either missing or found, never both |
| `Completeness.AllGoodIffCovered` | openmeteo.py:99-102 | for a non-empty table the flag is true exactly when every expected day has a row |
| `Completeness.CoveredIsComplete` | openmeteo.py:96-102 | a non-empty table that has a row for every day of the range is reported as `([], True)` |
| `Completeness.MissingOneGap` | openmeteo.py:100 | filtering chronological days of which exactly one is absent from the table's dates gives exactly that day |
| `Completeness.OneGap` | openmeteo.py:99-102 | a non-empty table lacking exactly one day of the range reports exactly that day, with the flag false |
| `Completeness.StrayRowsIgnored` | Prophet_1_0.py:113-114 | adding a row with a NaT date or a date outside the range to a non-empty table leaves the report unchanged |
| `App.RunQuery` | Prophet_1_0.py:165-197 | the provider is asked with the two formatted dates; the page warns of no data exactly when the fetched frame is empty, fails exactly when normalisation raised, and otherwise shows a non-empty four-column table whose flag agrees with the missing list and whose missing days are exactly the days of the range without a row, in chronological order; the table shown is the fetched frame itself, and a failure shown is the one normalisation raised |
| `App.GapExample` | openmeteo.py:148-179 | for 2024-01-01 to 2024-01-03 with only the first and third day returned, the page shows those two rows and reports 2024-01-02 alone, with the flag false |

## Left out

- The Streamlit page is left out: page setup, sidebar widgets, titles, warnings, success and error messages, `st.write` debug output, charts and their `notna().any()` gating, and the notes expander. It is presentation and makes no decisions.
- The `requests.get` call (URL, query parameters, 30-second timeout) is left out. It is I/O; the model takes its answer as an abstract `Response`, and in `App.RunQuery` the call is a function parameter.
- `to_excel_bytes` is left out. It serialises through xlsxwriter into opaque bytes.
- A `requests.get` timeout or connection error escapes `fetch_daily_weather` uncaught (Prophet_1_0.py:56). The `respond` parameter of `App.RunQuery` is a total function, so the model has no case for it.
- `datetime.utcnow()` and the 14-day default window are left out. They depend on the clock and only set widget defaults.
- Temperature and rain values are an opaque type. They are never computed on; JSON `null` among them is passed through like any other value.
- `FullDate.Parse`: `pd.to_datetime` accepts many more spellings than `YYYY-MM-DD` (other separators, times, numbers as epoch offsets). The model reads only the full-date grammar and treats every other `time` entry, non-strings included, as NaT.
- `Frame.ToDate`: pandas also turns dates outside its nanosecond timestamp range (before 1677-09-22 or after 2262-04-11) into NaT. The model parses every valid full-date.
- `Days.DayRange`: `pd.date_range` raises for ends outside that timestamp range. The model enumerates any valid Python dates; the script's date widgets stay well inside the range.
- `FullDate.Format` always pads the year to four digits, as RFC 3339 requires. A platform `strftime` may not pad years below 1000, which the script's date widgets never produce.
- `Calendar.NextDay`: Python raises `OverflowError` after 9999-12-31. The model returns a date that is not `Valid`, and `Days.DayRange` never asks for it.
- A JSON body whose top level is not an object, and a `daily` value that is not an object of arrays, are left out. The provider always answers with an object of arrays.
- `Frame.Project`: a `daily` block that already has keys spelt like the output columns (`temp_max_C`, `temp_min_C`, `rain_mm`) is left out. pandas would pick those up in the projection, or duplicate the column after the rename; the model looks only at the three provider variables. A `date` key is overwritten by the code, and the model agrees.
- The text of pandas exception messages is not modelled, only which exception is raised.
- The nearest-site resolver (haversine distance over a site catalogue) and the provider's echoed latitude, longitude and elevation are left out. No such logic exists in either script.
