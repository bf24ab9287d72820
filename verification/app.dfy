/** The main flow of the script once the button is pressed: format the
    chosen dates, fetch, then either warn that nothing came back or show
    the table with its completeness report. The HTTP call is the
    `respond` parameter, which receives the two query date strings. */
module App {
  import opened Wrappers
  import opened Calendar
  import opened Days
  import opened Frame
  import opened Fetch
  import opened Completeness
  import FullDate

  /** What the page ends up showing. */
  datatype Screen<V> =
    | NoDataWarning                            // "Aucune donnée retournée"
    | Crash(failure: PandasError)              // an uncaught pandas exception
    | Shown(table: Table<V>, report: Report)   // table, completeness message, charts, export

  /** `strftime("%Y-%m-%d")` on both ends of the range: the strings sent
      to the provider, each of which parses back to its date. */
  function QueryDates(start: Date, end: Date): (q: (string, string))
    requires Valid(start) && Valid(end)
    ensures FullDate.Shaped(q.0) && FullDate.Shaped(q.1)
    ensures FullDate.Parse(q.0) == Some(start) && FullDate.Parse(q.1) == Some(end)
  {
    FullDate.ParseFormat(start);
    FullDate.ParseFormat(end);
    (FullDate.Format(start), FullDate.Format(end))
  }

  function RunQuery<V>(start: Date, end: Date, respond: (string, string) -> Response<V>, policy: TimePolicy): (s: Screen<V>)
    requires Valid(start) && Valid(end)
    ensures var fetched := FetchDailyWeather(respond(FullDate.Format(start), FullDate.Format(end)), policy);
      && (s.NoDataWarning? <==> fetched.Success? && IsEmpty(fetched.value))
      && (s.Crash? <==> fetched.Failure?)
    ensures s.Shown? ==> !IsEmpty(s.table) && (s.report.allGood <==> |s.report.missing| == 0)
    ensures s.Shown? ==> s.table.columns == OutputColumns
    ensures s.Shown? ==> forall d :: d in s.report.missing <==>
      d in DayRange(start, end) && Some(d) !in GotDays(s.table)
    ensures s.Shown? ==> Increasing(s.report.missing)
    ensures var fetched := FetchDailyWeather(respond(FullDate.Format(start), FullDate.Format(end)), policy);
      && (s.Shown? ==> fetched == Success(s.table))
      && (s.Crash? ==> fetched == Failure(s.failure))
  {
    var (startText, endText) := QueryDates(start, end);
    match FetchDailyWeather(respond(startText, endText), policy)
    case Failure(e) => Crash(e)
    case Success(t) =>
      if IsEmpty(t) then NoDataWarning
      else
        var report := CheckMissingDaysDaily(t, start, end);
        ReportChronological(t, start, end);
        forall d ensures d in DayRange(start, end) <==> Valid(d) && !Before(d, start) && !Before(end, d) {
          DayRangeMembers(start, end, d);
        }
        Shown(t, report)
  }

  /** The provider's answer in the worked example below: the first and
      the third of January 2024, with opaque values. */
  function ExampleBlock<V>(a: V, b: V, c: V, d: V, e: V, f: V): Block<V> {
    map[
      "time" := [Text("2024-01-01"), Text("2024-01-03")],
      "temperature_2m_max" := [Value(a), Value(b)],
      "temperature_2m_min" := [Value(c), Value(d)],
      "precipitation_sum" := [Value(e), Value(f)]]
  }

  function ExampleTable<V>(a: V, b: V, c: V, d: V, e: V, f: V): Table<V> {
    Table(OutputColumns, [
      Row(Some(Date(2024, 1, 1)), Value(a), Value(c), Value(e)),
      Row(Some(Date(2024, 1, 3)), Value(b), Value(d), Value(f))])
  }

  lemma ExampleFetch<V>(a: V, b: V, c: V, d: V, e: V, f: V)
    ensures FetchDailyWeather(Response(200, Object(Some(ExampleBlock(a, b, c, d, e, f)))), TimeRequired)
      == Success(ExampleTable(a, b, c, d, e, f))
  {
    var first, third := Date(2024, 1, 1), Date(2024, 1, 3);
    assert FullDate.Format(first) == "2024-01-01";
    assert FullDate.Format(third) == "2024-01-03";
    ToDateFormat<V>(first);
    ToDateFormat<V>(third);
    var block := ExampleBlock(a, b, c, d, e, f);
    assert Uniform(block);
    assert Normalizable(block, TimeRequired);
    var r := FetchDailyWeather(Response(200, Object(Some(block))), TimeRequired);
    assert r.Success? && Carries(block, r.value);
    var rows := ExampleTable(a, b, c, d, e, f).rows;
    assert |r.value.rows| == 2;
    assert r.value.rows[0] == rows[0];
    assert r.value.rows[1] == rows[1];
    assert r.value.rows == rows;
  }

  lemma ExampleReport<V>(t: Table<V>)
    requires |t.columns| > 0 && |t.rows| == 2
    requires t.rows[0].date == Some(Date(2024, 1, 1)) && t.rows[1].date == Some(Date(2024, 1, 3))
    ensures CheckMissingDaysDaily(t, Date(2024, 1, 1), Date(2024, 1, 3)) == Report([Date(2024, 1, 2)], false)
  {
    var first, second, third := Date(2024, 1, 1), Date(2024, 1, 2), Date(2024, 1, 3);
    assert Some(first) in GotDays(t) && Some(third) in GotDays(t);
    assert forall i :: 0 <= i < |t.rows| ==> t.rows[i].date != Some(second);
    forall x | x in DayRange(first, third) && x != second
      ensures Some(x) in GotDays(t)
    {
      DayRangeMembers(first, third, x);
      assert x.year == 2024 && x.month == 1 && 1 <= x.day <= 3;
      assert x == first || x == third;
    }
    DayRangeMembers(first, third, second);
    OneGap(t, first, third, second);
  }

  /** Worked example: for 2024-01-01 .. 2024-01-03 the provider returns
      the first and the third day only; the page shows a two-row table and
      a report naming 2024-01-02 alone, with the flag false. */
  lemma GapExample<V>(a: V, b: V, c: V, d: V, e: V, f: V)
    ensures RunQuery(Date(2024, 1, 1), Date(2024, 1, 3),
        (s: string, t: string) => Response(200, Object(Some(ExampleBlock(a, b, c, d, e, f)))), TimeRequired)
      == Shown(ExampleTable(a, b, c, d, e, f), Report([Date(2024, 1, 2)], false))
  {
    ExampleFetch(a, b, c, d, e, f);
    ExampleReport(ExampleTable(a, b, c, d, e, f));
  }
}
