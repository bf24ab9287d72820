/** `check_missing_days_daily`: which days of the inclusive range have no
    row in the table, reported in chronological order, with a flag saying
    that none is missing. */
module Completeness {
  import opened Wrappers
  import opened Calendar
  import opened Days
  import opened Frame

  /** The pair the checker returns: the missing days and the all-good flag. */
  datatype Report = Report(missing: seq<Date>, allGood: bool)

  /** `set(df["date"])`: the table's dates, NaT included. */
  function GotDays<V>(t: Table<V>): set<Option<Date>> {
    set i | 0 <= i < |t.rows| :: t.rows[i].date
  }

  /** `xs` is `ys` with some entries left out, the rest in their order. */
  ghost predicate Subsequence<T>(xs: seq<T>, ys: seq<T>)
    decreases |ys|
  {
    if |xs| == 0 then true
    else if |ys| == 0 then false
    else (xs[0] == ys[0] && Subsequence(xs[1..], ys[1..])) || Subsequence(xs, ys[1..])
  }

  /** `[d for d in expected if d not in got]`. */
  function Missing(expected: seq<Date>, got: set<Option<Date>>): (r: seq<Date>)
    ensures forall d :: d in r <==> d in expected && Some(d) !in got
    ensures Subsequence(r, expected)
    ensures |r| <= |expected|
  {
    if |expected| == 0 then []
    else
      var rest := Missing(expected[1..], got);
      if Some(expected[0]) in got then
        SubsequenceOfTail(rest, expected);
        rest
      else
        [expected[0]] + rest
  }

  /** `[d for d in expected if d in got]`, the complement of `Missing`. */
  function Found(expected: seq<Date>, got: set<Option<Date>>): (r: seq<Date>)
    ensures forall d :: d in r <==> d in expected && Some(d) in got
  {
    if |expected| == 0 then []
    else (if Some(expected[0]) in got then [expected[0]] else []) + Found(expected[1..], got)
  }

  lemma SubsequenceOfTail<T>(xs: seq<T>, ys: seq<T>)
    requires |ys| > 0 && Subsequence(xs, ys[1..])
    ensures Subsequence(xs, ys)
  {
  }

  /** The checker. An empty table gives every expected day and `False`;
      otherwise the flag is whether no day is missing. */
  function CheckMissingDaysDaily<V>(t: Table<V>, start: Date, end: Date): (r: Report)
    requires Valid(start) && Valid(end)
    ensures IsEmpty(t) ==> r.missing == DayRange(start, end) && !r.allGood
    ensures !IsEmpty(t) ==> (r.allGood <==> |r.missing| == 0)
    ensures forall d :: d in r.missing <==>
      && Valid(d) && !Before(d, start) && !Before(end, d)
      && (IsEmpty(t) || Some(d) !in GotDays(t))
    ensures Subsequence(r.missing, DayRange(start, end))
  {
    var expected := DayRange(start, end);
    forall d ensures d in expected <==> Valid(d) && !Before(d, start) && !Before(end, d) {
      DayRangeMembers(start, end, d);
    }
    if IsEmpty(t) then
      SubsequenceReflexive(expected);
      Report(expected, false)
    else
      var missing := Missing(expected, GotDays(t));
      Report(missing, |missing| == 0)
  }

  lemma {:induction false} SubsequenceReflexive<T>(xs: seq<T>)
    ensures Subsequence(xs, xs)
    decreases |xs|
  {
    if |xs| > 0 {
      SubsequenceReflexive(xs[1..]);
    }
  }

  /** The missing days come out in chronological order, each once. */
  lemma {:induction false} MissingIncreasing(expected: seq<Date>, got: set<Option<Date>>)
    requires Increasing(expected)
    ensures Increasing(Missing(expected, got))
    decreases |expected|
  {
    if |expected| > 0 {
      var rest := Missing(expected[1..], got);
      MissingIncreasing(expected[1..], got);
      forall x | x in rest
        ensures Before(expected[0], x)
      {
        var j :| 0 <= j < |expected[1..]| && expected[1..][j] == x;
        assert expected[j + 1] == x;
      }
    }
  }

  /** Every expected day is either missing or found, never both: the two
      lists split the expected days between them, counting repeats. */
  lemma {:induction false} MissingFoundPartition(expected: seq<Date>, got: set<Option<Date>>)
    ensures multiset(Missing(expected, got)) + multiset(Found(expected, got)) == multiset(expected)
    ensures |Missing(expected, got)| + |Found(expected, got)| == |expected|
    decreases |expected|
  {
    if |expected| > 0 {
      MissingFoundPartition(expected[1..], got);
      assert expected == [expected[0]] + expected[1..];
    }
  }

  /** The report lists the expected days in chronological order. */
  lemma ReportChronological<V>(t: Table<V>, start: Date, end: Date)
    requires Valid(start) && Valid(end)
    ensures Increasing(CheckMissingDaysDaily(t, start, end).missing)
  {
    DayRangeIncreasing(start, end);
    if !IsEmpty(t) {
      MissingIncreasing(DayRange(start, end), GotDays(t));
    }
  }

  /** For a non-empty table the missing days and the days found split
      the expected days between them. */
  lemma ReportPartition<V>(t: Table<V>, start: Date, end: Date)
    requires Valid(start) && Valid(end)
    requires !IsEmpty(t)
    ensures multiset(CheckMissingDaysDaily(t, start, end).missing) + multiset(Found(DayRange(start, end), GotDays(t)))
      == multiset(DayRange(start, end))
  {
    MissingFoundPartition(DayRange(start, end), GotDays(t));
  }

  /** For a non-empty table the flag is true exactly when every expected
      day has a row. */
  lemma AllGoodIffCovered<V>(t: Table<V>, start: Date, end: Date)
    requires Valid(start) && Valid(end)
    requires !IsEmpty(t)
    ensures CheckMissingDaysDaily(t, start, end).allGood <==>
      forall d :: d in DayRange(start, end) ==> Some(d) in GotDays(t)
  {
    var m := CheckMissingDaysDaily(t, start, end).missing;
    if |m| > 0 {
      assert m[0] in m;
    }
  }

  /** A non-empty table whose dates cover the range is reported complete. */
  lemma CoveredIsComplete<V>(t: Table<V>, start: Date, end: Date)
    requires Valid(start) && Valid(end)
    requires !IsEmpty(t)
    requires forall d :: d in DayRange(start, end) ==> exists i :: 0 <= i < |t.rows| && t.rows[i].date == Some(d)
    ensures CheckMissingDaysDaily(t, start, end) == Report([], true)
  {
    forall d | d in DayRange(start, end)
      ensures Some(d) in GotDays(t)
    {
      var i :| 0 <= i < |t.rows| && t.rows[i].date == Some(d);
    }
    AllGoodIffCovered(t, start, end);
  }

  /** Filtering chronological days of which exactly one, `g`, is absent
      leaves exactly `[g]`. */
  lemma MissingOneGap(expected: seq<Date>, got: set<Option<Date>>, g: Date)
    requires Increasing(expected)
    requires g in expected && Some(g) !in got
    requires forall d :: d in expected && d != g ==> Some(d) in got
    ensures Missing(expected, got) == [g]
  {
    MissingIncreasing(expected, got);
    var m := Missing(expected, got);
    assert g in m;
    assert forall x :: x in m ==> x == g;
    AtMostOnce(m, g);
  }

  /** A non-empty table lacking exactly one day `g` of the range reports
      exactly `[g]`. */
  lemma OneGap<V>(t: Table<V>, start: Date, end: Date, g: Date)
    requires Valid(start) && Valid(end)
    requires !IsEmpty(t)
    requires g in DayRange(start, end) && Some(g) !in GotDays(t)
    requires forall d :: d in DayRange(start, end) && d != g ==> Some(d) in GotDays(t)
    ensures CheckMissingDaysDaily(t, start, end) == Report([g], false)
  {
    DayRangeIncreasing(start, end);
    MissingOneGap(DayRange(start, end), GotDays(t), g);
  }

  /** An increasing sequence holds a given date at most once. */
  lemma AtMostOnce(m: seq<Date>, g: Date)
    requires Increasing(m) && g in m
    requires forall x :: x in m ==> x == g
    ensures m == [g]
  {
    assert |m| > 1 ==> m[0] in m && m[1] in m && Before(m[0], m[1]);
  }

  /** Rows with a NaT date, or a date outside the range, change nothing
      in the report of a non-empty table. */
  lemma StrayRowsIgnored<V>(t: Table<V>, extra: Row<V>, start: Date, end: Date)
    requires Valid(start) && Valid(end)
    requires !IsEmpty(t)
    requires extra.date.None? || extra.date.value !in DayRange(start, end)
    ensures CheckMissingDaysDaily(Table(t.columns, t.rows + [extra]), start, end)
      == CheckMissingDaysDaily(t, start, end)
  {
    var t' := Table(t.columns, t.rows + [extra]);
    var expected := DayRange(start, end);
    assert GotDays(t') == GotDays(t) + {extra.date} by {
      assert forall i :: 0 <= i < |t.rows| ==> t'.rows[i] == t.rows[i];
      assert t'.rows[|t.rows|] == extra;
    }
    MissingSameOnExpected(expected, GotDays(t), GotDays(t'));
  }

  lemma {:induction false} MissingSameOnExpected(expected: seq<Date>, got: set<Option<Date>>, got': set<Option<Date>>)
    requires forall d :: d in expected ==> (Some(d) in got <==> Some(d) in got')
    ensures Missing(expected, got) == Missing(expected, got')
    decreases |expected|
  {
    if |expected| > 0 {
      MissingSameOnExpected(expected[1..], got, got');
    }
  }
}
