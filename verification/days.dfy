/** The inclusive sequence of calendar days that
    `pd.date_range(start, end, freq="D")` produces. */
module Days {
  import opened Calendar

  /** Every day from `start` to `end`, both included, one per day; empty
      when `end` comes before `start`. */
  function DayRange(start: Date, end: Date): (r: seq<Date>)
    requires Valid(start) && Valid(end)
    ensures |r| == 0 <==> Before(end, start)
    ensures |r| > 0 ==> r[0] == start && r[|r| - 1] == end
    ensures forall i :: 0 <= i < |r| ==> Valid(r[i])
    decreases end.year - start.year, 12 - start.month, 31 - start.day
  {
    if Before(end, start) then []
    else if start == end then [start]
    else [start] + DayRange(NextDay(start), end)
  }

  /** Strictly increasing in chronological order. */
  ghost predicate Increasing(s: seq<Date>) {
    forall i, j :: 0 <= i < j < |s| ==> Before(s[i], s[j])
  }

  /** Entry i of the range is i days after `start`, so the range holds
      end − start + 1 days whenever start ≤ end. */
  lemma {:induction false} DayRangeOrdinals(start: Date, end: Date)
    requires Valid(start) && Valid(end)
    ensures var r := DayRange(start, end);
      && (!Before(end, start) ==> |r| == Ordinal(end) - Ordinal(start) + 1)
      && forall i :: 0 <= i < |r| ==> Ordinal(r[i]) == Ordinal(start) + i
    decreases end.year - start.year, 12 - start.month, 31 - start.day
  {
    var r := DayRange(start, end);
    if !Before(end, start) && start != end {
      var next := NextDay(start);
      NextDayOrdinal(start);
      DayRangeOrdinals(next, end);
      assert r == [start] + DayRange(next, end);
    }
  }

  /** Each entry after the first is the next day of the one before it. */
  ghost predicate Consecutive(s: seq<Date>) {
    forall i :: 0 <= i < |s| - 1 ==> Valid(s[i]) && s[i + 1] == NextDay(s[i])
  }

  /** Consecutive entries are consecutive calendar days: no day is
      skipped. */
  lemma {:induction false} DayRangeConsecutive(start: Date, end: Date)
    requires Valid(start) && Valid(end)
    ensures Consecutive(DayRange(start, end))
    decreases end.year - start.year, 12 - start.month, 31 - start.day
  {
    var r := DayRange(start, end);
    if !Before(end, start) && start != end {
      var rest := DayRange(NextDay(start), end);
      DayRangeConsecutive(NextDay(start), end);
      assert r == [start] + rest;
      forall i | 0 <= i < |r| - 1
        ensures Valid(r[i]) && r[i + 1] == NextDay(r[i])
      {
        assert r[i + 1] == rest[i];
        if i > 0 {
          assert r[i] == rest[i - 1];
        }
      }
    }
  }

  /** The range is chronological and without repetition. */
  lemma DayRangeIncreasing(start: Date, end: Date)
    requires Valid(start) && Valid(end)
    ensures Increasing(DayRange(start, end))
  {
    var r := DayRange(start, end);
    DayRangeOrdinals(start, end);
    forall i, j | 0 <= i < j < |r|
      ensures Before(r[i], r[j])
    {
      OrdinalOrder(r[i], r[j]);
    }
  }

  /** A date is in the range exactly when it is a valid date between the
      two ends. */
  lemma DayRangeMembers(start: Date, end: Date, d: Date)
    requires Valid(start) && Valid(end)
    ensures d in DayRange(start, end) <==> Valid(d) && !Before(d, start) && !Before(end, d)
  {
    var r := DayRange(start, end);
    DayRangeOrdinals(start, end);
    if d in r {
      var i :| 0 <= i < |r| && r[i] == d;
      OrdinalOrder(d, start);
      OrdinalOrder(end, d);
    }
    if Valid(d) && !Before(d, start) && !Before(end, d) {
      OrdinalOrder(d, start);
      OrdinalOrder(end, d);
      OrdinalOrder(end, start);
      var i := Ordinal(d) - Ordinal(start);
      OrdinalOrder(r[i], d);
    }
  }
}
