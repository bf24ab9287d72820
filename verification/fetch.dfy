/** `fetch_daily_weather`: classify the provider's answer and normalise
    its `daily` block into the four-column table. The two versions of the
    script differ only in what a `daily` block without `time` gives,
    which is the `TimePolicy` parameter: `NullDatesWhenAbsent` in
    Prophet_1_0.py, `TimeRequired` in openmeteo.py. */
module Fetch {
  import opened Wrappers
  import opened Calendar
  import opened Frame
  import FullDate

  /** The block can be normalised under the policy: equal-length arrays,
      a `time` array unless the policy tolerates its absence, and all three
      variables. */
  ghost predicate Normalizable<V>(block: Block<V>, policy: TimePolicy) {
    && Uniform(block)
    && (policy.NullDatesWhenAbsent? || TimeKey in block)
    && forall v :: v in Variables ==> v in block
  }

  /** `t` is the block zipped row by row: one row per array index, in
      index order, row i holding the parsed `time[i]` (NaT when `time` is
      absent) and the i-th value of each variable, under the renamed
      columns. */
  ghost predicate Carries<V>(block: Block<V>, t: Table<V>) {
    && t.columns == OutputColumns
    && (forall v :: v in Variables ==> v in block && |block[v]| == |t.rows|)
    && (TimeKey in block ==> |block[TimeKey]| == |t.rows|)
    && forall i :: 0 <= i < |t.rows| ==>
      && t.rows[i].date == (if TimeKey in block then ToDate(block[TimeKey][i]) else None)
      && t.rows[i].tempMax == block[Variables[0]][i]
      && t.rows[i].tempMin == block[Variables[1]][i]
      && t.rows[i].rain == block[Variables[2]][i]
  }

  /** `pd.DataFrame(daily)`, the `date` column, the rename and the
      projection; each step can raise. */
  function Normalize<V>(block: Block<V>, policy: TimePolicy): (r: Result<Table<V>, PandasError>)
    ensures r.Success? <==> Normalizable(block, policy)
    ensures r.Success? ==> Carries(block, r.value)
    ensures !Uniform(block) ==> r == Failure(RaggedArrays)
    ensures Uniform(block) && policy.TimeRequired? && TimeKey !in block ==> r == Failure(MissingKey(TimeKey))
    ensures Uniform(block) && (policy.NullDatesWhenAbsent? || TimeKey in block) && r.Failure? ==>
      r.error.NotInIndex? && |r.error.columns| > 0
  {
    match Height(block)
    case Failure(e) => Failure(e)
    case Success(n) =>
      match DateColumnOf(block, n, policy)
      case Failure(e) => Failure(e)
      case Success(dates) => Project(block, dates)
  }

  /** A normalised frame has its four columns, so `df.empty` holds of it
      exactly when the provider's arrays are all empty. */
  lemma NormalizedEmptiness<V>(block: Block<V>, policy: TimePolicy)
    requires Normalizable(block, policy)
    ensures Normalize(block, policy).Success?
    ensures IsEmpty(Normalize(block, policy).value) <==> forall k :: k in block ==> |block[k]| == 0
  {
  }

  /** `fetch_daily_weather` on the provider's answer. A status other than
      200, a body that is not JSON and a body without `daily` all give the
      empty frame, whatever else the body holds. */
  function FetchDailyWeather<V>(resp: Response<V>, policy: TimePolicy): (r: Result<Table<V>, PandasError>)
    ensures resp.status != Success200 ==> r == Success(NoData())
    ensures resp.status == Success200 && resp.payload.Unreadable? ==> r == Success(NoData())
    ensures resp.status == Success200 && resp.payload.Object? && resp.payload.daily.None? ==> r == Success(NoData())
    ensures r.Success? && |r.value.columns| > 0 ==>
      && resp.status == Success200 && resp.payload.Object? && resp.payload.daily.Some?
      && Carries(resp.payload.daily.value, r.value)
    ensures r.Failure? <==>
      && resp.status == Success200 && resp.payload.Object? && resp.payload.daily.Some?
      && !Normalizable(resp.payload.daily.value, policy)
    ensures (resp.status == Success200 && resp.payload.Object? && resp.payload.daily.Some?
        && Normalizable(resp.payload.daily.value, policy)) ==>
      r.Success? && Carries(resp.payload.daily.value, r.value)
  {
    if resp.status != Success200 then Success(NoData())
    else
      match resp.payload
      case Unreadable => Success(NoData())
      case Object(None) => Success(NoData())
      case Object(Some(block)) => Normalize(block, policy)
  }

  /** Only the status decides a non-200 answer: the body is never looked at. */
  lemma StatusGate<V>(status: int, p: Payload<V>, q: Payload<V>, policy: TimePolicy)
    requires status != Success200
    ensures FetchDailyWeather(Response(status, p), policy) == FetchDailyWeather(Response(status, q), policy)
    ensures IsEmpty(FetchDailyWeather(Response(status, p), policy).value)
  {
  }

  /** Prophet_1_0.py: a `daily` block without `time` still gives one row
      per index, every date NaT. */
  lemma AbsentTimeGivesNullDates<V>(block: Block<V>)
    requires Uniform(block) && TimeKey !in block
    requires forall v :: v in Variables ==> v in block
    ensures var r := FetchDailyWeather(Response(Success200, Object(Some(block))), NullDatesWhenAbsent);
      && r.Success?
      && |r.value.rows| == |block[Variables[0]]|
      && forall i :: 0 <= i < |r.value.rows| ==> r.value.rows[i].date.None?
  {
  }

  /** openmeteo.py: a `daily` block without `time` whose arrays have equal
      length raises `KeyError`, whatever else it holds. */
  lemma AbsentTimeIsError<V>(block: Block<V>)
    requires Uniform(block) && TimeKey !in block
    ensures FetchDailyWeather(Response(Success200, Object(Some(block))), TimeRequired) == Failure(MissingKey(TimeKey))
  {
  }

  /** A `time` entry that does not parse keeps its row, with a NaT date;
      no row is dropped or moved. */
  lemma UnparseableDateKeepsRow<V>(block: Block<V>, policy: TimePolicy, i: int)
    requires Normalizable(block, policy) && TimeKey in block
    requires 0 <= i < |block[TimeKey]|
    requires ToDate(block[TimeKey][i]).None?
    ensures var r := FetchDailyWeather(Response(Success200, Object(Some(block))), policy);
      && r.Success? && |r.value.rows| == |block[TimeKey]|
      && r.value.rows[i].date.None?
      && r.value.rows[i].tempMax == block[Variables[0]][i]
  {
  }

  /** How the provider writes one date: a `full-date` string, or JSON
      `null` for NaT. */
  function EncodeDate<V>(d: Option<Date>): (c: Cell<V>)
    requires d.None? || Valid(d.value)
  {
    match d
    case None => Null
    case Some(day) => Text(FullDate.Format(day))
  }

  /** Rows whose dates are all NaT or valid calendar dates. */
  ghost predicate WellDated<V>(rows: seq<Row<V>>) {
    forall i :: 0 <= i < |rows| ==> rows[i].date.None? || Valid(rows[i].date.value)
  }

  /** The provider's layout of a table: one parallel array per column. */
  function Encode<V>(rows: seq<Row<V>>): (b: Block<V>)
    requires WellDated(rows)
  {
    map[
      TimeKey := seq(|rows|, i requires 0 <= i < |rows| => EncodeDate(rows[i].date)),
      Variables[0] := seq(|rows|, i requires 0 <= i < |rows| => rows[i].tempMax),
      Variables[1] := seq(|rows|, i requires 0 <= i < |rows| => rows[i].tempMin),
      Variables[2] := seq(|rows|, i requires 0 <= i < |rows| => rows[i].rain)]
  }

  /** Normalisation inverts the provider's layout: laying any well-dated
      rows out as parallel arrays and fetching them back gives exactly
      those rows under the four output columns, whichever version of the
      script runs. */
  lemma {:induction false} FetchEncode<V>(rows: seq<Row<V>>, policy: TimePolicy)
    requires WellDated(rows)
    ensures FetchDailyWeather(Response(Success200, Object(Some(Encode(rows)))), policy)
      == Success(Table(OutputColumns, rows))
  {
    var block := Encode(rows);
    assert TimeKey in block;
    assert forall k :: k in block ==> |block[k]| == |rows|;
    assert Uniform(block);
    assert forall v :: v in Variables ==> v in block;
    var r := FetchDailyWeather(Response(Success200, Object(Some(block))), policy);
    assert r.Success?;
    var t := r.value;
    assert |t.rows| == |rows|;
    forall i | 0 <= i < |rows|
      ensures t.rows[i] == rows[i]
    {
      assert block[TimeKey][i] == EncodeDate(rows[i].date);
      if rows[i].date.Some? {
        FullDate.ParseFormat(rows[i].date.value);
      }
    }
    assert t.rows == rows;
  }
}
