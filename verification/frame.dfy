/** The tabular values of the weather fetcher: the provider's response
    as an abstract value, the `daily` block of parallel arrays, and the
    normalised table (pandas `DataFrame`) built from it. Temperature and
    rain values are never computed on, so they are an opaque type `V`. */
module Frame {
  import opened Wrappers
  import opened Calendar
  import FullDate

  /** One entry of a provider array: JSON `null`, a string, or any other
      JSON value, carried through untouched. */
  datatype Cell<V> = Null | Text(text: string) | Value(value: V)

  /** The `daily` block: parallel arrays by key. */
  type Block<V> = map<string, seq<Cell<V>>>

  /** The body as the JSON layer sees it: not JSON at all, or a top-level
      object that may or may not carry a `daily` key. */
  datatype Payload<V> = Unreadable | Object(daily: Option<Block<V>>)

  /** An HTTP answer: its status code and its (lazily parsed) body. */
  datatype Response<V> = Response(status: int, payload: Payload<V>)

  /** One output row: `date` (`None` is NaT), `temp_max_C`, `temp_min_C`,
      `rain_mm`. */
  datatype Row<V> = Row(date: Option<Date>, tempMax: Cell<V>, tempMin: Cell<V>, rain: Cell<V>)

  /** A data frame: column labels and rows. `pd.DataFrame()` is
      `Table([], [])`. */
  datatype Table<V> = Table(columns: seq<string>, rows: seq<Row<V>>)

  /** The exceptions pandas raises while normalising. */
  datatype PandasError =
    | RaggedArrays                     // `pd.DataFrame(daily)`: arrays of unequal length
    | MissingKey(key: string)          // `df["time"]` on a block without `time`
    | NotInIndex(columns: seq<string>) // projection onto absent columns

  /** What the fetcher does when the `daily` block has no `time` array. */
  datatype TimePolicy =
    | NullDatesWhenAbsent   // every date becomes NaT
    | TimeRequired          // `KeyError`

  const Success200: int := 200
  const TimeKey: string := "time"
  const DateColumn: string := "date"

  /** The three daily variables requested from the provider. */
  const Variables: seq<string> := ["temperature_2m_max", "temperature_2m_min", "precipitation_sum"]

  /** The columns of a normalised table, in order. */
  const OutputColumns: seq<string> := ["date", "temp_max_C", "temp_min_C", "rain_mm"]

  /** The provider-to-output column renaming. */
  const Renames: map<string, string> := map[
    "temperature_2m_max" := "temp_max_C",
    "temperature_2m_min" := "temp_min_C",
    "precipitation_sum" := "rain_mm"]

  /** `DataFrame.rename(columns=Renames)` on one label: unlisted labels stay. */
  function Renamed(column: string): (r: string)
    ensures column !in Variables ==> r == column
    ensures forall i :: 0 <= i < |Variables| && column == Variables[i] ==> r == OutputColumns[i + 1]
  {
    if column in Renames then Renames[column] else column
  }

  /** The empty frame `pd.DataFrame()`: no columns, and empty in the
      sense the page tests. */
  function NoData<V>(): (r: Table<V>)
    ensures IsEmpty(r) && |r.columns| == 0
  {
    Table([], [])
  }

  /** `df.empty`: a frame is empty when either axis has length zero. */
  predicate IsEmpty<V>(t: Table<V>) {
    |t.columns| == 0 || |t.rows| == 0
  }

  /** All arrays of the block have the same length. */
  ghost predicate Uniform<V>(block: Block<V>) {
    forall k, k' :: k in block && k' in block ==> |block[k]| == |block[k']|
  }

  /** The row count `pd.DataFrame(block)` gets, or its `ValueError` when
      the arrays disagree in length. */
  function Height<V>(block: Block<V>): (r: Result<nat, PandasError>)
    ensures r.Success? <==> Uniform(block)
    ensures r.Success? ==> forall k :: k in block ==> |block[k]| == r.value
    ensures r.Failure? ==> r.error == RaggedArrays
  {
    if |block| == 0 then Success(0)
    else
      assert block.Keys != {};
      var k :| k in block;
      if forall k' :: k' in block ==> |block[k']| == |block[k]| then Success(|block[k]|)
      else Failure(RaggedArrays)
  }

  /** `pd.to_datetime(x, errors="coerce").dt.date` on one `time` entry:
      a `full-date` string gives its date, anything else NaT. */
  function ToDate<V>(c: Cell<V>): (r: Option<Date>)
    ensures r.Some? ==> c.Text? && Valid(r.value) && FullDate.Format(r.value) == c.text
  {
    match c
    case Text(s) =>
      var p := FullDate.Parse(s);
      if p.Some? then
        FullDate.FormatParse(s);
        p
      else None
    case _ => None
  }

  /** A `time` entry gives a date exactly when it is the formatter's
      spelling of some valid date. */
  lemma ToDateSpellings<V>(c: Cell<V>)
    ensures ToDate(c).Some? <==> c.Text? && exists d :: Valid(d) && c.text == FullDate.Format(d)
  {
    if c.Text? && exists d :: Valid(d) && c.text == FullDate.Format(d) {
      var d :| Valid(d) && c.text == FullDate.Format(d);
      FullDate.ParseFormat(d);
    }
  }

  /** A date the provider writes as a `full-date` string reads back as
      that date. */
  lemma ToDateFormat<V>(d: Date)
    requires Valid(d)
    ensures ToDate<V>(Text(FullDate.Format(d))) == Some(d)
  {
    FullDate.ParseFormat(d);
  }

  /** The `date` column of a block whose arrays all have length `n`. */
  function DateColumnOf<V>(block: Block<V>, n: nat, policy: TimePolicy): (r: Result<seq<Option<Date>>, PandasError>)
    requires forall k :: k in block ==> |block[k]| == n
    ensures r.Failure? <==> policy.TimeRequired? && TimeKey !in block
    ensures r.Failure? ==> r.error == MissingKey(TimeKey)
    ensures r.Success? ==> |r.value| == n
    ensures r.Success? && TimeKey in block ==>
      forall i :: 0 <= i < n ==> r.value[i] == ToDate(block[TimeKey][i])
    ensures r.Success? && TimeKey !in block ==>
      forall i :: 0 <= i < n ==> r.value[i].None?
  {
    if TimeKey in block then
      var times := block[TimeKey];
      Success(seq(n, i requires 0 <= i < n => ToDate(times[i])))
    else if policy.NullDatesWhenAbsent? then
      Success(seq(n, i => None))
    else
      Failure(MissingKey(TimeKey))
  }

  /** The provider variables the block lacks, under their output names,
      in projection order. */
  function Absent<V>(block: Block<V>, vars: seq<string>): (r: seq<string>)
    ensures |r| == 0 <==> forall i :: 0 <= i < |vars| ==> vars[i] in block
    ensures forall c :: c in r ==> exists i :: 0 <= i < |vars| && vars[i] !in block && c == Renamed(vars[i])
  {
    if |vars| == 0 then []
    else (if vars[0] in block then [] else [Renamed(vars[0])]) + Absent(block, vars[1..])
  }

  /** Rename the variables and keep exactly `date` and the three renamed
      variables, in that order. */
  function Project<V>(block: Block<V>, dates: seq<Option<Date>>): (r: Result<Table<V>, PandasError>)
    requires forall k :: k in block ==> |block[k]| == |dates|
    ensures r.Success? <==> forall v :: v in Variables ==> v in block
    ensures r.Failure? ==> r.error.NotInIndex? && |r.error.columns| > 0
    ensures r.Success? ==> r.value.columns == OutputColumns
    ensures r.Success? ==> |r.value.rows| == |dates|
    ensures r.Success? ==> forall i :: 0 <= i < |dates| ==>
      && r.value.rows[i].date == dates[i]
      && r.value.rows[i].tempMax == block[Variables[0]][i]
      && r.value.rows[i].tempMin == block[Variables[1]][i]
      && r.value.rows[i].rain == block[Variables[2]][i]
  {
    var absent := Absent(block, Variables);
    if |absent| > 0 then Failure(NotInIndex(absent))
    else
      assert forall i :: 0 <= i < |Variables| ==> Variables[i] in block;
      var tmax, tmin, rain := block[Variables[0]], block[Variables[1]], block[Variables[2]];
      var columns := [DateColumn] + seq(|Variables|, i requires 0 <= i < |Variables| => Renamed(Variables[i]));
      Success(Table(columns, seq(|dates|, i requires 0 <= i < |dates| => Row(dates[i], tmax[i], tmin[i], rain[i]))))
  }
}
