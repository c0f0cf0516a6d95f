/** Dataset selection, the trailing-window date filter and the guarded ratio
    (src/utils/data_loader.py). */
module DataLoader {
  import opened Wrappers
  import opened Sequences

  /** Time is counted in seconds; `timedelta(days=d)` is `d * SecondsPerDay`. */
  const SecondsPerDay: int := 86400

  /** A cell of the `date` column: the text read from the CSV, a parsed
      timestamp, or NaT (a text that failed to parse, coerced to missing). */
  datatype DateCell = Text(raw: string) | Stamp(t: int) | NaT

  /** One row of the advertising dataset. */
  datatype Row = Row(campaign: string, date: DateCell, impressions: int, clicks: int,
                     spend: real, revenue: real)

  /** The `data` section of the configuration. */
  datatype DataConfig = DataConfig(useSampleData: bool, samplePath: string, fullPath: string,
                                   minImpressions: int)
  datatype Config = Config(data: DataConfig)

  /** What `safe_div` can be handed as a denominator. */
  datatype Denominator = PyNone | NaN | Number(x: real)

  /** `safe_div(a, b)`: a quotient whenever the denominator is a non-zero number, 0 otherwise. */
  function SafeDiv(a: real, b: Denominator): (r: real)
    ensures b.Number? && b.x != 0.0 ==> r * b.x == a
    ensures !(b.Number? && b.x != 0.0) ==> r == 0.0
  {
    match b
    case Number(x) => if x == 0.0 then 0.0 else a / x
    case _ => 0.0
  }

  /** The path `load_dataset` reads. */
  function DatasetPath(data: DataConfig): (path: string)
    ensures data.useSampleData ==> path == data.samplePath
    ensures !data.useSampleData ==> path == data.fullPath
  {
    if data.useSampleData then data.samplePath else data.fullPath
  }

  /** `load_dataset(config)`: `files` maps every existing path to the rows read from it. */
  function ReadDataset(config: Config, files: map<string, seq<Row>>): (r: Result<seq<Row>, Exception>)
    ensures r.Ok? <==> DatasetPath(config.data) in files
    ensures r.Ok? ==> r.value == files[DatasetPath(config.data)]
    ensures r.Err? ==> r.error == FileNotFoundError(DatasetPath(config.data))
  {
    var path := DatasetPath(config.data);
    if path in files then Ok(files[path]) else Err(FileNotFoundError(path))
  }

  /** `pd.to_datetime(cell, errors="coerce")`. */
  function CoerceDate(cell: DateCell, parse: string -> Option<int>): DateCell {
    match cell
    case Text(s) => (match parse(s) case Some(t) => Stamp(t) case None => NaT)
    case _ => cell
  }

  /** The frame after its `date` column is replaced by the coerced dates. */
  function CoerceDates(rows: seq<Row>, parse: string -> Option<int>): (r: seq<Row>)
    ensures |r| == |rows|
    ensures forall i :: 0 <= i < |r| ==> !r[i].date.Text? && r[i].(date := rows[i].date) == rows[i]
    ensures forall i :: 0 <= i < |r| && rows[i].date.Text? ==>
              r[i].date == (if parse(rows[i].date.raw).Some? then Stamp(parse(rows[i].date.raw).value) else NaT)
    ensures forall i :: 0 <= i < |r| && !rows[i].date.Text? ==> r[i] == rows[i]
  {
    seq(|rows|, i requires 0 <= i < |rows| => rows[i].(date := CoerceDate(rows[i].date, parse)))
  }

  /** `row["date"] >= cutoff`: false for a missing date. */
  predicate OnOrAfter(row: Row, cutoff: int) {
    row.date.Stamp? && row.date.t >= cutoff
  }

  /** `df[df["date"] >= cutoff]`. */
  function Since(rows: seq<Row>, cutoff: int): (r: seq<Row>)
    ensures forall x :: x in r <==> x in rows && OnOrAfter(x, cutoff)
  {
    if rows == [] then []
    else
      var last := rows[|rows| - 1];
      assert rows == rows[..|rows| - 1] + [last];
      var kept := Since(rows[..|rows| - 1], cutoff);
      if OnOrAfter(last, cutoff) then kept + [last] else kept
  }

  /** The filter keeps every copy of a matching row and no copy of any other. */
  lemma {:induction false} SinceCounts(rows: seq<Row>, cutoff: int)
    ensures forall y :: multiset(Since(rows, cutoff))[y] == if OnOrAfter(y, cutoff) then multiset(rows)[y] else 0
  {
    if rows != [] {
      var init := rows[..|rows| - 1];
      var last := rows[|rows| - 1];
      assert rows == init + [last];
      SinceCounts(init, cutoff);
    }
  }

  lemma {:induction false} SinceIsSubsequence(rows: seq<Row>, cutoff: int)
    ensures IsSubsequence(Since(rows, cutoff), rows)
  {
    if rows != [] {
      var init := rows[..|rows| - 1];
      SinceIsSubsequence(init, cutoff);
      if OnOrAfter(rows[|rows| - 1], cutoff) {
        var r := Since(rows, cutoff);
        assert r[..|r| - 1] == Since(init, cutoff);
      } else if Since(rows, cutoff) != [] {
        assert Since(rows, cutoff) == Since(init, cutoff);
      }
    }
  }

  /** The rows `filter_last_n_days(df, days)` returns when the clock reads `now`. */
  function LastNDays(rows: seq<Row>, days: int, now: int, parse: string -> Option<int>): seq<Row> {
    Since(CoerceDates(rows, parse), now - days * SecondsPerDay)
  }

  /** The window keeps exactly the coerced rows dated on or after `now - days`,
      every copy of each, never a row whose date failed to parse, and keeps
      their order. */
  lemma LastNDaysSpec(rows: seq<Row>, days: int, now: int, parse: string -> Option<int>)
    ensures var coerced := CoerceDates(rows, parse);
            var cutoff := now - days * SecondsPerDay;
            var r := LastNDays(rows, days, now, parse);
            && (forall x :: x in r <==> x in coerced && x.date.Stamp? && x.date.t >= cutoff)
            && (forall y :: multiset(r)[y] == if OnOrAfter(y, cutoff) then multiset(coerced)[y] else 0)
            && (forall i :: 0 <= i < |rows| && rows[i].date.Text? && parse(rows[i].date.raw).None?
                  ==> coerced[i] !in r)
            && IsSubsequence(r, coerced)
  {
    var coerced := CoerceDates(rows, parse);
    var cutoff := now - days * SecondsPerDay;
    var r := LastNDays(rows, days, now, parse);
    assert r == Since(coerced, cutoff);
    SinceIsSubsequence(coerced, cutoff);
    SinceCounts(coerced, cutoff);
    forall i | 0 <= i < |rows| && rows[i].date.Text? && parse(rows[i].date.raw).None?
      ensures coerced[i] !in r
    {
      assert coerced[i].date == NaT;
    }
  }

  /** A data frame whose `date` column can be overwritten in place. */
  class Frame {
    var rows: seq<Row>

    constructor (rows: seq<Row>)
      ensures this.rows == rows
    {
      this.rows := rows;
    }
  }

  /** `filter_last_n_days(df, days)`: overwrites the caller's `date` column with
      the coerced dates, then returns a new frame holding the recent rows. */
  method FilterLastNDays(df: Frame, days: int, now: int, parse: string -> Option<int>)
    returns (recent: Frame)
    modifies df
    ensures df.rows == CoerceDates(old(df.rows), parse)
    ensures fresh(recent)
    ensures recent.rows == LastNDays(old(df.rows), days, now, parse)
  {
    df.rows := CoerceDates(df.rows, parse);
    var cutoff := now - days * SecondsPerDay;
    recent := new Frame(Since(df.rows, cutoff));
  }
}
