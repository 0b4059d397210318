/** The offline resampling of one edge's time series (resample_speed_data,
    resample_edge_data and _finalize_resampling in evaluation/lib/utils.py).
    A data frame is a table of rows, each a time in whole seconds and one
    cell per column; a cell is missing (NaN), a number, or a text. Every
    stage builds a new table, so the caller's table is never changed. */
module Resampling {
  import opened Wrappers

  const HOUR_TO_SECOND: int := 60 * 60
  /** The reindexed day: every second from 0 to 86400, both included. */
  const DAY_SECONDS: int := 86400
  const DEFAULT_TIME_STAMP_COLUMN: string := "timeStamp"
  const SAMPLES_COLUMN: string := "samples"
  const SAMPLE_AMOUNT_COLUMN: string := "sampleAmount"
  /** The window resample_speed_data and resample_edge_data default to. */
  const DEFAULT_WINDOW: string := "15Min"
  /** The window _finalize_resampling defaults to. */
  const FINALIZE_DEFAULT_WINDOW: string := "15min"

  datatype Cell = Missing | Num(value: real) | Text(text: string)
  datatype Row = Row(time: int, cells: seq<Cell>)
  datatype Table = Table(columns: seq<string>, rows: seq<Row>)

  /** The aggregation functions a grouper names. */
  datatype Reducer = Mean | Sum | Count
  /** A grouper dict: column name to reducer, in insertion order. */
  type Grouper = seq<(string, Reducer)>

  datatype Error = KeyError(key: string) | IndexError | ValueError

  /** Every row has one cell per column. */
  predicate Shaped(t: Table) {
    forall i :: 0 <= i < |t.rows| ==> |t.rows[i].cells| == |t.columns|
  }

  // ----- columns and cells -----

  function CellAt(r: Row, c: int): Cell {
    if 0 <= c < |r.cells| then r.cells[c] else Missing
  }

  function Column(rows: seq<Row>, c: int): (col: seq<Cell>)
    ensures |col| == |rows|
  {
    seq(|rows|, i requires 0 <= i < |rows| => CellAt(rows[i], c))
  }

  /** The position of a column name, -1 when absent. */
  function IndexOf(names: seq<string>, name: string): (i: int)
    ensures -1 <= i < |names|
    ensures i >= 0 <==> name in names
    ensures i >= 0 ==> names[i] == name
  {
    if names == [] then -1
    else if names[0] == name then 0
    else var j := IndexOf(names[1..], name); if j < 0 then -1 else j + 1
  }

  function Numbers(cells: seq<Cell>): (xs: seq<real>)
    ensures |xs| <= |cells|
  {
    if cells == [] then []
    else
      var last := cells[|cells| - 1];
      Numbers(cells[..|cells| - 1]) + (if last.Num? then [last.value] else [])
  }

  function SumOf(xs: seq<real>): real {
    if xs == [] then 0.0 else SumOf(xs[..|xs| - 1]) + xs[|xs| - 1]
  }

  /** Cells that are not missing (pandas `count`). */
  function PresentCount(cells: seq<Cell>): (n: nat)
    ensures n <= |cells|
  {
    if cells == [] then 0
    else PresentCount(cells[..|cells| - 1]) + (if cells[|cells| - 1].Missing? then 0 else 1)
  }

  /** A grouper's reducer over one bucket's cells; missing values are
      skipped, the mean of none is missing and the sum of none is 0. */
  function Reduce(r: Reducer, cells: seq<Cell>): Cell {
    match r
    case Mean =>
      var xs := Numbers(cells);
      if xs == [] then Missing else Num(SumOf(xs) / |xs| as real)
    case Sum => Num(SumOf(Numbers(cells)))
    case Count => Num(PresentCount(cells) as real)
  }

  /** The numbers of cells that all hold one number. */
  lemma {:induction false} NumbersOfEqual(cells: seq<Cell>, x: real)
    requires forall i :: 0 <= i < |cells| ==> cells[i] == Num(x)
    ensures Numbers(cells) == seq(|cells|, _ => x)
  {
    if cells != [] {
      var init := cells[..|cells| - 1];
      NumbersOfEqual(init, x);
      assert seq(|init|, _ => x) + [x] == seq(|cells|, _ => x);
    }
  }

  lemma {:induction false} SumOfEqual(n: nat, x: real)
    ensures SumOf(seq(n, _ => x)) == n as real * x
  {
    if n > 0 {
      var xs := seq(n, _ => x);
      assert xs[..n - 1] == seq(n - 1, _ => x);
      SumOfEqual(n - 1, x);
      assert (n - 1) as real * x + x == n as real * x;
    }
  }

  lemma DivideBack(n: real, x: real)
    requires n != 0.0
    ensures n * x / n == x
  {
  }

  /** The mean of equal numbers is that number. */
  lemma MeanOfEqual(cells: seq<Cell>, x: real)
    requires forall i :: 0 <= i < |cells| ==> cells[i] == Num(x)
    ensures Reduce(Mean, cells) == if cells == [] then Missing else Num(x)
  {
    NumbersOfEqual(cells, x);
    SumOfEqual(|cells|, x);
    if cells != [] {
      DivideBack(|cells| as real, x);
    }
  }

  // ----- bucketing (pd.Grouper(freq=window)) -----

  /** The bucket of a time: whole windows since the epoch. */
  function BucketOf(t: int, w: int): int
    requires w > 0
  {
    t / w
  }

  /** A bucket covers [b * w, (b + 1) * w). */
  lemma BucketBounds(t: int, w: int)
    requires w > 0
    ensures BucketOf(t, w) * w <= t < BucketOf(t, w) * w + w
  {
    assert t == (t / w) * w + t % w;
  }

  lemma BucketMonotone(t1: int, t2: int, w: int)
    requires w > 0 && t1 <= t2
    ensures BucketOf(t1, w) <= BucketOf(t2, w)
  {
    BucketBounds(t1, w);
    BucketBounds(t2, w);
    if BucketOf(t2, w) < BucketOf(t1, w) {
      MulMonotone(BucketOf(t2, w) + 1, BucketOf(t1, w), w);
      assert false;
    }
  }

  lemma MulMonotone(a: int, c: int, w: int)
    requires a <= c && w >= 0
    ensures a * w <= c * w
  {
    var d := c - a;
    assert c * w == a * w + d * w;
  }

  function MinTime(rows: seq<Row>): (m: int)
    requires rows != []
    ensures forall i :: 0 <= i < |rows| ==> m <= rows[i].time
    ensures exists i :: 0 <= i < |rows| && rows[i].time == m
  {
    if |rows| == 1 then rows[0].time
    else
      var m := MinTime(rows[..|rows| - 1]);
      assert forall i :: 0 <= i < |rows| - 1 ==> rows[..|rows| - 1][i] == rows[i];
      if rows[|rows| - 1].time < m then rows[|rows| - 1].time else m
  }

  function MaxTime(rows: seq<Row>): (m: int)
    requires rows != []
    ensures forall i :: 0 <= i < |rows| ==> rows[i].time <= m
    ensures exists i :: 0 <= i < |rows| && rows[i].time == m
  {
    if |rows| == 1 then rows[0].time
    else
      var m := MaxTime(rows[..|rows| - 1]);
      assert forall i :: 0 <= i < |rows| - 1 ==> rows[..|rows| - 1][i] == rows[i];
      if rows[|rows| - 1].time > m then rows[|rows| - 1].time else m
  }

  /** The buckets the grouping yields: every bucket from the earliest
      row's to the latest row's, empty ones included; none for no rows. */
  function Buckets(rows: seq<Row>, w: int): (bs: seq<int>)
    requires w > 0
    ensures forall k :: 0 < k < |bs| ==> bs[k] == bs[k - 1] + 1
  {
    if rows == [] then []
    else
      var lo := BucketOf(MinTime(rows), w);
      var hi := BucketOf(MaxTime(rows), w);
      if hi < lo then [] else seq(hi - lo + 1, k requires 0 <= k <= hi - lo => lo + k)
  }

  /** Every row's bucket is among the buckets. */
  lemma BucketsCover(rows: seq<Row>, w: int, i: int)
    requires w > 0 && 0 <= i < |rows|
    ensures var bs := Buckets(rows, w);
      exists k :: 0 <= k < |bs| && bs[k] == BucketOf(rows[i].time, w)
  {
    var lo := BucketOf(MinTime(rows), w);
    BucketMonotone(MinTime(rows), rows[i].time, w);
    BucketMonotone(rows[i].time, MaxTime(rows), w);
    var bs := Buckets(rows, w);
    assert bs[BucketOf(rows[i].time, w) - lo] == BucketOf(rows[i].time, w);
  }

  /** The rows of one bucket, in table order. */
  function RowsIn(rows: seq<Row>, b: int, w: int): (r: seq<Row>)
    requires w > 0
    ensures |r| <= |rows|
    ensures forall j :: 0 <= j < |r| ==> BucketOf(r[j].time, w) == b
  {
    if rows == [] then []
    else
      var last := rows[|rows| - 1];
      RowsIn(rows[..|rows| - 1], b, w) + (if BucketOf(last.time, w) == b then [last] else [])
  }

  function Keys(g: Grouper): (ks: seq<string>)
    ensures |ks| == |g|
  {
    seq(|g|, j requires 0 <= j < |g| => g[j].0)
  }

  /** The first grouper column the table lacks. */
  function MissingKey(columns: seq<string>, g: Grouper): (k: Option<string>)
    ensures k.None? <==> forall j :: 0 <= j < |g| ==> g[j].0 in columns
    ensures k.Some? ==> k.value !in columns
  {
    if g == [] then None
    else if g[0].0 !in columns then Some(g[0].0)
    else
      var k := MissingKey(columns, g[1..]);
      assert forall j :: 1 <= j < |g| ==> g[j] == g[1..][j - 1];
      k
  }

  /** One bucket's row: its start time and each grouper column reduced by
      its reducer. */
  function AggregateRow(t: Table, g: Grouper, b: int, w: int): Row
    requires w > 0
  {
    Row(b * w, seq(|g|, j requires 0 <= j < |g| => Reduce(g[j].1, Column(RowsIn(t.rows, b, w), IndexOf(t.columns, g[j].0)))))
  }

  /** groupby(pd.Grouper(freq=window)).agg(grouper): a KeyError when the
      grouper names a column the table lacks. */
  function Aggregate(t: Table, g: Grouper, w: int): Result<Table, Error>
    requires w > 0
  {
    match MissingKey(t.columns, g)
    case Some(k) => Failure(KeyError(k))
    case None =>
      var bs := Buckets(t.rows, w);
      Success(Table(Keys(g), seq(|bs|, k requires 0 <= k < |bs| => AggregateRow(t, g, bs[k], w))))
  }

  /** The aggregation fails exactly when a grouper column is missing;
      otherwise it has one row per bucket and one column per grouper
      entry. */
  lemma AggregateShape(t: Table, g: Grouper, w: int)
    requires w > 0
    ensures Aggregate(t, g, w).Failure? <==> exists j :: 0 <= j < |g| && g[j].0 !in t.columns
    ensures Aggregate(t, g, w).Success? ==>
      var a := Aggregate(t, g, w).value;
      Shaped(a) && a.columns == Keys(g) && |a.rows| == |Buckets(t.rows, w)|
  {
    if Aggregate(t, g, w).Failure? {
      var k := MissingKey(t.columns, g).value;
    }
  }

  /** The aggregate's rows are a window apart, in time order. */
  lemma AggregateSpacing(t: Table, g: Grouper, w: int)
    requires w > 0 && Aggregate(t, g, w).Success?
    ensures var a := Aggregate(t, g, w).value;
      forall k :: 0 < k < |a.rows| ==> a.rows[k].time == a.rows[k - 1].time + w
  {
    var a := Aggregate(t, g, w).value;
    var bs := Buckets(t.rows, w);
    forall k | 0 < k < |a.rows|
      ensures a.rows[k].time == a.rows[k - 1].time + w
    {
      assert bs[k] == bs[k - 1] + 1;
      assert a.rows[k].time == (bs[k - 1] + 1) * w;
    }
  }

  /** Every input row falls in the window of one aggregate row. */
  lemma AggregateCovers(t: Table, g: Grouper, w: int, i: int)
    requires w > 0 && Aggregate(t, g, w).Success? && 0 <= i < |t.rows|
    ensures var a := Aggregate(t, g, w).value;
      exists k :: 0 <= k < |a.rows| && a.rows[k].time <= t.rows[i].time < a.rows[k].time + w
  {
    var a := Aggregate(t, g, w).value;
    var bs := Buckets(t.rows, w);
    BucketsCover(t.rows, w, i);
    var k :| 0 <= k < |bs| && bs[k] == BucketOf(t.rows[i].time, w);
    BucketBounds(t.rows[i].time, w);
    assert a.rows[k].time == bs[k] * w;
  }

  // ----- resample_speed_data -----

  /** The grouper dict with `name` set: replaced in place when present,
      appended otherwise. */
  function PutReducer(g: Grouper, name: string, r: Reducer): (g': Grouper)
    ensures Keys(g') == if name in Keys(g) then Keys(g) else Keys(g) + [name]
  {
    var j := IndexOf(Keys(g), name);
    if j >= 0 then g[j := (name, r)] else g + [(name, r)]
  }

  /** Assigning a column: replaced in place when present, appended
      otherwise. */
  function SetColumn(t: Table, name: string, col: seq<Cell>): (t': Table)
    requires |col| == |t.rows| && Shaped(t)
    ensures Shaped(t') && |t'.rows| == |t.rows|
    ensures t'.columns == if name in t.columns then t.columns else t.columns + [name]
    ensures forall i :: 0 <= i < |t.rows| ==>
      t'.rows[i].time == t.rows[i].time && CellAt(t'.rows[i], IndexOf(t'.columns, name)) == col[i]
    ensures forall i, c :: 0 <= i < |t.rows| && 0 <= c < |t.columns| && t.columns[c] != name ==>
      CellAt(t'.rows[i], c) == CellAt(t.rows[i], c)
  {
    var c := IndexOf(t.columns, name);
    if c >= 0 then
      Table(t.columns, seq(|t.rows|, i requires 0 <= i < |t.rows| => Row(t.rows[i].time, t.rows[i].cells[c := col[i]])))
    else
      var t' := Table(t.columns + [name], seq(|t.rows|, i requires 0 <= i < |t.rows| => Row(t.rows[i].time, t.rows[i].cells + [col[i]])));
      assert IndexOf(t'.columns, name) == |t.columns| by {
        IndexOfAppend(t.columns, name);
      }
      t'
  }

  lemma {:induction false} IndexOfAppend(names: seq<string>, name: string)
    requires name !in names
    ensures IndexOf(names + [name], name) == |names|
  {
    if names != [] {
      assert (names + [name])[1..] == names[1..] + [name];
      IndexOfAppend(names[1..], name);
    }
  }

  /** groupby(...).transform('count').iloc[:, 0]: for every row, the number
      of non-missing first-column cells in its bucket. */
  function SampleCounts(t: Table, w: int): (col: seq<Cell>)
    requires w > 0
    ensures |col| == |t.rows|
  {
    seq(|t.rows|, i requires 0 <= i < |t.rows| =>
      Num(PresentCount(Column(RowsIn(t.rows, BucketOf(t.rows[i].time, w), w), 0)) as real))
  }

  /** fillna(0) followed by astype(int), which truncates toward zero. */
  function AsCount(c: Cell): Cell {
    match c
    case Missing => Num(0.0)
    case Num(x) => Num((if x >= 0.0 then x.Floor else -((-x).Floor)) as real)
    case Text(_) => c
  }

  function MapColumn(t: Table, c: int, f: Cell -> Cell): (t': Table)
    ensures t'.columns == t.columns && |t'.rows| == |t.rows|
  {
    Table(t.columns, seq(|t.rows|, i requires 0 <= i < |t.rows| =>
      Row(t.rows[i].time, if 0 <= c < |t.rows[i].cells| then t.rows[i].cells[c := f(t.rows[i].cells[c])] else t.rows[i].cells)))
  }

  /** resample_speed_data on a copy of the table: without a `sampleAmount`
      column, a `samples` column counting the bucket's first-column values
      is added and averaged; the table is aggregated; then, unless the
      aggregate has `sampleAmount`, the `samples` column gets 0 for empty
      buckets and integer type; finally the table is finalized with the
      window passed on. */
  function ResampleSpeedData(t: Table, g: Grouper, w: int, window: string, reindex: bool, fill: string,
                             startHour: real, endHour: real, rolling: Option<int>): (r: Result<Table, Error>)
    requires w > 0 && Shaped(t)
    ensures SAMPLE_AMOUNT_COLUMN !in t.columns && t.columns == [] ==> r == Failure(IndexError)
    ensures r.Success? ==> forall j :: 0 <= j < |r.value.rows| ==> InHours(r.value.rows[j], startHour, endHour)
    ensures r.Success? && reindex ==> forall j :: 0 <= j < |r.value.rows| ==> 0 <= r.value.rows[j].time <= DAY_SECONDS
  {
    var addSamples := SAMPLE_AMOUNT_COLUMN !in t.columns;
    if addSamples && t.columns == [] then Failure(IndexError)
    else
      var t1 := if addSamples then SetColumn(t, SAMPLES_COLUMN, SampleCounts(t, w)) else t;
      var g1 := if addSamples then PutReducer(g, SAMPLES_COLUMN, Mean) else g;
      var agg :- Aggregate(t1, g1, w);
      var counted :- if SAMPLE_AMOUNT_COLUMN in agg.columns then Success(agg)
                     else if SAMPLES_COLUMN !in agg.columns then Failure(KeyError(SAMPLES_COLUMN))
                     else Success(MapColumn(agg, IndexOf(agg.columns, SAMPLES_COLUMN), AsCount));
      Finalize(counted, window, reindex, fill, startHour, endHour, rolling)
  }

  /** The added column holds every row's count, the rest of the row as it
      was. */
  lemma SampleCountsPlaced(t: Table, w: int, t1: Table)
    requires w > 0 && Shaped(t)
    requires t1 == SetColumn(t, SAMPLES_COLUMN, SampleCounts(t, w))
    ensures |t1.rows| == |t.rows|
    ensures forall i :: 0 <= i < |t.rows| ==>
      t1.rows[i].time == t.rows[i].time && CellAt(t1.rows[i], IndexOf(t1.columns, SAMPLES_COLUMN)) == SampleCounts(t, w)[i]
  {
  }

  /** Every row of a bucket carries that bucket's count. */
  lemma SampleCountsOfBucket(t: Table, w: int, b: int, t1: Table, k: int)
    requires w > 0 && Shaped(t) && t.columns != []
    requires t1 == SetColumn(t, SAMPLES_COLUMN, SampleCounts(t, w))
    requires 0 <= k < |RowsIn(t1.rows, b, w)|
    ensures CellAt(RowsIn(t1.rows, b, w)[k], IndexOf(t1.columns, SAMPLES_COLUMN))
         == Num(PresentCount(Column(RowsIn(t.rows, b, w), 0)) as real)
  {
    var s := IndexOf(t1.columns, SAMPLES_COLUMN);
    var x := Num(PresentCount(Column(RowsIn(t.rows, b, w), 0)) as real);
    var col := SampleCounts(t, w);
    SampleCountsPlaced(t, w, t1);
    assert forall i :: 0 <= i < |t.rows| && BucketOf(t.rows[i].time, w) == b ==> col[i] == x;
    RowsInCells(t.rows, t1.rows, b, w, s, x, col);
  }

  /** Rows of a bucket in a table whose column `s` holds, in the bucket,
      a value `x` everywhere carry `x` there. */
  lemma {:induction false} RowsInCells(rows: seq<Row>, rows1: seq<Row>, b: int, w: int, s: int, x: Cell, col: seq<Cell>)
    requires w > 0 && |rows1| == |rows| && |col| == |rows|
    requires forall i :: 0 <= i < |rows| ==> rows1[i].time == rows[i].time && CellAt(rows1[i], s) == col[i]
    requires forall i :: 0 <= i < |rows| && BucketOf(rows[i].time, w) == b ==> col[i] == x
    ensures forall j :: 0 <= j < |RowsIn(rows1, b, w)| ==> CellAt(RowsIn(rows1, b, w)[j], s) == x
  {
    if rows != [] {
      var n := |rows| - 1;
      RowsInCells(rows[..n], rows1[..n], b, w, s, x, col[..n]);
    }
  }

  /** The mean of a bucket's `samples` column, made a count, is the
      number of non-missing first-column values in the bucket: every row
      of the bucket carries that number, and an empty bucket gives 0. */
  lemma SamplesMean(t: Table, w: int, b: int)
    requires w > 0 && Shaped(t) && t.columns != []
    ensures var t1 := SetColumn(t, SAMPLES_COLUMN, SampleCounts(t, w));
      var n := PresentCount(Column(RowsIn(t.rows, b, w), 0));
      AsCount(Reduce(Mean, Column(RowsIn(t1.rows, b, w), IndexOf(t1.columns, SAMPLES_COLUMN)))) == Num(n as real)
  {
    var t1 := SetColumn(t, SAMPLES_COLUMN, SampleCounts(t, w));
    var n := PresentCount(Column(RowsIn(t.rows, b, w), 0));
    var rows1 := RowsIn(t1.rows, b, w);
    var s := IndexOf(t1.columns, SAMPLES_COLUMN);
    var cells := Column(rows1, s);
    forall k | 0 <= k < |cells|
      ensures cells[k] == Num(n as real)
    {
      SampleCountsOfBucket(t, w, b, t1, k);
      assert cells[k] == CellAt(rows1[k], s);
    }
    MeanOfEqual(cells, n as real);
    if cells == [] {
      RowsInEmpty(t.rows, t1.rows, b, w);
      assert n == 0;
    } else {
      assert (n as real).Floor == n;
    }
  }

  /** With `samples` added, the aggregated `samples` of a bucket is the
      number of non-missing first-column values in it, and 0 for an empty
      bucket. */
  lemma SamplesAreCounts(t: Table, g: Grouper, w: int, b: int)
    requires w > 0 && Shaped(t) && t.columns != [] && SAMPLE_AMOUNT_COLUMN !in t.columns
    ensures var t1 := SetColumn(t, SAMPLES_COLUMN, SampleCounts(t, w));
      var g1 := PutReducer(g, SAMPLES_COLUMN, Mean);
      var j := IndexOf(Keys(g1), SAMPLES_COLUMN);
      var n := PresentCount(Column(RowsIn(t.rows, b, w), 0));
      && 0 <= j < |g1|
      && AsCount(AggregateRow(t1, g1, b, w).cells[j]) == Num(n as real)
  {
    var t1 := SetColumn(t, SAMPLES_COLUMN, SampleCounts(t, w));
    var g1 := PutReducer(g, SAMPLES_COLUMN, Mean);
    var j := IndexOf(Keys(g1), SAMPLES_COLUMN);
    assert SAMPLES_COLUMN in Keys(g1);
    assert g1[j] == (SAMPLES_COLUMN, Mean) by {
      if SAMPLES_COLUMN in Keys(g) {
        assert IndexOf(Keys(g1), SAMPLES_COLUMN) == IndexOf(Keys(g), SAMPLES_COLUMN);
      } else {
        IndexOfAppend(Keys(g), SAMPLES_COLUMN);
      }
    }
    assert AggregateRow(t1, g1, b, w).cells[j]
        == Reduce(Mean, Column(RowsIn(t1.rows, b, w), IndexOf(t1.columns, SAMPLES_COLUMN)));
    SamplesMean(t, w, b);
  }

  /** Two tables with the same row times have the same empty buckets. */
  lemma {:induction false} RowsInEmpty(rows: seq<Row>, rows1: seq<Row>, b: int, w: int)
    requires w > 0 && |rows1| == |rows|
    requires forall i :: 0 <= i < |rows| ==> rows1[i].time == rows[i].time
    ensures |RowsIn(rows, b, w)| == |RowsIn(rows1, b, w)|
  {
    if rows != [] {
      var n := |rows| - 1;
      RowsInEmpty(rows[..n], rows1[..n], b, w);
    }
  }

  /** resample_edge_data as written: the table is aggregated and finalized,
      but the window is not passed on, so the fill limit always derives from
      the finalizer's default of 15 minutes. */
  function ResampleEdgeDataAsWritten(t: Table, g: Grouper, w: int, window: string, reindex: bool, fill: string,
                                     startHour: real, endHour: real, rolling: Option<int>): (r: Result<Table, Error>)
    requires w > 0
    ensures r.Failure? <==> MissingKey(t.columns, g).Some? || (reindex && ParseFillMethod(fill).Failure?)
    ensures r.Success? ==> forall j :: 0 <= j < |r.value.rows| ==> InHours(r.value.rows[j], startHour, endHour)
  {
    FillLimitDefaults();
    var agg :- Aggregate(t, g, w);
    Finalize(agg, FINALIZE_DEFAULT_WINDOW, reindex, fill, startHour, endHour, rolling)
  }

  /** resample_edge_data with its window passed on, as for
      resample_speed_data. */
  function ResampleEdgeData(t: Table, g: Grouper, w: int, window: string, reindex: bool, fill: string,
                            startHour: real, endHour: real, rolling: Option<int>): (r: Result<Table, Error>)
    requires w > 0
    ensures r.Failure? <==>
      || MissingKey(t.columns, g).Some?
      || (reindex && !(FillLimit(window).Success? && FillLimit(window).value > 0 && ParseFillMethod(fill).Success?))
    ensures r.Success? ==> forall j :: 0 <= j < |r.value.rows| ==> InHours(r.value.rows[j], startHour, endHour)
  {
    var agg :- Aggregate(t, g, w);
    Finalize(agg, window, reindex, fill, startHour, endHour, rolling)
  }

  // ----- _finalize_resampling -----

  /** _finalize_resampling on a copy: reindex and fill when asked, add the
      time stamp column, apply the rolling mean when a window is given, and
      keep the rows inside the hour range. */
  function Finalize(t: Table, window: string, reindex: bool, fill: string,
                    startHour: real, endHour: real, rolling: Option<int>): (r: Result<Table, Error>)
    ensures r.Failure? <==> reindex && Reindexed(t, window, fill).Failure?
    ensures r.Success? ==> forall j :: 0 <= j < |r.value.rows| ==> InHours(r.value.rows[j], startHour, endHour)
    ensures r.Success? && reindex ==> forall j :: 0 <= j < |r.value.rows| ==> 0 <= r.value.rows[j].time <= DAY_SECONDS
  {
    var t1 :- if reindex then Reindexed(t, window, fill) else Success(t);
    var t2 := WithTimeStamps(t1);
    var t3 := if rolling.Some? then Rolling(t2, rolling.value) else t2;
    Success(Clip(t3, startHour, endHour))
  }

  function Lower(s: string): (r: string)
    ensures |r| == |s|
  {
    seq(|s|, i requires 0 <= i < |s| => if 'A' <= s[i] <= 'Z' then (s[i] as int + 32) as char else s[i])
  }

  function RemoveSuffix(s: string, suffix: string): (r: string)
    ensures |r| <= |s|
  {
    if |suffix| <= |s| && s[|s| - |suffix|..] == suffix then s[..|s| - |suffix|] else s
  }

  predicate IsDigits(s: string) {
    s != [] && forall i :: 0 <= i < |s| ==> '0' <= s[i] <= '9'
  }

  function DecimalValue(s: string): (n: nat)
    requires forall i :: 0 <= i < |s| ==> '0' <= s[i] <= '9'
  {
    if s == [] then 0 else 10 * DecimalValue(s[..|s| - 1]) + (s[|s| - 1] as int - '0' as int)
  }

  /** int(window.lower().removesuffix('min')) * 60: a ValueError unless the
      rest is a decimal number. */
  function FillLimit(window: string): (r: Result<int, Error>)
    ensures r.Success? ==> r.value >= 0 && r.value % 60 == 0
  {
    var minutes := RemoveSuffix(Lower(window), "min");
    if IsDigits(minutes) then Success(DecimalValue(minutes) * 60) else Failure(ValueError)
  }

  /** The default windows both give a limit of 900 s. */
  lemma FillLimitDefaults()
    ensures FillLimit(DEFAULT_WINDOW) == Success(900)
    ensures FillLimit(FINALIZE_DEFAULT_WINDOW) == Success(900)
  {
    assert Lower("15Min") == "15min";
    assert RemoveSuffix("15min", "min") == "15";
    assert DecimalValue("15") == 15 by {
      assert "15"[..1] == "1";
    }
  }

  /** A half-hour window gives 1800 s; a window in hours is refused. */
  lemma FillLimitOthers()
    ensures FillLimit("30min") == Success(1800)
    ensures FillLimit("1H").Failure?
  {
    assert Lower("30min") == "30min";
    assert RemoveSuffix("30min", "min") == "30";
    assert DecimalValue("30") == 30 by {
      assert "30"[..1] == "3";
    }
    assert Lower("1H") == "1h";
    assert RemoveSuffix("1h", "min") == "1h";
    assert !IsDigits("1h") by {
      assert "1h"[1] == 'h';
    }
  }

  /** The window resample_edge_data is given never reaches the fill: a
      30-minute window still fills at most 900 s, where passing it on
      fills up to 1800 s. */
  lemma EdgeDataFillLimitIgnoresWindow(t: Table, g: Grouper, w: int, fill: string,
                                       startHour: real, endHour: real, rolling: Option<int>)
    requires w > 0
    ensures ResampleEdgeDataAsWritten(t, g, w, "30min", true, fill, startHour, endHour, rolling)
         == ResampleEdgeData(t, g, w, "15min", true, fill, startHour, endHour, rolling)
    ensures FillLimit(FINALIZE_DEFAULT_WINDOW) == Success(900) && FillLimit("30min") == Success(1800)
  {
    FillLimitDefaults();
    FillLimitOthers();
  }

  /** A window the fill limit cannot parse is an error only once it is
      passed on: as written, resample_edge_data accepts "1H" and reindexes
      with the default limit. */
  lemma EdgeDataWindowUnparsed(t: Table, g: Grouper, w: int, startHour: real, endHour: real, rolling: Option<int>)
    requires w > 0 && MissingKey(t.columns, g).None?
    ensures ResampleEdgeDataAsWritten(t, g, w, "1H", true, "ffill", startHour, endHour, rolling).Success?
    ensures ResampleEdgeData(t, g, w, "1H", true, "ffill", startHour, endHour, rolling) == Failure(ValueError)
  {
    FillLimitOthers();
  }

  datatype FillMethod = FFill | BFill

  /** fillna's method argument: 'ffill' or its alias 'pad', 'bfill' or its
      alias 'backfill'; anything else raises. */
  function ParseFillMethod(fill: string): (r: Result<FillMethod, Error>)
    ensures r == Success(FFill) <==> fill in {"ffill", "pad"}
    ensures r == Success(BFill) <==> fill in {"bfill", "backfill"}
    ensures r.Failure? ==> r.error == ValueError
  {
    if fill == "ffill" || fill == "pad" then Success(FFill)
    else if fill == "bfill" || fill == "backfill" then Success(BFill)
    else Failure(ValueError)
  }

  /** Reindex to the day, fill gaps within the limit, then zero the rest;
      fillna refuses a limit that is not positive. The result covers every
      second of the day, one row each, in order, and no cell is missing. */
  function Reindexed(t: Table, window: string, fill: string): (r: Result<Table, Error>)
    ensures r.Success? <==> FillLimit(window).Success? && FillLimit(window).value > 0 && ParseFillMethod(fill).Success?
    ensures r.Failure? ==> r.error == ValueError
    ensures r.Success? ==>
      && r.value.columns == t.columns
      && |r.value.rows| == DAY_SECONDS + 1
      && (forall s :: 0 <= s <= DAY_SECONDS ==> r.value.rows[s].time == s)
      && Shaped(r.value)
      && (forall s, c :: 0 <= s <= DAY_SECONDS && 0 <= c < |r.value.columns| ==> !r.value.rows[s].cells[c].Missing?)
  {
    var limit :- FillLimit(window);
    var how :- ParseFillMethod(fill);
    if limit <= 0 then Failure(ValueError)
    else Success(ZeroFilled(Filled(Reindex(t), how, limit)))
  }

  /** The cells of the first row at time `s`, or all missing. */
  function CellsAt(t: Table, s: int): seq<Cell> {
    var i := FirstAt(t.rows, s);
    if i >= 0 then t.rows[i].cells else seq(|t.columns|, _ => Missing)
  }

  function FirstAt(rows: seq<Row>, s: int): (i: int)
    ensures -1 <= i < |rows|
    ensures i >= 0 ==> rows[i].time == s
    ensures forall j :: 0 <= j < |rows| && (i < 0 || j < i) ==> rows[j].time != s
  {
    if rows == [] then -1
    else if rows[0].time == s then 0
    else var j := FirstAt(rows[1..], s); if j < 0 then -1 else j + 1
  }

  /** reindex(0..86400 every second, fill_value=NaN). */
  function Reindex(t: Table): (r: Table)
    ensures r.columns == t.columns && |r.rows| == DAY_SECONDS + 1
    ensures forall s :: 0 <= s <= DAY_SECONDS ==> r.rows[s].time == s
    ensures Shaped(t) ==> Shaped(r)
  {
    Table(t.columns, seq(DAY_SECONDS + 1, s requires 0 <= s <= DAY_SECONDS => Row(s, CellsAt(t, s))))
  }

  /** The day has one row per second, and a second present in the table
      keeps its cells. */
  lemma ReindexKeeps(t: Table, i: int)
    requires 0 <= i < |t.rows| && 0 <= t.rows[i].time <= DAY_SECONDS
    requires forall j :: 0 <= j < i ==> t.rows[j].time != t.rows[i].time
    ensures Reindex(t).rows[t.rows[i].time] == t.rows[i]
  {
    var s := t.rows[i].time;
    var k := FirstAt(t.rows, s);
    assert k == i;
  }

  // ----- bounded fill -----

  /** The forward fill as pandas scans a column: `last` is the last value
      seen and `run` the missing cells since; a missing cell takes `last`
      while fewer than `limit` have been filled since it. */
  function FFillScan(col: seq<Cell>, last: Cell, run: int, limit: int): (r: seq<Cell>)
    ensures |r| == |col|
  {
    if col == [] then []
    else if !col[0].Missing? then [col[0]] + FFillScan(col[1..], col[0], 0, limit)
    else if !last.Missing? && run < limit then [last] + FFillScan(col[1..], last, run + 1, limit)
    else [Missing] + FFillScan(col[1..], last, run + 1, limit)
  }

  /** The nearest position before `i` holding a value. */
  function LastPresent(col: seq<Cell>, i: int): (j: int)
    requires 0 <= i <= |col|
    ensures -1 <= j < i
    ensures j >= 0 ==> !col[j].Missing?
    ensures forall k :: j < k < i ==> col[k].Missing?
  {
    if i == 0 then -1
    else if !col[i - 1].Missing? then i - 1
    else LastPresent(col, i - 1)
  }

  /** The nearest value at or before `i`, shifted one place. */
  lemma {:induction false} LastPresentTail(col: seq<Cell>, i: int)
    requires 1 <= i <= |col|
    ensures var j := LastPresent(col[1..], i - 1);
      LastPresent(col, i) == if j >= 0 then j + 1 else if !col[0].Missing? then 0 else -1
  {
    if i > 1 && col[i - 1].Missing? {
      LastPresentTail(col, i - 1);
    }
  }

  /** The forward fill, cell by cell: a value stays; a missing cell takes
      the nearest earlier value when at most `limit` places back (or, with
      none, the scan's carried value while the run allows). */
  lemma {:induction false} FFillScanCell(col: seq<Cell>, last: Cell, run: int, limit: int, i: int)
    requires 0 <= i < |col| && run >= 0
    ensures var j := LastPresent(col, i);
      FFillScan(col, last, run, limit)[i] ==
        if !col[i].Missing? then col[i]
        else if j >= 0 then (if i - j <= limit then col[j] else Missing)
        else if !last.Missing? && run + i < limit then last
        else Missing
  {
    if i > 0 {
      var next := if !col[0].Missing? then col[0] else last;
      var run' := if !col[0].Missing? then 0 else run + 1;
      FFillScanCell(col[1..], next, run', limit, i - 1);
      LastPresentTail(col, i);
    }
  }

  /** pandas ffill with a limit: the scan from the start of the column
      with nothing seen yet. */
  function FFilled(col: seq<Cell>, limit: int): (r: seq<Cell>)
    ensures |r| == |col|
  {
    FFillScan(col, Missing, 0, limit)
  }

  /** The forward fill keeps every value, and fills a missing cell with
      the nearest earlier value exactly when that lies at most `limit`
      seconds back. */
  lemma FFilledCell(col: seq<Cell>, limit: int, i: int)
    requires 0 <= i < |col|
    ensures var j := LastPresent(col, i);
      FFilled(col, limit)[i] == if !col[i].Missing? then col[i] else if j >= 0 && i - j <= limit then col[j] else Missing
  {
    FFillScanCell(col, Missing, 0, limit, i);
  }

  function Reverse<T>(s: seq<T>): (r: seq<T>)
    ensures |r| == |s|
  {
    seq(|s|, i requires 0 <= i < |s| => s[|s| - 1 - i])
  }

  lemma ReverseAt<T>(s: seq<T>, i: int)
    requires 0 <= i < |s|
    ensures Reverse(s)[i] == s[|s| - 1 - i]
  {
  }

  /** pandas bfill with a limit: the forward fill of the reversed column,
      reversed. */
  function BFilled(col: seq<Cell>, limit: int): (r: seq<Cell>)
    ensures |r| == |col|
  {
    Reverse(FFilled(Reverse(col), limit))
  }

  /** The nearest position after `i` holding a value, or `|col|` when none does. */
  function NextPresent(col: seq<Cell>, i: int): (j: int)
    requires 0 <= i < |col|
    ensures i < j <= |col|
    ensures j < |col| ==> !col[j].Missing?
    ensures forall k :: i < k < j ==> col[k].Missing?
    decreases |col| - i
  {
    if i + 1 == |col| then |col|
    else if !col[i + 1].Missing? then i + 1
    else NextPresent(col, i + 1)
  }

  /** Looking back in the reversed column is looking ahead in the column. */
  lemma {:induction false} LastPresentReversed(col: seq<Cell>, i: int)
    requires 0 <= i < |col|
    ensures LastPresent(Reverse(col), |col| - 1 - i) == |col| - 1 - NextPresent(col, i)
    decreases |col| - i
  {
    if i + 1 < |col| {
      ReverseAt(col, |col| - 1 - (i + 1));
      if col[i + 1].Missing? {
        LastPresentReversed(col, i + 1);
      }
    }
  }

  lemma BFilledAt(col: seq<Cell>, limit: int, i: int)
    requires 0 <= i < |col|
    ensures BFilled(col, limit)[i] == FFilled(Reverse(col), limit)[|col| - 1 - i]
  {
    ReverseAt(FFilled(Reverse(col), limit), i);
  }

  /** The backward fill keeps every value, and fills a missing cell with
      the nearest later value exactly when that lies at most `limit`
      seconds ahead. */
  lemma BFilledCell(col: seq<Cell>, limit: int, i: int)
    requires 0 <= i < |col|
    ensures var j := NextPresent(col, i);
      BFilled(col, limit)[i] == if !col[i].Missing? then col[i] else if j < |col| && j - i <= limit then col[j] else Missing
  {
    var rev := Reverse(col);
    var k := |col| - 1 - i;
    var j := NextPresent(col, i);
    var p := LastPresent(rev, k);
    var x := FFilled(rev, limit)[k];
    assert BFilled(col, limit)[i] == x by { BFilledAt(col, limit, i); }
    assert x == if !rev[k].Missing? then rev[k] else if p >= 0 && k - p <= limit then rev[p] else Missing by {
      FFilledCell(rev, limit, k);
    }
    assert p == |col| - 1 - j by { LastPresentReversed(col, i); }
    assert rev[k] == col[i] by { ReverseAt(col, k); }
    if j < |col| {
      assert rev[p] == col[j] by { ReverseAt(col, p); }
    }
  }

  function FillColumn(col: seq<Cell>, how: FillMethod, limit: int): (r: seq<Cell>)
    ensures |r| == |col|
  {
    match how
    case FFill => FFilled(col, limit)
    case BFill => BFilled(col, limit)
  }

  /** fillna(method, limit) on every column. */
  function Filled(t: Table, how: FillMethod, limit: int): (r: Table)
    ensures r.columns == t.columns && |r.rows| == |t.rows|
    ensures forall i :: 0 <= i < |t.rows| ==> r.rows[i].time == t.rows[i].time && |r.rows[i].cells| == |t.columns|
  {
    Table(t.columns, seq(|t.rows|, i requires 0 <= i < |t.rows| =>
      Row(t.rows[i].time, seq(|t.columns|, c requires 0 <= c < |t.columns| => FillColumn(Column(t.rows, c), how, limit)[i]))))
  }

  /** fillna(value=0). */
  function ZeroFilled(t: Table): (r: Table)
    ensures r.columns == t.columns && |r.rows| == |t.rows|
    ensures forall i :: 0 <= i < |t.rows| ==> r.rows[i].time == t.rows[i].time && |r.rows[i].cells| == |t.rows[i].cells|
    ensures forall i, c :: 0 <= i < |r.rows| && 0 <= c < |r.rows[i].cells| ==> !r.rows[i].cells[c].Missing?
  {
    Table(t.columns, seq(|t.rows|, i requires 0 <= i < |t.rows| =>
      Row(t.rows[i].time, seq(|t.rows[i].cells|, c requires 0 <= c < |t.rows[i].cells| =>
        if t.rows[i].cells[c].Missing? then Num(0.0) else t.rows[i].cells[c]))))
  }

  // ----- time stamps, rolling mean, clipping -----

  /** The `timeStamp` column: each row's time in seconds. */
  function WithTimeStamps(t: Table): Table {
    if Shaped(t) then SetColumn(t, DEFAULT_TIME_STAMP_COLUMN, seq(|t.rows|, i requires 0 <= i < |t.rows| => Num(t.rows[i].time as real)))
    else t
  }

  /** The rows strictly between two times, in order. */
  function Within(rows: seq<Row>, lo: int, hi: int): (r: seq<Row>)
    ensures |r| <= |rows|
    ensures forall j :: 0 <= j < |r| ==> lo < r[j].time < hi
  {
    if rows == [] then []
    else
      var last := rows[|rows| - 1];
      Within(rows[..|rows| - 1], lo, hi) + (if lo < last.time < hi then [last] else [])
  }

  /** rolling(window, closed='neither').mean(): every cell becomes the mean
      of its column over the rows less than a window earlier, the row
      itself excluded; missing when there are none. */
  function Rolling(t: Table, w: int): (r: Table)
    ensures r.columns == t.columns && |r.rows| == |t.rows|
    ensures forall i :: 0 <= i < |t.rows| ==> r.rows[i].time == t.rows[i].time
    ensures forall i, c :: 0 <= i < |t.rows| && 0 <= c < |t.columns| ==>
      CellAt(r.rows[i], c) == Reduce(Mean, Column(Within(t.rows, t.rows[i].time - w, t.rows[i].time), c))
  {
    Table(t.columns, seq(|t.rows|, i requires 0 <= i < |t.rows| =>
      Row(t.rows[i].time, seq(|t.columns|, c requires 0 <= c < |t.columns| =>
        Reduce(Mean, Column(Within(t.rows, t.rows[i].time - w, t.rows[i].time), c))))))
  }

  predicate InHours(r: Row, startHour: real, endHour: real) {
    startHour * HOUR_TO_SECOND as real <= r.time as real <= endHour * HOUR_TO_SECOND as real
  }

  function KeepInHours(rows: seq<Row>, startHour: real, endHour: real): (r: seq<Row>)
    ensures |r| <= |rows|
    ensures forall j :: 0 <= j < |r| ==> r[j] in rows && InHours(r[j], startHour, endHour)
  {
    if rows == [] then []
    else
      var last := rows[|rows| - 1];
      KeepInHours(rows[..|rows| - 1], startHour, endHour) + (if InHours(last, startHour, endHour) then [last] else [])
  }

  /** Keeping rows splits over a concatenation, so the kept rows stay in
      their order. */
  lemma {:induction false} KeepInHoursAppend(a: seq<Row>, b: seq<Row>, startHour: real, endHour: real)
    ensures KeepInHours(a + b, startHour, endHour) == KeepInHours(a, startHour, endHour) + KeepInHours(b, startHour, endHour)
    decreases |b|
  {
    if b == [] {
      assert a + b == a;
    } else {
      var n := |b| - 1;
      assert (a + b)[..|a + b| - 1] == a + b[..n];
      KeepInHoursAppend(a, b[..n], startHour, endHour);
    }
  }

  /** A row is kept exactly when it lies in the hour range, both ends
      included. */
  lemma {:induction false} KeepInHoursMembers(rows: seq<Row>, startHour: real, endHour: real, r: Row)
    ensures r in KeepInHours(rows, startHour, endHour) <==> r in rows && InHours(r, startHour, endHour)
  {
    if rows != [] {
      var init := rows[..|rows| - 1];
      KeepInHoursMembers(init, startHour, endHour, r);
      assert rows == init + [rows[|rows| - 1]];
    }
  }

  /** loc[start <= index <= end]. */
  function Clip(t: Table, startHour: real, endHour: real): Table {
    Table(t.columns, KeepInHours(t.rows, startHour, endHour))
  }

  /** Without a rolling window, every finalized row's `timeStamp` is its
      time in seconds, and every row lies in the hour range. */
  lemma FinalizedTimeStamps(t: Table, window: string, reindex: bool, fill: string,
                            startHour: real, endHour: real, r: Row)
    requires Shaped(t)
    requires Finalize(t, window, reindex, fill, startHour, endHour, None).Success?
    ensures var f := Finalize(t, window, reindex, fill, startHour, endHour, None).value;
      r in f.rows ==>
        && InHours(r, startHour, endHour)
        && CellAt(r, IndexOf(f.columns, DEFAULT_TIME_STAMP_COLUMN)) == Num(r.time as real)
  {
    var t1 := if reindex then Reindexed(t, window, fill).value else t;
    assert Shaped(t1);
    var t2 := WithTimeStamps(t1);
    KeepInHoursMembers(t2.rows, startHour, endHour, r);
    if r in t2.rows {
      var i :| 0 <= i < |t2.rows| && t2.rows[i] == r;
      assert t2.rows[i].time == t1.rows[i].time;
    }
  }

  lemma {:induction false} IndexOfPresent(names: seq<string>, name: string, x: string)
    requires name in names
    ensures IndexOf(names + [x], name) == IndexOf(names, name)
  {
    if names[0] != name {
      assert (names + [x])[1..] == names[1..] + [x];
      IndexOfPresent(names[1..], name, x);
    }
  }

  lemma BucketOfStart(b: int, w: int)
    requires w > 0
    ensures BucketOf(b * w, w) == b
  {
  }

  /** Without reindexing or rolling, resample_speed_data on a table without
      `sampleAmount` is the clipped, time-stamped aggregate whose `samples`
      column is made a count. */
  lemma SpeedDataStages(t: Table, g: Grouper, w: int, window: string, fill: string,
                        startHour: real, endHour: real)
    requires w > 0 && Shaped(t) && SAMPLE_AMOUNT_COLUMN !in t.columns
    requires ResampleSpeedData(t, g, w, window, false, fill, startHour, endHour, None).Success?
    ensures t.columns != []
    ensures var t1 := SetColumn(t, SAMPLES_COLUMN, SampleCounts(t, w));
      var g1 := PutReducer(g, SAMPLES_COLUMN, Mean);
      && Aggregate(t1, g1, w).Success?
      && var agg := Aggregate(t1, g1, w).value;
         && Shaped(agg) && agg.columns == Keys(g1) && SAMPLES_COLUMN in agg.columns
         && ResampleSpeedData(t, g, w, window, false, fill, startHour, endHour, None).value
            == Clip(WithTimeStamps(MapColumn(agg, IndexOf(agg.columns, SAMPLES_COLUMN), AsCount)), startHour, endHour)
  {
    var t1 := SetColumn(t, SAMPLES_COLUMN, SampleCounts(t, w));
    var g1 := PutReducer(g, SAMPLES_COLUMN, Mean);
    AggregateShape(t1, g1, w);
  }

  /** A row of the clipped, time-stamped table whose `samples` column is
      made a count comes from an aggregate row with the same time, and
      holds that row's `samples` made a count. */
  lemma CountedRowAt(agg: Table, startHour: real, endHour: real, j: int) returns (i: int)
    requires Shaped(agg) && SAMPLES_COLUMN in agg.columns
    requires var c := IndexOf(agg.columns, SAMPLES_COLUMN);
      0 <= j < |Clip(WithTimeStamps(MapColumn(agg, c, AsCount)), startHour, endHour).rows|
    ensures var c := IndexOf(agg.columns, SAMPLES_COLUMN);
      var f := Clip(WithTimeStamps(MapColumn(agg, c, AsCount)), startHour, endHour);
      && 0 <= i < |agg.rows|
      && f.rows[j].time == agg.rows[i].time
      && CellAt(f.rows[j], IndexOf(f.columns, SAMPLES_COLUMN)) == AsCount(agg.rows[i].cells[c])
  {
    var c := IndexOf(agg.columns, SAMPLES_COLUMN);
    var counted := MapColumn(agg, c, AsCount);
    var t2 := WithTimeStamps(counted);
    var f := Clip(t2, startHour, endHour);
    assert Shaped(counted);
    assert f.rows[j] in t2.rows;
    i :| 0 <= i < |t2.rows| && t2.rows[i] == f.rows[j];
    assert IndexOf(t2.columns, SAMPLES_COLUMN) == c by {
      if DEFAULT_TIME_STAMP_COLUMN !in counted.columns {
        IndexOfPresent(counted.columns, SAMPLES_COLUMN, DEFAULT_TIME_STAMP_COLUMN);
      }
    }
    assert counted.columns[c] != DEFAULT_TIME_STAMP_COLUMN;
    assert CellAt(t2.rows[i], c) == CellAt(counted.rows[i], c);
  }

  /** One row of resample_speed_data's result, without reindexing or
      rolling: its `samples` cell is the number of non-missing first-column
      values the input has in the row's bucket. */
  lemma SpeedDataSamplesAt(t: Table, g: Grouper, w: int, window: string, fill: string,
                           startHour: real, endHour: real, j: int)
    requires w > 0 && Shaped(t) && SAMPLE_AMOUNT_COLUMN !in t.columns
    requires ResampleSpeedData(t, g, w, window, false, fill, startHour, endHour, None).Success?
    requires 0 <= j < |ResampleSpeedData(t, g, w, window, false, fill, startHour, endHour, None).value.rows|
    ensures var f := ResampleSpeedData(t, g, w, window, false, fill, startHour, endHour, None).value;
      CellAt(f.rows[j], IndexOf(f.columns, SAMPLES_COLUMN))
        == Num(PresentCount(Column(RowsIn(t.rows, BucketOf(f.rows[j].time, w), w), 0)) as real)
  {
    SpeedDataStages(t, g, w, window, fill, startHour, endHour);
    var t1 := SetColumn(t, SAMPLES_COLUMN, SampleCounts(t, w));
    var g1 := PutReducer(g, SAMPLES_COLUMN, Mean);
    var agg := Aggregate(t1, g1, w).value;
    var i := CountedRowAt(agg, startHour, endHour, j);
    var bs := Buckets(t1.rows, w);
    assert agg.rows[i] == AggregateRow(t1, g1, bs[i], w);
    BucketOfStart(bs[i], w);
    SamplesAreCounts(t, g, w, bs[i]);
  }
}
