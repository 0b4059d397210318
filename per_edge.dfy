/** Resampling every edge on its own (_resample_data_per_edge and the three
    wrappers in evaluation/lib/utils.py): the records are grouped by
    connection in ascending id order, each group is resampled with the
    speed-data resampler, its rows are tagged with the connection, and the
    groups are concatenated. */
module PerEdgeResampling {
  import opened Wrappers
  import opened Resampling

  const CONNECTION_ID_COLUMN: string := "connectionID"
  const TRAVERSAL_SPEEDS_GROUPER: Grouper := [("temporalMeanSpeed", Mean), ("spatialMeanSpeed", Mean), ("samples", Sum)]
  const EDGE_DATA_GROUPER: Grouper := [("speed", Mean)]

  /** A row of a frame indexed by connection and time; `cells` are the
      other columns. */
  datatype EdgeRow = EdgeRow(connectionId: string, time: int, cells: seq<Cell>)
  datatype EdgeTable = EdgeTable(columns: seq<string>, rows: seq<EdgeRow>)

  /** The parameters every group is resampled with. */
  datatype Settings = Settings(grouper: Grouper, bucketWidth: int, window: string, reindex: bool,
                               fill: string, startHour: real, endHour: real, rolling: Option<int>)

  // ----- the ascending order of connection ids -----

  /** Python's string order: code point by code point, a prefix first. */
  predicate Below(a: string, b: string) {
    if a == [] then b != []
    else if b == [] then false
    else if a[0] != b[0] then a[0] < b[0]
    else Below(a[1..], b[1..])
  }

  lemma {:induction false} BelowIrreflexive(a: string)
    ensures !Below(a, a)
  {
    if a != [] {
      BelowIrreflexive(a[1..]);
    }
  }

  lemma {:induction false} BelowTransitive(a: string, b: string, c: string)
    requires Below(a, b) && Below(b, c)
    ensures Below(a, c)
  {
    if a != [] && b != [] && c != [] && a[0] == b[0] && b[0] == c[0] {
      BelowTransitive(a[1..], b[1..], c[1..]);
    }
  }

  lemma {:induction false} BelowTotal(a: string, b: string)
    requires a != b
    ensures Below(a, b) || Below(b, a)
  {
    if a != [] && b != [] && a[0] == b[0] {
      assert a == [a[0]] + a[1..] && b == [b[0]] + b[1..];
      BelowTotal(a[1..], b[1..]);
    }
  }

  predicate Ascending(ids: seq<string>) {
    forall i, j :: 0 <= i < j < |ids| ==> Below(ids[i], ids[j])
  }

  /** An id put into its place; nothing when already there. */
  function Insert(ids: seq<string>, x: string): (r: seq<string>)
    requires Ascending(ids)
    ensures Ascending(r)
    ensures forall y :: y in r <==> y in ids || y == x
    ensures |r| <= |ids| + 1
  {
    if ids == [] then [x]
    else if x == ids[0] then ids
    else if Below(x, ids[0]) then
      assert forall j :: 0 <= j < |ids| ==> Below(x, ids[j]) by {
        forall j | 0 < j < |ids| {
          BelowTransitive(x, ids[0], ids[j]);
        }
      }
      [x] + ids
    else
      BelowTotal(x, ids[0]);
      var rest := Insert(ids[1..], x);
      assert forall y :: y in rest ==> Below(ids[0], y);
      [ids[0]] + rest
  }

  /** The connections present, ascending, each once (groupby's keys). */
  function Connections(rows: seq<EdgeRow>): (ids: seq<string>)
    ensures Ascending(ids)
    ensures forall c :: c in ids <==> exists i :: 0 <= i < |rows| && rows[i].connectionId == c
    ensures rows == [] <==> ids == []
  {
    if rows == [] then []
    else
      var init := rows[..|rows| - 1];
      var ids := Insert(Connections(init), rows[|rows| - 1].connectionId);
      assert forall i :: 0 <= i < |init| ==> init[i] == rows[i];
      ids
  }

  /** Ascending ids are distinct. */
  lemma AscendingDistinct(ids: seq<string>, i: int, j: int)
    requires Ascending(ids) && 0 <= i < j < |ids|
    ensures ids[i] != ids[j]
  {
    BelowIrreflexive(ids[i]);
  }

  // ----- one group -----

  /** The connection's rows in table order, with the connection id as the
      first column (the group after reset_index). */
  function GroupRows(rows: seq<EdgeRow>, c: string): (r: seq<Row>)
    ensures |r| <= |rows|
  {
    if rows == [] then []
    else
      var last := rows[|rows| - 1];
      GroupRows(rows[..|rows| - 1], c) + (if last.connectionId == c then [Row(last.time, [Text(c)] + last.cells)] else [])
  }

  function Group(t: EdgeTable, c: string): Table {
    Table([CONNECTION_ID_COLUMN] + t.columns, GroupRows(t.rows, c))
  }

  /** Grouping splits over a concatenation. */
  lemma {:induction false} GroupRowsAppend(a: seq<EdgeRow>, b: seq<EdgeRow>, c: string)
    ensures GroupRows(a + b, c) == GroupRows(a, c) + GroupRows(b, c)
    decreases |b|
  {
    if b == [] {
      assert a + b == a;
    } else {
      var n := |b| - 1;
      assert (a + b)[..|a + b| - 1] == a + b[..n];
      GroupRowsAppend(a, b[..n], c);
    }
  }

  lemma {:induction false} GroupRowsAbsent(rows: seq<EdgeRow>, c: string)
    requires forall i :: 0 <= i < |rows| ==> rows[i].connectionId != c
    ensures GroupRows(rows, c) == []
  {
    if rows != [] {
      GroupRowsAbsent(rows[..|rows| - 1], c);
    }
  }

  /** One edge's group does not depend on other edges' records: inserting
      rows of other connections anywhere leaves it as it was. */
  lemma GroupIndependent(before: seq<EdgeRow>, others: seq<EdgeRow>, after: seq<EdgeRow>, c: string)
    requires forall i :: 0 <= i < |others| ==> others[i].connectionId != c
    ensures GroupRows(before + others + after, c) == GroupRows(before + after, c)
  {
    GroupRowsAppend(before + others, after, c);
    GroupRowsAppend(before, others, c);
    GroupRowsAppend(before, after, c);
    GroupRowsAbsent(others, c);
  }

  /** Every row of a group carries the connection id in its first column,
      and the group has one cell per column when the table does. */
  lemma {:induction false} GroupRowsShape(rows: seq<EdgeRow>, c: string, width: int)
    requires forall i :: 0 <= i < |rows| ==> |rows[i].cells| == width
    ensures forall j :: 0 <= j < |GroupRows(rows, c)| ==>
      |GroupRows(rows, c)[j].cells| == width + 1 && GroupRows(rows, c)[j].cells[0] == Text(c)
  {
    if rows != [] {
      var init := rows[..|rows| - 1];
      assert forall i :: 0 <= i < |init| ==> init[i] == rows[i];
      GroupRowsShape(init, c, width);
    }
  }

  /** In a bucket of a group the first column is never missing. */
  lemma {:induction false} RowsInTagged(rows: seq<Row>, c: string, b: int, w: int)
    requires w > 0
    requires forall j :: 0 <= j < |rows| ==> |rows[j].cells| > 0 && rows[j].cells[0] == Text(c)
    ensures PresentCount(Column(RowsIn(rows, b, w), 0)) == |RowsIn(rows, b, w)|
  {
    if rows != [] {
      var init := rows[..|rows| - 1];
      assert forall j :: 0 <= j < |init| ==> init[j] == rows[j];
      RowsInTagged(init, c, b, w);
      var r := RowsIn(rows, b, w);
      var ri := RowsIn(init, b, w);
      if BucketOf(rows[|rows| - 1].time, w) == b {
        assert r == ri + [rows[|rows| - 1]];
        assert Column(r, 0)[..|ri|] == Column(ri, 0);
      } else {
        assert r == ri;
      }
    }
  }

  /** The first column of a group is its connection id, so the `samples`
      the speed-data resampler counts for a bucket of an edge are the number
      of that edge's records in the bucket. */
  lemma GroupSamplesCountRecords(t: EdgeTable, c: string, w: int, b: int)
    requires w > 0
    requires forall i :: 0 <= i < |t.rows| ==> |t.rows[i].cells| == |t.columns|
    ensures Shaped(Group(t, c))
    ensures PresentCount(Column(RowsIn(Group(t, c).rows, b, w), 0)) == |RowsIn(Group(t, c).rows, b, w)|
  {
    var rows := GroupRows(t.rows, c);
    GroupRowsShape(t.rows, c, |t.columns|);
    RowsInTagged(rows, c, b, w);
  }

  /** The resampled rows tagged with their connection. */
  function Tag(c: string, r: Table): (rows: seq<EdgeRow>)
    ensures |rows| == |r.rows|
    ensures forall i :: 0 <= i < |rows| ==> rows[i].connectionId == c
  {
    seq(|r.rows|, i requires 0 <= i < |r.rows| => EdgeRow(c, r.rows[i].time, r.rows[i].cells))
  }

  function ResampleGroup(t: EdgeTable, c: string, s: Settings): Result<Table, Error>
    requires s.bucketWidth > 0 && Shaped(Group(t, c))
  {
    ResampleSpeedData(Group(t, c), s.grouper, s.bucketWidth, s.window, s.reindex, s.fill,
                      s.startHour, s.endHour, s.rolling)
  }

  predicate WellFormed(t: EdgeTable) {
    forall i :: 0 <= i < |t.rows| ==> |t.rows[i].cells| == |t.columns|
  }

  // ----- all groups -----

  /** The concatenation of the given connections' tagged results, in the
      given order; the first failing group's error otherwise. */
  function ResampledGroups(t: EdgeTable, ids: seq<string>, s: Settings): Result<seq<EdgeRow>, Error>
    requires s.bucketWidth > 0 && WellFormed(t)
  {
    if ids == [] then Success([])
    else
      var before :- ResampledGroups(t, ids[..|ids| - 1], s);
      GroupSamplesCountRecords(t, ids[|ids| - 1], s.bucketWidth, 0);
      var r :- ResampleGroup(t, ids[|ids| - 1], s);
      Success(before + Tag(ids[|ids| - 1], r))
  }

  /** The column set of the results: the grouper's columns (with `samples`
      when there is no `sampleAmount`), then `timeStamp`. */
  function ResampledColumns(t: EdgeTable, s: Settings): seq<string> {
    var cols := [CONNECTION_ID_COLUMN] + t.columns;
    var ks := if SAMPLE_AMOUNT_COLUMN in cols then Keys(s.grouper) else Keys(PutReducer(s.grouper, SAMPLES_COLUMN, Mean));
    if DEFAULT_TIME_STAMP_COLUMN in ks then ks else ks + [DEFAULT_TIME_STAMP_COLUMN]
  }

  /** _resample_data_per_edge: with no records there is no group and the
      final set_index finds no `connectionID` column. */
  function PerEdge(t: EdgeTable, s: Settings): (r: Result<EdgeTable, Error>)
    requires s.bucketWidth > 0 && WellFormed(t)
    ensures t.rows == [] ==> r == Failure(KeyError(CONNECTION_ID_COLUMN))
    ensures r.Success? ==>
      && |r.value.rows| == RowTotal(t, Connections(t.rows), s)
      && forall i :: 0 <= i < |r.value.rows| ==>
           exists k :: 0 <= k < |t.rows| && t.rows[k].connectionId == r.value.rows[i].connectionId
  {
    var ids := Connections(t.rows);
    if ids == [] then Failure(KeyError(CONNECTION_ID_COLUMN))
    else
      var rows :- ResampledGroups(t, ids, s);
      ResampledGroupsRows(t, ids, s);
      Success(EdgeTable(ResampledColumns(t, s), rows))
  }

  /** The number of result rows, summed over the given connections. */
  function RowTotal(t: EdgeTable, ids: seq<string>, s: Settings): nat
    requires s.bucketWidth > 0 && WellFormed(t)
  {
    if ids == [] then 0
    else
      GroupSamplesCountRecords(t, ids[|ids| - 1], s.bucketWidth, 0);
      var r := ResampleGroup(t, ids[|ids| - 1], s);
      RowTotal(t, ids[..|ids| - 1], s) + (if r.Success? then |r.value.rows| else 0)
  }

  /** The per-edge frame has as many rows as the groups' results together,
      and each group's block is its own resampled rows tagged with it. */
  lemma {:induction false} ResampledGroupsRows(t: EdgeTable, ids: seq<string>, s: Settings)
    requires s.bucketWidth > 0 && WellFormed(t)
    requires ResampledGroups(t, ids, s).Success?
    ensures |ResampledGroups(t, ids, s).value| == RowTotal(t, ids, s)
    ensures forall i :: 0 <= i < |ResampledGroups(t, ids, s).value| ==> ResampledGroups(t, ids, s).value[i].connectionId in ids
  {
    if ids != [] {
      var init := ids[..|ids| - 1];
      ResampledGroupsRows(t, init, s);
      var out := ResampledGroups(t, ids, s).value;
      var before := ResampledGroups(t, init, s).value;
      forall i | 0 <= i < |out|
        ensures out[i].connectionId in ids
      {
        if i < |before| {
          assert out[i] == before[i];
          assert before[i].connectionId in init;
        } else {
          assert out[i].connectionId == ids[|ids| - 1];
        }
      }
    }
  }

  /** Once a group fails, every longer run of groups fails the same way. */
  lemma {:induction false} ResampledGroupsFails(t: EdgeTable, ids: seq<string>, k: int, s: Settings, e: Error)
    requires s.bucketWidth > 0 && WellFormed(t) && 0 <= k <= |ids|
    requires ResampledGroups(t, ids[..k], s) == Failure(e)
    ensures ResampledGroups(t, ids, s) == Failure(e)
    decreases |ids| - k
  {
    if k < |ids| {
      assert ids[..k + 1][..k] == ids[..k];
      ResampledGroupsFails(t, ids, k + 1, s, e);
    } else {
      assert ids[..k] == ids;
    }
  }

  /** One more group either fails with its error or appends its tagged rows. */
  lemma ResampledGroupsStep(t: EdgeTable, ids: seq<string>, k: int, s: Settings, out: seq<EdgeRow>)
    requires s.bucketWidth > 0 && WellFormed(t) && 0 <= k < |ids|
    requires ResampledGroups(t, ids[..k], s) == Success(out)
    ensures Shaped(Group(t, ids[k]))
    ensures ResampledGroups(t, ids[..k + 1], s)
         == match ResampleGroup(t, ids[k], s)
            case Failure(e) => Failure(e)
            case Success(r) => Success(out + Tag(ids[k], r))
  {
    assert ids[..k + 1][..k] == ids[..k];
    GroupSamplesCountRecords(t, ids[k], s.bucketWidth, 0);
  }

  /** _resample_data_per_edge, group by group in ascending connection
      order; the first failing group's error ends it. */
  method ResampleDataPerEdge(t: EdgeTable, s: Settings) returns (r: Result<EdgeTable, Error>)
    requires s.bucketWidth > 0 && WellFormed(t)
    ensures r == PerEdge(t, s)
  {
    var ids := Connections(t.rows);
    if ids == [] {
      return Failure(KeyError(CONNECTION_ID_COLUMN));
    }
    var out: seq<EdgeRow> := [];
    var k := 0;
    while k < |ids|
      invariant 0 <= k <= |ids|
      invariant ResampledGroups(t, ids[..k], s) == Success(out)
    {
      ResampledGroupsStep(t, ids, k, s, out);
      var res := ResampleGroup(t, ids[k], s);
      if res.Failure? {
        ResampledGroupsFails(t, ids, k + 1, s, res.error);
        return Failure(res.error);
      }
      out := out + Tag(ids[k], res.value);
      k := k + 1;
    }
    assert ids[..k] == ids;
    r := Success(EdgeTable(ResampledColumns(t, s), out));
  }

  /** resample_traversal_data_per_edge: the traversal grouper. */
  method ResampleTraversalDataPerEdge(t: EdgeTable, w: int, window: string, reindex: bool, fill: string,
                                      startHour: real, endHour: real, rolling: Option<int>)
    returns (r: Result<EdgeTable, Error>)
    requires w > 0 && WellFormed(t)
    ensures r == PerEdge(t, Settings(TRAVERSAL_SPEEDS_GROUPER, w, window, reindex, fill, startHour, endHour, rolling))
  {
    r := ResampleDataPerEdge(t, Settings(TRAVERSAL_SPEEDS_GROUPER, w, window, reindex, fill, startHour, endHour, rolling));
  }

  /** resample_edge_data_per_edge: the edge-data grouper, through the
      speed-data resampler. */
  method ResampleEdgeDataPerEdge(t: EdgeTable, w: int, window: string, reindex: bool, fill: string,
                                 startHour: real, endHour: real, rolling: Option<int>)
    returns (r: Result<EdgeTable, Error>)
    requires w > 0 && WellFormed(t)
    ensures r == PerEdge(t, Settings(EDGE_DATA_GROUPER, w, window, reindex, fill, startHour, endHour, rolling))
  {
    r := ResampleDataPerEdge(t, Settings(EDGE_DATA_GROUPER, w, window, reindex, fill, startHour, endHour, rolling));
  }

  /** resample_custom_data_per_edge: the caller's grouper. */
  method ResampleCustomDataPerEdge(t: EdgeTable, grouper: Grouper, w: int, window: string, reindex: bool, fill: string,
                                   startHour: real, endHour: real, rolling: Option<int>)
    returns (r: Result<EdgeTable, Error>)
    requires w > 0 && WellFormed(t)
    ensures r == PerEdge(t, Settings(grouper, w, window, reindex, fill, startHour, endHour, rolling))
  {
    r := ResampleDataPerEdge(t, Settings(grouper, w, window, reindex, fill, startHour, endHour, rolling));
  }
}
