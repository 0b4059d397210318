/** The traversal-based processor that turns one connection traversal into
    its base metrics (SpatioTemporalProcessor): the traversal list with the
    previous and following records, the validity guards, the strictly
    increasing distance offsets fed to the splines, the traversal length,
    the spatial, temporal and naive mean speeds, and the RTSM when the
    connection already has thresholds. Splines (Apache Commons
    LinearInterpolator) and the geodesic distance are foreign and are
    parameters; storage is written through the `stored` outbox. */
module SpatioTemporalProcessors {
  import opened Wrappers
  import opened Records
  import opened Traversals
  import opened TrafficMetrics
  import opened Polylines
  import opened TimeBasedProcessors

  /** A node length at most this far (m) beyond the last offset is replaced
      by the last offset. */
  const CONNECTION_LENGTH_THRESHOLD: real := 5.0
  /** Default distance (m) between two spatial speed samples. */
  const DEFAULT_SPATIAL_MEAN_SPEED_CHUNK_SIZE: real := 15.0
  /** The least step (m) between two consecutive distance offsets. */
  const MIN_OFFSET_STEP: real := 0.001

  type Distance = (GeoPoint, GeoPoint) -> real

  /** LinearInterpolator.interpolate(knots, values): the spline's value function. */
  type Interpolator = (seq<real>, seq<real>) -> (real -> real)

  /** What insertTraversalMetrics receives for one traversal. */
  datatype TraversalMetrics = TraversalMetrics(
    vehicleId: string,
    timeStamp: int,
    connectionId: string,
    nextConnectionId: string,
    spatialMeanSpeed: real,
    temporalMeanSpeed: real,
    naiveMeanSpeed: real,
    relativeTrafficStatusMetric: Option<real>,
    traversalTime: int)

  /** buildTraversalList: the previous record with the negated distance to
      the connection's first node as offset, the traversal's records, and
      the following record with the last record's offset plus its distance
      from the last record as offset, the latter only behind a non-empty
      list. */
  function BuildTraversalList(t: Traversal, firstNode: GeoPoint, distance: Distance): (r: seq<FcdRecord>)
    ensures var k := if t.previous.Some? then 1 else 0;
      && |r| >= k + |t.records|
      && r[k..k + |t.records|] == t.records
      && (t.previous.Some? ==> r[0] == t.previous.value.(offset := -distance(t.previous.value.position, firstNode)))
      && (|r| > k + |t.records| <==> t.following.Some? && k + |t.records| > 0)
      && |r| <= k + |t.records| + 1
      && (|r| > k + |t.records| ==>
            r[|r| - 1] == t.following.value.(offset := r[|r| - 2].offset + distance(r[|r| - 2].position, t.following.value.position)))
  {
    var head := if t.previous.Some? then [t.previous.value.(offset := -distance(t.previous.value.position, firstNode))] else [];
    var body := head + t.records;
    if t.following.Some? && body != [] then
      var last := body[|body| - 1];
      body + [t.following.value.(offset := last.offset + distance(last.position, t.following.value.position))]
    else body
  }

  /** The guard of computeSubMetrics: at least three records, and the
      first on-connection record on another connection than both the
      previous and the following record. */
  predicate ValidTraversalList(records: seq<FcdRecord>) {
    && |records| >= 3
    && records[0].connectionId != records[1].connectionId
    && records[1].connectionId != records[|records| - 1].connectionId
  }

  /** For a traversal the kernel emits, the guard passes exactly when it
      has a previous record and that record lies on another connection; in
      particular a sender's first traversal is always rejected. */
  lemma TraversalAccepted(t: Traversal, firstNode: GeoPoint, distance: Distance)
    requires WellFormed(t)
    ensures ValidTraversalList(BuildTraversalList(t, firstNode, distance)) <==>
      t.previous.Some? && t.previous.value.connectionId != t.connectionId
  {
    var r := BuildTraversalList(t, firstNode, distance);
    var k := if t.previous.Some? then 1 else 0;
    assert r[k] == t.records[0];
    if t.previous.None? && |t.records| >= 2 {
      assert r[1] == t.records[1];
    }
  }

  function Max(a: real, b: real): real {
    if a >= b then a else b
  }

  /** The distance offsets of the spline knots: the first record's offset,
      then each record's offset raised to at least 1 mm beyond the previous
      knot. */
  function Offsets(records: seq<FcdRecord>): (r: seq<real>)
    ensures |r| == |records|
  {
    if records == [] then []
    else if |records| == 1 then [records[0].offset]
    else
      var p := Offsets(records[..|records| - 1]);
      p + [Max(records[|records| - 1].offset, p[|p| - 1] + MIN_OFFSET_STEP)]
  }

  /** The knots strictly increase, by at least 1 mm per step, and never lie
      below the record's own offset; the first is the first offset. */
  lemma {:induction false} OffsetsIncrease(records: seq<FcdRecord>)
    ensures var o := Offsets(records);
      && (records != [] ==> o[0] == records[0].offset)
      && (forall i :: 0 <= i < |o| ==> o[i] >= records[i].offset)
      && (forall i, j :: 0 <= i < j < |o| ==> o[i] + MIN_OFFSET_STEP * (j - i) as real <= o[j])
    decreases |records|
  {
    if |records| >= 2 {
      var init := records[..|records| - 1];
      OffsetsIncrease(init);
      var o := Offsets(records);
      var p := Offsets(init);
      assert o[..|p|] == p;
      forall i | 0 <= i < |o|
        ensures o[i] >= records[i].offset
      {
        if i < |p| {
          assert o[i] == p[i] && records[i] == init[i];
        }
      }
      forall i, j | 0 <= i < j < |o|
        ensures o[i] + MIN_OFFSET_STEP * (j - i) as real <= o[j]
      {
        if j == |o| - 1 && i < j {
          assert p[i] + MIN_OFFSET_STEP * (|p| - 1 - i) as real <= p[|p| - 1];
          assert o[j] >= p[|p| - 1] + MIN_OFFSET_STEP;
        }
      }
    }
  }

  /** One more record adds one knot, computed from the previous knot. */
  lemma OffsetsStep(records: seq<FcdRecord>, i: int)
    requires 0 < i < |records|
    ensures Offsets(records[..i + 1])
         == Offsets(records[..i]) + [Max(records[i].offset, Offsets(records[..i])[i - 1] + MIN_OFFSET_STEP)]
  {
    assert records[..i + 1][..i] == records[..i];
  }

  /** The three spline inputs of computeSubMetrics, filled in one loop. */
  method SplineInputs(records: seq<FcdRecord>) returns (offsets: array<real>, speeds: array<real>, timeStamps: array<real>)
    requires records != []
    ensures fresh(offsets) && fresh(speeds) && fresh(timeStamps)
    ensures offsets[..] == Offsets(records)
    ensures speeds[..] == Speeds(records)
    ensures timeStamps[..] == TimeStamps(records)
  {
    var n := |records|;
    offsets := new real[n];
    speeds := new real[n];
    timeStamps := new real[n];
    timeStamps[0] := records[0].timeStamp as real;
    speeds[0] := records[0].speed;
    offsets[0] := records[0].offset;
    for i := 1 to n
      invariant offsets[..i] == Offsets(records[..i])
      invariant forall j :: 0 <= j < i ==> speeds[j] == records[j].speed
      invariant forall j :: 0 <= j < i ==> timeStamps[j] == records[j].timeStamp as real
    {
      OffsetsStep(records, i);
      timeStamps[i] := records[i].timeStamp as real;
      speeds[i] := records[i].speed;
      offsets[i] := Max(records[i].offset, offsets[i - 1] + MIN_OFFSET_STEP);
      assert offsets[..i + 1] == offsets[..i] + [offsets[i]];
    }
    assert records[..n] == records;
  }

  /** The records' speeds, in order: the knot values of the speed spline. */
  function Speeds(records: seq<FcdRecord>): (r: seq<real>)
    ensures |r| == |records|
  {
    seq(|records|, i requires 0 <= i < |records| => records[i].speed)
  }

  /** The records' time stamps, in order: the knot values of the time spline. */
  function TimeStamps(records: seq<FcdRecord>): (r: seq<real>)
    ensures |r| == |records|
  {
    seq(|records|, i requires 0 <= i < |records| => records[i].timeStamp as real)
  }

  /** calculateTraversalLength: the node length, unless it exceeds the
      last knot by at most 5 m, in which case the last knot. */
  function TraversalLength(nodeLength: real, lastKnot: real): (length: real)
    ensures length == lastKnot <==>
      (nodeLength == lastKnot || lastKnot < nodeLength <= lastKnot + CONNECTION_LENGTH_THRESHOLD)
    ensures length != lastKnot ==> length == nodeLength
    ensures length <= nodeLength && nodeLength - length <= CONNECTION_LENGTH_THRESHOLD
  {
    if nodeLength > lastKnot && nodeLength - CONNECTION_LENGTH_THRESHOLD <= lastKnot then lastKnot else nodeLength
  }

  function Sum(xs: seq<real>): real {
    if xs == [] then 0.0 else Sum(xs[..|xs| - 1]) + xs[|xs| - 1]
  }

  function Mean(xs: seq<real>): real
    requires xs != []
  {
    Sum(xs) / |xs| as real
  }

  lemma {:induction false} SumNonNegative(xs: seq<real>)
    requires forall i :: 0 <= i < |xs| ==> xs[i] >= 0.0
    ensures Sum(xs) >= 0.0
  {
    if xs != [] {
      SumNonNegative(xs[..|xs| - 1]);
    }
  }

  function Ceil(x: real): int {
    -((-x).Floor)
  }

  /** The number of spatial samples between `cur` and `end`. */
  function SampleCount(cur: real, end: real, chunk: real): int
    requires chunk > 0.0
  {
    ((end - cur) / chunk).Floor
  }

  /** The `k`-th sample point, `cur + k * chunk`, reached by adding the
      chunk `k` times. */
  function Point(cur: real, chunk: real, k: nat): real {
    if k == 0 then cur else Point(cur, chunk, k - 1) + chunk
  }

  lemma {:induction false} PointValue(cur: real, chunk: real, k: nat)
    ensures Point(cur, chunk, k) == cur + k as real * chunk
  {
    if k > 0 {
      PointValue(cur, chunk, k - 1);
    }
  }

  /** The spline sampled at the first `n` sample points. */
  function Samples(spline: real -> real, cur: real, chunk: real, n: nat): (r: seq<real>)
    ensures |r| == n
  {
    if n == 0 then [] else Samples(spline, cur, chunk, n - 1) + [spline(Point(cur, chunk, n - 1))]
  }

  /** The loop of computeSpatialMeanSpeed continues with `k` samples taken
      exactly when fewer than the sample count are taken. */
  lemma SampleLoopTest(cur: real, end: real, chunk: real, k: nat)
    requires chunk > 0.0
    ensures end - Point(cur, chunk, k) >= chunk <==> k < SampleCount(cur, end, chunk)
  {
    PointValue(cur, chunk, k);
    var q := (end - cur) / chunk;
    assert q * chunk == end - cur;
    if end - (cur + k as real * chunk) >= chunk {
      assert (q - (k + 1) as real) * chunk >= 0.0;
      assert q >= (k + 1) as real;
    } else {
      assert (q - (k + 1) as real) * chunk < 0.0;
      assert q < (k + 1) as real;
    }
  }

  /** computeSpatialMeanSpeed: with less than one chunk between the first
      offset rounded up and the last offset rounded down, the plain mean of
      the record speeds; otherwise the mean of the speed spline sampled
      every chunk from that first offset on. */
  function SpatialMeanSpeedSpec(records: seq<FcdRecord>, spline: real -> real, chunk: real): real
    requires records != [] && chunk > 0.0
  {
    var cur := Ceil(records[0].offset) as real;
    var end := records[|records| - 1].offset.Floor as real;
    if end - cur < chunk then Mean(Speeds(records))
    else
      SampleLoopTest(cur, end, chunk, 0);
      Mean(Samples(spline, cur, chunk, SampleCount(cur, end, chunk)))
  }

  /** Every sample point lies between the first offset rounded up and one
      chunk before the last offset rounded down, so within the knots. */
  lemma SamplesWithinOffsets(records: seq<FcdRecord>, chunk: real, i: nat)
    requires records != [] && chunk > 0.0
    requires var cur := Ceil(records[0].offset) as real;
      i < SampleCount(cur, records[|records| - 1].offset.Floor as real, chunk)
    ensures var p := Point(Ceil(records[0].offset) as real, chunk, i);
      records[0].offset <= p <= records[|records| - 1].offset - chunk
  {
    var cur := Ceil(records[0].offset) as real;
    var end := records[|records| - 1].offset.Floor as real;
    SampleLoopTest(cur, end, chunk, i);
    PointValue(cur, chunk, i);
    assert i as real * chunk >= 0.0;
  }

  method SpatialMeanSpeed(records: seq<FcdRecord>, spline: real -> real, chunk: real) returns (mean: real)
    requires records != [] && chunk > 0.0
    ensures mean == SpatialMeanSpeedSpec(records, spline, chunk)
  {
    var cur := Ceil(records[0].offset) as real;
    var end := records[|records| - 1].offset.Floor as real;
    if end - cur < chunk {
      return Sum(Speeds(records)) / |records| as real;
    }
    ghost var start := cur;
    ghost var n := SampleCount(start, end, chunk);
    var speeds: seq<real> := [];
    SampleLoopTest(start, end, chunk, 0);
    while end - cur >= chunk
      invariant cur == Point(start, chunk, |speeds|)
      invariant |speeds| <= n
      invariant speeds == Samples(spline, start, chunk, |speeds|)
      decreases n - |speeds|
    {
      SampleLoopTest(start, end, chunk, |speeds|);
      speeds := speeds + [spline(cur)];
      cur := cur + chunk;
    }
    SampleLoopTest(start, end, chunk, |speeds|);
    mean := Sum(speeds) / |speeds| as real;
  }

  /** The speeds of the records on connection `c`, in order. */
  function SpeedsOn(records: seq<FcdRecord>, c: string): (r: seq<real>)
    ensures |r| <= |records|
  {
    if records == [] then []
    else
      var last := records[|records| - 1];
      SpeedsOn(records[..|records| - 1], c) + (if last.connectionId == c then [last.speed] else [])
  }

  lemma {:induction false} SpeedsOnIncludes(records: seq<FcdRecord>, i: nat)
    requires i < |records|
    ensures SpeedsOn(records, records[i].connectionId) != []
    decreases |records|
  {
    if i < |records| - 1 {
      SpeedsOnIncludes(records[..|records| - 1], i);
    }
  }

  /** computeNaiveTemporalMeanSpeed: the mean speed of the records on the
      connection of the second record. */
  method NaiveTemporalMeanSpeed(records: seq<FcdRecord>) returns (mean: real)
    requires |records| >= 2
    ensures SpeedsOn(records, records[1].connectionId) != []
    ensures mean == Mean(SpeedsOn(records, records[1].connectionId))
  {
    var sum := 0.0;
    var count := 0;
    var connectionId := records[1].connectionId;
    for i := 0 to |records|
      invariant sum == Sum(SpeedsOn(records[..i], connectionId))
      invariant count == |SpeedsOn(records[..i], connectionId)|
    {
      assert records[..i + 1][..i] == records[..i];
      var s := SpeedsOn(records[..i], connectionId);
      if records[i].connectionId == connectionId {
        assert (s + [records[i].speed])[..|s|] == s;
        sum := sum + records[i].speed;
        count := count + 1;
      } else {
        assert s + [] == s;
      }
    }
    assert records[..|records|] == records;
    SpeedsOnIncludes(records, 1);
    mean := sum / count as real;
  }

  /** The naive mean of non-negative speeds is non-negative. */
  lemma NaiveMeanNonNegative(records: seq<FcdRecord>)
    requires |records| >= 2
    requires forall i :: 0 <= i < |records| ==> records[i].speed >= 0.0
    ensures SpeedsOn(records, records[1].connectionId) != []
    ensures Mean(SpeedsOn(records, records[1].connectionId)) >= 0.0
  {
    var s := SpeedsOn(records, records[1].connectionId);
    SpeedsOnIncludes(records, 1);
    SpeedsOnNonNegative(records, records[1].connectionId);
    SumNonNegative(s);
    DivideNonNegative(Sum(s), |s| as real);
  }

  lemma DivideNonNegative(a: real, b: real)
    requires a >= 0.0 && b > 0.0
    ensures a / b >= 0.0
  {
  }

  lemma {:induction false} SpeedsOnNonNegative(records: seq<FcdRecord>, c: string)
    requires forall i :: 0 <= i < |records| ==> records[i].speed >= 0.0
    ensures forall i :: 0 <= i < |SpeedsOn(records, c)| ==> SpeedsOn(records, c)[i] >= 0.0
  {
    if records != [] {
      SpeedsOnNonNegative(records[..|records| - 1], c);
    }
  }

  /** `(long)` of a double: truncation toward zero. */
  function TruncateToLong(x: real): (n: int)
    ensures x >= 0.0 ==> 0 <= n && n as real <= x < n as real + 1.0
    ensures x < 0.0 ==> n <= 0 && n as real - 1.0 < x <= n as real
  {
    if x >= 0.0 then x.Floor else -((-x).Floor)
  }

  /** The following record's connection, or the traversed one without one. */
  function NextConnection(t: Traversal): string {
    if t.following.None? then t.connectionId else t.following.value.connectionId
  }

  /** The environment a traversal's metrics are computed in: the road
      network's node lists per connection, the distance function, the
      interpolator, the spatial chunk size and the stored thresholds. */
  datatype Environment = Environment(
    network: map<string, seq<GeoPoint>>,
    distance: Distance,
    interpolate: Interpolator,
    chunk: real,
    thresholds: map<string, Thresholds>)

  predicate Knows(env: Environment, t: Traversal) {
    t.connectionId in env.network && env.network[t.connectionId] != [] && env.chunk > 0.0
  }

  /** A spline value throws OutOfRangeException outside its knots. */
  predicate InKnots(knots: seq<real>, x: real) {
    knots != [] && knots[0] <= x <= knots[|knots| - 1]
  }

  /** computeSubMetrics on values: the metrics stored for a traversal, or
      `None` when it is rejected, when a spline is evaluated outside its
      knots, or when the traversal time is 0. */
  function SubMetrics(vehicleId: string, t: Traversal, env: Environment): Option<TraversalMetrics>
    requires Knows(env, t)
  {
    var records := BuildTraversalList(t, env.network[t.connectionId][0], env.distance);
    if !ValidTraversalList(records) then None
    else KnotMetrics(vehicleId, t, env, records)
  }

  /** The metrics of an accepted traversal list, from its spline knots. */
  function KnotMetrics(vehicleId: string, t: Traversal, env: Environment, records: seq<FcdRecord>): Option<TraversalMetrics>
    requires Knows(env, t) && ValidTraversalList(records) && t.records != []
  {
    var knots := Offsets(records);
    var length := TraversalLength(PolylineLength(env.network[t.connectionId], env.distance), knots[|knots| - 1]);
    RangedMetrics(vehicleId, t, env, records, length)
  }

  /** The metrics for a traversal length: none when the length or the
      origin lies outside the knots, or when the traversal time is 0. */
  function RangedMetrics(vehicleId: string, t: Traversal, env: Environment, records: seq<FcdRecord>, length: real)
    : Option<TraversalMetrics>
    requires Knows(env, t) && ValidTraversalList(records) && t.records != []
  {
    var knots := Offsets(records);
    if !InKnots(knots, length) || !InKnots(knots, 0.0) then None
    else
      var traversalTime := env.interpolate(knots, TimeStamps(records))(length)
                         - env.interpolate(knots, TimeStamps(records))(0.0);
      if traversalTime == 0.0 then None
      else Some(TimedMetrics(vehicleId, t, env, records, length, traversalTime))
  }

  /** The metrics of an accepted traversal with a non-zero traversal time. */
  function TimedMetrics(vehicleId: string, t: Traversal, env: Environment, records: seq<FcdRecord>,
                        length: real, traversalTime: real): TraversalMetrics
    requires ValidTraversalList(records) && t.records != [] && env.chunk > 0.0 && traversalTime != 0.0
  {
    var temporal := length / traversalTime * SECOND as real;
    var spatial := SpatialMeanSpeedSpec(records, env.interpolate(Offsets(records), Speeds(records)), env.chunk);
    var rtsm := if t.connectionId in env.thresholds
      then RelativeTrafficStatusMetric(temporal, spatial, Some(env.thresholds[t.connectionId]))
      else Some(-1.0);
    SpeedsOnIncludes(records, 1);
    TraversalMetrics(vehicleId, t.records[|t.records| - 1].timeStamp, t.connectionId, NextConnection(t),
                     spatial, temporal, Mean(SpeedsOn(records, records[1].connectionId)), rtsm,
                     TruncateToLong(traversalTime))
  }

  /** computeSubMetrics: build the list, check it, fill the spline inputs,
      and produce the metrics unless a spline is evaluated outside its
      knots. */
  method ComputeSubMetrics(vehicleId: string, t: Traversal, env: Environment) returns (m: Option<TraversalMetrics>)
    requires Knows(env, t)
    ensures m == SubMetrics(vehicleId, t, env)
  {
    var records := BuildTraversalList(t, env.network[t.connectionId][0], env.distance);
    if |records| < 3 {
      return None;
    }
    if records[0].connectionId == records[1].connectionId
       || records[1].connectionId == records[|records| - 1].connectionId {
      return None;
    }
    m := ComputeKnotMetrics(vehicleId, t, env, records);
  }

  /** The part of computeSubMetrics after the list is accepted: the spline
      inputs, the traversal length, the range checks and the traversal
      time. */
  method ComputeKnotMetrics(vehicleId: string, t: Traversal, env: Environment, records: seq<FcdRecord>)
    returns (m: Option<TraversalMetrics>)
    requires Knows(env, t) && ValidTraversalList(records) && t.records != []
    ensures m == KnotMetrics(vehicleId, t, env, records)
  {
    var offsets, speeds, timeStamps := SplineInputs(records);
    var knots, times, values := offsets[..], timeStamps[..], speeds[..];
    var nodeLength := CalcLengthByNodes(env.network[t.connectionId], env.distance);
    var length := TraversalLength(nodeLength, knots[|knots| - 1]);
    m := ComputeRangedMetrics(vehicleId, t, env, records, knots, times, values, length);
  }

  /** The range checks of computeSubMetrics and the traversal time. */
  method ComputeRangedMetrics(vehicleId: string, t: Traversal, env: Environment, records: seq<FcdRecord>,
                              knots: seq<real>, times: seq<real>, values: seq<real>, length: real)
    returns (m: Option<TraversalMetrics>)
    requires Knows(env, t) && ValidTraversalList(records) && t.records != []
    requires knots == Offsets(records) && times == TimeStamps(records) && values == Speeds(records)
    ensures m == RangedMetrics(vehicleId, t, env, records, length)
  {
    var distanceTimeSpline := env.interpolate(knots, times);
    var distanceSpeedSpline := env.interpolate(knots, values);
    if !(knots[0] <= length <= knots[|knots| - 1]) || !(knots[0] <= 0.0 <= knots[|knots| - 1]) {
      return None;
    }
    var traversalTime := distanceTimeSpline(length) - distanceTimeSpline(0.0);
    if traversalTime == 0.0 {
      return None;
    }
    var metrics := ComputeTimedMetrics(vehicleId, t, env, records, distanceSpeedSpline, length, traversalTime);
    m := Some(metrics);
  }

  /** The tail of computeSubMetrics: the temporal mean speed over the
      traversal time, the spatial mean speed from the speed spline, the RTSM
      against the stored thresholds (-1 without) and the naive mean. */
  method ComputeTimedMetrics(vehicleId: string, t: Traversal, env: Environment, records: seq<FcdRecord>,
                             distanceSpeedSpline: real -> real, length: real, traversalTime: real)
    returns (metrics: TraversalMetrics)
    requires ValidTraversalList(records) && t.records != [] && env.chunk > 0.0 && traversalTime != 0.0
    requires distanceSpeedSpline == env.interpolate(Offsets(records), Speeds(records))
    ensures metrics == TimedMetrics(vehicleId, t, env, records, length, traversalTime)
  {
    var temporalMeanSpeed := length / traversalTime * SECOND as real;
    var spatialMeanSpeed := SpatialMeanSpeed(records, distanceSpeedSpline, env.chunk);
    var relativeMetric: Option<real> := Some(-1.0);
    if t.connectionId in env.thresholds {
      relativeMetric := RelativeTrafficStatusMetric(temporalMeanSpeed, spatialMeanSpeed, Some(env.thresholds[t.connectionId]));
    }
    var naive := NaiveTemporalMeanSpeed(records);
    var last := t.records[|t.records| - 1];
    metrics := TraversalMetrics(vehicleId, last.timeStamp, t.connectionId, NextConnection(t),
                                spatialMeanSpeed, temporalMeanSpeed, naive, relativeMetric,
                                TruncateToLong(traversalTime));
  }

  /** What is stored for a traversal the kernel emits: nothing for one
      without a previous record on another connection; otherwise, when
      stored, the metrics of the traversed connection, stamped with its
      last record's time, naming the following record's connection, and
      carrying the RTSM of the stored thresholds (-1 without). */
  lemma SubMetricsOfKernelTraversal(vehicleId: string, t: Traversal, env: Environment)
    requires Knows(env, t) && WellFormed(t)
    ensures !(t.previous.Some? && t.previous.value.connectionId != t.connectionId) ==> SubMetrics(vehicleId, t, env).None?
    ensures SubMetrics(vehicleId, t, env).Some? ==>
      var m := SubMetrics(vehicleId, t, env).value;
      && m.vehicleId == vehicleId && m.connectionId == t.connectionId
      && m.timeStamp == LastRecord(t).timeStamp
      && m.nextConnectionId == t.following.value.connectionId
      && m.relativeTrafficStatusMetric
         == RelativeTrafficStatusMetric(m.temporalMeanSpeed, m.spatialMeanSpeed, ThresholdsOf(env.thresholds, t.connectionId))
  {
    TraversalAccepted(t, env.network[t.connectionId][0], env.distance);
  }

  class SpatioTemporalProcessor {
    /** Configured distance between spatial speed samples. */
    const spatialMeanSpeedChunkSize: real
    /** The traversal metrics handed to storage, in order. */
    var stored: seq<TraversalMetrics>

    constructor ()
      ensures spatialMeanSpeedChunkSize == DEFAULT_SPATIAL_MEAN_SPEED_CHUNK_SIZE && stored == []
    {
      spatialMeanSpeedChunkSize := DEFAULT_SPATIAL_MEAN_SPEED_CHUNK_SIZE;
      stored := [];
    }

    /** onConnectionTraversal: the traversal's metrics, when there are
        any, are handed to storage. */
    method OnConnectionTraversal(vehicleId: string, t: Traversal, network: map<string, seq<GeoPoint>>,
                                 distance: Distance, interpolate: Interpolator, thresholds: map<string, Thresholds>)
      requires Knows(Environment(network, distance, interpolate, spatialMeanSpeedChunkSize, thresholds), t)
      modifies this`stored
      ensures var env := Environment(network, distance, interpolate, spatialMeanSpeedChunkSize, thresholds);
        var m := SubMetrics(vehicleId, t, env);
        stored == old(stored) + (if m.Some? then [m.value] else [])
    {
      var m := ComputeSubMetrics(vehicleId, t, Environment(network, distance, interpolate, spatialMeanSpeedChunkSize, thresholds));
      if m.Some? {
        stored := stored + [m.value];
      }
    }
  }
}
