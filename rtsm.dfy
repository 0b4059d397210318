/** The relative traffic status metric (RTSM) of Yoon et al.
    (SpatioTemporalTrafficMetric): a traversal's temporal and spatial mean
    speeds are placed in one of four quadrants around the connection's two
    speed thresholds; the metric is the distance below the thresholds,
    relative to the thresholds' sum. */
module TrafficMetrics {
  import opened Wrappers

  datatype Quadrant = UpperRight | UpperLeft | LowerLeft | LowerRight

  /** A connection's thresholds: temporal first, spatial second. */
  datatype Thresholds = Thresholds(temporal: real, spatial: real)

  /** The stored statistics of one traversal that the recomputation reads
      and rewrites (TraversalStatistics). The metric is `None` when the
      floating-point division has no finite result. */
  datatype TraversalStatistics = TraversalStatistics(
    connectionId: string,
    timeStamp: int,
    temporalMeanSpeed: real,
    spatialMeanSpeed: real,
    relativeTrafficStatusMetric: Option<real>)

  /** Speed recorded when no mean speed could be computed. */
  const NO_SPEED: real := -1.0

  /** getQuadrant: a speed counts as above its threshold when it reaches it. */
  function GetQuadrant(temporal: real, spatial: real, th: Thresholds): (q: Quadrant)
    ensures q == UpperRight <==> temporal >= th.temporal && spatial >= th.spatial
    ensures q == UpperLeft <==> temporal < th.temporal && spatial >= th.spatial
    ensures q == LowerLeft <==> temporal < th.temporal && spatial < th.spatial
    ensures q == LowerRight <==> temporal >= th.temporal && spatial < th.spatial
  {
    var aboveTemporal := temporal >= th.temporal;
    var aboveSpatial := spatial >= th.spatial;
    if aboveSpatial then
      (if aboveTemporal then UpperRight else UpperLeft)
    else
      (if !aboveTemporal then LowerLeft else LowerRight)
  }

  function Shortfall(speed: real, threshold: real): real {
    if speed < threshold then threshold - speed else 0.0
  }

  /** getDistanceBasedMetric: by quadrant, 0, the temporal shortfall, both
      shortfalls, or the spatial shortfall. */
  function DistanceBasedMetric(temporal: real, spatial: real, th: Thresholds): (d: real)
    ensures d >= 0.0
    ensures d == Shortfall(temporal, th.temporal) + Shortfall(spatial, th.spatial)
  {
    match GetQuadrant(temporal, spatial, th)
    case UpperRight => 0.0
    case UpperLeft => th.temporal - temporal
    case LowerLeft => (th.temporal - temporal) + (th.spatial - spatial)
    case LowerRight => th.spatial - spatial
  }

  /** computeRelativeTrafficStatusMetric: -1 without thresholds (checked
      first), 1 when either speed is the no-speed marker, and otherwise the
      distance-based metric over the sum of the thresholds. `None` stands
      for the non-finite quotient of a zero threshold sum. */
  function RelativeTrafficStatusMetric(temporal: real, spatial: real, thresholds: Option<Thresholds>): (r: Option<real>)
    ensures thresholds.None? ==> r == Some(-1.0)
    ensures thresholds.Some? && (temporal == NO_SPEED || spatial == NO_SPEED) ==> r == Some(1.0)
    ensures r.None? <==>
      thresholds.Some? && temporal != NO_SPEED && spatial != NO_SPEED
      && thresholds.value.temporal + thresholds.value.spatial == 0.0
  {
    match thresholds
    case None => Some(-1.0)
    case Some(th) =>
      if temporal == NO_SPEED || spatial == NO_SPEED then Some(1.0)
      else if th.temporal + th.spatial == 0.0 then None
      else Some(DistanceBasedMetric(temporal, spatial, th) / (th.temporal + th.spatial))
  }

  /** With thresholds, non-negative speeds and a positive threshold sum, the
      metric lies in [0, 1]: 0 in the upper-right quadrant, 1 only when both
      speeds are 0. */
  lemma RtsmInUnitRange(temporal: real, spatial: real, th: Thresholds)
    requires temporal >= 0.0 && spatial >= 0.0
    requires th.temporal >= 0.0 && th.spatial >= 0.0 && th.temporal + th.spatial > 0.0
    ensures var r := RelativeTrafficStatusMetric(temporal, spatial, Some(th));
      && r.Some? && 0.0 <= r.value <= 1.0
      && (r.value == 0.0 <==> GetQuadrant(temporal, spatial, th) == UpperRight)
      && (temporal == 0.0 && spatial == 0.0 ==> r.value == 1.0)
  {
    var sum := th.temporal + th.spatial;
    var d := DistanceBasedMetric(temporal, spatial, th);
    assert d <= sum;
    assert d / sum <= 1.0 by {
      assert d / sum * sum == d;
    }
    assert d / sum >= 0.0;
    if d / sum == 0.0 {
      assert d == d / sum * sum;
    }
  }

  /** The thresholds the storage holds for a connection, if any. */
  function ThresholdsOf(stored: map<string, Thresholds>, connectionId: string): Option<Thresholds> {
    if connectionId in stored then Some(stored[connectionId]) else None
  }

  /** The statistics with a freshly computed metric. */
  function WithRecomputedMetric(t: TraversalStatistics, stored: map<string, Thresholds>): TraversalStatistics {
    t.(relativeTrafficStatusMetric :=
      RelativeTrafficStatusMetric(t.temporalMeanSpeed, t.spatialMeanSpeed, ThresholdsOf(stored, t.connectionId)))
  }

  /** recomputeRelativeTrafficMetricsForAllTraversals: every traversal of
      the list read from storage gets its metric recomputed in place; the
      list is then handed back to storage as a whole. */
  method RecomputeRelativeTrafficMetrics(traversals: array<TraversalStatistics>, stored: map<string, Thresholds>)
    modifies traversals
    ensures forall i :: 0 <= i < traversals.Length ==>
      traversals[i] == WithRecomputedMetric(old(traversals[i]), stored)
  {
    for i := 0 to traversals.Length
      invariant forall j :: 0 <= j < i ==> traversals[j] == WithRecomputedMetric(old(traversals[j]), stored)
      invariant forall j :: i <= j < traversals.Length ==> traversals[j] == old(traversals[j])
    {
      var t := traversals[i];
      traversals[i] := t.(relativeTrafficStatusMetric :=
        RelativeTrafficStatusMetric(t.temporalMeanSpeed, t.spatialMeanSpeed, ThresholdsOf(stored, t.connectionId)));
    }
  }
}
