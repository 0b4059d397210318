/** The processor that derives each connection's temporal and spatial speed
    thresholds from the stored traversals (ThresholdProcessor), following
    Yoon et al.: the temporal threshold is the connection length over the
    5th percentile of its traversal times, lengthened by a red-light
    duration where a heuristic detects a traffic light; the spatial
    threshold is the 5th percentile of the spatial mean speeds of the
    traversals whose temporal mean speed reaches that temporal threshold.
    Percentiles (Guava Quantiles) and connection lengths are foreign and
    are parameters; the storage is read through a snapshot and written
    through the `storageCalls` outbox. */
module ThresholdProcessors {
  import opened Wrappers
  import opened Records
  import opened TimeBasedProcessors

  /** Bounds of the number of recorded traversals for the red-light heuristic. */
  const MIN_RECORDED_TRAVERSALS_FOR_TL_HEURISTIC: int := 10
  const MAX_RECORDED_TRAVERSAL_FOR_TL_HEURISTIC: int := 400
  /** Configuration defaults. */
  const DEFAULT_RED_LIGHT_DURATION: int := 45 * SECOND
  const DEFAULT_MIN_TRAVERSALS_FOR_THRESHOLD: int := 10
  /** Traversal times at or below this (ns) do not count as observations. */
  const MIN_TRAVERSAL_TIME: int := 5

  /** What the computation reads from storage: every connection's recorded
      traversal times (ns), and its (temporal, spatial) mean speed pairs. */
  datatype StorageSnapshot = StorageSnapshot(
    traversalTimes: map<string, seq<int>>,
    meanSpeeds: map<string, seq<(real, real)>>)

  /** What the processor asks of storage. */
  datatype StorageCall =
    | InsertThresholds(temporal: map<string, real>, spatial: map<string, real>, time: int)
    | RecomputeAllRtsm

  /** Guava's `percentiles().index(i).compute(values)`. */
  type Percentile = (int, seq<real>) -> real

  function ToReals(s: seq<int>): (r: seq<real>)
    ensures |r| == |s|
  {
    seq(|s|, i requires 0 <= i < |s| => s[i] as real)
  }

  /** A floating-point quotient; `None` when it is not finite. */
  function Quotient(a: real, b: real): (q: Option<real>)
    ensures q.Some? <==> b != 0.0
    ensures q.Some? ==> q.value * b == a
  {
    if b == 0.0 then None else Some(a / b)
  }

  predicate HasObservation(times: seq<int>) {
    exists i :: 0 <= i < |times| && times[i] > MIN_TRAVERSAL_TIME
  }

  /** computeTraversalTimePercentiles: a connection gets the given
      percentile only with more than `minTraversals` times of which one
      exceeds 5; the percentile is taken over all its times. */
  function TraversalTimePercentiles(times: map<string, seq<int>>, minTraversals: int, index: int,
                                    percentile: Percentile): map<string, real> {
    map c | c in times && |times[c]| > minTraversals && HasObservation(times[c])
      :: percentile(index, ToReals(times[c]))
  }

  /** Whether the heuristic considers the connection at all. */
  predicate RedLightCandidate(times: seq<int>) {
    MIN_RECORDED_TRAVERSALS_FOR_TL_HEURISTIC < |times| <= MAX_RECORDED_TRAVERSAL_FOR_TL_HEURISTIC
  }

  /** Whether the spread between 60th and 5th percentile is within one to
      three red-light durations. */
  predicate RedLightSpread(times: seq<int>, duration: int, percentile: Percentile) {
    var spread := percentile(60, ToReals(times)) - percentile(5, ToReals(times));
    var diff := if spread < 0.0 then -spread else spread;
    duration as real <= diff <= 3.0 * duration as real
  }

  /** updateHeuristicRedLightDurations on values: every connection without
      an entry whose traversal count lies in (10, 400] and whose percentile
      spread is within one to three durations gets the default duration. */
  function RedLightUpdate(red: map<string, int>, times: map<string, seq<int>>, duration: int,
                          percentile: Percentile): map<string, int> {
    red + RedLightsFound(red, times, duration, percentile)
  }

  function RedLightsFound(red: map<string, int>, times: map<string, seq<int>>, duration: int,
                          percentile: Percentile): map<string, int> {
    map c | c in times && c !in red && RedLightCandidate(times[c]) && RedLightSpread(times[c], duration, percentile)
      :: duration
  }

  /** An existing red-light entry is never overwritten, a new one is the
      default duration, and a connection gains one exactly when the
      heuristic holds for it. */
  lemma RedLightUpdateKeeps(red: map<string, int>, times: map<string, seq<int>>, duration: int,
                            percentile: Percentile, c: string)
    ensures var r := RedLightUpdate(red, times, duration, percentile);
      && (c in red ==> c in r && r[c] == red[c])
      && (c !in red ==>
            (c in r <==> c in times && RedLightCandidate(times[c]) && RedLightSpread(times[c], duration, percentile)))
      && (c !in red && c in r ==> r[c] == duration)
  {
  }

  /** The red-light duration counted for a connection (`getOrDefault(c, 0)`). */
  function RedLightOf(red: map<string, int>, c: string): int {
    if c in red then red[c] else 0
  }

  /** computeTemporalThresholds' map: length over (percentile plus
      red-light duration) in seconds. */
  function TemporalThresholds(percentiles: map<string, real>, red: map<string, int>,
                              lengthOf: string -> real): map<string, Option<real>> {
    map c | c in percentiles
      :: Quotient(lengthOf(c), (percentiles[c] + RedLightOf(red, c) as real) / SECOND as real)
  }

  /** The spatial means of the pairs whose temporal mean speed reaches the
      threshold; a non-finite threshold is reached by no finite speed. */
  function SpeedsReaching(pairs: seq<(real, real)>, threshold: Option<real>): (r: seq<real>)
    ensures |r| <= |pairs|
    ensures threshold.None? ==> r == []
  {
    if pairs == [] then []
    else (if threshold.Some? && pairs[0].0 >= threshold.value then [pairs[0].1] else [])
         + SpeedsReaching(pairs[1..], threshold)
  }

  /** A spatial mean passes the filter exactly when its pair reaches the
      threshold. */
  lemma {:induction false} SpeedsReachingSome(pairs: seq<(real, real)>, threshold: Option<real>)
    ensures SpeedsReaching(pairs, threshold) != [] <==>
      threshold.Some? && exists i :: 0 <= i < |pairs| && pairs[i].0 >= threshold.value
  {
    if pairs != [] {
      SpeedsReachingSome(pairs[1..], threshold);
      if threshold.Some? && (exists i :: 0 <= i < |pairs[1..]| && pairs[1..][i].0 >= threshold.value) {
        var i :| 0 <= i < |pairs[1..]| && pairs[1..][i].0 >= threshold.value;
        assert pairs[i + 1].0 >= threshold.value;
      }
      if threshold.Some? && (exists i :: 0 <= i < |pairs| && pairs[i].0 >= threshold.value) {
        var i :| 0 <= i < |pairs| && pairs[i].0 >= threshold.value;
        if i > 0 {
          assert pairs[1..][i - 1].0 >= threshold.value;
        }
      }
    }
  }

  /** The temporal threshold is unboxed for every pair of a connection with
      enough pairs: a connection without one makes it throw. */
  predicate SpatialThrows(temporal: map<string, Option<real>>, meanSpeeds: map<string, seq<(real, real)>>,
                          minTraversals: int) {
    exists c :: c in meanSpeeds && |meanSpeeds[c]| > minTraversals && meanSpeeds[c] != [] && c !in temporal
  }

  /** computeSpatialThresholds: the 5th percentile of the spatial means
      that reach the connection's temporal threshold, for connections with
      more than `minTraversals` pairs. */
  function SpatialThresholds(temporal: map<string, Option<real>>, meanSpeeds: map<string, seq<(real, real)>>,
                             minTraversals: int, percentile: Percentile): (r: Result<map<string, real>, NullPointer>)
    ensures r.Failure? <==> SpatialThrows(temporal, meanSpeeds, minTraversals)
  {
    if SpatialThrows(temporal, meanSpeeds, minTraversals) then Failure(NullPointerException)
    else Success(map c | c in meanSpeeds && |meanSpeeds[c]| > minTraversals && c in temporal
                         && SpeedsReaching(meanSpeeds[c], temporal[c]) != []
                   :: percentile(5, SpeedsReaching(meanSpeeds[c], temporal[c])))
  }

  /** When the spatial thresholds are computed, each belongs to a
      connection with a finite temporal threshold that some of its
      traversals reach. */
  lemma SpatialNeedsTemporal(temporal: map<string, Option<real>>, meanSpeeds: map<string, seq<(real, real)>>,
                             minTraversals: int, percentile: Percentile, c: string)
    requires SpatialThresholds(temporal, meanSpeeds, minTraversals, percentile).Success?
    requires c in SpatialThresholds(temporal, meanSpeeds, minTraversals, percentile).value
    ensures c in temporal && temporal[c].Some? && c in meanSpeeds && |meanSpeeds[c]| > minTraversals
    ensures exists i :: 0 <= i < |meanSpeeds[c]| && meanSpeeds[c][i].0 >= temporal[c].value
  {
    SpeedsReachingSome(meanSpeeds[c], temporal[c]);
  }

  function Restrict<V>(m: map<string, V>, keys: set<string>): (r: map<string, V>)
    ensures r.Keys == m.Keys * keys
  {
    map c | c in m && c in keys :: m[c]
  }

  /** The pruning in computeThresholds: when the two maps differ in size,
      the connections in only one of them are removed from both. */
  function AgreeOnKeys(temporal: map<string, Option<real>>, spatial: map<string, real>)
    : (map<string, Option<real>>, map<string, real>)
  {
    if |temporal| != |spatial| then (Restrict(temporal, spatial.Keys), Restrict(spatial, temporal.Keys))
    else (temporal, spatial)
  }

  lemma {:induction false} SubsetCardinality(a: set<string>, b: set<string>)
    requires a <= b
    ensures |a| <= |b|
    ensures |a| == |b| ==> a == b
    decreases |b|
  {
    if b != {} {
      var x :| x in b;
      SubsetCardinality(a - {x}, b - {x});
      assert |b - {x}| == |b| - 1;
      if x !in a {
        assert a - {x} == a;
      } else {
        assert |a - {x}| == |a| - 1;
        if |a| == |b| {
          assert a == (a - {x}) + {x};
          assert b == (b - {x}) + {x};
        }
      }
    } else {
      assert a == {};
    }
  }

  /** The size test suffices: whenever the spatial thresholds are computed,
      their keys lie among the temporal ones, so after pruning both maps
      hold exactly the connections that have a spatial threshold, and every
      kept temporal threshold is finite. */
  lemma AgreeOnKeysAgree(temporal: map<string, Option<real>>, meanSpeeds: map<string, seq<(real, real)>>,
                         minTraversals: int, percentile: Percentile)
    requires SpatialThresholds(temporal, meanSpeeds, minTraversals, percentile).Success?
    ensures var spatial := SpatialThresholds(temporal, meanSpeeds, minTraversals, percentile).value;
      var (t, s) := AgreeOnKeys(temporal, spatial);
      && t.Keys == spatial.Keys && s.Keys == spatial.Keys
      && forall c :: c in t ==> t[c].Some?
  {
    var spatial := SpatialThresholds(temporal, meanSpeeds, minTraversals, percentile).value;
    forall c | c in spatial
      ensures c in temporal && temporal[c].Some?
    {
      SpatialNeedsTemporal(temporal, meanSpeeds, minTraversals, percentile, c);
    }
    assert |temporal| == |temporal.Keys|;
    assert |spatial| == |spatial.Keys|;
    SubsetCardinality(spatial.Keys, temporal.Keys);
  }

  /** The finite thresholds of a map, as handed to storage. */
  function FiniteValues(m: map<string, Option<real>>): (r: map<string, real>)
    ensures r.Keys <= m.Keys
    ensures (forall c :: c in m ==> m[c].Some?) ==> r.Keys == m.Keys
  {
    map c | c in m && m[c].Some? :: m[c].value
  }

  /** The whole threshold computation on a snapshot: the red-light map
      after the heuristic, and either the maps handed to `insertThresholds`
      or the exception of a missing temporal threshold. */
  datatype Computation = Computation(red: map<string, int>, inserted: Result<StorageCall, NullPointer>)

  function ComputeThresholdsSpec(red: map<string, int>, data: StorageSnapshot, time: int, duration: int,
                                 minTraversals: int, lengthOf: string -> real, percentile: Percentile): Computation
  {
    var percentiles := TraversalTimePercentiles(data.traversalTimes, minTraversals, 5, percentile);
    var red' := RedLightUpdate(red, data.traversalTimes, duration, percentile);
    var temporal := TemporalThresholds(percentiles, red', lengthOf);
    match SpatialThresholds(temporal, data.meanSpeeds, minTraversals, percentile)
    case Failure(e) => Computation(red', Failure(e))
    case Success(spatial) =>
      var (t, s) := AgreeOnKeys(temporal, spatial);
      Computation(red', Success(InsertThresholds(FiniteValues(t), s, time)))
  }

  /** Both maps handed to storage have the same connections, each of which
      has a finite temporal threshold, a spatial threshold, more than
      `minTraversals` traversal times and an observation above 5 ns. */
  lemma InsertedThresholdsAgree(red: map<string, int>, data: StorageSnapshot, time: int, duration: int,
                                minTraversals: int, lengthOf: string -> real, percentile: Percentile)
    requires ComputeThresholdsSpec(red, data, time, duration, minTraversals, lengthOf, percentile).inserted.Success?
    ensures var call := ComputeThresholdsSpec(red, data, time, duration, minTraversals, lengthOf, percentile).inserted.value;
      && call.InsertThresholds?
      && call.temporal.Keys == call.spatial.Keys
      && forall c :: c in call.temporal ==>
           c in data.traversalTimes && |data.traversalTimes[c]| > minTraversals && HasObservation(data.traversalTimes[c])
  {
    var percentiles := TraversalTimePercentiles(data.traversalTimes, minTraversals, 5, percentile);
    var red' := RedLightUpdate(red, data.traversalTimes, duration, percentile);
    var temporal := TemporalThresholds(percentiles, red', lengthOf);
    AgreeOnKeysAgree(temporal, data.meanSpeeds, minTraversals, percentile);
  }

  /** One connection of the heuristic's pass: it is decided against the
      original map, in which it has an entry exactly when it has one now. */
  lemma RedLightStep(red: map<string, int>, times: map<string, seq<int>>, pending: set<string>, c: string,
                     duration: int, percentile: Percentile)
    requires c in pending && pending <= times.Keys
    ensures var cur := RedLightUpdate(red, Restrict(times, times.Keys - pending), duration, percentile);
      RedLightUpdate(red, Restrict(times, times.Keys - (pending - {c})), duration, percentile)
      == if !RedLightCandidate(times[c]) || c in cur then cur
         else if RedLightSpread(times[c], duration, percentile) then cur[c := duration]
         else cur
  {
    var done := Restrict(times, times.Keys - pending);
    assert Restrict(times, times.Keys - (pending - {c})) == done[c := times[c]];
    RedLightsFoundStep(red, done, c, times[c], duration, percentile);
    UnionUpdate(red, RedLightsFound(red, done, duration, percentile), c, duration);
  }

  lemma RedLightsFoundStep(red: map<string, int>, done: map<string, seq<int>>, c: string, times: seq<int>,
                           duration: int, percentile: Percentile)
    requires c !in done
    ensures var found := RedLightsFound(red, done, duration, percentile);
      RedLightsFound(red, done[c := times], duration, percentile)
      == if c !in red && RedLightCandidate(times) && RedLightSpread(times, duration, percentile)
         then found[c := duration] else found
  {
  }

  lemma UnionUpdate<V>(a: map<string, V>, b: map<string, V>, c: string, v: V)
    ensures (a + b)[c := v] == a + b[c := v]
  {
  }

  class ThresholdProcessor {
    /** The trigger clock of the processor's TimeBasedProcessor base. */
    const clock: TimeBasedProcessor
    const defaultRedLightDuration: int
    const minTraversalsForThreshold: int
    const recomputeAllRtsmWithNewThresholds: bool
    /** Estimated red-light durations per connection. */
    var redLightDurations: map<string, int>
    var storageCalls: seq<StorageCall>

    /** The configuration defaults: 45 s red light, more than 10 traversals,
        no recomputation of every RTSM on each trigger. */
    constructor (clock: TimeBasedProcessor)
      ensures this.clock == clock
      ensures defaultRedLightDuration == DEFAULT_RED_LIGHT_DURATION
      ensures minTraversalsForThreshold == DEFAULT_MIN_TRAVERSALS_FOR_THRESHOLD
      ensures !recomputeAllRtsmWithNewThresholds
      ensures redLightDurations == map[] && storageCalls == []
    {
      this.clock := clock;
      defaultRedLightDuration := DEFAULT_RED_LIGHT_DURATION;
      minTraversalsForThreshold := DEFAULT_MIN_TRAVERSALS_FOR_THRESHOLD;
      recomputeAllRtsmWithNewThresholds := false;
      redLightDurations := map[];
      storageCalls := [];
    }

    /** updateHeuristicRedLightDurations: one pass over the connections;
        each is decided on its own, so the map order does not matter. */
    method UpdateHeuristicRedLightDurations(times: map<string, seq<int>>, percentile: Percentile)
      modifies this`redLightDurations
      ensures redLightDurations == RedLightUpdate(old(redLightDurations), times, defaultRedLightDuration, percentile)
    {
      ghost var red0 := redLightDurations;
      var pending := times.Keys;
      while pending != {}
        invariant pending <= times.Keys
        invariant redLightDurations == RedLightUpdate(red0, Restrict(times, times.Keys - pending),
                                                      defaultRedLightDuration, percentile)
        decreases |pending|
      {
        var c :| c in pending;
        RedLightStep(red0, times, pending, c, defaultRedLightDuration, percentile);
        if !RedLightCandidate(times[c]) || c in redLightDurations {
        } else if RedLightSpread(times[c], defaultRedLightDuration, percentile) {
          redLightDurations := redLightDurations[c := defaultRedLightDuration];
        }
        pending := pending - {c};
      }
      assert Restrict(times, times.Keys - pending) == times;
    }

    /** computeThresholds: nothing at all without a positive trigger
        interval; otherwise the red-light heuristic runs, and the pruned
        threshold maps are inserted unless the spatial computation throws. */
    method ComputeThresholds(time: int, data: StorageSnapshot, lengthOf: string -> real, percentile: Percentile)
      returns (completed: bool)
      modifies this`redLightDurations, this`storageCalls
      ensures clock.triggerInterval <= 0 ==>
        completed && redLightDurations == old(redLightDurations) && storageCalls == old(storageCalls)
      ensures clock.triggerInterval > 0 ==>
        var r := ComputeThresholdsSpec(old(redLightDurations), data, time, defaultRedLightDuration,
                                       minTraversalsForThreshold, lengthOf, percentile);
        && redLightDurations == r.red
        && completed == r.inserted.Success?
        && storageCalls == old(storageCalls) + (if completed then [r.inserted.value] else [])
    {
      if clock.triggerInterval <= 0 {
        return true;
      }
      var percentiles := TraversalTimePercentiles(data.traversalTimes, minTraversalsForThreshold, 5, percentile);
      UpdateHeuristicRedLightDurations(data.traversalTimes, percentile);
      var temporal := TemporalThresholds(percentiles, redLightDurations, lengthOf);
      var spatial := SpatialThresholds(temporal, data.meanSpeeds, minTraversalsForThreshold, percentile);
      if spatial.Failure? {
        return false;
      }
      var (t, s) := AgreeOnKeys(temporal, spatial.value);
      storageCalls := storageCalls + [InsertThresholds(FiniteValues(t), s, time)];
      completed := true;
    }

    /** triggerEvent: compute the thresholds and, when configured,
        recompute every stored RTSM with them. */
    method TriggerEvent(time: int, data: StorageSnapshot, lengthOf: string -> real, percentile: Percentile)
      returns (completed: bool)
      modifies this`redLightDurations, this`storageCalls
      ensures clock.triggerInterval <= 0 ==>
        completed && redLightDurations == old(redLightDurations)
        && storageCalls == old(storageCalls) + (if recomputeAllRtsmWithNewThresholds then [RecomputeAllRtsm] else [])
      ensures clock.triggerInterval > 0 ==>
        var r := ComputeThresholdsSpec(old(redLightDurations), data, time, defaultRedLightDuration,
                                       minTraversalsForThreshold, lengthOf, percentile);
        && redLightDurations == r.red
        && completed == r.inserted.Success?
        && storageCalls == old(storageCalls)
             + (if completed then [r.inserted.value] else [])
             + (if completed && recomputeAllRtsmWithNewThresholds then [RecomputeAllRtsm] else [])
    {
      completed := ComputeThresholds(time, data, lengthOf, percentile);
      if completed && recomputeAllRtsmWithNewThresholds {
        storageCalls := storageCalls + [RecomputeAllRtsm];
      }
    }

    /** shutdown: a last trigger unless the processor was triggered at the
        shutdown time already (or never triggers), then every stored RTSM
        is recomputed and the red-light estimates are dropped. A throwing
        last trigger ends the shutdown there. */
    method Shutdown(shutdownTime: int, data: StorageSnapshot, lengthOf: string -> real, percentile: Percentile)
      returns (completed: bool)
      modifies this`redLightDurations, this`storageCalls
      ensures !(clock.triggerInterval > 0 && clock.previousTriggerTime != shutdownTime) ==>
        completed && redLightDurations == map[] && storageCalls == old(storageCalls) + [RecomputeAllRtsm]
      ensures clock.triggerInterval > 0 && clock.previousTriggerTime != shutdownTime ==>
        var r := ComputeThresholdsSpec(old(redLightDurations), data, shutdownTime, defaultRedLightDuration,
                                       minTraversalsForThreshold, lengthOf, percentile);
        var rtsm := if recomputeAllRtsmWithNewThresholds then [RecomputeAllRtsm] else [];
        && completed == r.inserted.Success?
        && (completed ==>
              redLightDurations == map[]
              && storageCalls == old(storageCalls) + [r.inserted.value] + rtsm + [RecomputeAllRtsm])
        && (!completed ==>
              redLightDurations == r.red && storageCalls == old(storageCalls))
    {
      if clock.triggerInterval > 0 && clock.previousTriggerTime != shutdownTime {
        completed := TriggerEvent(shutdownTime, data, lengthOf, percentile);
        if !completed {
          return;
        }
      }
      storageCalls := storageCalls + [RecomputeAllRtsm];
      redLightDurations := map[];
      completed := true;
    }
  }
}
