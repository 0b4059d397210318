/** The vehicle side (FxdTransmitterApp with its FCD specialisation): on every
    vehicle update a record is collected into a time-keyed buffer at most
    once per collection interval, and the buffer is sent to the server as
    one update once its oldest record is a transmission interval old. The
    record offset is the distance driven since entering the connection,
    counted from the vehicle's signed distance to the connection's start
    node. The geodesic distance and azimuth are foreign code and are
    parameters; the cell module is an outbox of sent updates. */
module Transmitters {
  import opened Wrappers
  import opened SortedMaps
  import opened Records
  import opened Messages

  type Distance = (GeoPoint, GeoPoint) -> real

  /** CFxdTransmitterApp defaults: collect every second, send every 30 s (ns). */
  const DEFAULT_COLLECTION_INTERVAL: int := 1_000_000_000
  const DEFAULT_TRANSMISSION_INTERVAL: int := 30 * 1_000_000_000
  const DEFAULT_RECEIVER_ID: string := "server_0"

  /** Heading difference (degrees) below which the vehicle is taken to face
      the start node, i.e. to be before it. */
  const FACING_START_DEGREES: real := 120.0

  /** The vehicle's road position: the connection and its start node. */
  datatype RoadPosition = RoadPosition(connectionId: string, startNode: GeoPoint)

  /** The part of VehicleData the transmitter reads. */
  datatype VehicleData = VehicleData(
    time: int,
    position: GeoPoint,
    roadPosition: Option<RoadPosition>,
    speed: real,
    heading: real,
    distanceDriven: real)

  function Abs(x: real): real {
    if x < 0.0 then -x else x
  }

  /** The distance to the start node, negated when the start node lies
      ahead (the azimuth towards it is within 120 degrees of the heading). */
  function SignedStartDistance(dist: real, headingToStart: real, heading: real): (d: real)
    ensures Abs(d) == Abs(dist)
    ensures dist > 0.0 ==> (d < 0.0 <==> Abs(headingToStart - heading) < FACING_START_DEGREES)
  {
    if Abs(headingToStart - heading) < FACING_START_DEGREES then -dist else dist
  }

  /** Record keys at least `interval` apart, in order. */
  predicate Spaced(s: seq<Entry<FcdRecord>>, interval: int) {
    forall i :: 0 < i < |s| ==> s[i].key - s[i - 1].key >= interval
  }

  /** handleRecordCollection's guard. */
  predicate Collects(buffer: seq<Entry<FcdRecord>>, currentTime: int, collectionInterval: int) {
    buffer == [] || currentTime - buffer[|buffer| - 1].key >= collectionInterval
  }

  /** handleUpdateTransmission's guard. */
  predicate Transmits(buffer: seq<Entry<FcdRecord>>, currentTime: int, transmissionInterval: int) {
    buffer != [] && currentTime - buffer[0].key >= transmissionInterval
  }

  /** With a positive collection interval a collected record lands behind
      every buffered one, so the buffer stays sorted and spaced. */
  lemma CollectAppends(buffer: seq<Entry<FcdRecord>>, currentTime: int, collectionInterval: int, r: FcdRecord)
    requires Sorted(buffer) && Spaced(buffer, collectionInterval) && collectionInterval > 0
    requires Collects(buffer, currentTime, collectionInterval)
    ensures Put(buffer, currentTime, r) == buffer + [Entry(currentTime, r)]
    ensures Spaced(buffer + [Entry(currentTime, r)], collectionInterval)
  {
    PutAbove(buffer, currentTime, r);
  }

  /** The offset bookkeeping of calcOffsetBasedOnDistanceDriven: the
      connection of the previous collected sample, the signed distance to
      its start node and the distance driven when it was entered, negated. */
  datatype OffsetState = OffsetState(previousConnectionId: Option<string>,
                                     distanceFromStart: real, distanceDrivenOffset: real)

  /** The bookkeeping after a sample on `road`: reset on a new connection,
      kept on the same one. */
  function NextOffsetState(s: OffsetState, data: VehicleData, road: RoadPosition,
                           distance: Distance, azimuth: Distance): OffsetState
  {
    if s.previousConnectionId == Some(road.connectionId) then s
    else OffsetState(Some(road.connectionId),
                     SignedStartDistance(distance(road.startNode, data.position),
                                         azimuth(data.position, road.startNode), data.heading),
                     -data.distanceDriven)
  }

  /** The offset reported for a sample under the (already advanced) bookkeeping. */
  function OffsetOf(s: OffsetState, data: VehicleData): real {
    data.distanceDriven + s.distanceDrivenOffset + s.distanceFromStart
  }

  /** The first sample on a connection reports the signed distance to its
      start node, and each later sample on the same connection adds exactly
      the distance driven since the earlier one. */
  lemma OffsetFollowsDistanceDriven(s: OffsetState, d1: VehicleData, d2: VehicleData, road: RoadPosition,
                                    distance: Distance, azimuth: Distance)
    requires s.previousConnectionId != Some(road.connectionId)
    ensures var s1 := NextOffsetState(s, d1, road, distance, azimuth);
      && OffsetOf(s1, d1) == s1.distanceFromStart
      && s1.distanceFromStart == SignedStartDistance(distance(road.startNode, d1.position),
                                                     azimuth(d1.position, road.startNode), d1.heading)
      && var s2 := NextOffsetState(s1, d2, road, distance, azimuth);
         OffsetOf(s2, d2) == OffsetOf(s1, d1) + (d2.distanceDriven - d1.distanceDriven)
  {
  }

  /** The buffer left by handleUpdateTransmission. */
  function AfterTransmission(buffer: seq<Entry<FcdRecord>>, currentTime: int, transmissionInterval: int): seq<Entry<FcdRecord>> {
    if Transmits(buffer, currentTime, transmissionInterval) then [] else buffer
  }

  class FxdTransmitter {
    /** Routing to the configured receiver. */
    const routing: Routing
    const collectionInterval: int
    const transmissionInterval: int
    /** CFcdTransmitterApp.includePerceptionData. */
    const includePerceptionData: bool
    const distance: Distance
    /** GeoUtils.azimuth(from, to), in degrees. */
    const azimuth: Distance

    var recordBuffer: seq<Entry<FcdRecord>>
    /** The connection of the previous collected sample (`None` is null). */
    var previousConnectionId: Option<string>
    var distanceFromStart: real
    var distanceDrivenOffset: real
    /** The updates handed to the cell module, in order. */
    var sent: seq<UpdateMessage>

    /** The buffer is a TreeMap and, with a positive collection interval,
        its records are a collection interval apart. */
    predicate Valid()
      reads this
    {
      Sorted(recordBuffer) && (collectionInterval > 0 ==> Spaced(recordBuffer, collectionInterval))
    }

    /** The three offset fields as one value. */
    function Offsets(): OffsetState
      reads this
    {
      OffsetState(previousConnectionId, distanceFromStart, distanceDrivenOffset)
    }

    constructor (routing: Routing, collectionInterval: int, transmissionInterval: int,
                 includePerceptionData: bool, distance: Distance, azimuth: Distance)
      ensures Valid()
      ensures this.routing == routing && this.collectionInterval == collectionInterval
      ensures this.transmissionInterval == transmissionInterval && this.includePerceptionData == includePerceptionData
      ensures this.distance == distance && this.azimuth == azimuth
      ensures recordBuffer == [] && previousConnectionId == None && sent == []
    {
      this.routing := routing;
      this.collectionInterval := collectionInterval;
      this.transmissionInterval := transmissionInterval;
      this.includePerceptionData := includePerceptionData;
      this.distance := distance;
      this.azimuth := azimuth;
      recordBuffer := [];
      previousConnectionId := None;
      distanceFromStart := 0.0;
      distanceDrivenOffset := 0.0;
      sent := [];
    }

    /** calcOffsetBasedOnDistanceDriven: on a new connection the signed
        distance to its start node is remembered and the distance driven is
        counted from now on, so the first offset on a connection is that
        signed distance and every later one adds the distance driven since. */
    method CalcOffset(data: VehicleData, road: RoadPosition) returns (offset: real)
      modifies this`previousConnectionId, this`distanceFromStart, this`distanceDrivenOffset
      ensures Offsets() == NextOffsetState(old(Offsets()), data, road, distance, azimuth)
      ensures offset == OffsetOf(Offsets(), data)
    {
      if previousConnectionId != Some(road.connectionId) {
        previousConnectionId := Some(road.connectionId);
        distanceFromStart := distance(road.startNode, data.position);
        var headingStart := azimuth(data.position, road.startNode);
        if Abs(headingStart - data.heading) < FACING_START_DEGREES {
          distanceFromStart := -distanceFromStart;
        }
        distanceDrivenOffset := -data.distanceDriven;
      }
      offset := data.distanceDriven + distanceDrivenOffset + distanceFromStart;
    }

    /** handleUpdateTransmission: a non-final update carrying the whole
        buffer is sent, and the buffer cleared, once the oldest record is a
        transmission interval old. */
    method HandleUpdateTransmission(currentTime: int)
      requires Valid()
      modifies this`recordBuffer, this`sent
      ensures Valid()
      ensures Transmits(old(recordBuffer), currentTime, transmissionInterval) ==>
        recordBuffer == [] && sent == old(sent) + [UpdateMessage(routing, currentTime, old(recordBuffer), false)]
      ensures !Transmits(old(recordBuffer), currentTime, transmissionInterval) ==>
        recordBuffer == old(recordBuffer) && sent == old(sent)
    {
      if recordBuffer != [] && currentTime - recordBuffer[0].key >= transmissionInterval {
        var update := BuildUpdate(routing, currentTime, recordBuffer, false);
        sent := sent + [update];
        recordBuffer := [];
      }
    }

    /** handleRecordCollection: when the newest buffered record is a
        collection interval old (or there is none), a record with the
        computed offset, the speed and the heading is put at the current
        time; otherwise nothing changes, the offset bookkeeping included. */
    method HandleRecordCollection(data: VehicleData, road: RoadPosition,
                                  perceived: seq<VehicleObject>, currentTime: int)
      requires Valid()
      modifies this`recordBuffer, this`previousConnectionId, this`distanceFromStart, this`distanceDrivenOffset
      ensures Valid()
      ensures !Collects(old(recordBuffer), currentTime, collectionInterval) ==>
        recordBuffer == old(recordBuffer) && Offsets() == old(Offsets())
      ensures Collects(old(recordBuffer), currentTime, collectionInterval) ==>
        && Offsets() == NextOffsetState(old(Offsets()), data, road, distance, azimuth)
        && recordBuffer == Put(old(recordBuffer), currentTime,
             FcdRecord(data.time, data.position, road.connectionId, data.speed,
                       OffsetOf(Offsets(), data), data.heading,
                       if includePerceptionData then Some(perceived) else None))
    {
      if recordBuffer == [] || currentTime - recordBuffer[|recordBuffer| - 1].key >= collectionInterval {
        var offset := CalcOffset(data, road);
        var record := BuildCollectedRecord(data.time, data.position, road.connectionId,
                                           if includePerceptionData then Some(perceived) else None,
                                           offset, data.speed, data.heading);
        if collectionInterval > 0 {
          CollectAppends(recordBuffer, currentTime, collectionInterval, record);
        }
        recordBuffer := Put(recordBuffer, currentTime, record);
      }
    }

    /** onVehicleUpdated: nothing without a road position; otherwise the
        transmission check first and the collection second, so a record
        collected in the step of a transmission starts the fresh buffer. */
    method OnVehicleUpdated(data: VehicleData, perceived: seq<VehicleObject>)
      requires Valid()
      modifies this
      ensures Valid()
      ensures data.roadPosition.None? ==> unchanged(this)
      ensures data.roadPosition.Some? ==>
        var road := data.roadPosition.value;
        var afterTx := AfterTransmission(old(recordBuffer), data.time, transmissionInterval);
        && sent == old(sent) + (if Transmits(old(recordBuffer), data.time, transmissionInterval)
                                then [UpdateMessage(routing, data.time, old(recordBuffer), false)] else [])
        && (if Collects(afterTx, data.time, collectionInterval) then
              && Offsets() == NextOffsetState(old(Offsets()), data, road, distance, azimuth)
              && recordBuffer == Put(afterTx, data.time,
                   FcdRecord(data.time, data.position, road.connectionId, data.speed,
                             OffsetOf(Offsets(), data), data.heading,
                             if includePerceptionData then Some(perceived) else None))
            else recordBuffer == afterTx && Offsets() == old(Offsets()))
      ensures data.roadPosition.Some? && Transmits(old(recordBuffer), data.time, transmissionInterval) ==>
        |recordBuffer| == 1 && recordBuffer[0].key == data.time
    {
      if data.roadPosition.None? {
        return;
      }
      var currentTime := data.time;
      HandleUpdateTransmission(currentTime);
      HandleRecordCollection(data, data.roadPosition.value, perceived, currentTime);
    }

    /** onShutdown: a non-empty buffer leaves as one final update; the
        buffer itself is not cleared. */
    method OnShutdown(now: int)
      requires Valid()
      modifies this`sent
      ensures Valid()
      ensures old(recordBuffer) != [] ==> sent == old(sent) + [UpdateMessage(routing, now, recordBuffer, true)]
      ensures old(recordBuffer) == [] ==> sent == old(sent)
    {
      if recordBuffer != [] {
        var update := BuildUpdate(routing, now, recordBuffer, true);
        sent := sent + [update];
      }
    }
  }
}
