/** Floating-car records: the immutable snapshot a vehicle takes of its own
    state (FxdRecord and its perception-carrying extension FcdRecord), the
    builder that assembles one, and the byte-size estimate that feeds the
    V2X payload length. */
module Records {
  import opened Wrappers

  /** A WGS84 point; only equality and the foreign distance function are used. */
  datatype GeoPoint = GeoPoint(latitude: real, longitude: real, altitude: real)

  /** A vehicle seen by the perception module, identified by its id. */
  datatype VehicleObject = VehicleObject(id: string)

  /** An FcdRecord: the six final FxdRecord fields (time in ns, position,
      connection, speed in m/s, offset in m driven on the connection, heading
      in degrees) plus the list of perceived vehicles, which is `None` (null)
      when perception is disabled. */
  datatype FcdRecord = FcdRecord(
    timeStamp: int,
    position: GeoPoint,
    connectionId: string,
    speed: real,
    offset: real,
    heading: real,
    perceivedVehicles: Option<seq<VehicleObject>>)

  /** Byte estimates of the FxdRecord fields. */
  const TIME_STAMP_BYTES := 4
  const POSITION_BYTES := 8 * 3
  const CONNECTION_ID_BYTES := 10
  const SPEED_BYTES := 8
  const OFFSET_BYTES := 8
  const HEADING_BYTES := 8
  /** Byte estimate of one perceived vehicle. */
  const PERCEIVED_VEHICLE_BYTES := 50

  /** FxdRecord.calculateRecordSize: a constant, whatever the field values. */
  function BaseRecordSize(): (n: int)
    ensures n == 62
  {
    TIME_STAMP_BYTES + POSITION_BYTES + CONNECTION_ID_BYTES + SPEED_BYTES + OFFSET_BYTES + HEADING_BYTES
  }

  datatype NullPointer = NullPointerException

  /** FcdRecord.calculateRecordSize as written: the perceived-vehicle list is
      dereferenced unconditionally, so a record built with perception
      disabled makes it throw. */
  function RecordSizeAsWritten(r: FcdRecord): (n: Result<int, NullPointer>)
    ensures n.Failure? <==> r.perceivedVehicles.None?
    ensures n.Success? ==> n.value >= BaseRecordSize()
  {
    match r.perceivedVehicles
    case None => Failure(NullPointerException)
    case Some(vs) => Success(BaseRecordSize() + |vs| * PERCEIVED_VEHICLE_BYTES)
  }

  /** Number of perceived vehicles, a disabled perception counting as none. */
  function PerceivedCount(r: FcdRecord): nat {
    match r.perceivedVehicles
    case None => 0
    case Some(vs) => |vs|
  }

  /** FcdRecord.calculateRecordSize with a null perception list counted as
      empty, which is what the estimate evidently intends. */
  function RecordSize(r: FcdRecord): (n: int)
    ensures n >= BaseRecordSize()
    ensures (n - BaseRecordSize()) % PERCEIVED_VEHICLE_BYTES == 0
    ensures n == BaseRecordSize() <==> PerceivedCount(r) == 0
  {
    BaseRecordSize() + PerceivedCount(r) * PERCEIVED_VEHICLE_BYTES
  }

  /** Wherever the written size is defined, the corrected one agrees with it. */
  lemma RecordSizeAgrees(r: FcdRecord)
    ensures RecordSizeAsWritten(r).Success? ==> RecordSizeAsWritten(r).value == RecordSize(r)
    ensures RecordSizeAsWritten(r).Failure? ==> RecordSize(r) == BaseRecordSize()
  {
  }

  /** The record every vehicle sends with perception left at its default
      (disabled): the written size throws, the corrected size is 62. */
  lemma DefaultRecordSizeFails(time: int, pos: GeoPoint, connection: string)
    ensures RecordSizeAsWritten(FcdRecord(time, pos, connection, 0.0, 0.0, 0.0, None)).Failure?
    ensures RecordSize(FcdRecord(time, pos, connection, 0.0, 0.0, 0.0, None)) == 62
  {
  }

  /** FcdRecord.Builder together with its AbstractRecordBuilder base: the
      fields are set at construction or by the `With*` methods, each of which
      returns the builder itself for chaining. */
  class RecordBuilder {
    var timeStamp: int
    var position: GeoPoint
    var connectionId: string
    var speed: real
    var offset: real
    var heading: real
    var perceivedVehicles: Option<seq<VehicleObject>>

    /** The record `Build` would return now. */
    function Current(): FcdRecord
      reads this
    {
      FcdRecord(timeStamp, position, connectionId, speed, offset, heading, perceivedVehicles)
    }

    /** Minimal constructor: speed, offset and heading stay 0, no perception. */
    constructor (timeStamp: int, position: GeoPoint, connectionId: string)
      ensures Current() == FcdRecord(timeStamp, position, connectionId, 0.0, 0.0, 0.0, None)
    {
      this.timeStamp := timeStamp;
      this.position := position;
      this.connectionId := connectionId;
      speed, offset, heading := 0.0, 0.0, 0.0;
      perceivedVehicles := None;
    }

    /** Copy constructor: every field, perceived vehicles included. */
    constructor FromRecord(r: FcdRecord)
      ensures Current() == r
    {
      timeStamp := r.timeStamp;
      position := r.position;
      connectionId := r.connectionId;
      speed := r.speed;
      offset := r.offset;
      heading := r.heading;
      perceivedVehicles := r.perceivedVehicles;
    }

    method WithOffset(offset: real) returns (self: RecordBuilder)
      modifies this
      ensures self == this
      ensures Current() == old(Current()).(offset := offset)
    {
      this.offset := offset;
      self := this;
    }

    method WithSpeed(speed: real) returns (self: RecordBuilder)
      modifies this
      ensures self == this
      ensures Current() == old(Current()).(speed := speed)
    {
      this.speed := speed;
      self := this;
    }

    method WithHeading(heading: real) returns (self: RecordBuilder)
      modifies this
      ensures self == this
      ensures Current() == old(Current()).(heading := heading)
    {
      this.heading := heading;
      self := this;
    }

    method WithPerceivedVehicles(vehicles: Option<seq<VehicleObject>>) returns (self: RecordBuilder)
      modifies this
      ensures self == this
      ensures Current() == old(Current()).(perceivedVehicles := vehicles)
    {
      perceivedVehicles := vehicles;
      self := this;
    }

    /** build() delegates to internalBuild(), which copies the fields. */
    method Build() returns (r: FcdRecord)
      ensures r.timeStamp == timeStamp && r.position == position && r.connectionId == connectionId
      ensures r.speed == speed && r.offset == offset && r.heading == heading
      ensures r.perceivedVehicles == perceivedVehicles
    {
      r := FcdRecord(timeStamp, position, connectionId, speed, offset, heading, perceivedVehicles);
    }
  }

  /** Round trip: a builder copied from a record builds that record again. */
  method CopyRecord(r: FcdRecord) returns (c: FcdRecord)
    ensures c == r
  {
    var b := new RecordBuilder.FromRecord(r);
    c := b.Build();
  }

  /** The record the transmitter collects: minimal builder, then offset,
      speed and heading in that order. */
  method BuildCollectedRecord(time: int, pos: GeoPoint, connection: string, perceived: Option<seq<VehicleObject>>,
                              offset: real, speed: real, heading: real) returns (r: FcdRecord)
    ensures r == FcdRecord(time, pos, connection, speed, offset, heading, perceived)
  {
    var b := new RecordBuilder(time, pos, connection);
    var _ := b.WithPerceivedVehicles(perceived);
    var _ := b.WithOffset(offset);
    var _ := b.WithSpeed(speed);
    var _ := b.WithHeading(heading);
    r := b.Build();
  }
}
