/** The V2X update a vehicle sends to the server (FxdUpdateMessage, and its
    identical copy FxdUpdate), and the builder that assembles it
    (AbstractUpdateMessageBuilder, and its identical copy
    AbstractUpdateBuilder). Records are held in a TreeMap keyed by time. */
module Messages {
  import opened Wrappers
  import opened SortedMaps
  import opened Records

  /** Message routing: who sent the update and to whom. */
  datatype Routing = Routing(source: string, destination: string)

  /** A built update. Its fields are final; `getRecords` hands out a copy of
      the map, which on values is the map itself. */
  datatype UpdateMessage = UpdateMessage(
    routing: Routing,
    timeStamp: int,
    records: seq<Entry<FcdRecord>>,
    isFinal: bool)

  /** Encoded payload: only its length is modelled. */
  datatype EncodedPayload = EncodedPayload(length: int)

  /** Header, time stamp and isFinal flag. */
  const HEADER_BYTES := 10
  const TIME_STAMP_BYTES := 8
  const FINAL_FLAG_BYTES := 1

  /** Sum of the (corrected) record sizes, in key order. */
  function SizeSum(s: seq<Entry<FcdRecord>>): (n: int)
    ensures n >= BaseRecordSize() * |s|
  {
    if s == [] then 0 else RecordSize(s[0].value) + SizeSum(s[1..])
  }

  lemma {:induction false} SizeSumAppend(s: seq<Entry<FcdRecord>>, t: seq<Entry<FcdRecord>>)
    ensures SizeSum(s + t) == SizeSum(s) + SizeSum(t)
  {
    if s != [] {
      assert (s + t)[1..] == s[1..] + t;
      SizeSumAppend(s[1..], t);
    } else {
      assert s + t == t;
    }
  }

  /** calculateMessageLength, summing the corrected record sizes. */
  function MessageLength(m: UpdateMessage): (n: int)
    ensures n >= HEADER_BYTES + TIME_STAMP_BYTES + FINAL_FLAG_BYTES + BaseRecordSize() * |m.records|
  {
    HEADER_BYTES + TIME_STAMP_BYTES + FINAL_FLAG_BYTES + SizeSum(m.records)
  }

  /** The sum as written: the first record whose size throws makes the whole
      length computation throw. */
  function SizeSumAsWritten(s: seq<Entry<FcdRecord>>): (n: Result<int, NullPointer>)
    ensures n.Failure? <==> exists i :: 0 <= i < |s| && s[i].value.perceivedVehicles.None?
    ensures n.Success? ==> n.value == SizeSum(s)
  {
    if s == [] then Success(0)
    else
      var rest := SizeSumAsWritten(s[1..]);
      assert forall i :: 1 <= i < |s| ==> s[i] == s[1..][i - 1];
      match RecordSizeAsWritten(s[0].value)
      case Failure(e) => Failure(e)
      case Success(k) =>
        RecordSizeAgrees(s[0].value);
        if rest.Failure? then rest else Success(k + rest.value)
  }

  /** calculateMessageLength as written. */
  function MessageLengthAsWritten(m: UpdateMessage): (n: Result<int, NullPointer>)
    ensures n.Failure? <==> exists i :: 0 <= i < |m.records| && m.records[i].value.perceivedVehicles.None?
    ensures n.Success? ==> n.value == MessageLength(m)
  {
    var sum := SizeSumAsWritten(m.records);
    if sum.Failure? then Failure(sum.error)
    else Success(HEADER_BYTES + TIME_STAMP_BYTES + FINAL_FLAG_BYTES + sum.value)
  }

  /** getPayLoad: an encoded payload as long as the message length estimate. */
  function PayLoad(m: UpdateMessage): (p: EncodedPayload)
    ensures p.length == MessageLength(m)
    ensures p.length >= 19
  {
    EncodedPayload(MessageLength(m))
  }

  /** Appending records adds exactly their sizes to the message length. */
  lemma MessageLengthAppend(m: UpdateMessage, more: seq<Entry<FcdRecord>>)
    ensures MessageLength(m.(records := m.records + more)) == MessageLength(m) + SizeSum(more)
  {
    SizeSumAppend(m.records, more);
  }

  /** The update builder: routing and time stamp fixed at construction, the
      records a TreeMap that `AddRecords` merges into. */
  class UpdateBuilder {
    const routing: Routing
    const timeStamp: int
    var records: seq<Entry<FcdRecord>>
    var isFinal: bool

    predicate Valid()
      reads this
    {
      Sorted(records)
    }

    /** A fresh builder: no records, not final. */
    constructor (routing: Routing, timeStamp: int)
      ensures Valid()
      ensures this.routing == routing && this.timeStamp == timeStamp
      ensures records == [] && !isFinal
    {
      this.routing := routing;
      this.timeStamp := timeStamp;
      records := [];
      isFinal := false;
    }

    /** addRecords: putAll, so the key set becomes the union and on a shared
        time stamp the given record wins. */
    method AddRecords(rs: seq<Entry<FcdRecord>>) returns (self: UpdateBuilder)
      requires Valid() && Sorted(rs)
      modifies this
      ensures Valid()
      ensures self == this
      ensures records == PutAll(old(records), rs)
      ensures ToMap(records) == ToMap(old(records)) + ToMap(rs)
      ensures ToMap(records).Keys == ToMap(old(records)).Keys + ToMap(rs).Keys
      ensures isFinal == old(isFinal)
    {
      records := PutAll(records, rs);
      self := this;
    }

    /** isFinal(): sets the flag and nothing else, so a second call is a no-op. */
    method IsFinal() returns (self: UpdateBuilder)
      requires Valid()
      modifies this
      ensures Valid()
      ensures self == this
      ensures isFinal && records == old(records)
    {
      isFinal := true;
      self := this;
    }

    /** build() delegates to internalBuild(), which wraps the current fields. */
    method Build() returns (m: UpdateMessage)
      requires Valid()
      ensures Sorted(m.records) && m.records == records
      ensures m.routing == routing && m.timeStamp == timeStamp && m.isFinal == isFinal
    {
      m := UpdateMessage(routing, timeStamp, records, isFinal);
    }
  }

  /** A builder given one batch of records builds a message holding exactly
      that batch, final only when asked. */
  method BuildUpdate(routing: Routing, time: int, rs: seq<Entry<FcdRecord>>, final: bool) returns (m: UpdateMessage)
    requires Sorted(rs)
    ensures m.records == rs
    ensures m.routing == routing && m.timeStamp == time && m.isFinal == final
  {
    PutAllAbove([], rs);
    var b := new UpdateBuilder(routing, time);
    var _ := b.AddRecords(rs);
    if final {
      var _ := b.IsFinal();
    }
    m := b.Build();
  }
}
