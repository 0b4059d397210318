/** The write-behind buffer of the server (FcdWriterProcessor): the records
    of every received update are appended to their sender's list, and on
    each trigger and at shutdown the whole buffer is handed to storage once
    and emptied. Storage is an outbox of the buffers handed over. */
module FcdWriters {
  import opened SortedMaps
  import opened Records
  import opened Messages
  import opened TimeBasedProcessors

  type Buffer = map<string, seq<FcdRecord>>

  /** The sender's list with more records appended, created when absent. */
  function Append(buffer: Buffer, vehicleId: string, records: seq<FcdRecord>): Buffer {
    buffer[vehicleId := (if vehicleId in buffer then buffer[vehicleId] else []) + records]
  }

  /** The buffer built by a run of updates, in arrival order. */
  function BufferOf(updates: seq<UpdateMessage>): Buffer {
    if updates == [] then map[]
    else
      var u := updates[|updates| - 1];
      Append(BufferOf(updates[..|updates| - 1]), u.routing.source, Values(u.records))
  }

  /** Whether one of the updates comes from the vehicle. */
  predicate SentBy(updates: seq<UpdateMessage>, vehicleId: string) {
    exists i :: 0 <= i < |updates| && updates[i].routing.source == vehicleId
  }

  /** The records of the vehicle's updates, update after update, each in
      time-stamp order. */
  function FromSender(updates: seq<UpdateMessage>, vehicleId: string): seq<FcdRecord> {
    if updates == [] then []
    else
      var u := updates[|updates| - 1];
      FromSender(updates[..|updates| - 1], vehicleId) + (if u.routing.source == vehicleId then Values(u.records) else [])
  }

  /** Per vehicle, the buffer holds an entry exactly when the vehicle sent
      one of the updates, and that entry is its records in arrival order:
      no other vehicle's updates reach it. */
  lemma {:induction false} BufferOfPerSender(updates: seq<UpdateMessage>, vehicleId: string)
    ensures vehicleId in BufferOf(updates) <==> SentBy(updates, vehicleId)
    ensures vehicleId in BufferOf(updates) ==> BufferOf(updates)[vehicleId] == FromSender(updates, vehicleId)
  {
    if updates != [] {
      var init := updates[..|updates| - 1];
      var u := updates[|updates| - 1];
      BufferOfPerSender(init, vehicleId);
      if SentBy(init, vehicleId) {
        var i :| 0 <= i < |init| && init[i].routing.source == vehicleId;
        assert updates[i] == init[i];
      }
      if SentBy(updates, vehicleId) && u.routing.source != vehicleId {
        var i :| 0 <= i < |updates| && updates[i].routing.source == vehicleId;
        assert init[i] == updates[i];
      }
      if vehicleId !in BufferOf(init) {
        assert FromSender(init, vehicleId) == [] by {
          FromSenderAbsent(init, vehicleId);
        }
      }
    }
  }

  /** A vehicle that sent none of the updates has no records in them. */
  lemma {:induction false} FromSenderAbsent(updates: seq<UpdateMessage>, vehicleId: string)
    requires !SentBy(updates, vehicleId)
    ensures FromSender(updates, vehicleId) == []
  {
    if updates != [] {
      FromSenderAbsent(updates[..|updates| - 1], vehicleId);
    }
  }

  class FcdWriterProcessor {
    /** The trigger clock of the processor's TimeBasedProcessor base. */
    const clock: TimeBasedProcessor
    var recordBuffer: Buffer
    /** The updates received since the buffer was last handed over. */
    ghost var pending: seq<UpdateMessage>
    /** The buffers handed to storage, in order. */
    var persisted: seq<Buffer>

    /** The buffer is the one the pending updates build. */
    ghost predicate Valid()
      reads this
    {
      recordBuffer == BufferOf(pending)
    }

    constructor (clock: TimeBasedProcessor)
      ensures Valid()
      ensures this.clock == clock && recordBuffer == map[] && pending == [] && persisted == []
    {
      this.clock := clock;
      recordBuffer := map[];
      pending := [];
      persisted := [];
    }

    /** handleUpdate: the update's records, in time-stamp order, go to the
        end of the sender's list; every other list stays as it is. */
    method HandleUpdate(update: UpdateMessage)
      requires Valid()
      modifies this`recordBuffer, this`pending
      ensures Valid() && pending == old(pending) + [update]
      ensures recordBuffer == Append(old(recordBuffer), update.routing.source, Values(update.records))
      ensures forall v :: v != update.routing.source ==>
        (v in recordBuffer <==> v in old(recordBuffer)) && (v in recordBuffer ==> recordBuffer[v] == old(recordBuffer)[v])
    {
      var vehicleId := update.routing.source;
      var recordList := Values(update.records);
      if vehicleId !in recordBuffer {
        assert [] + recordList == recordList;
        recordBuffer := recordBuffer[vehicleId := recordList];
      } else {
        recordBuffer := recordBuffer[vehicleId := recordBuffer[vehicleId] + recordList];
      }
      assert recordBuffer == Append(old(recordBuffer), vehicleId, recordList);
      pending := pending + [update];
      assert pending[..|pending| - 1] == old(pending);
    }

    /** persistRecords: the whole buffer to storage, then emptied. */
    method PersistRecords()
      modifies this`recordBuffer, this`pending, this`persisted
      ensures Valid()
      ensures persisted == old(persisted) + [old(recordBuffer)]
      ensures recordBuffer == map[] && pending == []
    {
      persisted := persisted + [recordBuffer];
      recordBuffer := map[];
      pending := [];
    }

    /** triggerEvent: one hand-over, whatever the event time. */
    method TriggerEvent(eventTime: int)
      modifies this`recordBuffer, this`pending, this`persisted
      ensures Valid()
      ensures persisted == old(persisted) + [old(recordBuffer)]
      ensures recordBuffer == map[] && pending == []
    {
      PersistRecords();
    }

    /** shutdown: the final hand-over. */
    method Shutdown(shutdownTime: int)
      modifies this`recordBuffer, this`pending, this`persisted
      ensures Valid()
      ensures persisted == old(persisted) + [old(recordBuffer)]
      ensures recordBuffer == map[] && pending == []
    {
      PersistRecords();
    }
  }
}
