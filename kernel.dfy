/** The server-side kernel (FxdKernel, with the FcdKernel specialisation):
    per-sender record buffers, the list of connections each sender has
    traversed but whose traversal is not yet handed on, the look-back record,
    the registry of time-based processors, and the removal of inactive
    senders. Calls into processors and storage, and events handed to the
    event manager, are recorded in order in `calls` and `scheduled`. */
module Kernel {
  import opened Wrappers
  import opened SortedMaps
  import opened Records
  import opened Messages
  import opened Traversals
  import opened TimeBasedProcessors

  /** Defaults of the receiver configuration: look for inactive senders
      every 30 minutes, and count a sender inactive after 60 minutes. */
  const DEFAULT_UNIT_REMOVAL_INTERVAL: int := 30 * MINUTE
  const DEFAULT_UNIT_EXPIRATION_TIME: int := 60 * MINUTE

  /** Events handed to the event manager. */
  datatype ScheduledEvent =
    | ProcessorEvent(time: int, processorName: string)
    | ExpiredUnitRemovalEvent(time: int)

  /** Events delivered to the kernel: the removal event, or an event whose
      resource is a string (`Some`) or anything else (`None`). */
  datatype Event =
    | ExpiredUnitRemoval(time: int)
    | ResourceEvent(time: int, resource: Option<string>)

  /** Calls from the kernel into processors and storage. */
  datatype Call =
    | HandleUpdate(update: UpdateMessage)                       // every time-based processor
    | OnConnectionTraversal(sender: string, traversal: Traversal) // every traversal-based processor
    | TriggerEvent(processorName: string, time: int)
    | InsertFcdRecords(sender: string, records: seq<FcdRecord>)
    | ShutdownAll(time: int)                                    // every processor

  function BufferOf(m: map<string, seq<Entry<FcdRecord>>>, sender: string): seq<Entry<FcdRecord>> {
    if sender in m then m[sender] else []
  }

  function RouteOf(m: map<string, seq<string>>, sender: string): seq<string> {
    if sender in m then m[sender] else []
  }

  function LookBackOf(m: map<string, FcdRecord>, sender: string): Option<FcdRecord> {
    if sender in m then Some(m[sender]) else None
  }

  /** The look-back map after cutting: only a cut that emitted a traversal
      stores a record. */
  function StoreLookBack(m: map<string, FcdRecord>, sender: string, lookBack: Option<FcdRecord>): map<string, FcdRecord> {
    if lookBack.Some? then m[sender := lookBack.value] else m
  }

  /** Updates of one sender arrive in time order: every new record is newer
      than every buffered one. */
  predicate InOrder(buf: seq<Entry<FcdRecord>>, records: seq<Entry<FcdRecord>>) {
    buf != [] && records != [] ==> buf[|buf| - 1].key < records[0].key
  }

  /** One traversal call per traversal, in order. */
  function TraversalCalls(sender: string, ts: seq<Traversal>): (r: seq<Call>)
    ensures |r| == |ts|
    decreases |ts|
  {
    if ts == [] then [] else TraversalCalls(sender, ts[..|ts| - 1]) + [OnConnectionTraversal(sender, ts[|ts| - 1])]
  }

  lemma TraversalCallsAt(sender: string, ts: seq<Traversal>, i: int)
    requires 0 <= i < |ts|
    ensures TraversalCalls(sender, ts)[i] == OnConnectionTraversal(sender, ts[i])
    decreases |ts|
  {
    if i < |ts| - 1 {
      TraversalCallsAt(sender, ts[..|ts| - 1], i);
    }
  }

  lemma TraversalCallsSnoc(before: seq<Call>, sender: string, ts: seq<Traversal>, t: Traversal)
    ensures before + TraversalCalls(sender, ts + [t]) ==
      (before + TraversalCalls(sender, ts)) + [OnConnectionTraversal(sender, t)]
  {
    assert (ts + [t])[..|ts|] == ts;
  }

  lemma PutTwice<K, V>(m: map<K, V>, k: K, a: V, b: V)
    ensures m[k := a][k := b] == m[k := b]
  {
  }

  /** Forgetting a key forgets what was just stored under it. */
  lemma RemoveAfterPut<V>(m: map<string, V>, k: string, v: V)
    ensures m[k := v] - {k} == m - {k}
  {
  }

  /** Forgetting a sender forgets any look-back just stored for it. */
  lemma RemoveAfterStore(m: map<string, FcdRecord>, sender: string, stored: map<string, FcdRecord>)
    requires exists lookBack :: stored == StoreLookBack(m, sender, lookBack)
    ensures stored - {sender} == m - {sender}
  {
  }

  /** A stored look-back is the one read back; storing nothing keeps the
      one that was there. */
  lemma LookBackStored(m: map<string, FcdRecord>, sender: string, lookBack: Option<FcdRecord>)
    requires lookBack == LookBackOf(m, sender) || lookBack.Some?
    ensures LookBackOf(StoreLookBack(m, sender, lookBack), sender) == lookBack
  {
  }

  lemma StoreLookBackTwice(m: map<string, FcdRecord>, sender: string, lookBack: Option<FcdRecord>, r: FcdRecord)
    ensures StoreLookBack(m, sender, lookBack)[sender := r] == StoreLookBack(m, sender, Some(r))
  {
  }

  /** What the kernel keeps for a sender after an update: the records not
      yet handed on, the remaining route, the look-back, and the traversals
      handed on. */
  datatype SenderOutcome = SenderOutcome(
    buffer: seq<Entry<FcdRecord>>,
    route: seq<string>,
    lookBack: Option<FcdRecord>,
    traversals: seq<Traversal>)

  /** The traversal processing of one update: merge the new records into
      the buffer and cut off every completed traversal. What is left is a
      non-empty, key-sorted buffer on a single connection. */
  function Traverse(buf: seq<Entry<FcdRecord>>, lookBack: Option<FcdRecord>, records: seq<Entry<FcdRecord>>): (o: SenderOutcome)
    requires Sorted(buf) && Sorted(records) && records != []
    ensures o.buffer != [] && Sorted(o.buffer)
    ensures o.route == Route(Conns(o.buffer)) && |o.route| == 1
  {
    var merged := PutAll(buf, records);
    assert merged != [] by {
      assert records[0].key in ToMap(merged);
    }
    var c := Cut(lookBack, merged);
    CutRest(lookBack, merged);
    var rest := merged[c.consumed..];
    RouteSplit(rest);
    SortedSuffix(merged, c.consumed);
    SenderOutcome(rest, [rest[0].value.connectionId], c.lookBack, c.traversals)
  }

  /** Traverse spelled out on the merged buffer and its cut. */
  lemma TraverseUnfold(buf: seq<Entry<FcdRecord>>, lookBack: Option<FcdRecord>, records: seq<Entry<FcdRecord>>)
    requires Sorted(buf) && Sorted(records) && records != []
    ensures var merged := PutAll(buf, records);
      var c := Cut(lookBack, merged);
      var o := Traverse(buf, lookBack, records);
      && c.consumed < |merged|
      && o.buffer == merged[c.consumed..]
      && o.route == [merged[c.consumed].value.connectionId]
      && o.lookBack == c.lookBack
      && o.traversals == c.traversals
  {
    var merged := PutAll(buf, records);
    assert merged != [] by {
      assert records[0].key in ToMap(merged);
    }
    CutRest(lookBack, merged);
  }

  lemma SortedSuffix<V>(s: seq<Entry<V>>, n: nat)
    requires Sorted(s) && n <= |s|
    ensures Sorted(s[n..])
  {
  }

  /** Nothing is lost or reordered: the records of the traversals handed on,
      followed by the records kept, are the buffered records followed by the
      new ones. */
  lemma TraverseKeepsRecords(buf: seq<Entry<FcdRecord>>, lookBack: Option<FcdRecord>, records: seq<Entry<FcdRecord>>)
    requires Sorted(buf) && Sorted(records) && records != []
    requires InOrder(buf, records)
    ensures var o := Traverse(buf, lookBack, records);
      Flatten(o.traversals) + Values(o.buffer) == Values(buf) + Values(records)
  {
    PutAllAbove(buf, records);
    var merged := PutAll(buf, records);
    CutKeepsRecords(lookBack, merged);
    ValuesAppend(buf, records);
  }

  /** The traversals handed on follow the sender's route: one per route
      entry before the current one, each well formed, each linked to the one
      before it by its previous record. */
  lemma TraverseFollowsRoute(buf: seq<Entry<FcdRecord>>, lookBack: Option<FcdRecord>, records: seq<Entry<FcdRecord>>)
    requires Sorted(buf) && Sorted(records) && records != []
    requires InOrder(buf, records)
    ensures var o := Traverse(buf, lookBack, records);
      var route := Extend(Route(Conns(buf)), Conns(records));
      && |o.traversals| == |route| - 1
      && (forall i :: 0 <= i < |o.traversals| ==> o.traversals[i].connectionId == route[i])
      && (forall i :: 0 <= i < |o.traversals| ==> WellFormed(o.traversals[i]))
      && (|o.traversals| > 0 ==> o.traversals[0].previous == lookBack)
      && (forall i :: 0 < i < |o.traversals| ==> o.traversals[i].previous == Some(LastRecord(o.traversals[i - 1])))
  {
    var merged := PutAll(buf, records);
    RouteOfMerge(buf, records);
    assert merged != [] by {
      assert records[0].key in ToMap(merged);
    }
    CutFollowsRoute(lookBack, merged);
    CutTraversalsWellFormed(lookBack, merged);
  }

  /** A sender has a record buffer exactly when it has a route; the buffer
      is non-empty and time-sorted and the route is that of its records. */
  predicate BuffersValid(records: map<string, seq<Entry<FcdRecord>>>, routes: map<string, seq<string>>) {
    && records.Keys == routes.Keys
    && forall s :: s in records ==>
         && records[s] != [] && Sorted(records[s])
         && routes[s] == Route(Conns(records[s]))
  }

  lemma BuffersValidPut(records: map<string, seq<Entry<FcdRecord>>>, routes: map<string, seq<string>>,
                        s: string, buf: seq<Entry<FcdRecord>>, route: seq<string>)
    requires BuffersValid(records, routes)
    requires buf != [] && Sorted(buf) && route == Route(Conns(buf))
    ensures BuffersValid(records[s := buf], routes[s := route])
  {
  }

  lemma BuffersValidRemove(records: map<string, seq<Entry<FcdRecord>>>, routes: map<string, seq<string>>, gone: set<string>)
    requires BuffersValid(records, routes)
    ensures BuffersValid(records - gone, routes - gone)
  {
  }

  /** The loop's account of the traversals: those handed on so far followed
      by those still to come from the records left are all the traversals
      of the merged buffer, and both leave the same records behind. */
  predicate CutSoFar(full: CutResult, emitted: seq<Traversal>, lookBack: Option<FcdRecord>,
                     merged: seq<Entry<FcdRecord>>, rest: seq<Entry<FcdRecord>>)
  {
    var c := Cut(lookBack, rest);
    && full.traversals == emitted + c.traversals
    && full.lookBack == c.lookBack
    && full.consumed <= |merged| && c.consumed <= |rest|
    && merged[full.consumed..] == rest[c.consumed..]
  }

  /** Handing on the leading run keeps the account. */
  lemma CutAdvance(full: CutResult, emitted: seq<Traversal>, lookBack: Option<FcdRecord>,
                   merged: seq<Entry<FcdRecord>>, rest: seq<Entry<FcdRecord>>)
    requires rest != [] && |Route(Conns(rest))| > 1
    requires CutSoFar(full, emitted, lookBack, merged, rest)
    ensures var n := Run(rest);
      && 0 < n < |rest|
      && Route(Conns(rest))[0] == rest[0].value.connectionId
      && Route(Conns(rest))[1..] == Route(Conns(rest[n..]))
      && CutSoFar(full, emitted + [RunTraversal(lookBack, rest, n)], Some(rest[n - 1].value), merged, rest[n..])
  {
    var n := Run(rest);
    RouteLength(rest);
    RouteSplit(rest);
    CutUnfold(full, emitted, lookBack, merged, rest, n);
  }

  lemma CutUnfold(full: CutResult, emitted: seq<Traversal>, lookBack: Option<FcdRecord>,
                  merged: seq<Entry<FcdRecord>>, rest: seq<Entry<FcdRecord>>, n: nat)
    requires n == Run(rest) && 0 < n < |rest|
    requires CutSoFar(full, emitted, lookBack, merged, rest)
    ensures CutSoFar(full, emitted + [RunTraversal(lookBack, rest, n)], Some(rest[n - 1].value), merged, rest[n..])
  {
    var t := RunTraversal(lookBack, rest, n);
    var c := Cut(lookBack, rest);
    var c' := Cut(Some(rest[n - 1].value), rest[n..]);
    assert c.traversals == [t] + c'.traversals;
    assert c.consumed == n + c'.consumed;
    CutRest(Some(rest[n - 1].value), rest[n..]);
    assert rest[c.consumed..] == rest[n..][c'.consumed..];
    assert full.traversals == (emitted + [t]) + c'.traversals;
  }

  /** When the loop stops, the route has one entry and nothing is left to
      cut. */
  lemma CutDone(lookBack: Option<FcdRecord>, buf: seq<Entry<FcdRecord>>)
    requires buf != [] && |Route(Conns(buf))| <= 1
    ensures Route(Conns(buf)) == [buf[0].value.connectionId]
    ensures Cut(lookBack, buf) == CutResult([], lookBack, 0)
  {
    RouteLength(buf);
    RouteSplit(buf);
  }

  /** The sender's records and route after every completed traversal of
      `merged` has been cut off and handed on, and the look-back map and
      the outbox after it. */
  predicate CutHandedOn(lb: map<string, FcdRecord>, calls: seq<Call>, sender: string,
                        merged: seq<Entry<FcdRecord>>, route: seq<string>, rest: seq<Entry<FcdRecord>>,
                        lb': map<string, FcdRecord>, calls': seq<Call>)
  {
    var c := Cut(LookBackOf(lb, sender), merged);
    && c.consumed < |merged|
    && rest == merged[c.consumed..]
    && route == [rest[0].value.connectionId]
    && lb' == StoreLookBack(lb, sender, c.lookBack)
    && calls' == calls + TraversalCalls(sender, c.traversals)
  }

  /** The kernel's maps and outbox after processing an update of `sender`
      for traversals, as Traverse describes it: the sender's buffer, route
      and look-back are replaced and the traversals are handed on in
      order. */
  predicate Traversed(rb: map<string, seq<Entry<FcdRecord>>>, cb: map<string, seq<string>>,
                      lb: map<string, FcdRecord>, calls: seq<Call>,
                      sender: string, records: seq<Entry<FcdRecord>>,
                      rb': map<string, seq<Entry<FcdRecord>>>, cb': map<string, seq<string>>,
                      lb': map<string, FcdRecord>, calls': seq<Call>)
    requires Sorted(BufferOf(rb, sender)) && Sorted(records) && records != []
  {
    var o := Traverse(BufferOf(rb, sender), LookBackOf(lb, sender), records);
    && rb' == rb[sender := o.buffer]
    && cb' == cb[sender := o.route]
    && lb' == StoreLookBack(lb, sender, o.lookBack)
    && calls' == calls + TraversalCalls(sender, o.traversals)
  }

  /** The kernel's maps and outbox after handling an update: the update is
      handed to the time-based processors, processed for traversals as
      Traverse describes, its raw records are stored when so configured,
      and a final update makes the kernel forget its sender. */
  predicate UpdateProcessed(rb: map<string, seq<Entry<FcdRecord>>>, cb: map<string, seq<string>>,
                            lb: map<string, FcdRecord>, calls: seq<Call>,
                            storeRawFcd: bool, update: UpdateMessage,
                            rb': map<string, seq<Entry<FcdRecord>>>, cb': map<string, seq<string>>,
                            lb': map<string, FcdRecord>, calls': seq<Call>)
    requires Sorted(BufferOf(rb, update.routing.source)) && Sorted(update.records) && update.records != []
  {
    var sender := update.routing.source;
    var o := Traverse(BufferOf(rb, sender), LookBackOf(lb, sender), update.records);
    && calls' == calls + [HandleUpdate(update)] + TraversalCalls(sender, o.traversals)
                 + (if storeRawFcd then [InsertFcdRecords(sender, Values(update.records))] else [])
    && (update.isFinal ==>
          && rb' == rb - {sender}
          && cb' == cb - {sender}
          && lb' == lb - {sender})
    && (!update.isFinal ==>
          && rb' == rb[sender := o.buffer]
          && cb' == cb[sender := o.route]
          && lb' == StoreLookBack(lb, sender, o.lookBack))
  }

  /** Processing for traversals, storing the raw records and forgetting a
      finished sender together make up the handling of an update. */
  lemma UpdateProcessedByParts(rb: map<string, seq<Entry<FcdRecord>>>, cb: map<string, seq<string>>,
                               lb: map<string, FcdRecord>, calls: seq<Call>,
                               storeRawFcd: bool, update: UpdateMessage,
                               rb1: map<string, seq<Entry<FcdRecord>>>, cb1: map<string, seq<string>>,
                               lb1: map<string, FcdRecord>, calls1: seq<Call>)
    requires Sorted(BufferOf(rb, update.routing.source)) && Sorted(update.records) && update.records != []
    requires Traversed(rb, cb, lb, calls + [HandleUpdate(update)], update.routing.source, update.records,
                       rb1, cb1, lb1, calls1)
    ensures var sender := update.routing.source;
      UpdateProcessed(rb, cb, lb, calls, storeRawFcd, update,
                      if update.isFinal then rb1 - {sender} else rb1,
                      if update.isFinal then cb1 - {sender} else cb1,
                      if update.isFinal then lb1 - {sender} else lb1,
                      if storeRawFcd then calls1 + [InsertFcdRecords(sender, Values(update.records))] else calls1)
  {
    var sender := update.routing.source;
    var o := Traverse(BufferOf(rb, sender), LookBackOf(lb, sender), update.records);
    if update.isFinal {
      RemoveAfterPut(rb, sender, o.buffer);
      RemoveAfterPut(cb, sender, o.route);
      RemoveAfterStore(lb, sender, lb1);
    }
    if !storeRawFcd {
      assert calls1 + [] == calls1;
    }
  }

  /** Before the loop: the scanned route of a valid sender is the route of
      its merged records. */
  lemma MergedRoute(rb: map<string, seq<Entry<FcdRecord>>>, cb: map<string, seq<string>>,
                    sender: string, records: seq<Entry<FcdRecord>>)
    requires BuffersValid(rb, cb)
    requires Sorted(records) && records != [] && InOrder(BufferOf(rb, sender), records)
    ensures Sorted(PutAll(BufferOf(rb, sender), records)) && PutAll(BufferOf(rb, sender), records) != []
    ensures Extend(RouteOf(cb, sender), Conns(records)) == Route(Conns(PutAll(BufferOf(rb, sender), records)))
  {
    var buf := BufferOf(rb, sender);
    assert RouteOf(cb, sender) == Route(Conns(buf));
    RouteOfMerge(buf, records);
    assert records[0].key in ToMap(PutAll(buf, records));
  }

  /** After the loop: what is left and what was handed on is the outcome of
      Traverse, and the buffers stay valid. */
  lemma TraverseByParts(rb: map<string, seq<Entry<FcdRecord>>>, cb: map<string, seq<string>>,
                        lb: map<string, FcdRecord>, calls0: seq<Call>,
                        sender: string, records: seq<Entry<FcdRecord>>,
                        merged: seq<Entry<FcdRecord>>, scanned: seq<string>,
                        route: seq<string>, rest: seq<Entry<FcdRecord>>,
                        lb': map<string, FcdRecord>, calls': seq<Call>)
    requires BuffersValid(rb, cb)
    requires Sorted(records) && records != [] && Sorted(BufferOf(rb, sender))
    requires merged == PutAll(BufferOf(rb, sender), records)
    requires CutHandedOn(lb, calls0, sender, merged, route, rest, lb', calls')
    ensures Traversed(rb, cb, lb, calls0, sender, records,
                      rb[sender := merged][sender := rest], cb[sender := scanned][sender := route], lb', calls')
    ensures BuffersValid(rb[sender := merged][sender := rest], cb[sender := scanned][sender := route])
  {
    var o := Traverse(BufferOf(rb, sender), LookBackOf(lb, sender), records);
    TraverseUnfold(BufferOf(rb, sender), LookBackOf(lb, sender), records);
    BuffersValidPut(rb, cb, sender, o.buffer, o.route);
    PutTwice(rb, sender, merged, rest);
    PutTwice(cb, sender, scanned, route);
  }

  /** The state of the loop of processUpdateForTraversals: the records left
      have the route left, the look-back map holds the last record handed
      on, and the traversals handed on so far, followed by those still to
      come from the records left, are all the traversals of the cut. */
  predicate HandingOn(sender: string, merged: seq<Entry<FcdRecord>>, full: CutResult,
                      lb0: map<string, FcdRecord>, calls0: seq<Call>, emitted: seq<Traversal>,
                      curLook: Option<FcdRecord>, rest: seq<Entry<FcdRecord>>, route: seq<string>,
                      lookBacks: map<string, FcdRecord>, calls: seq<Call>)
  {
    && rest != [] && route == Route(Conns(rest))
    && lookBacks == StoreLookBack(lb0, sender, curLook)
    && (curLook == LookBackOf(lb0, sender) || curLook.Some?)
    && CutSoFar(full, emitted, curLook, merged, rest)
    && calls == calls0 + TraversalCalls(sender, emitted)
  }

  lemma HandingOnReads(sender: string, merged: seq<Entry<FcdRecord>>, full: CutResult,
                       lb0: map<string, FcdRecord>, calls0: seq<Call>, emitted: seq<Traversal>,
                       curLook: Option<FcdRecord>, rest: seq<Entry<FcdRecord>>, route: seq<string>,
                       lookBacks: map<string, FcdRecord>, calls: seq<Call>)
    requires HandingOn(sender, merged, full, lb0, calls0, emitted, curLook, rest, route, lookBacks, calls)
    requires |route| > 1
    ensures LookBackOf(lookBacks, sender) == curLook
    ensures rest != [] && route == Route(Conns(rest))
  {
    LookBackStored(lb0, sender, curLook);
  }

  /** Handing on the traversal of the first connection keeps the state. */
  lemma HandingOnStep(sender: string, merged: seq<Entry<FcdRecord>>, full: CutResult,
                      lb0: map<string, FcdRecord>, calls0: seq<Call>, emitted: seq<Traversal>,
                      curLook: Option<FcdRecord>, rest: seq<Entry<FcdRecord>>,
                      lookBacks: map<string, FcdRecord>, calls: seq<Call>,
                      lookBacks': map<string, FcdRecord>, calls': seq<Call>)
    requires HandingOn(sender, merged, full, lb0, calls0, emitted, curLook, rest, Route(Conns(rest)), lookBacks, calls)
    requires |Route(Conns(rest))| > 1
    requires var n := Run(rest);
      && 0 < n < |rest|
      && lookBacks' == lookBacks[sender := rest[n - 1].value]
      && calls' == calls + [OnConnectionTraversal(sender, RunTraversal(LookBackOf(lookBacks, sender), rest, n))]
    ensures var n := Run(rest);
      HandingOn(sender, merged, full, lb0, calls0, emitted + [RunTraversal(curLook, rest, n)],
                Some(rest[n - 1].value), rest[n..], Route(Conns(rest))[1..], lookBacks', calls')
  {
    var n := Run(rest);
    LookBackStored(lb0, sender, curLook);
    CutAdvance(full, emitted, curLook, merged, rest);
    StoreLookBackTwice(lb0, sender, curLook, rest[n - 1].value);
    TraversalCallsSnoc(calls0, sender, emitted, RunTraversal(curLook, rest, n));
  }

  /** When one connection is left, the cut is complete. */
  lemma HandingOnDone(sender: string, merged: seq<Entry<FcdRecord>>, full: CutResult,
                      lb0: map<string, FcdRecord>, calls0: seq<Call>, emitted: seq<Traversal>,
                      curLook: Option<FcdRecord>, rest: seq<Entry<FcdRecord>>, route: seq<string>,
                      lookBacks: map<string, FcdRecord>, calls: seq<Call>)
    requires HandingOn(sender, merged, full, lb0, calls0, emitted, curLook, rest, route, lookBacks, calls)
    requires |route| <= 1
    requires full == Cut(LookBackOf(lb0, sender), merged)
    ensures CutHandedOn(lb0, calls0, sender, merged, route, rest, lookBacks, calls)
  {
    CutDone(curLook, rest);
    assert emitted + [] == emitted;
    assert rest[0..] == rest;
  }

  /** Scanning one more record is one more step. */
  lemma ScanOne(start: seq<string>, records: seq<Entry<FcdRecord>>, i: int)
    requires 0 <= i < |records|
    ensures Extend(start, Conns(records[..i + 1])) ==
      Step(Extend(start, Conns(records[..i])), records[i].value.connectionId)
  {
    assert records[..i + 1] == records[..i] + [records[i]];
    ConnsAppend(records[..i], [records[i]]);
    assert Conns([records[i]]) == [records[i].value.connectionId];
    ExtendSnoc(start, Conns(records[..i]), records[i].value.connectionId);
  }

  /** The loop of extractTraversedConnections: every record whose
      connection differs from the last one on the route appends its
      connection. */
  method ScanConnections(start: seq<string>, records: seq<Entry<FcdRecord>>) returns (route: seq<string>)
    ensures route == Extend(start, Conns(records))
  {
    route := start;
    var prevConnection: Option<string> := if route == [] then None else Some(route[|route| - 1]);
    var i := 0;
    while i < |records|
      invariant 0 <= i <= |records|
      invariant route == Extend(start, Conns(records[..i]))
      invariant prevConnection == (if route == [] then None else Some(route[|route| - 1]))
    {
      var c := records[i].value.connectionId;
      ScanOne(start, records, i);
      if prevConnection != Some(c) {
        route := route + [c];
        prevConnection := Some(c);
      }
      i := i + 1;
    }
    assert records[..|records|] == records;
  }

  /** A buffer is expired when its newest record is older than `bound`. */
  predicate Expired(buf: seq<Entry<FcdRecord>>, bound: int) {
    buf != [] && buf[|buf| - 1].key < bound
  }

  /** The senders whose newest buffered record is older than `bound`. */
  function ExpiredSenders(buffers: map<string, seq<Entry<FcdRecord>>>, bound: int): (r: set<string>)
    ensures r <= buffers.Keys
  {
    set s | s in buffers && Expired(buffers[s], bound)
  }

  /** One turn of the scan for expired senders: the sender looked at joins
      the collected ones exactly when it is expired. */
  lemma ExpiredScanStep(buffers: map<string, seq<Entry<FcdRecord>>>, bound: int,
                        pending: set<string>, units: set<string>, s: string)
    requires s in pending && units == ExpiredSenders(buffers, bound) - pending
    requires s in buffers
    ensures (if Expired(buffers[s], bound) then units + {s} else units)
            == ExpiredSenders(buffers, bound) - (pending - {s})
  {
  }

  /** The first loop of triggerExpiredUnitRemoval: every buffered sender is
      looked at once and collected when its newest record is older than the
      bound. */
  method CollectExpired(buffers: map<string, seq<Entry<FcdRecord>>>, bound: int) returns (units: set<string>)
    requires forall s :: s in buffers ==> buffers[s] != []
    ensures units == ExpiredSenders(buffers, bound)
  {
    ghost var expired := ExpiredSenders(buffers, bound);
    units := {};
    var pending := buffers.Keys;
    while pending != {}
      invariant pending <= buffers.Keys
      invariant units == expired - pending
      decreases pending
    {
      var s :| s in pending;
      var b := buffers[s];
      ExpiredScanStep(buffers, bound, pending, units, s);
      if Expired(b, bound) {
        units := units + {s};
      }
      pending := pending - {s};
    }
    assert units == expired - {};
  }

  /** A sender is expired exactly when all its buffered records are older
      than the bound. */
  lemma ExpiredMeansAllOlder(buffers: map<string, seq<Entry<FcdRecord>>>, bound: int, s: string)
    requires s in buffers && Sorted(buffers[s]) && buffers[s] != []
    ensures s in ExpiredSenders(buffers, bound) <==>
      forall i :: 0 <= i < |buffers[s]| ==> buffers[s][i].key < bound
  {
    var b := buffers[s];
    if s in ExpiredSenders(buffers, bound) {
      forall i | 0 <= i < |b| ensures b[i].key < bound {
        assert b[i].key <= b[|b| - 1].key;
      }
    }
  }

  /** The registry loop of the kernel's constructor: every configured
      processor that is present and has a non-negative trigger interval is
      put under its identifier, a later one replacing an earlier one. */
  method RegisterProcessors(ps: seq<Option<TimeBasedProcessor>>) returns (registry: map<string, TimeBasedProcessor>)
    ensures registry == Registry(ps)
  {
    registry := map[];
    var i := 0;
    while i < |ps|
      invariant 0 <= i <= |ps|
      invariant registry == Registry(ps[..i])
    {
      assert ps[..i + 1][..i] == ps[..i];
      var p := ps[i];
      if p.Some? && p.value.triggerInterval >= 0 {
        registry := registry[p.value.identifier := p.value];
      }
      i := i + 1;
    }
    assert ps[..|ps|] == ps;
  }

  /** The removal as written, with the default configuration: the kernel
      starts with the bound `oldestAllowedRecordTime` at the expiration time
      (60 minutes) and its only removal event at the removal interval
      (30 minutes). A sender whose newest record is one minute old when
      that event fires is already counted as expired, and removed. */
  lemma RemovalAsWrittenDropsActiveSender(r: FcdRecord)
    ensures var eventTime := DEFAULT_UNIT_REMOVAL_INTERVAL;
      var buffers := map["unit" := [Entry(eventTime - MINUTE, r)]];
      && eventTime - MINUTE > eventTime - DEFAULT_UNIT_EXPIRATION_TIME
      && "unit" in ExpiredSenders(buffers, 0 + DEFAULT_UNIT_EXPIRATION_TIME)
  {
  }

  /** With the corrected bound, a sender is removed exactly when its newest
      record is older than the expiration time before the event. */
  lemma CorrectedRemovalKeepsActive(buffers: map<string, seq<Entry<FcdRecord>>>, eventTime: int,
                                    expiration: int, s: string)
    requires s in buffers && buffers[s] != [] && Sorted(buffers[s])
    ensures s !in ExpiredSenders(buffers, eventTime - expiration) <==>
      exists i :: 0 <= i < |buffers[s]| && buffers[s][i].key >= eventTime - expiration
  {
    ExpiredMeansAllOlder(buffers, eventTime - expiration, s);
  }

  /** The non-null processors of the configured list. */
  function ConfiguredProcessors(configured: Option<seq<Option<TimeBasedProcessor>>>): set<TimeBasedProcessor> {
    if configured.None? then {}
    else set i | 0 <= i < |configured.value| && configured.value[i].Some? :: configured.value[i].value
  }

  /** The registry built from the configured list: every non-null processor
      with a non-negative trigger interval, under its identifier; a later
      processor with the same identifier replaces an earlier one. */
  function Registry(ps: seq<Option<TimeBasedProcessor>>): (r: map<string, TimeBasedProcessor>)
    ensures forall n :: n in r ==> r[n].identifier == n && r[n].triggerInterval >= 0
    ensures forall i :: 0 <= i < |ps| && ps[i].Some? && ps[i].value.triggerInterval >= 0 ==>
      ps[i].value.identifier in r
    decreases |ps|
  {
    if ps == [] then map[]
    else
      var m := Registry(ps[..|ps| - 1]);
      var p := ps[|ps| - 1];
      if p.Some? && p.value.triggerInterval >= 0 then m[p.value.identifier := p.value] else m
  }

  /** Every registered processor comes from the configured list. */
  lemma {:induction false} RegistryFromList(ps: seq<Option<TimeBasedProcessor>>, n: string)
    requires n in Registry(ps)
    ensures exists i :: 0 <= i < |ps| && ps[i] == Some(Registry(ps)[n])
    decreases |ps|
  {
    var m := Registry(ps[..|ps| - 1]);
    var p := ps[|ps| - 1];
    if !(p.Some? && p.value.triggerInterval >= 0 && p.value.identifier == n) {
      RegistryFromList(ps[..|ps| - 1], n);
      var i :| 0 <= i < |ps| - 1 && ps[..|ps| - 1][i] == Some(m[n]);
      assert ps[i] == Some(Registry(ps)[n]);
    }
  }

  class FxdKernel {
    const unitRemovalInterval: int
    const unitExpirationTime: int
    /** The FcdKernel's storeRawFcd switch: hand every update's records to
        the data storage. */
    const storeRawFcd: bool
    /** Time-based processors by identifier; filled once by the constructor. */
    const timeBasedProcessors: map<string, TimeBasedProcessor>
    /** Records received per sender and not yet handed on, in time order. */
    var recordBuffer: map<string, seq<Entry<FcdRecord>>>
    /** Connections traversed per sender whose records are still buffered. */
    var connectionsBuffer: map<string, seq<string>>
    /** Last record of each sender's previous traversal. */
    var recordLookBack: map<string, FcdRecord>
    var lastRemovalTime: int
    var oldestAllowedRecordTime: int
    var scheduled: seq<ScheduledEvent>
    var calls: seq<Call>

    /** The kernel's invariant between two calls: a sender has a buffer
        exactly when it has a route, the buffer is non-empty and time-sorted,
        the route is the route of the buffered records, and every
        registered processor sits under its own identifier. */
    predicate Valid()
      reads this
    {
      && BuffersValid(recordBuffer, connectionsBuffer)
      && (forall n :: n in timeBasedProcessors ==> timeBasedProcessors[n].identifier == n)
    }

    /** Registers the valid time-based processors, initialises them, asks
        each for its first trigger time and schedules it, then schedules the
        first removal of inactive senders. */
    constructor (unitRemovalInterval: int, unitExpirationTime: int, storeRawFcd: bool,
                 configured: Option<seq<Option<TimeBasedProcessor>>>)
      modifies ConfiguredProcessors(configured)
      ensures Valid()
      ensures this.unitRemovalInterval == unitRemovalInterval && this.unitExpirationTime == unitExpirationTime
      ensures this.storeRawFcd == storeRawFcd
      ensures timeBasedProcessors == (if configured.Some? then Registry(configured.value) else map[])
      ensures recordBuffer == map[] && connectionsBuffer == map[] && recordLookBack == map[] && calls == []
      ensures forall n :: n in timeBasedProcessors ==>
        && timeBasedProcessors[n].nextTriggerTime == timeBasedProcessors[n].triggerInterval
        && timeBasedProcessors[n].previousTriggerTime == 0
        && ProcessorEvent(timeBasedProcessors[n].triggerInterval, n) in scheduled
      ensures |scheduled| >= 1
      ensures forall e :: e in scheduled[..|scheduled| - 1] ==> e.ProcessorEvent? && e.processorName in timeBasedProcessors
      ensures scheduled[|scheduled| - 1] == ExpiredUnitRemovalEvent(unitRemovalInterval)
      ensures lastRemovalTime == unitRemovalInterval && oldestAllowedRecordTime == unitExpirationTime
    {
      var registry: map<string, TimeBasedProcessor> := map[];
      if configured.Some? {
        registry := RegisterProcessors(configured.value);
      }
      this.unitRemovalInterval := unitRemovalInterval;
      this.unitExpirationTime := unitExpirationTime;
      this.storeRawFcd := storeRawFcd;
      timeBasedProcessors := registry;
      recordBuffer := map[];
      connectionsBuffer := map[];
      recordLookBack := map[];
      lastRemovalTime := 0;
      oldestAllowedRecordTime := 0;
      scheduled := [];
      calls := [];
      new;
      forall n | n in timeBasedProcessors
        ensures timeBasedProcessors[n] in ConfiguredProcessors(configured)
      {
        RegistryFromList(configured.value, n);
      }
      InitializeProcessors();
      ghost var added := ScheduleProcessors();
      assert scheduled == added;
      ghost var tbp := timeBasedProcessors;
      ScheduleUnitRemoval();
      assert scheduled == added + [ExpiredUnitRemovalEvent(lastRemovalTime)];
      assert scheduled[..|scheduled| - 1] == added;
      forall n | n in tbp
        ensures ProcessorEvent(tbp[n].triggerInterval, n) in scheduled
      {
        assert ProcessorEvent(tbp[n].triggerInterval, n) in added;
      }
    }

    /** Every registered processor is initialised. */
    method InitializeProcessors()
      requires forall n :: n in timeBasedProcessors ==> timeBasedProcessors[n].identifier == n
      modifies timeBasedProcessors.Values
      ensures forall n :: n in timeBasedProcessors ==>
        timeBasedProcessors[n].nextTriggerTime == 0 && timeBasedProcessors[n].previousTriggerTime == 0
    {
      var pending := timeBasedProcessors.Keys;
      while pending != {}
        invariant pending <= timeBasedProcessors.Keys
        invariant forall n :: n in timeBasedProcessors && n !in pending ==>
          timeBasedProcessors[n].nextTriggerTime == 0 && timeBasedProcessors[n].previousTriggerTime == 0
        decreases pending
      {
        var n :| n in pending;
        timeBasedProcessors[n].Initialize();
        pending := pending - {n};
      }
    }

    /** Each registered, freshly initialised processor is scheduled at its
        first trigger time, one interval from the start. */
    method ScheduleProcessors() returns (ghost added: seq<ScheduledEvent>)
      requires forall n :: n in timeBasedProcessors ==>
        && timeBasedProcessors[n].identifier == n
        && timeBasedProcessors[n].nextTriggerTime == 0 && timeBasedProcessors[n].previousTriggerTime == 0
      modifies this`scheduled, timeBasedProcessors.Values
      ensures forall n :: n in timeBasedProcessors ==>
        && timeBasedProcessors[n].nextTriggerTime == timeBasedProcessors[n].triggerInterval
        && timeBasedProcessors[n].previousTriggerTime == 0
        && ProcessorEvent(timeBasedProcessors[n].triggerInterval, n) in added
      ensures scheduled == old(scheduled) + added
      ensures forall e :: e in added ==> e.ProcessorEvent? && e.processorName in timeBasedProcessors
    {
      added := [];
      var pending := timeBasedProcessors.Keys;
      while pending != {}
        invariant pending <= timeBasedProcessors.Keys
        invariant scheduled == old(scheduled) + added
        invariant forall e :: e in added ==> e.ProcessorEvent? && e.processorName in timeBasedProcessors
        invariant forall n :: n in timeBasedProcessors && n !in pending ==>
          && timeBasedProcessors[n].nextTriggerTime == timeBasedProcessors[n].triggerInterval
          && timeBasedProcessors[n].previousTriggerTime == 0
          && ProcessorEvent(timeBasedProcessors[n].triggerInterval, n) in added
        invariant forall n :: n in pending ==>
          timeBasedProcessors[n].nextTriggerTime == 0 && timeBasedProcessors[n].previousTriggerTime == 0
        decreases |pending|
      {
        var n :| n in pending;
        var p := timeBasedProcessors[n];
        ScheduleEventForProcessor(p);
        added := added + [ProcessorEvent(p.nextTriggerTime, n)];
        pending := pending - {n};
      }
    }

    /** Moves the processor's trigger time on by one interval and schedules
        an event for it, named by the processor, at the new time. */
    method ScheduleEventForProcessor(p: TimeBasedProcessor)
      modifies this`scheduled, p
      ensures p.previousTriggerTime == old(p.nextTriggerTime)
      ensures p.nextTriggerTime == old(p.nextTriggerTime) + p.triggerInterval
      ensures scheduled == old(scheduled) + [ProcessorEvent(p.nextTriggerTime, p.identifier)]
    {
      var next := p.GetAndIncrementNextTriggerTime();
      scheduled := scheduled + [ProcessorEvent(next, p.identifier)];
    }

    /** Moves the removal time on by the removal interval and the oldest
        allowed record time on by the expiration time, and schedules the
        removal event at the new removal time. */
    method ScheduleUnitRemoval()
      modifies this`lastRemovalTime, this`oldestAllowedRecordTime, this`scheduled
      ensures lastRemovalTime == old(lastRemovalTime) + unitRemovalInterval
      ensures oldestAllowedRecordTime == old(oldestAllowedRecordTime) + unitExpirationTime
      ensures scheduled == old(scheduled) + [ExpiredUnitRemovalEvent(lastRemovalTime)]
    {
      lastRemovalTime := lastRemovalTime + unitRemovalInterval;
      oldestAllowedRecordTime := oldestAllowedRecordTime + unitExpirationTime;
      scheduled := scheduled + [ExpiredUnitRemovalEvent(lastRemovalTime)];
    }

    /** Scans the new records and appends each connection that differs from
        the sender's last known one; a new sender starts with an empty
        route. */
    method ExtractTraversedConnections(sender: string, records: seq<Entry<FcdRecord>>) returns (senderConnections: seq<string>)
      modifies this`connectionsBuffer
      ensures senderConnections == Extend(RouteOf(old(connectionsBuffer), sender), Conns(records))
      ensures connectionsBuffer == old(connectionsBuffer)[sender := senderConnections]
    {
      ghost var before := connectionsBuffer;
      if sender !in connectionsBuffer {
        connectionsBuffer := connectionsBuffer[sender := []];
        PutTwice(before, sender, [], Extend([], Conns(records)));
      }
      senderConnections := ScanConnections(connectionsBuffer[sender], records);
      connectionsBuffer := connectionsBuffer[sender := senderConnections];
    }

    /** Merges the new records into the sender's buffer (a new sender's
        buffer is the new records). */
    method EnqueueRecords(sender: string, records: seq<Entry<FcdRecord>>) returns (senderRecords: seq<Entry<FcdRecord>>)
      requires Sorted(records) && Sorted(BufferOf(recordBuffer, sender))
      modifies this`recordBuffer
      ensures senderRecords == PutAll(BufferOf(old(recordBuffer), sender), records)
      ensures recordBuffer == old(recordBuffer)[sender := senderRecords]
    {
      if sender in recordBuffer {
        recordBuffer := recordBuffer[sender := PutAll(recordBuffer[sender], records)];
      } else {
        PutAllAbove([], records);
        assert [] + records == records;
        recordBuffer := recordBuffer[sender := records];
      }
      senderRecords := recordBuffer[sender];
    }

    /** Removes the leading records on `currentConnectionId` from the
        sender's records and bundles them with the look-back record and the
        first record after them; the last of them becomes the look-back. */
    method ExtractTraversal(sender: string, currentConnectionId: string, senderRecords: seq<Entry<FcdRecord>>)
      returns (traversal: Traversal, remaining: seq<Entry<FcdRecord>>)
      requires senderRecords != [] && senderRecords[0].value.connectionId == currentConnectionId
      requires Run(senderRecords) < |senderRecords|
      modifies this`recordLookBack
      ensures var n := Run(senderRecords);
        && traversal == RunTraversal(LookBackOf(old(recordLookBack), sender), senderRecords, n)
        && remaining == senderRecords[n..]
        && recordLookBack == old(recordLookBack)[sender := senderRecords[n - 1].value]
    {
      ghost var n := Run(senderRecords);
      RunFacts(senderRecords);
      remaining := senderRecords;
      var traversalRecords: seq<FcdRecord> := [];
      ghost var k := 0;
      while remaining[0].value.connectionId == currentConnectionId
        invariant 0 <= k <= n
        invariant remaining == senderRecords[k..]
        invariant traversalRecords == Values(senderRecords[..k])
        invariant recordLookBack == old(recordLookBack)
        decreases |remaining|
      {
        assert senderRecords[..k + 1] == senderRecords[..k] + [senderRecords[k]];
        ValuesAppend(senderRecords[..k], [senderRecords[k]]);
        traversalRecords := traversalRecords + [remaining[0].value];
        remaining := remaining[1..];
        k := k + 1;
      }
      var previousRecord := LookBackOf(recordLookBack, sender);
      var followingRecord := remaining[0].value;
      ValuesAt(senderRecords[..n], 0);
      ValuesAt(senderRecords[..n], n - 1);
      recordLookBack := recordLookBack[sender := traversalRecords[|traversalRecords| - 1]];
      traversal := Traversal(traversalRecords[0].connectionId, traversalRecords, previousRecord, Some(followingRecord));
    }

    /** One turn of the loop of processUpdateForTraversals: the traversal on
        the route's first connection is cut off the records and handed to the
        traversal-based processors, and the connection leaves the route. */
    method HandOnFirstTraversal(sender: string, senderConnections: seq<string>, senderRecords: seq<Entry<FcdRecord>>)
      returns (route: seq<string>, rest: seq<Entry<FcdRecord>>)
      requires senderRecords != [] && |senderConnections| > 1
      requires senderConnections == Route(Conns(senderRecords))
      modifies this`recordLookBack, this`calls
      ensures var n := Run(senderRecords);
        && 0 < n < |senderRecords|
        && rest == senderRecords[n..]
        && route == senderConnections[1..] == Route(Conns(rest))
        && recordLookBack == old(recordLookBack)[sender := senderRecords[n - 1].value]
        && calls == old(calls) + [OnConnectionTraversal(sender,
             RunTraversal(LookBackOf(old(recordLookBack), sender), senderRecords, n))]
    {
      RouteLength(senderRecords);
      RouteSplit(senderRecords);
      var traversal;
      traversal, rest := ExtractTraversal(sender, senderConnections[0], senderRecords);
      calls := calls + [OnConnectionTraversal(sender, traversal)];
      route := senderConnections[1..];
    }

    /** Adds the update's connections and records to the sender's buffers
        and hands on every traversal they complete. */
    method ProcessUpdateForTraversals(sender: string, records: seq<Entry<FcdRecord>>)
      requires Valid()
      requires Sorted(records) && records != []
      requires InOrder(BufferOf(recordBuffer, sender), records)
      modifies this`recordBuffer, this`connectionsBuffer, this`recordLookBack, this`calls
      ensures Valid()
      ensures Traversed(old(recordBuffer), old(connectionsBuffer), old(recordLookBack), old(calls), sender, records,
                        recordBuffer, connectionsBuffer, recordLookBack, calls)
    {
      ghost var rb0, cb0, lb0, calls0 := recordBuffer, connectionsBuffer, recordLookBack, calls;
      MergedRoute(rb0, cb0, sender, records);
      var senderConnections := ExtractTraversedConnections(sender, records);
      var senderRecords := EnqueueRecords(sender, records);
      ghost var merged, scanned := senderRecords, senderConnections;
      assert recordLookBack == lb0 && calls == calls0;
      senderConnections, senderRecords := HandOnCompletedTraversals(sender, senderConnections, senderRecords);
      TraverseByParts(rb0, cb0, lb0, calls0, sender, records, merged, scanned,
                      senderConnections, senderRecords, recordLookBack, calls);
      recordBuffer := recordBuffer[sender := senderRecords];
      connectionsBuffer := connectionsBuffer[sender := senderConnections];
    }

    /** The loop of processUpdateForTraversals, on the sender's route and
        records (which the source changes in place inside the two buffers):
        while the route has more than one entry, the traversal on its first
        entry is cut off and handed on and the entry is dropped. */
    method HandOnCompletedTraversals(sender: string, senderConnections: seq<string>, senderRecords: seq<Entry<FcdRecord>>)
      returns (route: seq<string>, rest: seq<Entry<FcdRecord>>)
      requires senderRecords != [] && senderConnections == Route(Conns(senderRecords))
      modifies this`recordLookBack, this`calls
      ensures CutHandedOn(old(recordLookBack), old(calls), sender, senderRecords, route, rest, recordLookBack, calls)
    {
      ghost var lb0, calls0 := recordLookBack, calls;
      ghost var look0 := LookBackOf(recordLookBack, sender);
      ghost var full := Cut(look0, senderRecords);
      CutRest(look0, senderRecords);
      route, rest := senderConnections, senderRecords;
      ghost var curLook := look0;
      ghost var emitted: seq<Traversal> := [];
      while |route| > 1
        invariant HandingOn(sender, senderRecords, full, lb0, calls0, emitted, curLook, rest, route, recordLookBack, calls)
        decreases |rest|
      {
        ghost var lb, cs, r := recordLookBack, calls, rest;
        HandingOnReads(sender, senderRecords, full, lb0, calls0, emitted, curLook, rest, route, recordLookBack, calls);
        route, rest := HandOnFirstTraversal(sender, route, rest);
        HandingOnStep(sender, senderRecords, full, lb0, calls0, emitted, curLook, r, lb, cs, recordLookBack, calls);
        emitted := emitted + [RunTraversal(curLook, r, Run(r))];
        curLook := Some(r[Run(r) - 1].value);
      }
      HandingOnDone(sender, senderRecords, full, lb0, calls0, emitted, curLook, rest, route, recordLookBack, calls);
    }

    /** Hands the update to every time-based processor, processes it for
        traversals, stores its raw records when so configured, and forgets
        the sender after its final update. */
    method ProcessUpdate(update: UpdateMessage)
      requires Valid()
      requires Sorted(update.records) && update.records != []
      requires InOrder(BufferOf(recordBuffer, update.routing.source), update.records)
      modifies this`recordBuffer, this`connectionsBuffer, this`recordLookBack, this`calls
      ensures Valid()
      ensures UpdateProcessed(old(recordBuffer), old(connectionsBuffer), old(recordLookBack), old(calls), storeRawFcd, update,
                              recordBuffer, connectionsBuffer, recordLookBack, calls)
    {
      var sender := update.routing.source;
      ghost var rb0, cb0, lb0, calls0 := recordBuffer, connectionsBuffer, recordLookBack, calls;
      calls := calls + [HandleUpdate(update)];
      ProcessUpdateForTraversals(sender, update.records);
      ghost var rb1, cb1, lb1, calls1 := recordBuffer, connectionsBuffer, recordLookBack, calls;
      if storeRawFcd {
        calls := calls + [InsertFcdRecords(sender, Values(update.records))];
      }
      if update.isFinal {
        BuffersValidRemove(recordBuffer, connectionsBuffer, {sender});
        recordBuffer := recordBuffer - {sender};
        recordLookBack := recordLookBack - {sender};
        connectionsBuffer := connectionsBuffer - {sender};
      }
      UpdateProcessedByParts(rb0, cb0, lb0, calls0, storeRawFcd, update, rb1, cb1, lb1, calls1);
    }

    /** Removes the buffers and routes (not the look-back) of every sender
        whose newest buffered record is older than the bound. */
    method TriggerExpiredUnitRemoval(oldestAllowedRecordTime: int)
      requires Valid()
      modifies this`recordBuffer, this`connectionsBuffer
      ensures Valid()
      ensures recordBuffer == old(recordBuffer) - ExpiredSenders(old(recordBuffer), oldestAllowedRecordTime)
      ensures connectionsBuffer == old(connectionsBuffer) - ExpiredSenders(old(recordBuffer), oldestAllowedRecordTime)
    {
      var unitsToRemove := CollectExpired(recordBuffer, oldestAllowedRecordTime);
      BuffersValidRemove(recordBuffer, connectionsBuffer, unitsToRemove);
      recordBuffer := recordBuffer - unitsToRemove;
      connectionsBuffer := connectionsBuffer - unitsToRemove;
    }

    /** The removal event removes the senders older than the oldest allowed
        record time, and schedules nothing further; a processor's event
        triggers it and schedules its next one; any other event is
        ignored. */
    method ProcessEvent(event: Event)
      requires Valid()
      modifies this`recordBuffer, this`connectionsBuffer, this`scheduled, this`calls, timeBasedProcessors.Values
      ensures Valid()
      ensures oldestAllowedRecordTime == old(oldestAllowedRecordTime)
      ensures event.ExpiredUnitRemoval? ==>
        && recordBuffer == old(recordBuffer) - ExpiredSenders(old(recordBuffer), oldestAllowedRecordTime)
        && connectionsBuffer == old(connectionsBuffer) - ExpiredSenders(old(recordBuffer), oldestAllowedRecordTime)
        && scheduled == old(scheduled) && calls == old(calls)
      ensures event.ResourceEvent? && event.resource.Some? && event.resource.value in timeBasedProcessors ==>
        var name := event.resource.value;
        var p := timeBasedProcessors[name];
        && p.previousTriggerTime == old(p.nextTriggerTime)
        && p.nextTriggerTime == old(p.nextTriggerTime) + p.triggerInterval
        && calls == old(calls) + [TriggerEvent(name, event.time)]
        && scheduled == old(scheduled) + [ProcessorEvent(p.nextTriggerTime, name)]
        && recordBuffer == old(recordBuffer) && connectionsBuffer == old(connectionsBuffer)
      ensures event.ResourceEvent? && !(event.resource.Some? && event.resource.value in timeBasedProcessors) ==>
        && calls == old(calls) && scheduled == old(scheduled)
        && recordBuffer == old(recordBuffer) && connectionsBuffer == old(connectionsBuffer)
      ensures forall n :: n in timeBasedProcessors && !(event.ResourceEvent? && event.resource == Some(n)) ==>
        && timeBasedProcessors[n].nextTriggerTime == old(timeBasedProcessors[n].nextTriggerTime)
        && timeBasedProcessors[n].previousTriggerTime == old(timeBasedProcessors[n].previousTriggerTime)
    {
      match event
      case ExpiredUnitRemoval(_) =>
        TriggerExpiredUnitRemoval(oldestAllowedRecordTime);
      case ResourceEvent(time, resource) =>
        if resource.Some? {
          var processorName := resource.value;
          if processorName in timeBasedProcessors {
            var processor := timeBasedProcessors[processorName];
            calls := calls + [TriggerEvent(processorName, time)];
            ScheduleEventForProcessor(processor);
          }
        }
    }

    /** The removal event as evidently intended: when it fires at the
        current removal time, the senders silent for longer than the
        expiration time are removed, and the next removal is scheduled one
        interval later. */
    method ProcessExpiryEventCorrected()
      requires Valid()
      modifies this`recordBuffer, this`connectionsBuffer, this`lastRemovalTime, this`oldestAllowedRecordTime, this`scheduled
      ensures Valid()
      ensures oldestAllowedRecordTime == old(lastRemovalTime) - unitExpirationTime
      ensures recordBuffer == old(recordBuffer) - ExpiredSenders(old(recordBuffer), oldestAllowedRecordTime)
      ensures connectionsBuffer == old(connectionsBuffer) - ExpiredSenders(old(recordBuffer), oldestAllowedRecordTime)
      ensures lastRemovalTime == old(lastRemovalTime) + unitRemovalInterval
      ensures scheduled == old(scheduled) + [ExpiredUnitRemovalEvent(lastRemovalTime)]
    {
      oldestAllowedRecordTime := lastRemovalTime - unitExpirationTime;
      TriggerExpiredUnitRemoval(oldestAllowedRecordTime);
      lastRemovalTime := lastRemovalTime + unitRemovalInterval;
      scheduled := scheduled + [ExpiredUnitRemovalEvent(lastRemovalTime)];
    }

    /** Shuts every processor down and clears the record and connection
        buffers; the look-back records stay. */
    method Shutdown(shutdownTime: int)
      requires Valid()
      modifies this`recordBuffer, this`connectionsBuffer, this`calls
      ensures Valid()
      ensures calls == old(calls) + [ShutdownAll(shutdownTime)]
      ensures recordBuffer == map[] && connectionsBuffer == map[]
    {
      calls := calls + [ShutdownAll(shutdownTime)];
      recordBuffer := map[];
      connectionsBuffer := map[];
    }
  }
}
