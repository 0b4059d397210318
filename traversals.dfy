/** How the server kernel cuts a sender's time-ordered record stream into
    connection traversals: the route as a list of connection ids without
    adjacent repeats, the leading run of records on one connection, and the
    traversals a buffer yields (FxdKernel.extractTraversedConnections,
    extractTraversal, processUpdateForTraversals; the traversal object is
    FcdKernel.createTraversal). */
module Traversals {
  import opened Wrappers
  import opened SortedMaps
  import opened Records

  /** The records sampled on one connection, with the last record of the
      previous traversal and the first record of the next one. */
  datatype Traversal = Traversal(
    connectionId: string,
    records: seq<FcdRecord>,
    previous: Option<FcdRecord>,
    following: Option<FcdRecord>)

  /** The connection id of every buffered record, in key order. */
  function Conns(s: seq<Entry<FcdRecord>>): (r: seq<string>)
    ensures |r| == |s|
  {
    if s == [] then [] else [s[0].value.connectionId] + Conns(s[1..])
  }

  lemma {:induction false} ConnsAt(s: seq<Entry<FcdRecord>>, i: int)
    requires 0 <= i < |s|
    ensures Conns(s)[i] == s[i].value.connectionId
  {
    if i > 0 {
      ConnsAt(s[1..], i - 1);
    }
  }

  lemma {:induction false} ConnsAppend(s: seq<Entry<FcdRecord>>, t: seq<Entry<FcdRecord>>)
    ensures Conns(s + t) == Conns(s) + Conns(t)
  {
    if s == [] {
      assert s + t == t;
    } else {
      assert (s + t)[1..] == s[1..] + t;
      ConnsAppend(s[1..], t);
    }
  }

  lemma ConnsSuffix(s: seq<Entry<FcdRecord>>, n: nat)
    requires n <= |s|
    ensures Conns(s[n..]) == Conns(s)[n..]
  {
    var a, b := s[..n], s[n..];
    assert a + b == s;
    ConnsAppend(a, b);
  }

  /** One step of the scan: a connection is appended only when it differs
      from the current last entry. */
  function Step(route: seq<string>, c: string): (r: seq<string>)
    ensures r != []
  {
    if route != [] && route[|route| - 1] == c then route else route + [c]
  }

  /** The scan over the connections of a batch of records, starting from
      the sender's current route. */
  function Extend(route: seq<string>, cs: seq<string>): seq<string>
    decreases |cs|
  {
    if cs == [] then route else Extend(Step(route, cs[0]), cs[1..])
  }

  /** The route of a record stream scanned from scratch. */
  function Route(cs: seq<string>): seq<string> {
    Extend([], cs)
  }

  predicate NoAdjacentRepeats(route: seq<string>) {
    forall i :: 0 <= i < |route| - 1 ==> route[i] != route[i + 1]
  }

  /** The scan never puts the same connection twice in a row. */
  lemma {:induction false} ExtendNoAdjacentRepeats(route: seq<string>, cs: seq<string>)
    requires NoAdjacentRepeats(route)
    ensures NoAdjacentRepeats(Extend(route, cs))
    decreases |cs|
  {
    if cs != [] {
      ExtendNoAdjacentRepeats(Step(route, cs[0]), cs[1..]);
    }
  }

  /** Scanning two batches one after the other is scanning their
      concatenation. */
  lemma {:induction false} ExtendAppend(route: seq<string>, xs: seq<string>, ys: seq<string>)
    ensures Extend(route, xs + ys) == Extend(Extend(route, xs), ys)
    decreases |xs|
  {
    if xs == [] {
      assert xs + ys == ys;
    } else {
      assert (xs + ys)[1..] == xs[1..] + ys;
      ExtendAppend(Step(route, xs[0]), xs[1..], ys);
    }
  }

  /** The scan only looks at the last entry of the route. */
  lemma {:induction false} ExtendPrefix(p: seq<string>, q: seq<string>, cs: seq<string>)
    requires q != []
    ensures Extend(p + q, cs) == p + Extend(q, cs)
    decreases |cs|
  {
    if cs != [] {
      assert Step(p + q, cs[0]) == p + Step(q, cs[0]) by {
        assert (p + q)[|p + q| - 1] == q[|q| - 1];
        if q[|q| - 1] != cs[0] {
          assert (p + q) + [cs[0]] == p + (q + [cs[0]]);
        }
      }
      ExtendPrefix(p, Step(q, cs[0]), cs[1..]);
    }
  }

  /** Records that stay on the route's current connection add nothing. */
  lemma {:induction false} ExtendSame(route: seq<string>, cs: seq<string>)
    requires route != []
    requires forall i :: 0 <= i < |cs| ==> cs[i] == route[|route| - 1]
    ensures Extend(route, cs) == route
    decreases |cs|
  {
    if cs != [] {
      ExtendSame(route, cs[1..]);
    }
  }

  /** Scanning one more connection is one more step. */
  lemma ExtendSnoc(route: seq<string>, cs: seq<string>, c: string)
    ensures Extend(route, cs + [c]) == Step(Extend(route, cs), c)
  {
    ExtendAppend(route, cs, [c]);
    assert Extend(Step(Extend(route, cs), c), []) == Step(Extend(route, cs), c);
  }

  lemma {:induction false} ExtendNonEmpty(route: seq<string>, cs: seq<string>)
    requires route != [] || cs != []
    ensures Extend(route, cs) != []
    decreases |cs|
  {
    if cs != [] {
      ExtendNonEmpty(Step(route, cs[0]), cs[1..]);
    }
  }

  /** Number of leading records on the first record's connection. */
  function Run(buf: seq<Entry<FcdRecord>>): (n: nat)
    ensures n <= |buf|
    ensures buf != [] ==> n >= 1
  {
    if buf == [] then 0 else RunOn(buf, buf[0].value.connectionId)
  }

  function RunOn(buf: seq<Entry<FcdRecord>>, c: string): (n: nat)
    ensures n <= |buf|
  {
    if buf == [] || buf[0].value.connectionId != c then 0 else 1 + RunOn(buf[1..], c)
  }

  lemma {:induction false} RunOnFacts(buf: seq<Entry<FcdRecord>>, c: string)
    ensures forall j :: 0 <= j < RunOn(buf, c) ==> buf[j].value.connectionId == c
    ensures RunOn(buf, c) < |buf| ==> buf[RunOn(buf, c)].value.connectionId != c
  {
    if buf != [] && buf[0].value.connectionId == c {
      RunOnFacts(buf[1..], c);
    }
  }

  /** The run is exactly the records before the first change of connection. */
  lemma RunFacts(buf: seq<Entry<FcdRecord>>)
    ensures forall j :: 0 <= j < Run(buf) ==> buf[j].value.connectionId == buf[0].value.connectionId
    ensures 0 < Run(buf) < |buf| ==> buf[Run(buf)].value.connectionId != buf[0].value.connectionId
  {
    if buf != [] {
      RunOnFacts(buf, buf[0].value.connectionId);
    }
  }

  /** A route splits into the first record's connection and the route of the
      records after the run. */
  lemma RouteSplit(buf: seq<Entry<FcdRecord>>)
    requires buf != []
    ensures Run(buf) == |buf| ==> Route(Conns(buf)) == [buf[0].value.connectionId]
    ensures Run(buf) < |buf| ==> Route(Conns(buf)) == [buf[0].value.connectionId] + Route(Conns(buf[Run(buf)..]))
  {
    var n := Run(buf);
    var cs := Conns(buf);
    RunFacts(buf);
    forall i | 0 <= i < n ensures cs[i] == buf[0].value.connectionId {
      ConnsAt(buf, i);
    }
    if n < |buf| {
      ConnsAt(buf, n);
      ConnsSuffix(buf, n);
    }
    RouteSplitAt(cs, buf[0].value.connectionId, n);
  }

  lemma RouteSplitAt(cs: seq<string>, c: string, n: nat)
    requires 0 < n <= |cs|
    requires forall i :: 0 <= i < n ==> cs[i] == c
    requires n < |cs| ==> cs[n] != c
    ensures n == |cs| ==> Route(cs) == [c]
    ensures n < |cs| ==> Route(cs) == [c] + Route(cs[n..])
  {
    assert Step([], c) == [c];
    assert Route(cs) == Extend([c], cs[1..]);
    if n == |cs| {
      ExtendSame([c], cs[1..]);
    } else {
      var rest := cs[n..];
      assert cs[1..] == cs[1..n] + rest;
      ExtendAppend([c], cs[1..n], rest);
      ExtendSame([c], cs[1..n]);
      assert Step([c], rest[0]) == [c] + [rest[0]];
      assert Step([], rest[0]) == [rest[0]];
      ExtendPrefix([c], [rest[0]], rest[1..]);
      calc {
        Route(cs);
        Extend([c], rest);
        Extend([c] + [rest[0]], rest[1..]);
        [c] + Extend([rest[0]], rest[1..]);
        [c] + Route(rest);
      }
    }
  }

  /** A route has more than one entry exactly when the records do not all
      lie on the first connection. */
  lemma RouteLength(buf: seq<Entry<FcdRecord>>)
    requires buf != []
    ensures |Route(Conns(buf))| >= 1
    ensures |Route(Conns(buf))| > 1 <==> Run(buf) < |buf|
  {
    RouteSplit(buf);
    if Run(buf) < |buf| {
      ExtendNonEmpty([], Conns(buf[Run(buf)..]));
    }
  }

  /** The traversals cut from a buffer, the look-back record afterwards,
      and how many leading records were consumed. */
  datatype CutResult = CutResult(
    traversals: seq<Traversal>,
    lookBack: Option<FcdRecord>,
    consumed: nat)

  /** The traversals a buffer yields: while the records lie on more than one
      connection, the leading run becomes a traversal whose previous record
      is the look-back and whose following record is the first record after
      the run; the run's last record becomes the new look-back. */
  function Cut(lookBack: Option<FcdRecord>, buf: seq<Entry<FcdRecord>>): CutResult
    decreases |buf|
  {
    var n := Run(buf);
    if n == |buf| then CutResult([], lookBack, 0)
    else
      var r := Cut(Some(buf[n - 1].value), buf[n..]);
      CutResult([RunTraversal(lookBack, buf, n)] + r.traversals, r.lookBack, n + r.consumed)
  }

  /** The traversal made of the first `n` buffered records. */
  function RunTraversal(lookBack: Option<FcdRecord>, buf: seq<Entry<FcdRecord>>, n: nat): Traversal
    requires 0 < n < |buf|
  {
    Traversal(buf[0].value.connectionId, Values(buf[..n]), lookBack, Some(buf[n].value))
  }

  /** The records left after cutting: never all of a non-empty buffer, and
      all on a single connection. */
  lemma {:induction false} CutRest(lookBack: Option<FcdRecord>, buf: seq<Entry<FcdRecord>>)
    ensures Cut(lookBack, buf).consumed <= |buf|
    ensures buf != [] ==> Cut(lookBack, buf).consumed < |buf|
    ensures var rest := buf[Cut(lookBack, buf).consumed..];
      Run(rest) == |rest|
    decreases |buf|
  {
    var n := Run(buf);
    if n < |buf| {
      var r := Cut(Some(buf[n - 1].value), buf[n..]);
      CutRest(Some(buf[n - 1].value), buf[n..]);
      assert buf[n..][r.consumed..] == buf[n + r.consumed..];
    }
  }

  /** All records of a sequence of traversals, in order. */
  function Flatten(ts: seq<Traversal>): seq<FcdRecord> {
    if ts == [] then [] else ts[0].records + Flatten(ts[1..])
  }

  /** Cutting loses and reorders nothing: the traversals' records followed by
      the rest are the buffered records. */
  lemma {:induction false} CutKeepsRecords(lookBack: Option<FcdRecord>, buf: seq<Entry<FcdRecord>>)
    ensures Cut(lookBack, buf).consumed <= |buf|
    ensures Flatten(Cut(lookBack, buf).traversals) + Values(buf[Cut(lookBack, buf).consumed..]) == Values(buf)
    decreases |buf|
  {
    var n := Run(buf);
    if n < |buf| {
      var r := Cut(Some(buf[n - 1].value), buf[n..]);
      var t := RunTraversal(lookBack, buf, n);
      var c := Cut(lookBack, buf);
      assert c.traversals == [t] + r.traversals && c.consumed == n + r.consumed;
      CutKeepsRecords(Some(buf[n - 1].value), buf[n..]);
      var head := Values(buf[..n]);
      var tail := Values(buf[c.consumed..]);
      assert tail == Values(buf[n..][r.consumed..]) by {
        assert buf[n..][r.consumed..] == buf[c.consumed..];
      }
      assert Flatten(c.traversals) == head + Flatten(r.traversals) by {
        assert ([t] + r.traversals)[1..] == r.traversals;
      }
      ValuesSplit(buf, n);
      Regroup(head, Flatten(r.traversals), tail, Values(buf[n..]));
    }
  }

  lemma Regroup<T>(a: seq<T>, b: seq<T>, c: seq<T>, d: seq<T>)
    requires b + c == d
    ensures (a + b) + c == a + d
  {
  }

  lemma ValuesSplit<V>(s: seq<Entry<V>>, n: nat)
    requires n <= |s|
    ensures Values(s[..n]) + Values(s[n..]) == Values(s)
  {
    var a, b := s[..n], s[n..];
    assert a + b == s;
    ValuesAppend(a, b);
  }

  lemma {:induction false} ValuesAppend<V>(s: seq<Entry<V>>, t: seq<Entry<V>>)
    ensures Values(s + t) == Values(s) + Values(t)
  {
    if s == [] {
      assert s + t == t;
    } else {
      assert (s + t)[1..] == s[1..] + t;
      ValuesAppend(s[1..], t);
    }
  }

  /** A traversal is a non-empty run on its own connection, followed by a
      record on another connection. */
  predicate WellFormed(t: Traversal) {
    && t.records != []
    && (forall j :: 0 <= j < |t.records| ==> t.records[j].connectionId == t.connectionId)
    && t.following.Some?
    && t.following.value.connectionId != t.connectionId
  }

  function LastRecord(t: Traversal): FcdRecord
    requires t.records != []
  {
    t.records[|t.records| - 1]
  }

  lemma RunTraversalWellFormed(lookBack: Option<FcdRecord>, buf: seq<Entry<FcdRecord>>, n: nat)
    requires n == Run(buf) && n < |buf|
    ensures n > 0
    ensures WellFormed(RunTraversal(lookBack, buf, n))
    ensures RunTraversal(lookBack, buf, n).previous == lookBack
    ensures LastRecord(RunTraversal(lookBack, buf, n)) == buf[n - 1].value
    ensures RunTraversal(lookBack, buf, n).following == Some(buf[n].value)
  {
    var t := RunTraversal(lookBack, buf, n);
    RunFacts(buf);
    forall j | 0 <= j < |t.records|
      ensures t.records[j].connectionId == t.connectionId
    {
      ValuesAt(buf[..n], j);
    }
    ValuesAt(buf[..n], n - 1);
  }

  /** Every traversal cut from a buffer is well formed; the first one's
      previous record is the look-back, each later one's previous record is
      the last record of the one before, on a different connection. */
  lemma {:induction false} CutTraversalsWellFormed(lookBack: Option<FcdRecord>, buf: seq<Entry<FcdRecord>>)
    ensures var ts := Cut(lookBack, buf).traversals;
      forall i :: 0 <= i < |ts| ==>
        && WellFormed(ts[i])
        && (i == 0 ==> ts[i].previous == lookBack)
        && (i > 0 ==> ts[i].previous == Some(LastRecord(ts[i - 1])))
        && (i > 0 ==> ts[i].connectionId != ts[i - 1].connectionId)
    decreases |buf|
  {
    var n := Run(buf);
    if n < |buf| {
      var t := RunTraversal(lookBack, buf, n);
      var r := Cut(Some(buf[n - 1].value), buf[n..]);
      var ts := Cut(lookBack, buf).traversals;
      assert ts == [t] + r.traversals;
      RunTraversalWellFormed(lookBack, buf, n);
      CutTraversalsWellFormed(Some(buf[n - 1].value), buf[n..]);
      if |r.traversals| > 0 {
        CutFirst(Some(buf[n - 1].value), buf[n..]);
      }
      forall i | 0 <= i < |ts|
        ensures WellFormed(ts[i])
        ensures i == 0 ==> ts[i].previous == lookBack
        ensures i > 0 ==> ts[i].previous == Some(LastRecord(ts[i - 1]))
        ensures i > 0 ==> ts[i].connectionId != ts[i - 1].connectionId
      {
        if i > 0 {
          assert ts[i] == r.traversals[i - 1];
        }
      }
    }
  }

  /** The first traversal lies on the first buffered record's connection. */
  lemma CutFirst(lookBack: Option<FcdRecord>, buf: seq<Entry<FcdRecord>>)
    requires |Cut(lookBack, buf).traversals| > 0
    ensures buf != []
    ensures Cut(lookBack, buf).traversals[0].connectionId == buf[0].value.connectionId
  {
  }

  /** One traversal is emitted for every route entry but the last, on that
      entry's connection and in route order. */
  lemma {:induction false} CutFollowsRoute(lookBack: Option<FcdRecord>, buf: seq<Entry<FcdRecord>>)
    requires buf != []
    ensures |Cut(lookBack, buf).traversals| == |Route(Conns(buf))| - 1
    ensures forall i :: 0 <= i < |Cut(lookBack, buf).traversals| ==>
      Cut(lookBack, buf).traversals[i].connectionId == Route(Conns(buf))[i]
    decreases |buf|
  {
    var n := Run(buf);
    RouteSplit(buf);
    if n < |buf| {
      var r := Cut(Some(buf[n - 1].value), buf[n..]);
      var ts := Cut(lookBack, buf).traversals;
      assert ts == [RunTraversal(lookBack, buf, n)] + r.traversals;
      CutFollowsRoute(Some(buf[n - 1].value), buf[n..]);
      forall i | 0 <= i < |ts|
        ensures ts[i].connectionId == Route(Conns(buf))[i]
      {
        if i > 0 {
          assert ts[i] == r.traversals[i - 1];
        }
      }
    }
  }

  /** Records newer than the buffer extend the route exactly as scanning the
      whole merged buffer would. */
  lemma RouteOfMerge(buf: seq<Entry<FcdRecord>>, more: seq<Entry<FcdRecord>>)
    requires Sorted(buf) && Sorted(more)
    requires buf != [] && more != [] ==> buf[|buf| - 1].key < more[0].key
    ensures Sorted(PutAll(buf, more))
    ensures Route(Conns(PutAll(buf, more))) == Extend(Route(Conns(buf)), Conns(more))
  {
    PutAllAbove(buf, more);
    ConnsAppend(buf, more);
    ExtendAppend([], Conns(buf), Conns(more));
  }
}
