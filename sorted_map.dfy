/** java.util.SortedMap<Long, V> (a TreeMap), as the source uses it for
    time-stamped record buffers: a sequence of entries whose keys strictly
    increase, so that iteration order, firstKey() and lastKey() are those of
    the sequence, and `ToMap` gives the abstract key/value mapping. */
module SortedMaps {

  datatype Entry<V> = Entry(key: int, value: V)

  /** Keys strictly increase: the TreeMap iteration order, no key twice. */
  predicate Sorted<V>(s: seq<Entry<V>>) {
    forall i, j :: 0 <= i < j < |s| ==> s[i].key < s[j].key
  }

  function Values<V>(s: seq<Entry<V>>): (r: seq<V>)
    ensures |r| == |s|
  {
    if s == [] then [] else [s[0].value] + Values(s[1..])
  }

  lemma {:induction false} ValuesAt<V>(s: seq<Entry<V>>, i: int)
    requires 0 <= i < |s|
    ensures Values(s)[i] == s[i].value
  {
    if i > 0 {
      ValuesAt(s[1..], i - 1);
    }
  }

  /** The abstract map an entry sequence stands for. */
  function ToMap<V>(s: seq<Entry<V>>): (m: map<int, V>)
    ensures forall i :: 0 <= i < |s| ==> s[i].key in m
  {
    if s == [] then map[]
    else ToMap(s[1..])[s[0].key := s[0].value]
  }

  /** Every key of the map is the key of some entry. */
  lemma {:induction false} ToMapKeys<V>(s: seq<Entry<V>>, k: int)
    requires k in ToMap(s)
    ensures exists i :: 0 <= i < |s| && s[i].key == k
  {
    if k != s[0].key {
      ToMapKeys(s[1..], k);
      var j :| 0 <= j < |s[1..]| && s[1..][j].key == k;
      assert s[j + 1].key == k;
    }
  }

  lemma {:induction false} ToMapAt<V>(s: seq<Entry<V>>, i: int)
    requires Sorted(s) && 0 <= i < |s|
    ensures ToMap(s)[s[i].key] == s[i].value
  {
    if i > 0 {
      ToMapAt(s[1..], i - 1);
    }
  }

  /** firstKey() and lastKey() are the least and greatest keys. */
  lemma KeysBounded<V>(s: seq<Entry<V>>)
    requires Sorted(s)
    ensures |s| > 0 ==> forall k :: k in ToMap(s) ==> s[0].key <= k <= s[|s| - 1].key
  {
    forall k | k in ToMap(s)
      ensures s[0].key <= k <= s[|s| - 1].key
    {
      ToMapKeys(s, k);
    }
  }

  /** TreeMap.put: insert or replace the entry for `k`. */
  function Put<V>(s: seq<Entry<V>>, k: int, v: V): (r: seq<Entry<V>>)
    requires Sorted(s)
    ensures Sorted(r)
    ensures ToMap(r) == ToMap(s)[k := v]
    ensures |r| > 0 && r[0].key == (if s == [] || k < s[0].key then k else s[0].key)
  {
    if s == [] then [Entry(k, v)]
    else if k < s[0].key then
      assert ([Entry(k, v)] + s)[1..] == s;
      ConsSorted(Entry(k, v), s);
      [Entry(k, v)] + s
    else if k == s[0].key then
      var r := [Entry(k, v)] + s[1..];
      assert r[1..] == s[1..];
      ConsSorted(Entry(k, v), s[1..]);
      r
    else
      var rest := Put(s[1..], k, v);
      var r := [s[0]] + rest;
      assert r[1..] == rest;
      KeysBounded(s[1..]);
      assert forall j :: 0 <= j < |rest| ==> rest[j].key in ToMap(rest);
      ConsSorted(s[0], rest);
      UpdateCommute(ToMap(s[1..]), k, v, s[0].key, s[0].value);
      r
  }

  lemma ConsSorted<V>(e: Entry<V>, t: seq<Entry<V>>)
    requires Sorted(t)
    requires forall j :: 0 <= j < |t| ==> e.key < t[j].key
    ensures Sorted([e] + t)
  {
    var r := [e] + t;
    forall i, j | 0 <= i < j < |r| ensures r[i].key < r[j].key {
      assert r[j] == t[j - 1];
      if i > 0 {
        assert r[i] == t[i - 1];
      }
    }
  }

  lemma UpdateCommute<V>(m: map<int, V>, k1: int, v1: V, k2: int, v2: V)
    requires k1 != k2
    ensures m[k1 := v1][k2 := v2] == m[k2 := v2][k1 := v1]
  {
  }

  /** TreeMap.putAll: every entry of `t` is put into `s`, so on a shared key
      the entry of `t` wins. */
  function PutAll<V>(s: seq<Entry<V>>, t: seq<Entry<V>>): (r: seq<Entry<V>>)
    requires Sorted(s) && Sorted(t)
    ensures Sorted(r)
    ensures ToMap(r) == ToMap(s) + ToMap(t)
    decreases |t|
  {
    if t == [] then s
    else
      var t' := t[1..];
      assert Sorted(t');
      KeysBounded(t');
      assert t[0].key !in ToMap(t');
      var s' := Put(s, t[0].key, t[0].value);
      var r := PutAll(s', t');
      UpdateThenUnion(ToMap(s), ToMap(t'), t[0].key, t[0].value);
      r
  }

  lemma UpdateThenUnion<V>(a: map<int, V>, b: map<int, V>, k: int, v: V)
    requires k !in b
    ensures a[k := v] + b == a + b[k := v]
  {
  }

  lemma {:induction false} PutAbove<V>(s: seq<Entry<V>>, k: int, v: V)
    requires Sorted(s)
    requires s != [] ==> s[|s| - 1].key < k
    ensures Put(s, k, v) == s + [Entry(k, v)]
  {
    if s != [] {
      assert s[0].key <= s[|s| - 1].key;
      PutAbove(s[1..], k, v);
      assert [s[0]] + (s[1..] + [Entry(k, v)]) == s + [Entry(k, v)];
    }
  }

  /** Putting entries whose keys all lie above the last key appends them. */
  lemma {:induction false} PutAllAbove<V>(s: seq<Entry<V>>, t: seq<Entry<V>>)
    requires Sorted(s) && Sorted(t)
    requires s != [] && t != [] ==> s[|s| - 1].key < t[0].key
    ensures Sorted(s + t)
    ensures PutAll(s, t) == s + t
    decreases |t|
  {
    if t != [] {
      var s' := s + [t[0]];
      PutAbove(s, t[0].key, t[0].value);
      assert s' + t[1..] == s + t;
      PutAllAbove(s', t[1..]);
    }
  }
}
