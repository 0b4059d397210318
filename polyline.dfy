/** The length of a road connection measured along its nodes
    (ScenarioDatabaseHelper.calcLengthByNodes). The geodesic distance between
    two points is foreign code and is a parameter. */
module Polylines {
  import opened Wrappers
  import opened Records

  /** The sum of the distances between consecutive nodes, in list order. */
  function PolylineLength(nodes: seq<GeoPoint>, distance: (GeoPoint, GeoPoint) -> real): real {
    if |nodes| < 2 then 0.0
    else distance(nodes[0], nodes[1]) + PolylineLength(nodes[1..], distance)
  }

  /** Appending a node adds exactly its distance from the previous last node. */
  lemma {:induction false} PolylineLengthAppend(nodes: seq<GeoPoint>, node: GeoPoint, distance: (GeoPoint, GeoPoint) -> real)
    requires nodes != []
    ensures PolylineLength(nodes + [node], distance)
         == PolylineLength(nodes, distance) + distance(nodes[|nodes| - 1], node)
  {
    if |nodes| == 1 {
      assert nodes + [node] == [nodes[0], node];
    } else {
      assert (nodes + [node])[1..] == nodes[1..] + [node];
      PolylineLengthAppend(nodes[1..], node, distance);
    }
  }

  /** With a non-negative distance the length is non-negative. */
  lemma {:induction false} PolylineLengthNonNegative(nodes: seq<GeoPoint>, distance: (GeoPoint, GeoPoint) -> real)
    requires forall a, b :: distance(a, b) >= 0.0
    ensures PolylineLength(nodes, distance) >= 0.0
  {
    if |nodes| >= 2 {
      PolylineLengthNonNegative(nodes[1..], distance);
    }
  }

  /** Zero or one node make no length, two nodes their distance. */
  lemma ShortPolylines(nodes: seq<GeoPoint>, distance: (GeoPoint, GeoPoint) -> real)
    ensures |nodes| < 2 ==> PolylineLength(nodes, distance) == 0.0
    ensures |nodes| == 2 ==> PolylineLength(nodes, distance) == distance(nodes[0], nodes[1])
  {
    if |nodes| == 2 {
      assert PolylineLength(nodes[1..], distance) == 0.0;
    }
  }

  /** calcLengthByNodes: one pass over the nodes, adding the distance from
      the previous node to each node after the first. */
  method CalcLengthByNodes(nodes: seq<GeoPoint>, distance: (GeoPoint, GeoPoint) -> real) returns (length: real)
    ensures length == PolylineLength(nodes, distance)
  {
    length := 0.0;
    var prev: Option<GeoPoint> := None;
    for i := 0 to |nodes|
      invariant length == PolylineLength(nodes[..i], distance)
      invariant prev == (if i == 0 then None else Some(nodes[i - 1]))
    {
      var curr := nodes[i];
      if prev.Some? {
        PolylineLengthAppend(nodes[..i], curr, distance);
        assert nodes[..i] + [curr] == nodes[..i + 1];
        length := length + distance(prev.value, curr);
      } else {
        assert nodes[..i + 1] == [curr];
      }
      prev := Some(curr);
    }
    assert nodes[..|nodes|] == nodes;
  }
}
