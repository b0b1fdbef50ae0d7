/**
 The bounding-box wireframe of vis.py as pure combinatorics. A box has
 eight corners, numbered by the order of the unit-corner table, and twelve
 edges: the pairs of corners that differ in exactly one coordinate. The
 renderer draws the box as one 16-point polyline over a fixed index list.
 Its 15 steps each run along an edge, and together they cover all twelve
 edges. There are no face or space diagonals, and three edges are drawn
 twice.
 */
module Wireframe {

  /** Signs of the unit corner `k` along x, y and z (the `-1`/`1` table
      that is halved and lifted into the box corners). */
  const CornerSigns: seq<(int, int, int)> :=
    [(-1, 1, -1), (1, 1, -1), (1, -1, -1), (-1, -1, -1),
     (-1, 1, 1), (1, 1, 1), (1, -1, 1), (-1, -1, 1)]

  /** The corner indices the polyline visits, in order. */
  const WireframeOrder: seq<nat> := [0, 3, 7, 3, 2, 6, 2, 1, 5, 1, 0, 4, 7, 6, 5, 4]

  function Differs(a: int, b: int): (r: nat)
  {
    if a == b then 0 else 1
  }

  /** Corners `i` and `j` share an edge: their signs differ in exactly one axis. */
  predicate Adjacent(i: nat, j: nat)
    requires i < 8 && j < 8
  {
    var (a, b) := (CornerSigns[i], CornerSigns[j]);
    Differs(a.0, b.0) + Differs(a.1, b.1) + Differs(a.2, b.2) == 1
  }

  /** An edge as an unordered pair, smaller index first. */
  function Edge(i: nat, j: nat): (r: (nat, nat))
  {
    if i <= j then (i, j) else (j, i)
  }

  /** The twelve edges of the box. */
  const BoxEdges: set<(nat, nat)> :=
    {(0, 1), (1, 2), (2, 3), (0, 3),
     (4, 5), (5, 6), (6, 7), (4, 7),
     (0, 4), (1, 5), (2, 6), (3, 7)}

  /** The segment drawn by step `k` of the polyline. */
  function Segment(k: nat): (r: (nat, nat))
    requires k < 15
  {
    Edge(WireframeOrder[k], WireframeOrder[k + 1])
  }

  /** The table of edges is exactly the adjacency relation. */
  lemma BoxEdgesAreAdjacency()
    ensures forall i, j :: 0 <= i < j < 8 ==> (Adjacent(i, j) <==> (i, j) in BoxEdges)
  {
    forall i, j | 0 <= i < j < 8
      ensures Adjacent(i, j) <==> (i, j) in BoxEdges
    {
    }
  }

  /** A box has exactly twelve edges. */
  lemma TwelveEdges()
    ensures |BoxEdges| == 12
  {
    var s1 := {(0, 1), (1, 2), (2, 3), (0, 3)};
    var s2 := {(4, 5), (5, 6), (6, 7), (4, 7)};
    var s3 := {(0, 4), (1, 5), (2, 6), (3, 7)};
    assert |s1| == 4 && |s2| == 4 && |s3| == 4;
    assert s1 !! s2 && (s1 + s2) !! s3;
    assert BoxEdges == s1 + s2 + s3;
  }

  /** The polyline has sixteen points, all of them corner indices, and it
      visits every corner. */
  lemma WireframeVisitsEveryCorner()
    ensures |WireframeOrder| == 16
    ensures forall k :: 0 <= k < 16 ==> WireframeOrder[k] < 8
    ensures forall c :: 0 <= c < 8 ==> c in WireframeOrder
  {
  }

  /** Every step of the polyline runs along an edge of the box: no step
      cuts across a face or through the box. */
  lemma WireframeStepsAreEdges()
    ensures forall k :: 0 <= k < 15 ==> Adjacent(WireframeOrder[k], WireframeOrder[k + 1])
    ensures forall k :: 0 <= k < 15 ==> Segment(k) in BoxEdges
  {
  }

  /** Every edge of the box is drawn by some step of the polyline. */
  lemma WireframeCoversEveryEdge()
    ensures forall e :: e in BoxEdges ==> exists k :: 0 <= k < 15 && Segment(k) == e
  {
    assert Segment(0) == (0, 3) && Segment(1) == (3, 7) && Segment(3) == (2, 3);
    assert Segment(4) == (2, 6) && Segment(6) == (1, 2) && Segment(7) == (1, 5);
    assert Segment(9) == (0, 1) && Segment(10) == (0, 4) && Segment(11) == (4, 7);
    assert Segment(12) == (6, 7) && Segment(13) == (5, 6) && Segment(14) == (4, 5);
  }

  /** The 15 steps draw the 12 edges, so exactly three are drawn twice: the
      three vertical edges the polyline walks back along. */
  lemma WireframeRepeats()
    ensures (set k | 0 <= k < 15 :: Segment(k)) == BoxEdges
    ensures Segment(1) == Segment(2) && Segment(4) == Segment(5) && Segment(7) == Segment(8)
  {
    var drawn := set k | 0 <= k < 15 :: Segment(k);
    assert drawn <= BoxEdges by {
      WireframeStepsAreEdges();
    }
    assert BoxEdges <= drawn by {
      forall e | e in BoxEdges
        ensures e in drawn
      {
        WireframeCoversEveryEdge();
        var k :| 0 <= k < 15 && Segment(k) == e;
      }
    }
  }
}
