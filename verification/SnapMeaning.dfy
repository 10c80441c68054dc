/**
  What snapping does to each coordinate, in terms of the reference polygons themselves: which vertex or
  edge point it goes to, when it stays, and what the recorded changes are.
 */
module SnapMeaning {
  import opened Options
  import opened Planar
  import opened Boundaries
  import opened Snapping

  // --- The references' vertices and edges ---------------------------------------------------

  ghost predicate IsVertex(references: seq<Polygon>, v: Point) {
    exists r, i, j ::
      && 0 <= r < |references| && 0 <= i < |references[r].rings| && 0 <= j < |references[r].rings[i]|
      && references[r].rings[i][j] == v
  }

  ghost predicate OnEdge(references: seq<Polygon>, q: Point) {
    exists r, i, j ::
      && 0 <= r < |references| && 0 <= i < |references[r].rings| && 0 <= j < |references[r].rings[i]| - 1
      && OnSegment(q, Segment(references[r].rings[i][j], references[r].rings[i][j + 1]))
  }

  lemma {:induction false} RingsJoin(a: seq<Polygon>, b: seq<Polygon>)
    ensures RingsOf(a + b) == RingsOf(a) + RingsOf(b)
  {
    if |b| == 0 {
      assert a + b == a;
    } else {
      RingsJoin(a, b[..|b| - 1]);
      assert (a + b)[..|a + b| - 1] == a + b[..|b| - 1];
    }
  }

  lemma OneReference(p: Polygon)
    ensures RingsOf([p]) == p.rings
  {
    assert RingsOf([]) == [];
  }

  /** Vertices and edges are collected reference by reference, ring by ring, in order: joining lists joins what is collected. */
  lemma {:induction false} VerticesJoin(a: seq<seq<Point>>, b: seq<seq<Point>>)
    ensures Flatten(a + b) == Flatten(a) + Flatten(b)
  {
    if |b| == 0 {
      assert a + b == a;
    } else {
      VerticesJoin(a, b[..|b| - 1]);
      assert (a + b)[..|a + b| - 1] == a + b[..|b| - 1];
    }
  }

  lemma {:induction false} EdgesJoin(a: seq<seq<Point>>, b: seq<seq<Point>>)
    ensures SegmentsOf(a + b) == SegmentsOf(a) + SegmentsOf(b)
  {
    hide RingSegments;
    if |b| == 0 {
      assert a + b == a;
    } else {
      EdgesJoin(a, b[..|b| - 1]);
      assert (a + b)[..|a + b| - 1] == a + b[..|b| - 1];
    }
  }

  lemma OneRingCollected(ring: seq<Point>)
    ensures Flatten([ring]) == ring && SegmentsOf([ring]) == RingSegments(ring)
  {
    assert Flatten([]) == [] && SegmentsOf([]) == [];
  }

  /** The edges of a ring are its consecutive pairs. */
  lemma {:induction false} EdgesOfRing(ring: seq<Point>)
    ensures |RingSegments(ring)| == if |ring| == 0 then 0 else |ring| - 1
    ensures forall j | 0 <= j < |ring| - 1 :: RingSegments(ring)[j] == Segment(ring[j], ring[j + 1])
  {
    if |ring| >= 2 {
      EdgesOfRing(ring[..|ring| - 1]);
    }
  }

  lemma {:induction false} RingMembers(references: seq<Polygon>, ring: seq<Point>)
    ensures ring in RingsOf(references) <==> exists r, i :: 0 <= r < |references| && 0 <= i < |references[r].rings| && references[r].rings[i] == ring
  {
    if |references| > 0 {
      var m := |references| - 1;
      RingMembers(references[..m], ring);
      if ring in RingsOf(references[..m]) {
        var r, i :| 0 <= r < m && 0 <= i < |references[..m][r].rings| && references[..m][r].rings[i] == ring;
        assert references[r].rings[i] == ring;
      }
      if ring in references[m].rings {
        var i :| 0 <= i < |references[m].rings| && references[m].rings[i] == ring;
      }
      if r, i :| 0 <= r < |references| && 0 <= i < |references[r].rings| && references[r].rings[i] == ring {
        if r < m {
          assert references[..m][r].rings[i] == ring;
        }
      }
    }
  }

  lemma {:induction false} VertexMembers(rings: seq<seq<Point>>, v: Point)
    ensures v in Flatten(rings) <==> exists ring :: ring in rings && v in ring
  {
    if |rings| > 0 {
      var m := |rings| - 1;
      VertexMembers(rings[..m], v);
      assert rings == rings[..m] + [rings[m]];
    }
  }

  lemma {:induction false} EdgeMembers(rings: seq<seq<Point>>, s: Segment)
    ensures s in SegmentsOf(rings) <==> exists ring :: ring in rings && s in RingSegments(ring)
  {
    if |rings| > 0 {
      var m := |rings| - 1;
      hide RingSegments;
      EdgeMembers(rings[..m], s);
      assert forall ring :: ring in rings <==> ring in rings[..m] || ring == rings[m];
      assert s in SegmentsOf(rings) <==> s in SegmentsOf(rings[..m]) || s in RingSegments(rings[m]);
    }
  }

  lemma VerticesAreTheReferences(references: seq<Polygon>, v: Point)
    ensures v in Flatten(RingsOf(references)) <==> IsVertex(references, v)
  {
    hide Flatten, RingsOf;
    VertexMembers(RingsOf(references), v);
    if v in Flatten(RingsOf(references)) {
      var ring :| ring in RingsOf(references) && v in ring;
      RingMembers(references, ring);
      var r, i :| 0 <= r < |references| && 0 <= i < |references[r].rings| && references[r].rings[i] == ring;
      var j :| 0 <= j < |ring| && ring[j] == v;
      assert references[r].rings[i][j] == v;
    }
    if IsVertex(references, v) {
      var r, i, j :| 0 <= r < |references| && 0 <= i < |references[r].rings| && 0 <= j < |references[r].rings[i]|
        && references[r].rings[i][j] == v;
      RingMembers(references, references[r].rings[i]);
    }
  }

  lemma EdgesAreTheReferences(references: seq<Polygon>, q: Point)
    ensures OnSomeSegment(q, SegmentsOf(RingsOf(references))) <==> OnEdge(references, q)
  {
    hide SegmentsOf, RingsOf, OnSegment, RingSegments;
    var segments := SegmentsOf(RingsOf(references));
    if OnSomeSegment(q, segments) {
      var k :| 0 <= k < |segments| && OnSegment(q, segments[k]);
      EdgeMembers(RingsOf(references), segments[k]);
      var ring :| ring in RingsOf(references) && segments[k] in RingSegments(ring);
      RingMembers(references, ring);
      EdgesOfRing(ring);
      var r, i :| 0 <= r < |references| && 0 <= i < |references[r].rings| && references[r].rings[i] == ring;
      var j :| 0 <= j < |RingSegments(ring)| && RingSegments(ring)[j] == segments[k];
      assert OnSegment(q, Segment(references[r].rings[i][j], references[r].rings[i][j + 1]));
    }
    if OnEdge(references, q) {
      var r, i, j :| 0 <= r < |references| && 0 <= i < |references[r].rings| && 0 <= j < |references[r].rings[i]| - 1
        && OnSegment(q, Segment(references[r].rings[i][j], references[r].rings[i][j + 1]));
      var ring := references[r].rings[i];
      RingMembers(references, ring);
      EdgesOfRing(ring);
      EdgeMembers(RingsOf(references), RingSegments(ring)[j]);
      var k :| 0 <= k < |segments| && segments[k] == RingSegments(ring)[j];
    }
  }

  // --- One coordinate -------------------------------------------------------------------------

  ghost predicate VertexWithin(references: seq<Polygon>, p: Point, t: real) {
    exists v :: IsVertex(references, v) && DistanceSquared(p, v) <= t * t
  }

  /** `q` is a vertex within tolerance, and no vertex is nearer. */
  ghost predicate NearestVertex(references: seq<Polygon>, p: Point, t: real, q: Point) {
    && IsVertex(references, q) && DistanceSquared(p, q) <= t * t
    && forall v | IsVertex(references, v) :: DistanceSquared(p, q) <= DistanceSquared(p, v)
  }

  /** `q` is on an edge within tolerance, and no point of any edge is nearer. */
  ghost predicate NearestOnEdge(references: seq<Polygon>, p: Point, t: real, q: Point) {
    && OnEdge(references, q) && DistanceSquared(p, q) <= t * t
    && forall e | OnEdge(references, e) :: DistanceSquared(p, q) <= DistanceSquared(p, e)
  }

  ghost predicate OutOfReach(references: seq<Polygon>, p: Point, t: real) {
    forall e | OnEdge(references, e) :: DistanceSquared(p, e) > t * t
  }

  /** Where snapping sends a coordinate. */
  ghost predicate SnapsTo(references: seq<Polygon>, p: Point, t: real, q: Point) {
    if VertexWithin(references, p, t) then NearestVertex(references, p, t, q)
    else NearestOnEdge(references, p, t, q) || (OutOfReach(references, p, t) && q == p)
  }

  function Snap(references: seq<Polygon>, p: Point, t: real): Point {
    SnapPoint(p, Flatten(RingsOf(references)), SegmentsOf(RingsOf(references)), t * t)
  }

  lemma ReachIsTheSame(references: seq<Polygon>, p: Point, t: real)
    ensures VertexWithin(references, p, t) <==> VertexInReach(p, Flatten(RingsOf(references)), t * t)
  {
    hide Flatten, RingsOf, DistanceSquared, IsVertex;
    var vertices := Flatten(RingsOf(references));
    if VertexInReach(p, vertices, t * t) {
      var i :| 0 <= i < |vertices| && DistanceSquared(p, vertices[i]) <= t * t;
      VerticesAreTheReferences(references, vertices[i]);
    }
    if VertexWithin(references, p, t) {
      var v :| IsVertex(references, v) && DistanceSquared(p, v) <= t * t;
      VerticesAreTheReferences(references, v);
    }
  }

  /** A coordinate with a reference vertex within tolerance goes to a nearest one, else to a nearest edge point within it, else nowhere. */
  lemma SnapGoesToNearest(references: seq<Polygon>, p: Point, t: real)
    ensures SnapsTo(references, p, t, Snap(references, p, t))
  {
    hide Flatten, RingsOf, SegmentsOf, DistanceSquared, IsVertex, OnEdge, SnapPoint, OnSomeSegment;
    var vertices, segments, reach := Flatten(RingsOf(references)), SegmentsOf(RingsOf(references)), t * t;
    SquareNonNegative(t);
    ReachIsTheSame(references, p, t);
    MoveWithinReach(p, vertices, segments, reach);
    var q := Snap(references, p, t);
    if VertexWithin(references, p, t) {
      VertexTargetIsFirstNearest(p, vertices, segments, reach);
      var i :| 0 <= i < |vertices| && q == vertices[i]
        && (forall j | 0 <= j < |vertices| :: DistanceSquared(p, vertices[i]) <= DistanceSquared(p, vertices[j]));
      VerticesAreTheReferences(references, q);
      forall v | IsVertex(references, v) ensures DistanceSquared(p, q) <= DistanceSquared(p, v) {
        VerticesAreTheReferences(references, v);
      }
    } else if !OutOfReach(references, p, t) {
      EdgeSnap(references, p, t);
    } else {
      StaysPut(references, p, t);
    }
  }

  lemma EdgeSnap(references: seq<Polygon>, p: Point, t: real)
    requires !VertexWithin(references, p, t) && !OutOfReach(references, p, t)
    ensures NearestOnEdge(references, p, t, Snap(references, p, t))
  {
    hide Flatten, RingsOf, SegmentsOf, DistanceSquared, IsVertex, OnEdge, SnapPoint, OnSomeSegment;
    var vertices, segments, reach := Flatten(RingsOf(references)), SegmentsOf(RingsOf(references)), t * t;
    SquareNonNegative(t);
    ReachIsTheSame(references, p, t);
    MoveWithinReach(p, vertices, segments, reach);
    var q := Snap(references, p, t);
    var near :| OnEdge(references, near) && DistanceSquared(p, near) <= t * t;
    EdgesAreTheReferences(references, near);
    EdgeTargetIsNearest(p, vertices, segments, reach, near);
    EdgesAreTheReferences(references, q);
    forall e | OnEdge(references, e) ensures DistanceSquared(p, q) <= DistanceSquared(p, e) {
      EdgesAreTheReferences(references, e);
      if DistanceSquared(p, e) <= reach {
        EdgeTargetIsNearest(p, vertices, segments, reach, e);
      }
    }
  }

  lemma StaysPut(references: seq<Polygon>, p: Point, t: real)
    requires !VertexWithin(references, p, t) && OutOfReach(references, p, t)
    ensures Snap(references, p, t) == p
  {
    hide Flatten, RingsOf, SegmentsOf, DistanceSquared, IsVertex, OnEdge, OnSomeSegment;
    var vertices, segments := Flatten(RingsOf(references)), SegmentsOf(RingsOf(references));
    SquareNonNegative(t);
    ReachIsTheSame(references, p, t);
    forall e | OnSomeSegment(e, segments) ensures DistanceSquared(p, e) > t * t {
      EdgesAreTheReferences(references, e);
    }
    UnmovedExactly(p, vertices, segments, t * t);
  }

  // --- The recorded changes ---------------------------------------------------------------------

  /** The record of one coordinate: nothing when it stays, else where it went, how, and how far. */
  ghost function RecordOf(references: seq<Polygon>, p: Point, t: real): seq<SnapChange> {
    var q := Snap(references, p, t);
    if q == p then []
    else [SnapChange(p, q, if VertexWithin(references, p, t) then Vertex else Edge, DistanceSquared(p, q))]
  }

  /** The records of a list of coordinates, in visiting order. */
  ghost function RecordsOf(references: seq<Polygon>, points: seq<Point>, t: real): seq<SnapChange> {
    if |points| == 0 then [] else RecordsOf(references, points[..|points| - 1], t) + RecordOf(references, points[|points| - 1], t)
  }

  lemma TargetIsRecorded(references: seq<Polygon>, p: Point, t: real)
    ensures var target := NearestTarget(p, Flatten(RingsOf(references)), SegmentsOf(RingsOf(references)), t * t);
      RecordOf(references, p, t) == if target.Unmoved? then [] else [SnapChange(p, target.to, target.kind, target.distanceSquared)]
  {
    var vertices, segments := Flatten(RingsOf(references)), SegmentsOf(RingsOf(references));
    hide Flatten, RingsOf, SegmentsOf, FirstNearest, DistanceSquared;
    ReachIsTheSame(references, p, t);
    NoVertexFound(p, vertices, t * t);
    TargetDistance(p, vertices, segments, t * t);
  }

  lemma {:induction false} ChangesAreRecords(references: seq<Polygon>, points: seq<Point>, t: real)
    ensures ChangesAlong(points, Flatten(RingsOf(references)), SegmentsOf(RingsOf(references)), t * t) == RecordsOf(references, points, t)
  {
    if |points| > 0 {
      ChangesAreRecords(references, points[..|points| - 1], t);
      TargetIsRecorded(references, points[|points| - 1], t);
      hide RecordOf, NearestTarget;
    }
  }

  /**
    A snap with a tolerance records exactly the coordinates that moved, in visiting order, and succeeds with the
    encoding of the moved rings; without one it returns the candidate as it is.
   */
  lemma SnapMeans(lib: Library, candidate: Polygon, references: seq<Polygon>, t: real)
    requires Snapped(lib, candidate, references, t).Some?
    ensures var r := Snapped(lib, candidate, references, t).value;
      if t <= 0.0 then r == SnapResult(lib.encode(candidate), candidate, [])
      else
        && r.changes == RecordsOf(references, Flatten(candidate.rings), t)
        && r.encoded == lib.encode(Polygon(MovedRings(references, candidate.rings, t)))
        && Parsed(lib, r.encoded) == Some(r.polygon)
  {
    if t > 0.0 {
      ChangesAreRecords(references, Flatten(candidate.rings), t);
      MovedRingsAre(references, candidate.rings, t);
      hide ChangesAlong, SnapRings, Flatten, RingsOf, SegmentsOf, RecordsOf, MovedRings, Parsed;
    }
  }

  /** Every coordinate of every ring, snapped. */
  ghost function MovedRings(references: seq<Polygon>, rings: seq<seq<Point>>, t: real): seq<seq<Point>> {
    seq(|rings|, i requires 0 <= i < |rings| => MovedRing(references, rings[i], t))
  }

  ghost function MovedRing(references: seq<Polygon>, ring: seq<Point>, t: real): seq<Point> {
    seq(|ring|, j requires 0 <= j < |ring| => Snap(references, ring[j], t))
  }

  lemma MovedRingsAre(references: seq<Polygon>, rings: seq<seq<Point>>, t: real)
    ensures SnapRings(rings, Flatten(RingsOf(references)), SegmentsOf(RingsOf(references)), t * t) == MovedRings(references, rings, t)
  {
    hide SnapPoint, Flatten, RingsOf, SegmentsOf;
    var vertices, segments := Flatten(RingsOf(references)), SegmentsOf(RingsOf(references));
    forall i | 0 <= i < |rings| ensures SnapRing(rings[i], vertices, segments, t * t) == MovedRing(references, rings[i], t) {
    }
  }

  lemma {:induction false} RecordedMembers(references: seq<Polygon>, points: seq<Point>, t: real, c: SnapChange)
    ensures c in RecordsOf(references, points, t) <==> exists p :: p in points && c in RecordOf(references, p, t)
  {
    hide RecordOf;
    if |points| > 0 {
      var m := |points| - 1;
      RecordedMembers(references, points[..m], t, c);
      assert points == points[..m] + [points[m]];
    }
  }
}
