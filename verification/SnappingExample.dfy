/**
  A boundary that one snap does not settle, with a library that can write and read it: the
  hypothesis that encoded geometry decodes to nothing else is met where snapping moves something.
 */
module SnappingExample {
  import opened Options
  import opened Planar
  import opened Boundaries
  import opened Snapping

  const O := Point(0.0, 0.0)
  const A := Point(10.0, 0.0)
  const B := Point(10.0, 10.0)
  const C := Point(0.0, 10.0)

  /** The reference. */
  const SQUARE := Polygon([[O, A, B, C, O]])

  /** A triangle with one corner near the reference. */
  function Triangle(corner: Point): Polygon {
    Polygon([[corner, FAR, FARTHER, corner]])
  }

  const FAR := Point(30.0, 0.0)
  const FARTHER := Point(30.0, 30.0)

  const NEAR := Point(3.0, 3.0)
  const FOOT := Point(3.0, 0.0)

  function Decoded(text: string): Option<Polygon> {
    if text == "square" then Some(SQUARE)
    else if text == "near" then Some(Triangle(NEAR))
    else if text == "foot" then Some(Triangle(FOOT))
    else if text == "corner" then Some(Triangle(O))
    else None
  }

  function Encoded(p: Polygon): string {
    if p == SQUARE then "square"
    else if p == Triangle(NEAR) then "near"
    else if p == Triangle(FOOT) then "foot"
    else if p == Triangle(O) then "corner"
    else ""
  }

  /** Reads and writes four polygons. */
  const FOUR := Library(
    s => Decoded(s), p => Encoded(p), p => true, s => true, s => true, t => "",
    (p, q) => None, (p, q) => None, (p, q) => None, p => "")

  lemma FourRoundTrips()
    ensures RoundTrips(FOUR)
  {
    forall p ensures FOUR.decode(FOUR.encode(p)).None? || FOUR.decode(FOUR.encode(p)) == Some(p) {
    }
  }

  // --- The reference's vertices and edges ----------------------------------------------------

  const VERTICES := [O, A, B, C, O]
  const EDGES := [Segment(O, A), Segment(A, B), Segment(B, C), Segment(C, O)]

  lemma References()
    ensures Flatten(RingsOf([SQUARE])) == VERTICES && SegmentsOf(RingsOf([SQUARE])) == EDGES
  {
    SquareEdges();
    OneRing(VERTICES);
  }

  lemma OneRing(ring: seq<Point>)
    ensures Flatten(RingsOf([Polygon([ring])])) == ring && SegmentsOf(RingsOf([Polygon([ring])])) == RingSegments(ring)
  {
    hide RingSegments;
    assert RingsOf([Polygon([ring])]) == [ring];
    assert Flatten([ring]) == ring;
    assert SegmentsOf([ring]) == RingSegments(ring);
  }

  lemma SquareEdges()
    ensures RingSegments(VERTICES) == EDGES
  {
    hide RingSegments, Shoelace, Cross;
    NoEdge(O);
    OneMoreEdge([O], A);
    OneMoreEdge([O, A], B);
    OneMoreEdge([O, A, B], C);
    OneMoreEdge([O, A, B, C], O);
    assert [O] + [A] == [O, A] && [O, A] + [B] == [O, A, B] && [O, A, B] + [C] == [O, A, B, C] && [O, A, B, C] + [O] == VERTICES;
  }

  lemma OneMoreEdge(ring: seq<Point>, p: Point)
    requires |ring| > 0
    ensures RingSegments(ring + [p]) == RingSegments(ring) + [Segment(ring[|ring| - 1], p)]
    ensures Shoelace(ring + [p]) == Shoelace(ring) + Cross(ring[|ring| - 1], p)
  {
    assert (ring + [p])[..|ring|] == ring;
  }

  lemma NoEdge(p: Point)
    ensures RingSegments([p]) == [] && Shoelace([p]) == 0.0
  {
  }

  /** Nothing of the reference reaches beyond ten. */
  lemma EdgesAreBounded(q: Point)
    requires OnSomeSegment(q, EDGES)
    ensures q.x <= 10.0
  {
    var i :| 0 <= i < |EDGES| && OnSegment(q, EDGES[i]);
    var t: real :| 0.0 <= t <= 1.0 && q == At(EDGES[i], t);
  }

  lemma FarStays(p: Point)
    requires p.x == 30.0
    ensures SnapPoint(p, VERTICES, EDGES, 16.0) == p
  {
    forall q: Point | q.x <= 10.0 ensures DistanceSquared(p, q) > 16.0 {
      BeyondReach(p.x - q.x, p.y - q.y);
    }
    hide DistanceSquared, NearestTarget, OnSegment;
    forall q | OnSomeSegment(q, EDGES) ensures DistanceSquared(p, q) > 16.0 {
      EdgesAreBounded(q);
    }
    UnmovedExactly(p, VERTICES, EDGES, 16.0);
  }

  lemma BeyondReach(a: real, b: real)
    requires a >= 20.0
    ensures NormSquared(a, b) > 16.0
  {
    SquareNonNegative(b);
    ProductNonNegative(a - 20.0, a - 20.0);
    assert (a - 20.0) * (a - 20.0) == a * a - 40.0 * a + 400.0;
  }

  // --- The corner's two moves --------------------------------------------------------------------

  lemma DistanceIs(p: Point, q: Point, a: real, b: real, d: real)
    requires p.x - q.x == a && p.y - q.y == b && d == a * a + b * b
    ensures DistanceSquared(p, q) == d
  {
  }

  lemma NearDistances()
    ensures DistanceSquared(NEAR, O) == 18.0 && DistanceSquared(NEAR, A) == 58.0
    ensures DistanceSquared(NEAR, B) == 98.0 && DistanceSquared(NEAR, C) == 58.0
    ensures DistanceSquared(NEAR, FOOT) == 9.0 && DistanceSquared(NEAR, Point(10.0, 3.0)) == 49.0
    ensures DistanceSquared(NEAR, Point(3.0, 10.0)) == 49.0 && DistanceSquared(NEAR, Point(0.0, 3.0)) == 9.0
  {
    hide DistanceSquared;
    DistanceIs(NEAR, O, 3.0, 3.0, 18.0);
    DistanceIs(NEAR, A, -7.0, 3.0, 58.0);
    DistanceIs(NEAR, B, -7.0, -7.0, 98.0);
    DistanceIs(NEAR, C, 3.0, -7.0, 58.0);
    DistanceIs(NEAR, FOOT, 0.0, 3.0, 9.0);
    DistanceIs(NEAR, Point(10.0, 3.0), -7.0, 0.0, 49.0);
    DistanceIs(NEAR, Point(3.0, 10.0), 0.0, -7.0, 49.0);
    DistanceIs(NEAR, Point(0.0, 3.0), 3.0, 0.0, 9.0);
  }

  lemma FootDistances()
    ensures DistanceSquared(FOOT, O) == 9.0 && DistanceSquared(FOOT, A) == 49.0
    ensures DistanceSquared(FOOT, B) == 149.0 && DistanceSquared(FOOT, C) == 109.0
  {
    hide DistanceSquared;
    DistanceIs(FOOT, O, 3.0, 0.0, 9.0);
    DistanceIs(FOOT, A, -7.0, 0.0, 49.0);
    DistanceIs(FOOT, B, -7.0, -10.0, 149.0);
    DistanceIs(FOOT, C, 3.0, -10.0, 109.0);
  }

  lemma FootOn(s: Segment, q: Point, t: real)
    requires LengthSquared(s) == 100.0 && Dot(NEAR, s) == 100.0 * t && 0.0 <= t <= 1.0 && q == At(s, t)
    ensures ProjectOntoSegment(NEAR, s) == q
  {
    hide LengthSquared, Dot, At;
    assert (100.0 * t) / 100.0 == t;
  }

  lemma LowerFeet()
    ensures ProjectOntoSegment(NEAR, EDGES[0]) == FOOT
    ensures ProjectOntoSegment(NEAR, EDGES[1]) == Point(10.0, 3.0)
  {
    hide ProjectOntoSegment;
    FootOn(EDGES[0], FOOT, 0.3);
    FootOn(EDGES[1], Point(10.0, 3.0), 0.3);
  }

  lemma UpperFeet()
    ensures ProjectOntoSegment(NEAR, EDGES[2]) == Point(3.0, 10.0)
    ensures ProjectOntoSegment(NEAR, EDGES[3]) == Point(0.0, 3.0)
  {
    hide ProjectOntoSegment;
    FootOn(EDGES[2], Point(3.0, 10.0), 0.7);
    FootOn(EDGES[3], Point(0.0, 3.0), 0.7);
  }

  lemma Feet()
    ensures Projections(NEAR, EDGES) == [FOOT, Point(10.0, 3.0), Point(3.0, 10.0), Point(0.0, 3.0)]
  {
    hide ProjectOntoSegment;
    LowerFeet();
    UpperFeet();
  }

  /** No vertex is in reach and two edges tie: the first takes the corner to its foot. */
  lemma NearMoves()
    ensures SnapPoint(NEAR, VERTICES, EDGES, 16.0) == FOOT
  {
    NearDistances();
    Feet();
    hide DistanceSquared, ProjectOntoSegment, Projections;
    assert forall i | 0 <= i < |VERTICES| :: DistanceSquared(NEAR, VERTICES[i]) > 16.0;
    var feet := Projections(NEAR, EDGES);
    assert forall i | 0 <= i < |feet| :: DistanceSquared(NEAR, feet[i]) >= DistanceSquared(NEAR, feet[0]);
    FirstIsNearest(NEAR, feet, 16.0);
  }

  lemma FirstIsNearest(p: Point, points: seq<Point>, reach: real)
    requires |points| > 0 && DistanceSquared(p, points[0]) <= reach
    requires forall i | 0 <= i < |points| :: DistanceSquared(p, points[0]) <= DistanceSquared(p, points[i])
    ensures FirstNearest(p, points, reach) == Some(0)
  {
    hide DistanceSquared;
  }

  /** The foot has a vertex in reach, and so moves on. */
  lemma FootMoves()
    ensures SnapPoint(FOOT, VERTICES, EDGES, 16.0) == O
  {
    FootDistances();
    hide DistanceSquared, Projections;
    FirstIsNearest(FOOT, VERTICES, 16.0);
  }

  lemma SnappedTriangle(corner: Point, moved: Point)
    requires SnapPoint(corner, VERTICES, EDGES, 16.0) == moved
    ensures SnapRings(Triangle(corner).rings, VERTICES, EDGES, 16.0) == Triangle(moved).rings
  {
    hide SnapPoint, NearestTarget;
    FarStays(FAR);
    FarStays(FARTHER);
    var ring, after := Triangle(corner).rings[0], Triangle(moved).rings[0];
    assert SnapRing(ring, VERTICES, EDGES, 16.0) == after;
    assert SnapRings([ring], VERTICES, EDGES, 16.0) == [after];
  }

  lemma TriangleArea(corner: Point)
    ensures SignedArea(Triangle(corner).rings[0]) == (900.0 - 30.0 * corner.x) / 2.0
  {
    NoEdge(corner);
    OneMoreEdge([corner], FAR);
    OneMoreEdge([corner, FAR], FARTHER);
    OneMoreEdge([corner, FAR, FARTHER], corner);
    assert [corner] + [FAR] == [corner, FAR] && [corner, FAR] + [FARTHER] == [corner, FAR, FARTHER];
    assert [corner, FAR, FARTHER] + [corner] == Triangle(corner).rings[0];
    hide Shoelace;
  }

  lemma TriangleAccepted(corner: Point)
    requires corner == NEAR || corner == FOOT || corner == O
    ensures RingsAccepted(Triangle(corner).rings) && PolygonArea(Triangle(corner).rings) > 0.0
    ensures FOUR.decode(FOUR.encode(Triangle(corner))) == Some(Triangle(corner))
  {
    var ring := Triangle(corner).rings[0];
    TriangleArea(corner);
    hide SignedArea;
    assert Triangle(NEAR) != Triangle(FOOT) && Triangle(NEAR) != Triangle(O) && Triangle(FOOT) != Triangle(O) by {
      assert Triangle(NEAR).rings[0][0] == NEAR && Triangle(FOOT).rings[0][0] == FOOT && Triangle(O).rings[0][0] == O;
    }
    assert Triangle(corner) != SQUARE by {
      assert |Triangle(corner).rings[0]| == 4 && |SQUARE.rings[0]| == 5;
    }
  }

  lemma SnapOf(corner: Point, moved: Point)
    requires moved == FOOT || moved == O
    requires SnapPoint(corner, VERTICES, EDGES, 16.0) == moved
    ensures Snapped(FOUR, Triangle(corner), [SQUARE], 4.0).Some?
    ensures Snapped(FOUR, Triangle(corner), [SQUARE], 4.0).value.polygon == Triangle(moved)
  {
    hide SnapPoint, SnapRings, ChangesAlong, RingsAccepted, PolygonArea, Flatten, RingsOf, SegmentsOf, Decoded, Encoded;
    FourRoundTrips();
    References();
    SnappedTriangle(corner, moved);
    TriangleAccepted(moved);
    assert FOUR.valid(Triangle(moved));
    assert 4.0 * 4.0 == 16.0;
    SnappedIsMoved(FOUR, Triangle(corner), [SQUARE], 4.0);
  }

  /**
    A boundary that snapping once does not settle: its corner (3, 3) is out of every vertex's reach and goes
    to the first of two edges as near, at (3, 0), where a vertex is in reach; snapping again takes it to (0, 0).
   */
  lemma OnePassCanFallShort()
    ensures RoundTrips(FOUR) && Parsed(FOUR, "near") == Some(Triangle(NEAR)) && RingAccepted(SQUARE.rings[0], true)
    ensures var once := Snapped(FOUR, Triangle(NEAR), [SQUARE], 4.0);
      && once.Some? && once.value.polygon == Triangle(FOOT)
      && var twice := Snapped(FOUR, once.value.polygon, [SQUARE], 4.0);
         twice.Some? && twice.value.polygon == Triangle(O) && Triangle(O) != Triangle(FOOT)
  {
    hide Snapped, SnapPoint;
    FourRoundTrips();
    NearMoves();
    FootMoves();
    SnapOf(NEAR, FOOT);
    SnapOf(FOOT, O);
    TriangleAccepted(NEAR);
    SquareAccepted();
    assert Triangle(O).rings[0][0] != Triangle(FOOT).rings[0][0];
  }

  lemma SquareAccepted()
    ensures RingAccepted(SQUARE.rings[0], true)
  {
    NoEdge(O);
    OneMoreEdge([O], A);
    OneMoreEdge([O, A], B);
    OneMoreEdge([O, A, B], C);
    OneMoreEdge([O, A, B, C], O);
    assert [O] + [A] == [O, A] && [O, A] + [B] == [O, A, B] && [O, A, B] + [C] == [O, A, B, C] && [O, A, B, C] + [O] == SQUARE.rings[0];
    hide Shoelace;
    assert Shoelace(SQUARE.rings[0]) == 200.0;
  }
}
