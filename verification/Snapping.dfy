/**
  Snapping candidate coordinates to reference boundaries: the nearest reference
  vertex within tolerance, else the nearest point of a reference edge, ties going to
  the first reference. Distances are compared squared, in exact arithmetic.
 */
module Snapping {
  import opened Options
  import opened Planar
  import opened Boundaries

  datatype Kind = Vertex | Edge

  datatype Target = Unmoved | Moved(to: Point, kind: Kind, distanceSquared: real)

  datatype SnapChange = SnapChange(before: Point, after: Point, kind: Kind, distanceSquared: real)

  datatype SnapResult = SnapResult(encoded: string, polygon: Polygon, changes: seq<SnapChange>)

  // --- The nearest target ----------------------------------------------------------

  /** The first of the nearest points within reach. */
  function FirstNearest(source: Point, points: seq<Point>, reach: real): (r: Option<nat>)
    ensures r.None? <==> forall i | 0 <= i < |points| :: DistanceSquared(source, points[i]) > reach
    ensures r.Some? ==>
      && r.value < |points|
      && DistanceSquared(source, points[r.value]) <= reach
      && (forall i | 0 <= i < |points| :: DistanceSquared(source, points[r.value]) <= DistanceSquared(source, points[i]))
      && (forall i | 0 <= i < r.value :: DistanceSquared(source, points[r.value]) < DistanceSquared(source, points[i]))
  {
    if |points| == 0 then None else
      var last := |points| - 1;
      var best := FirstNearest(source, points[..last], reach);
      var d := DistanceSquared(source, points[last]);
      if d <= reach && (best.None? || d < DistanceSquared(source, points[best.value])) then Some(last) else best
  }

  function Projections(source: Point, segments: seq<Segment>): (r: seq<Point>)
    ensures |r| == |segments|
    ensures forall i | 0 <= i < |segments| :: r[i] == ProjectOntoSegment(source, segments[i])
  {
    seq(|segments|, i requires 0 <= i < |segments| => ProjectOntoSegment(source, segments[i]))
  }

  function MoveTo(source: Point, to: Point, kind: Kind): Target {
    if to == source then Unmoved else Moved(to, kind, DistanceSquared(source, to))
  }

  function NearestTarget(source: Point, vertices: seq<Point>, segments: seq<Segment>, reach: real): Target {
    match FirstNearest(source, vertices, reach)
    case Some(i) => MoveTo(source, vertices[i], Vertex)
    case None =>
      match FirstNearest(source, Projections(source, segments), reach)
      case Some(i) => MoveTo(source, Projections(source, segments)[i], Edge)
      case None => Unmoved
  }

  /** The source's two scans, the second only when no vertex was found. */
  method FindSnapTarget(source: Point, vertices: seq<Point>, segments: seq<Segment>, reach: real)
    returns (target: Target)
    ensures target == NearestTarget(source, vertices, segments, reach)
  {
    var best: Option<Point> := None;
    var kind := Vertex;
    ghost var at := None;
    for i := 0 to |vertices|
      invariant at == FirstNearest(source, vertices[..i], reach)
      invariant best == if at.Some? then Some(vertices[at.value]) else None
    {
      var distance := DistanceSquared(source, vertices[i]);
      assert vertices[..i + 1][..i] == vertices[..i];
      if distance <= reach && (best.None? || distance < DistanceSquared(source, best.value)) {
        best := Some(vertices[i]);
        at := Some(i);
      }
    }
    assert vertices[..|vertices|] == vertices;
    if best.None? {
      kind := Edge;
      ghost var projections := Projections(source, segments);
      at := None;
      for i := 0 to |segments|
        invariant at == FirstNearest(source, projections[..i], reach)
        invariant best == if at.Some? then Some(projections[at.value]) else None
      {
        var projection := ProjectOntoSegment(source, segments[i]);
        var distance := DistanceSquared(source, projection);
        assert projections[..i + 1][..i] == projections[..i];
        if distance <= reach && (best.None? || distance < DistanceSquared(source, best.value)) {
          best := Some(projection);
          at := Some(i);
        }
      }
      assert projections[..|segments|] == projections;
    }
    if best.None? || best.value == source {
      return Unmoved;
    }
    return Moved(best.value, kind, DistanceSquared(source, best.value));
  }

  function SnapPoint(source: Point, vertices: seq<Point>, segments: seq<Segment>, reach: real): Point {
    match NearestTarget(source, vertices, segments, reach)
    case Unmoved => source
    case Moved(to, _, _) => to
  }

  // --- Soundness and completeness -----------------------------------------------------

  /** What reference rings guarantee: an edge's two ends are listed among the vertices. */
  ghost predicate EndpointsListed(vertices: seq<Point>, segments: seq<Segment>) {
    forall i | 0 <= i < |segments| :: segments[i].start in vertices && segments[i].end in vertices
  }

  ghost predicate VertexInReach(p: Point, vertices: seq<Point>, reach: real) {
    exists i :: 0 <= i < |vertices| && DistanceSquared(p, vertices[i]) <= reach
  }

  ghost predicate OnSomeSegment(p: Point, segments: seq<Segment>) {
    exists i :: 0 <= i < |segments| && OnSegment(p, segments[i])
  }

  /** No move is longer than the tolerance. */
  lemma MoveWithinReach(p: Point, vertices: seq<Point>, segments: seq<Segment>, reach: real)
    requires reach >= 0.0
    ensures DistanceSquared(p, SnapPoint(p, vertices, segments, reach)) <= reach
  {
    assert DistanceSquared(p, p) == 0.0;
  }

  /** A vertex target is a nearest vertex, the first one at that distance. */
  lemma VertexTargetIsFirstNearest(p: Point, vertices: seq<Point>, segments: seq<Segment>, reach: real)
    requires VertexInReach(p, vertices, reach)
    ensures exists i ::
      && 0 <= i < |vertices| && SnapPoint(p, vertices, segments, reach) == vertices[i]
      && (forall j | 0 <= j < |vertices| :: DistanceSquared(p, vertices[i]) <= DistanceSquared(p, vertices[j]))
      && (forall j | 0 <= j < i :: DistanceSquared(p, vertices[i]) < DistanceSquared(p, vertices[j]))
  {
    var found := FirstNearest(p, vertices, reach);
    assert found.Some?;
    assert SnapPoint(p, vertices, segments, reach) == vertices[found.value];
  }

  /** Every edge point is at least as far as that edge's projection. */
  lemma ProjectionsAreClosest(p: Point, segments: seq<Segment>, q: Point, i: nat)
    requires i < |segments| && OnSegment(q, segments[i])
    ensures DistanceSquared(p, Projections(p, segments)[i]) <= DistanceSquared(p, q)
  {
    ProjectionIsClosest(p, segments[i], q);
  }

  /** An edge target is a nearest point of all the edges together. */
  lemma EdgeTargetIsNearest(p: Point, vertices: seq<Point>, segments: seq<Segment>, reach: real, q: Point)
    requires !VertexInReach(p, vertices, reach) && OnSomeSegment(q, segments) && DistanceSquared(p, q) <= reach
    ensures OnSomeSegment(SnapPoint(p, vertices, segments, reach), segments)
    ensures DistanceSquared(p, SnapPoint(p, vertices, segments, reach)) <= DistanceSquared(p, q)
  {
    var i :| 0 <= i < |segments| && OnSegment(q, segments[i]);
    ProjectionsAreClosest(p, segments, q, i);
    NoVertexFound(p, vertices, reach);
    var found := FirstNearest(p, Projections(p, segments), reach);
    assert DistanceSquared(p, Projections(p, segments)[i]) <= reach;
    var best := segments[found.value];
    ProjectionOnSegment(p, best);
  }

  lemma NoVertexFound(p: Point, vertices: seq<Point>, reach: real)
    ensures FirstNearest(p, vertices, reach).None? <==> !VertexInReach(p, vertices, reach)
  {
  }

  lemma ProjectionOnSegment(p: Point, s: Segment)
    ensures OnSegment(ProjectOntoSegment(p, s), s)
  {
    ZeroLength(s, 0.0);
    assert OnSegment(At(s, 0.0), s);
    ProjectionIsClosest(p, s, At(s, 0.0));
  }

  /**
    A coordinate stays where it is exactly when it already is a reference vertex, or no vertex
    is in reach and either it already lies on a reference edge or no edge point is in reach.
   */
  lemma UnmovedExactly(p: Point, vertices: seq<Point>, segments: seq<Segment>, reach: real)
    requires reach >= 0.0
    ensures NearestTarget(p, vertices, segments, reach).Unmoved? <==>
              p in vertices
              || (!VertexInReach(p, vertices, reach)
                  && (OnSomeSegment(p, segments)
                      || forall q | OnSomeSegment(q, segments) :: DistanceSquared(p, q) > reach))
  {
    NoVertexFound(p, vertices, reach);
    assert DistanceSquared(p, p) == 0.0;
    if p in vertices {
      var i :| 0 <= i < |vertices| && vertices[i] == p;
      assert DistanceSquared(p, vertices[i]) == 0.0;
    } else if !VertexInReach(p, vertices, reach) {
      EdgeUnmovedExactly(p, vertices, segments, reach);
    }
  }

  lemma EdgeUnmovedExactly(p: Point, vertices: seq<Point>, segments: seq<Segment>, reach: real)
    requires reach >= 0.0 && !VertexInReach(p, vertices, reach)
    ensures NearestTarget(p, vertices, segments, reach).Unmoved? <==>
              OnSomeSegment(p, segments) || forall q | OnSomeSegment(q, segments) :: DistanceSquared(p, q) > reach
  {
    NoVertexFound(p, vertices, reach);
    assert DistanceSquared(p, p) == 0.0;
    if OnSomeSegment(p, segments) {
      EdgeTargetIsNearest(p, vertices, segments, reach, p);
    } else {
      var found := FirstNearest(p, Projections(p, segments), reach);
      if found.Some? {
        ProjectionOnSegment(p, segments[found.value]);
        assert OnSomeSegment(Projections(p, segments)[found.value], segments);
      } else {
        forall q | OnSomeSegment(q, segments) ensures DistanceSquared(p, q) > reach {
          var i :| 0 <= i < |segments| && OnSegment(q, segments[i]);
          ProjectionsAreClosest(p, segments, q, i);
        }
      }
    }
  }

  /** An edge target is strictly inside its edge: the edge's ends would have been vertex targets. */
  lemma EdgeTargetIsInterior(p: Point, vertices: seq<Point>, segments: seq<Segment>, reach: real)
    requires EndpointsListed(vertices, segments)
    requires NearestTarget(p, vertices, segments, reach).Moved? && NearestTarget(p, vertices, segments, reach).kind == Edge
    ensures exists i, t: real ::
      0 <= i < |segments| && 0.0 < t < 1.0 && SnapPoint(p, vertices, segments, reach) == At(segments[i], t)
    ensures SnapPoint(p, vertices, segments, reach) !in vertices
  {
    NoVertexFound(p, vertices, reach);
    var i := FirstNearest(p, Projections(p, segments), reach).value;
    var q := SnapPoint(p, vertices, segments, reach);
    assert q == ProjectOntoSegment(p, segments[i]) && DistanceSquared(p, q) <= reach;
    ProjectionOnSegment(p, segments[i]);
    var t: real :| 0.0 <= t <= 1.0 && q == At(segments[i], t);
    EndsOfSegment(segments[i]);
    assert t != 0.0 && t != 1.0;
  }

  lemma EndsOfSegment(s: Segment)
    ensures At(s, 0.0) == s.start && At(s, 1.0) == s.end
  {
  }

  // --- Stabilisation ----------------------------------------------------------------

  lemma VertexIsFixed(v: Point, vertices: seq<Point>, segments: seq<Segment>, reach: real)
    requires reach >= 0.0 && v in vertices
    ensures SnapPoint(v, vertices, segments, reach) == v
  {
    UnmovedExactly(v, vertices, segments, reach);
  }

  lemma EdgePointWithoutVertexIsFixed(q: Point, vertices: seq<Point>, segments: seq<Segment>, reach: real)
    requires reach >= 0.0 && OnSomeSegment(q, segments) && !VertexInReach(q, vertices, reach)
    ensures SnapPoint(q, vertices, segments, reach) == q
  {
    UnmovedExactly(q, vertices, segments, reach);
  }

  /** Where one pass can leave a coordinate. */
  lemma AfterOnePass(p: Point, vertices: seq<Point>, segments: seq<Segment>, reach: real)
    requires reach >= 0.0
    ensures var q := SnapPoint(p, vertices, segments, reach);
      || q in vertices
      || (q == p && NearestTarget(p, vertices, segments, reach).Unmoved?)
      || (OnSomeSegment(q, segments) && NearestTarget(p, vertices, segments, reach).Moved?
          && NearestTarget(p, vertices, segments, reach).kind == Edge)
  {
    NoVertexFound(p, vertices, reach);
    if !VertexInReach(p, vertices, reach) {
      var found := FirstNearest(p, Projections(p, segments), reach);
      if found.Some? {
        ProjectionOnSegment(p, segments[found.value]);
      }
    }
  }

  /**
    The points that one pass does not settle: off every edge, with no vertex in reach, but with an
    edge in reach whose foot - the first of the nearest - has a vertex in its own reach.
   */
  ghost predicate Unsettled(p: Point, vertices: seq<Point>, segments: seq<Segment>, reach: real) {
    && !VertexInReach(p, vertices, reach) && !OnSomeSegment(p, segments)
    && var feet := Projections(p, segments);
       var nearest := FirstNearest(p, feet, reach);
       nearest.Some? && VertexInReach(feet[nearest.value], vertices, reach)
  }

  lemma OnePassSuffices(p: Point, vertices: seq<Point>, segments: seq<Segment>, reach: real)
    requires reach >= 0.0 && EndpointsListed(vertices, segments)
    ensures var q := SnapPoint(p, vertices, segments, reach);
      SnapPoint(q, vertices, segments, reach) == q <==> !Unsettled(p, vertices, segments, reach)
  {
    var target := NearestTarget(p, vertices, segments, reach);
    var q := SnapPoint(p, vertices, segments, reach);
    AfterOnePass(p, vertices, segments, reach);
    EdgeMoveExactly(p, vertices, segments, reach);
    hide NearestTarget, FirstNearest;
    if q in vertices {
      VertexIsFixed(q, vertices, segments, reach);
      if target.Moved? && target.kind == Edge {
        EdgeTargetIsInterior(p, vertices, segments, reach);
      }
    } else if target.Moved? && target.kind == Edge {
      if VertexInReach(q, vertices, reach) {
        VertexTargetIsFirstNearest(q, vertices, segments, reach);
      } else {
        EdgePointWithoutVertexIsFixed(q, vertices, segments, reach);
      }
    }
  }

  /** An edge move is made from exactly the points off every edge, with no vertex but some foot in reach, and goes to the first nearest foot. */
  lemma EdgeMoveExactly(p: Point, vertices: seq<Point>, segments: seq<Segment>, reach: real)
    requires reach >= 0.0
    ensures var target, feet := NearestTarget(p, vertices, segments, reach), Projections(p, segments);
      var nearest := FirstNearest(p, feet, reach);
      && (target.Moved? && target.kind == Edge <==>
            !VertexInReach(p, vertices, reach) && !OnSomeSegment(p, segments) && nearest.Some?)
      && (target.Moved? && target.kind == Edge ==>
            SnapPoint(p, vertices, segments, reach) == target.to && target.to == feet[nearest.value])
  {
    NoVertexFound(p, vertices, reach);
    if !VertexInReach(p, vertices, reach) {
      EdgeUnmovedExactly(p, vertices, segments, reach);
      var feet := Projections(p, segments);
      var nearest := FirstNearest(p, feet, reach);
      if nearest.Some? {
        ProjectionOnSegment(p, segments[nearest.value]);
        assert OnSomeSegment(feet[nearest.value], segments);
      }
    }
  }

  /** Two passes always suffice: a third changes nothing. */
  lemma TwoPassesSuffice(p: Point, vertices: seq<Point>, segments: seq<Segment>, reach: real)
    requires reach >= 0.0
    ensures var once := SnapPoint(p, vertices, segments, reach);
      var twice := SnapPoint(once, vertices, segments, reach);
      SnapPoint(twice, vertices, segments, reach) == twice
  {
    var once := SnapPoint(p, vertices, segments, reach);
    var twice := SnapPoint(once, vertices, segments, reach);
    AfterOnePass(p, vertices, segments, reach);
    if VertexInReach(once, vertices, reach) {
      VertexTargetIsFirstNearest(once, vertices, segments, reach);
      VertexIsFixed(twice, vertices, segments, reach);
    } else if OnSomeSegment(once, segments) {
      EdgePointWithoutVertexIsFixed(once, vertices, segments, reach);
    } else if once in vertices {
      VertexIsFixed(once, vertices, segments, reach);
    }
  }

  // --- Snapping rings and polygons ------------------------------------------------------

  /** The references' vertices in order, and the edges between consecutive vertices of each ring. */
  function RingSegments(ring: seq<Point>): seq<Segment> {
    if |ring| < 2 then []
    else RingSegments(ring[..|ring| - 1]) + [Segment(ring[|ring| - 2], ring[|ring| - 1])]
  }

  function SegmentsOf(rings: seq<seq<Point>>): seq<Segment> {
    if |rings| == 0 then [] else SegmentsOf(rings[..|rings| - 1]) + RingSegments(rings[|rings| - 1])
  }

  function RingsOf(references: seq<Polygon>): seq<seq<Point>> {
    if |references| == 0 then [] else RingsOf(references[..|references| - 1]) + references[|references| - 1].rings
  }

  lemma {:induction false} RingEndpointsListed(ring: seq<Point>)
    ensures EndpointsListed(ring, RingSegments(ring))
  {
    if |ring| >= 2 {
      RingEndpointsListed(ring[..|ring| - 1]);
    }
  }

  /** Collecting vertices and edges ring by ring lists both ends of every edge as vertices. */
  lemma {:induction false} ReferenceEndpointsListed(rings: seq<seq<Point>>)
    ensures EndpointsListed(Flatten(rings), SegmentsOf(rings))
  {
    if |rings| > 0 {
      var n := |rings| - 1;
      ReferenceEndpointsListed(rings[..n]);
      RingEndpointsListed(rings[n]);
    }
  }

  function SnapRing(ring: seq<Point>, vertices: seq<Point>, segments: seq<Segment>, reach: real): (r: seq<Point>)
    ensures |r| == |ring|
    ensures forall i | 0 <= i < |ring| :: r[i] == SnapPoint(ring[i], vertices, segments, reach)
  {
    seq(|ring|, i requires 0 <= i < |ring| => SnapPoint(ring[i], vertices, segments, reach))
  }

  function SnapRings(rings: seq<seq<Point>>, vertices: seq<Point>, segments: seq<Segment>, reach: real): (r: seq<seq<Point>>)
    ensures |r| == |rings|
    ensures forall i | 0 <= i < |rings| :: r[i] == SnapRing(rings[i], vertices, segments, reach)
  {
    seq(|rings|, i requires 0 <= i < |rings| => SnapRing(rings[i], vertices, segments, reach))
  }

  /** The evidence list: one entry per coordinate that moved, in visiting order. */
  function ChangesAlong(points: seq<Point>, vertices: seq<Point>, segments: seq<Segment>, reach: real): seq<SnapChange> {
    if |points| == 0 then [] else
      var last := points[|points| - 1];
      var earlier := ChangesAlong(points[..|points| - 1], vertices, segments, reach);
      match NearestTarget(last, vertices, segments, reach)
      case Unmoved => earlier
      case Moved(to, kind, d) => earlier + [SnapChange(last, to, kind, d)]
  }

  /**
    Snapping a closed ring with tolerance t keeps it closed and of the same length, and changes
    its signed area by at most t * P + n * t^2 / 2 (n edges, L1 perimeter P).
   */
  lemma SnappedRingDrift(ring: seq<Point>, vertices: seq<Point>, segments: seq<Segment>, tolerance: real)
    requires tolerance >= 0.0 && Closed(ring)
    ensures var snapped := SnapRing(ring, vertices, segments, tolerance * tolerance);
      Closed(snapped) && |snapped| == |ring| && Within(SignedArea(snapped) - SignedArea(ring), Drift(ring, tolerance))
  {
    var snapped := SnapRing(ring, vertices, segments, tolerance * tolerance);
    ProductNonNegative(tolerance, tolerance);
    forall i | 0 <= i < |ring| ensures DistanceSquared(ring[i], snapped[i]) <= tolerance * tolerance {
      MoveWithinReach(ring[i], vertices, segments, tolerance * tolerance);
    }
    AreaDrift(ring, snapped, tolerance);
  }

  function TotalDrift(rings: seq<seq<Point>>, tolerance: real): real {
    if |rings| == 0 then 0.0
    else TotalDrift(rings[..|rings| - 1], tolerance) + Drift(rings[|rings| - 1], tolerance)
  }

  lemma AreaStep(areas: real, snappedAreas: real, drifts: real, a: real, b: real, drift: real)
    requires Within(snappedAreas - areas, drifts) && Within(b - a, drift)
    ensures Within((snappedAreas - Abs(b)) - (areas - Abs(a)), drifts + drift)
    ensures Within(Abs(b) - Abs(a), drift)
  {
  }

  /** The same bound for a polygon with holes: the area moves by at most the rings' drifts together. */
  lemma {:induction false} SnappedPolygonDrift(rings: seq<seq<Point>>, vertices: seq<Point>, segments: seq<Segment>, tolerance: real)
    requires tolerance >= 0.0 && forall i | 0 <= i < |rings| :: Closed(rings[i])
    ensures Within(PolygonArea(SnapRings(rings, vertices, segments, tolerance * tolerance)) - PolygonArea(rings),
                   TotalDrift(rings, tolerance))
  {
    hide SignedArea, Drift, SnapPoint, Closed;
    if |rings| > 0 {
      var n, reach := |rings| - 1, tolerance * tolerance;
      SnappedPolygonDrift(rings[..n], vertices, segments, tolerance);
      SnappedRingDrift(rings[n], vertices, segments, tolerance);
      var snapped := SnapRings(rings, vertices, segments, reach);
      assert snapped[..n] == SnapRings(rings[..n], vertices, segments, reach);
      AreaStep(PolygonArea(rings[..n]), PolygonArea(snapped[..n]), TotalDrift(rings[..n], tolerance),
               SignedArea(rings[n]), SignedArea(snapped[n]), Drift(rings[n], tolerance));
    }
  }

  /** The whole operation; None stands for a snapped shape that is no longer a valid boundary. */
  function Snapped(lib: Library, candidate: Polygon, references: seq<Polygon>, tolerance: real): Option<SnapResult> {
    if tolerance <= 0.0 then Some(SnapResult(lib.encode(candidate), candidate, []))
    else
      var rings := RingsOf(references);
      var vertices, segments, reach := Flatten(rings), SegmentsOf(rings), tolerance * tolerance;
      var moved := Polygon(SnapRings(candidate.rings, vertices, segments, reach));
      if !lib.valid(moved) then None
      else
        match Parsed(lib, lib.encode(moved))
        case None => None
        case Some(polygon) =>
          Some(SnapResult(lib.encode(moved), polygon, ChangesAlong(Flatten(candidate.rings), vertices, segments, reach)))
  }

  method SnapToReferences(lib: Library, candidate: Polygon, references: seq<Polygon>, tolerance: real)
    returns (result: Option<SnapResult>)
    ensures result == Snapped(lib, candidate, references, tolerance)
  {
    hide NearestTarget, Parsed, SnapPoint;
    if tolerance <= 0.0 {
      return Some(SnapResult(lib.encode(candidate), candidate, []));
    }
    var vertices, segments := CollectReferences(references);
    var rings, changes := Transform(candidate.rings, vertices, segments, tolerance * tolerance);
    var transformed := Polygon(rings);
    if !lib.valid(transformed) {
      return None;
    }
    var encoded := lib.encode(transformed);
    var snapped := ParsePolygon(lib, encoded);
    if snapped.None? {
      return None;
    }
    return Some(SnapResult(encoded, snapped.value, changes));
  }

  /** Visits every coordinate once, ring by ring, moving it and recording the move. */
  method Transform(source: seq<seq<Point>>, vertices: seq<Point>, segments: seq<Segment>, reach: real)
    returns (rings: seq<seq<Point>>, changes: seq<SnapChange>)
    ensures rings == SnapRings(source, vertices, segments, reach)
    ensures changes == ChangesAlong(Flatten(source), vertices, segments, reach)
  {
    hide NearestTarget, SnapPoint;
    rings, changes := [], [];
    for i := 0 to |source|
      invariant rings == SnapRings(source[..i], vertices, segments, reach)
      invariant changes == ChangesAlong(Flatten(source[..i]), vertices, segments, reach)
    {
      var points;
      points, changes := TransformRing(source[i], vertices, segments, reach, changes, Flatten(source[..i]));
      assert source[..i + 1][..i] == source[..i];
      rings := rings + [points];
    }
    assert source[..|source|] == source;
  }

  method TransformRing(source: seq<Point>, vertices: seq<Point>, segments: seq<Segment>, reach: real,
                       recorded: seq<SnapChange>, ghost visited: seq<Point>)
    returns (points: seq<Point>, changes: seq<SnapChange>)
    requires recorded == ChangesAlong(visited, vertices, segments, reach)
    ensures points == SnapRing(source, vertices, segments, reach)
    ensures changes == ChangesAlong(visited + source, vertices, segments, reach)
  {
    hide NearestTarget;
    points, changes := [], recorded;
    assert visited + source[..0] == visited;
    for j := 0 to |source|
      invariant points == SnapRing(source[..j], vertices, segments, reach)
      invariant changes == ChangesAlong(visited + source[..j], vertices, segments, reach)
    {
      var target := FindSnapTarget(source[j], vertices, segments, reach);
      assert (visited + source[..j + 1])[..|visited| + j] == visited + source[..j];
      if target.Moved? {
        changes := changes + [SnapChange(source[j], target.to, target.kind, target.distanceSquared)];
        points := points + [target.to];
      } else {
        points := points + [source[j]];
      }
    }
    assert source[..|source|] == source;
  }

  method CollectReferences(references: seq<Polygon>) returns (vertices: seq<Point>, segments: seq<Segment>)
    ensures vertices == Flatten(RingsOf(references)) && segments == SegmentsOf(RingsOf(references))
  {
    vertices, segments := [], [];
    for r := 0 to |references|
      invariant vertices == Flatten(RingsOf(references[..r])) && segments == SegmentsOf(RingsOf(references[..r]))
    {
      vertices, segments := CollectRings(references[r].rings, vertices, segments, RingsOf(references[..r]));
      assert references[..r + 1][..r] == references[..r];
    }
    assert references[..|references|] == references;
  }

  method CollectRings(rings: seq<seq<Point>>, knownVertices: seq<Point>, knownSegments: seq<Segment>,
                      ghost earlier: seq<seq<Point>>)
    returns (vertices: seq<Point>, segments: seq<Segment>)
    requires knownVertices == Flatten(earlier) && knownSegments == SegmentsOf(earlier)
    ensures vertices == Flatten(earlier + rings) && segments == SegmentsOf(earlier + rings)
  {
    vertices, segments := knownVertices, knownSegments;
    assert earlier + rings[..0] == earlier;
    for i := 0 to |rings|
      invariant vertices == Flatten(earlier + rings[..i]) && segments == SegmentsOf(earlier + rings[..i])
    {
      assert (earlier + rings[..i + 1])[..|earlier| + i] == earlier + rings[..i];
      var more := CollectEdges(rings[i]);
      vertices, segments := vertices + rings[i], segments + more;
    }
    assert rings[..|rings|] == rings;
  }

  method CollectEdges(ring: seq<Point>) returns (segments: seq<Segment>)
    ensures segments == RingSegments(ring)
  {
    segments := [];
    for index := 0 to |ring|
      invariant segments == RingSegments(ring[..index])
    {
      assert ring[..index + 1][..index] == ring[..index];
      if index > 0 {
        segments := segments + [Segment(ring[index - 1], ring[index])];
      }
    }
    assert ring[..|ring|] == ring;
  }

  /** The evidence is faithful and complete: its entries are exactly the coordinates that moved, never further than the reach. */
  lemma {:induction false} EvidenceIsExact(points: seq<Point>, vertices: seq<Point>, segments: seq<Segment>, reach: real)
    requires reach >= 0.0
    ensures var changes := ChangesAlong(points, vertices, segments, reach);
      && (forall c | c in changes ::
            && c.before in points && c.before != c.after
            && c.after == SnapPoint(c.before, vertices, segments, reach)
            && c.distanceSquared == DistanceSquared(c.before, c.after) && 0.0 < c.distanceSquared <= reach)
      && (forall p | p in points && SnapPoint(p, vertices, segments, reach) != p ::
            exists c :: c in changes && c.before == p)
  {
    if |points| > 0 {
      var last := points[|points| - 1];
      EvidenceIsExact(points[..|points| - 1], vertices, segments, reach);
      MoveWithinReach(last, vertices, segments, reach);
      TargetDistance(last, vertices, segments, reach);
      hide NearestTarget;
      var earlier := ChangesAlong(points[..|points| - 1], vertices, segments, reach);
      var changes := ChangesAlong(points, vertices, segments, reach);
      forall p | p in points && SnapPoint(p, vertices, segments, reach) != p
        ensures exists c :: c in changes && c.before == p
      {
        if p in points[..|points| - 1] {
          var c :| c in earlier && c.before == p;
          assert c in changes;
        } else {
          assert p == last;
          assert changes[|changes| - 1] in changes;
        }
      }
    }
  }

  lemma TargetDistance(p: Point, vertices: seq<Point>, segments: seq<Segment>, reach: real)
    ensures var target := NearestTarget(p, vertices, segments, reach);
      target.Moved? ==> target.to != p && target.distanceSquared == DistanceSquared(p, target.to)
  {
  }

  /** Against any fixed set of references, the reference vertices and edges satisfy what `OnePassSuffices` asks. */
  lemma ThirdPassChangesNothing(rings: seq<seq<Point>>, references: seq<Polygon>, tolerance: real)
    requires tolerance > 0.0
    ensures var vertices, segments := Flatten(RingsOf(references)), SegmentsOf(RingsOf(references));
      var reach := tolerance * tolerance;
      var twice := SnapRings(SnapRings(rings, vertices, segments, reach), vertices, segments, reach);
      SnapRings(twice, vertices, segments, reach) == twice
  {
    var vertices, segments := Flatten(RingsOf(references)), SegmentsOf(RingsOf(references));
    var reach := tolerance * tolerance;
    ProductNonNegative(tolerance, tolerance);
    var once := SnapRings(rings, vertices, segments, reach);
    var twice := SnapRings(once, vertices, segments, reach);
    forall i, j | 0 <= i < |rings| && 0 <= j < |rings[i]|
      ensures SnapPoint(twice[i][j], vertices, segments, reach) == twice[i][j]
    {
      TwoPassesSuffice(rings[i][j], vertices, segments, reach);
    }
    forall i | 0 <= i < |rings| ensures SnapRing(twice[i], vertices, segments, reach) == twice[i] {
    }
  }

  // --- The whole operation, when what is encoded decodes to nothing else -----------------

  /** The polygon returned is then the moved one, with the changes that led to it. */
  lemma SnappedIsMoved(lib: Library, candidate: Polygon, references: seq<Polygon>, tolerance: real)
    requires RoundTrips(lib) && tolerance > 0.0
    ensures var rings, reach := RingsOf(references), tolerance * tolerance;
      var moved := Polygon(SnapRings(candidate.rings, Flatten(rings), SegmentsOf(rings), reach));
      var result := Snapped(lib, candidate, references, tolerance);
      && (result.Some? <==>
            lib.decode(lib.encode(moved)).Some? && lib.valid(moved) && RingsAccepted(moved.rings) && PolygonArea(moved.rings) > 0.0)
      && (result.Some? ==> result.value == SnapResult(lib.encode(moved), moved,
            ChangesAlong(Flatten(candidate.rings), Flatten(rings), SegmentsOf(rings), reach)))
  {
    hide SnapRings, RingsAccepted, PolygonArea, ChangesAlong, RingsOf, Flatten, SegmentsOf;
  }

  /** Snapping changes a polygon's area by at most its rings' drifts together; without a tolerance it changes nothing. */
  lemma SnappedAreaDrift(lib: Library, candidate: Polygon, references: seq<Polygon>, tolerance: real)
    requires RoundTrips(lib) && RingsAccepted(candidate.rings) && Snapped(lib, candidate, references, tolerance).Some?
    ensures var polygon := Snapped(lib, candidate, references, tolerance).value.polygon;
      if tolerance <= 0.0 then polygon == candidate
      else Within(PolygonArea(polygon.rings) - PolygonArea(candidate.rings), TotalDrift(candidate.rings, tolerance))
  {
    hide SnapRings, PolygonArea, TotalDrift, RingsOf, Flatten, SegmentsOf, Parsed, ChangesAlong, RingsAccepted, Within, Closed;
    if tolerance > 0.0 {
      AcceptedAreClosed(candidate.rings);
      hide Snapped;
      SnappedIsMoved(lib, candidate, references, tolerance);
      var rings := RingsOf(references);
      SnappedPolygonDrift(candidate.rings, Flatten(rings), SegmentsOf(rings), tolerance);
    }
  }

  lemma AcceptedAreClosed(rings: seq<seq<Point>>)
    requires RingsAccepted(rings)
    ensures forall i | 0 <= i < |rings| :: Closed(rings[i])
  {
    hide SignedArea;
    assert forall i | 0 <= i < |rings| :: RingAccepted(rings[i], i == 0);
  }

  lemma {:induction false} NothingMoved(points: seq<Point>, vertices: seq<Point>, segments: seq<Segment>, reach: real)
    requires forall p | p in points :: SnapPoint(p, vertices, segments, reach) == p
    ensures ChangesAlong(points, vertices, segments, reach) == []
  {
    hide NearestTarget;
    if |points| > 0 {
      var last := points[|points| - 1];
      NothingMoved(points[..|points| - 1], vertices, segments, reach);
      TargetDistance(last, vertices, segments, reach);
      assert SnapPoint(last, vertices, segments, reach) == last;
    }
  }

  lemma {:induction false} FlattenedMembers(rings: seq<seq<Point>>, p: Point)
    requires p in Flatten(rings)
    ensures exists i, j :: 0 <= i < |rings| && 0 <= j < |rings[i]| && rings[i][j] == p
  {
    var n := |rings| - 1;
    if p in rings[n] {
      assert exists j :: 0 <= j < |rings[n]| && rings[n][j] == p;
    } else {
      FlattenedMembers(rings[..n], p);
      var i, j :| 0 <= i < n && 0 <= j < |rings[..n][i]| && rings[..n][i][j] == p;
      assert rings[i][j] == p;
    }
  }

  /** Snapping a polygon that was snapped twice succeeds, returns it as it is, and records no change. */
  lemma ThirdSnapChangesNothing(lib: Library, candidate: Polygon, references: seq<Polygon>, tolerance: real)
    requires RoundTrips(lib) && Snapped(lib, candidate, references, tolerance).Some?
    requires var once := Snapped(lib, candidate, references, tolerance).value; Snapped(lib, once.polygon, references, tolerance).Some?
    ensures var once := Snapped(lib, candidate, references, tolerance).value;
      var twice := Snapped(lib, once.polygon, references, tolerance).value;
      Snapped(lib, twice.polygon, references, tolerance) == Some(SnapResult(twice.encoded, twice.polygon, []))
  {
    if tolerance > 0.0 {
      var once := Snapped(lib, candidate, references, tolerance).value;
      var twice := Snapped(lib, once.polygon, references, tolerance).value;
      var rings, reach := RingsOf(references), tolerance * tolerance;
      hide Snapped, RingsOf, Flatten, SegmentsOf, PolygonArea, RingsAccepted, ChangesAlong, SnapPoint, SnapRings;
      SnappedIsMoved(lib, candidate, references, tolerance);
      SnappedIsMoved(lib, once.polygon, references, tolerance);
      SnappedIsMoved(lib, twice.polygon, references, tolerance);
      ThirdPassChangesNothing(candidate.rings, references, tolerance);
      FixedPointsDoNotChange(twice.polygon.rings, Flatten(rings), SegmentsOf(rings), reach);
    }
  }

  lemma FixedPointsDoNotChange(rings: seq<seq<Point>>, vertices: seq<Point>, segments: seq<Segment>, reach: real)
    requires SnapRings(rings, vertices, segments, reach) == rings
    ensures ChangesAlong(Flatten(rings), vertices, segments, reach) == []
  {
    hide SnapPoint, ChangesAlong;
    forall p | p in Flatten(rings) ensures SnapPoint(p, vertices, segments, reach) == p {
      FlattenedMembers(rings, p);
      var i, j :| 0 <= i < |rings| && 0 <= j < |rings[i]| && rings[i][j] == p;
      assert SnapRing(rings[i], vertices, segments, reach)[j] == SnapPoint(rings[i][j], vertices, segments, reach);
    }
    NothingMoved(Flatten(rings), vertices, segments, reach);
  }
}
