/**
  Boundary polygons and the geometry library behind them. Everything the library
  computes (decoding, validity, overlay, distance) is a value of `Library`, so every
  result below holds for whatever deterministic library is plugged in.
 */
module Boundaries {
  import opened Options
  import opened Planar

  datatype Polygon = Polygon(rings: seq<seq<Point>>)

  /** A measured overlay result (an area or a length) and its encoded geometry. */
  datatype Overlay = Overlay(measure: real, evidence: string)

  datatype Library = Library(
    decode: string -> Option<Polygon>,                // GeoJSON text of a non-empty Polygon
    encode: Polygon -> string,
    valid: Polygon -> bool,                           // simple rings, holes inside, and so on
    isPoint: string -> bool,                          // GeoJSON text of a finite Point
    systemAllowed: string -> bool,                    // the projected-metre allow-list
    toleranceText: real -> string,                    // six fixed decimals
    intersection: (Polygon, Polygon) -> Option<Overlay>,
    contact: (Polygon, Polygon) -> Option<Overlay>,   // intersection of the two boundaries
    distance: (Polygon, Polygon) -> Option<real>,
    boundary: Polygon -> string                       // the encoded boundary lines
  )

  // --- Reading a stored or submitted boundary (RFC 7946, section 3.1.6) -----------

  /** Closed, at least four positions, and turning the way its place among the rings demands. */
  predicate RingAccepted(ring: seq<Point>, exterior: bool) {
    && |ring| >= 4
    && ring[0] == ring[|ring| - 1]
    && (if exterior then SignedArea(ring) > 0.0 else SignedArea(ring) < 0.0)
  }

  predicate RingsAccepted(rings: seq<seq<Point>>) {
    forall i | 0 <= i < |rings| :: RingAccepted(rings[i], i == 0)
  }

  /** The exterior ring's area less the holes. */
  function PolygonArea(rings: seq<seq<Point>>): real {
    if |rings| == 0 then 0.0
    else if |rings| == 1 then Abs(SignedArea(rings[0]))
    else PolygonArea(rings[..|rings| - 1]) - Abs(SignedArea(rings[|rings| - 1]))
  }

  /** What parsing a boundary text yields; None stands for every rejection. */
  function Parsed(lib: Library, raw: string): (r: Option<Polygon>)
    ensures r.Some? ==> RingsAccepted(r.value.rings) && PolygonArea(r.value.rings) > 0.0 && lib.valid(r.value)
  {
    match lib.decode(raw)
    case None => None
    case Some(polygon) =>
      if lib.valid(polygon) && RingsAccepted(polygon.rings) && PolygonArea(polygon.rings) > 0.0
      then Some(polygon)
      else None
  }

  function TotalArea(rings: seq<seq<Point>>): real {
    if |rings| == 0 then 0.0 else TotalArea(rings[..|rings| - 1]) + SignedArea(rings[|rings| - 1])
  }

  /** With the turns that are demanded, a polygon's area is the plain sum of its rings' signed areas: every hole takes away. */
  lemma {:induction false} AreaIsSigned(rings: seq<seq<Point>>)
    requires RingsAccepted(rings)
    ensures PolygonArea(rings) == TotalArea(rings)
  {
    hide SignedArea;
    if |rings| > 0 {
      var m := |rings| - 1;
      AreaIsSigned(rings[..m]);
      assert RingAccepted(rings[m], m == 0);
      if m == 0 {
        assert rings[..0] == [];
      }
    }
  }

  /** Exactly what is accepted, ring by ring, and the area that is stored for it. */
  lemma ParsedExactly(lib: Library, raw: string, polygon: Polygon)
    ensures Parsed(lib, raw) == Some(polygon) <==>
      && lib.decode(raw) == Some(polygon) && lib.valid(polygon)
      && (forall i | 0 <= i < |polygon.rings| ::
            var ring := polygon.rings[i];
            && |ring| >= 4 && ring[0] == ring[|ring| - 1]
            && (i == 0 ==> SignedArea(ring) > 0.0) && (i > 0 ==> SignedArea(ring) < 0.0))
      && TotalArea(polygon.rings) > 0.0
    ensures Parsed(lib, raw) == Some(polygon) ==> AreaOf(lib, raw) == TotalArea(polygon.rings)
  {
    hide SignedArea, PolygonArea, TotalArea;
    if RingsAccepted(polygon.rings) {
      AreaIsSigned(polygon.rings);
    }
    assert RingsAccepted(polygon.rings) <==>
      forall i | 0 <= i < |polygon.rings| :: RingAccepted(polygon.rings[i], i == 0);
  }

  /** What is encoded decodes to itself or not at all. */
  ghost predicate RoundTrips(lib: Library) {
    forall p :: lib.decode(lib.encode(p)).None? || lib.decode(lib.encode(p)) == Some(p)
  }

  /** The source's ring-by-ring check. */
  method ParsePolygon(lib: Library, raw: string) returns (result: Option<Polygon>)
    ensures result == Parsed(lib, raw)
  {
    var decoded := lib.decode(raw);
    if decoded.None? {
      return None;
    }
    var polygon := decoded.value;
    if !lib.valid(polygon) {
      return None;
    }
    var index := 0;
    while index < |polygon.rings|
      invariant 0 <= index <= |polygon.rings|
      invariant forall i | 0 <= i < index :: RingAccepted(polygon.rings[i], i == 0)
    {
      var points := polygon.rings[index];
      if |points| < 4 || points[0] != points[|points| - 1] {
        assert !RingAccepted(polygon.rings[index], index == 0);
        return None;
      }
      var orientation := ComputeSignedArea(points);
      if (index == 0 && orientation <= 0.0) || (index > 0 && orientation >= 0.0) {
        assert !RingAccepted(polygon.rings[index], index == 0);
        return None;
      }
      index := index + 1;
    }
    if PolygonArea(polygon.rings) <= 0.0 {
      return None;
    }
    return Some(polygon);
  }

  /** The area a boundary text stands for; zero when it does not parse. */
  function AreaOf(lib: Library, raw: string): real {
    match Parsed(lib, raw)
    case None => 0.0
    case Some(polygon) => PolygonArea(polygon.rings)
  }

  function Flatten(rings: seq<seq<Point>>): seq<Point> {
    if |rings| == 0 then [] else Flatten(rings[..|rings| - 1]) + rings[|rings| - 1]
  }
}
