/**
  Plane geometry over exact real coordinates: squared distances, the clamped
  projection onto a segment, the shoelace sum, and how far the shoelace area of a
  closed ring can drift when every vertex moves by at most a tolerance.
 */
module Planar {

  datatype Point = Point(x: real, y: real)

  datatype Segment = Segment(start: Point, end: Point)

  function Abs(r: real): (a: real)
    ensures a >= 0.0 && (a == r || a == -r)
  {
    if r < 0.0 then -r else r
  }

  // --- Distances and projections --------------------------------------------

  function DistanceSquared(p: Point, q: Point): (d: real)
    ensures d >= 0.0
    ensures d > 0.0 <==> p != q
  {
    NormSquared(p.x - q.x, p.y - q.y)
  }

  function NormSquared(a: real, b: real): (n: real)
    ensures n >= 0.0
    ensures n > 0.0 <==> a != 0.0 || b != 0.0
  {
    var u, v := a * a, b * b;
    ProductSign(a, a, u);
    ProductSign(b, b, v);
    u + v
  }

  /** The product is passed as `c` so that the solver keeps it as one term. */
  lemma ProductSign(a: real, b: real, c: real)
    requires c == a * b && a == b
    ensures c >= 0.0
    ensures c > 0.0 <==> a != 0.0
  {
    if a != 0.0 {
      PositiveProduct(a, b, c);
    } else {
      ZeroProduct(a, b, c);
    }
  }

  lemma PositiveProduct(a: real, b: real, c: real)
    requires c == a * b
    requires (a > 0.0 && b > 0.0) || (a < 0.0 && b < 0.0)
    ensures c > 0.0
  {
  }

  lemma ZeroProduct(a: real, b: real, c: real)
    requires c == a * b && a == 0.0
    ensures c == 0.0
  {
  }

  lemma DistanceSymmetric(p: Point, q: Point)
    ensures DistanceSquared(p, q) == DistanceSquared(q, p)
  {
    assert (p.x - q.x) * (p.x - q.x) == (q.x - p.x) * (q.x - p.x);
    assert (p.y - q.y) * (p.y - q.y) == (q.y - p.y) * (q.y - p.y);
  }

  lemma ProductPositive(a: real, b: real)
    requires (a > 0.0 && b > 0.0) || (a < 0.0 && b < 0.0)
    ensures a * b > 0.0
  {
  }

  lemma ProductNonNegative(a: real, b: real)
    requires (a >= 0.0 && b >= 0.0) || (a <= 0.0 && b <= 0.0)
    ensures a * b >= 0.0
  {
  }

  lemma SquareNonNegative(r: real)
    ensures r * r >= 0.0
    ensures r != 0.0 ==> r * r > 0.0
  {
    if r != 0.0 { ProductPositive(r, r); }
  }

  /** The point at parameter `t` along the segment's line; the segment itself is 0 <= t <= 1. */
  function At(s: Segment, t: real): Point {
    Point(s.start.x + t * (s.end.x - s.start.x), s.start.y + t * (s.end.y - s.start.y))
  }

  ghost predicate OnSegment(q: Point, s: Segment) {
    exists t: real :: 0.0 <= t <= 1.0 && q == At(s, t)
  }

  function LengthSquared(s: Segment): real {
    NormSquared(s.end.x - s.start.x, s.end.y - s.start.y)
  }

  function Dot(p: Point, s: Segment): real {
    Inner(p.x - s.start.x, p.y - s.start.y, s.end.x - s.start.x, s.end.y - s.start.y)
  }

  function Inner(a: real, b: real, c: real, d: real): real {
    a * c + b * d
  }

  function Clamp(ratio: real): (c: real)
    ensures 0.0 <= c <= 1.0
    ensures 0.0 <= ratio <= 1.0 ==> c == ratio
  {
    if ratio < 0.0 then 0.0 else if ratio > 1.0 then 1.0 else ratio
  }

  function ProjectOntoSegment(p: Point, s: Segment): Point {
    if LengthSquared(s) == 0.0 then s.start
    else At(s, Clamp(Dot(p, s) / LengthSquared(s)))
  }

  /** The squared distance to the point at parameter `t`, in coordinates relative to the segment's start. */
  lemma DistanceAlong(p: Point, s: Segment, t: real, a: real, b: real, dx: real, dy: real)
    requires a == p.x - s.start.x && b == p.y - s.start.y
    requires dx == s.end.x - s.start.x && dy == s.end.y - s.start.y
    ensures DistanceSquared(p, At(s, t)) == (a - t * dx) * (a - t * dx) + (b - t * dy) * (b - t * dy)
  {
    assert p.x - At(s, t).x == a - t * dx;
    assert p.y - At(s, t).y == b - t * dy;
  }

  lemma SumOfSquares(a: real, b: real, dx: real, dy: real, t: real)
    ensures (a - t * dx) * (a - t * dx) + (b - t * dy) * (b - t * dy)
         == a * a + b * b - 2.0 * t * (a * dx + b * dy) + t * t * (dx * dx + dy * dy)
  {
    SquareOfDifference(a, t, dx);
    SquareOfDifference(b, t, dy);
  }

  lemma SquareOfDifference(a: real, t: real, d: real)
    ensures (a - t * d) * (a - t * d) == a * a - 2.0 * t * (a * d) + t * t * (d * d)
  {
    var u := t * d;
    assert (a - u) * (a - u) == a * a - 2.0 * (a * u) + u * u;
    assert a * u == t * (a * d);
    assert u * u == t * t * (d * d);
  }

  /** No point of the segment is nearer to `p` than its clamped projection. */
  lemma ProjectionIsClosest(p: Point, s: Segment, q: Point)
    requires OnSegment(q, s)
    ensures OnSegment(ProjectOntoSegment(p, s), s)
    ensures DistanceSquared(p, ProjectOntoSegment(p, s)) <= DistanceSquared(p, q)
  {
    var t: real :| 0.0 <= t <= 1.0 && q == At(s, t);
    ZeroLength(s, t);
    if LengthSquared(s) != 0.0 {
      ClampedParameterIsClosest(p, s, Clamp(Dot(p, s) / LengthSquared(s)), t);
    }
  }

  lemma ZeroLength(s: Segment, t: real)
    ensures LengthSquared(s) >= 0.0
    ensures LengthSquared(s) == 0.0 ==> At(s, t) == s.start
    ensures At(s, 0.0) == s.start
  {
    var dx, dy := s.end.x - s.start.x, s.end.y - s.start.y;
    if dx == 0.0 && dy == 0.0 {
      assert t * dx == 0.0 && t * dy == 0.0;
    }
  }

  lemma ClampedParameterIsClosest(p: Point, s: Segment, c: real, t: real)
    requires LengthSquared(s) != 0.0 && c == Clamp(Dot(p, s) / LengthSquared(s)) && 0.0 <= t <= 1.0
    ensures DistanceSquared(p, At(s, c)) <= DistanceSquared(p, At(s, t))
  {
    hide DistanceSquared;
    var a, b := p.x - s.start.x, p.y - s.start.y;
    var dx, dy := s.end.x - s.start.x, s.end.y - s.start.y;
    DistanceAlong(p, s, t, a, b, dx, dy);
    DistanceAlong(p, s, c, a, b, dx, dy);
    var l, d := LengthSquared(s), Dot(p, s);
    LengthAndDot(p, s, a, b, dx, dy, l, d);
    ClosestParameter(a, b, dx, dy, l, d, c, t, DistanceSquared(p, At(s, c)), DistanceSquared(p, At(s, t)));
  }

  lemma LengthAndDot(p: Point, s: Segment, a: real, b: real, dx: real, dy: real, l: real, d: real)
    requires a == p.x - s.start.x && b == p.y - s.start.y
    requires dx == s.end.x - s.start.x && dy == s.end.y - s.start.y
    requires l == LengthSquared(s) && d == Dot(p, s)
    ensures l == dx * dx + dy * dy && d == a * dx + b * dy && l >= 0.0
  {
  }

  lemma ClosestParameter(a: real, b: real, dx: real, dy: real, l: real, d: real, c: real, t: real, atC: real, atT: real)
    requires l == dx * dx + dy * dy && d == a * dx + b * dy && l > 0.0
    requires c == Clamp(d / l) && 0.0 <= t <= 1.0
    requires atC == (a - c * dx) * (a - c * dx) + (b - c * dy) * (b - c * dy)
    requires atT == (a - t * dx) * (a - t * dx) + (b - t * dy) * (b - t * dy)
    ensures atC <= atT
  {
    SumOfSquares(a, b, dx, dy, c);
    SumOfSquares(a, b, dx, dy, t);
    QuadraticMinimum(l, d, d / l, c, t, a * a + b * b, atC, atT);
  }

  lemma QuadraticMinimum(l: real, d: real, r: real, c: real, t: real, k: real, atC: real, atT: real)
    requires l > 0.0 && r == d / l && c == Clamp(r) && 0.0 <= t <= 1.0
    requires atC == k - 2.0 * c * d + c * c * l
    requires atT == k - 2.0 * t * d + t * t * l
    ensures atC <= atT
  {
    var m := (t - c) * (t + c - 2.0 * r);
    ProductNonNegative(t - c, t + c - 2.0 * r);
    ProductNonNegative(l, m);
    Factored(l, d, r, c, t, k, m);
  }

  lemma Factored(l: real, d: real, r: real, c: real, t: real, k: real, m: real)
    requires d == r * l && m == (t - c) * (t + c - 2.0 * r)
    ensures (k - 2.0 * t * d + t * t * l) - (k - 2.0 * c * d + c * c * l) == l * m
  {
    assert m == t * t - c * c - 2.0 * r * t + 2.0 * r * c;
    assert l * m == l * (t * t) - l * (c * c) - 2.0 * (t * (r * l)) + 2.0 * (c * (r * l));
  }

  // --- The shoelace area ------------------------------------------------------

  function Cross(p: Point, q: Point): real {
    p.x * q.y - q.x * p.y
  }

  /** Twice the signed area: one cross product per edge. */
  function Shoelace(ring: seq<Point>): real {
    if |ring| < 2 then 0.0
    else Shoelace(ring[..|ring| - 1]) + Cross(ring[|ring| - 2], ring[|ring| - 1])
  }

  function SignedArea(ring: seq<Point>): real {
    Shoelace(ring) / 2.0
  }

  /** The source's accumulation over consecutive pairs. */
  method ComputeSignedArea(ring: seq<Point>) returns (area: real)
    ensures area == SignedArea(ring)
  {
    var sum := 0.0;
    var i := 0;
    while i + 1 < |ring|
      invariant 0 <= i && (|ring| > 0 ==> i < |ring|) && (|ring| == 0 ==> i == 0)
      invariant |ring| > 0 ==> sum == Shoelace(ring[..i + 1])
      invariant |ring| == 0 ==> sum == 0.0
    {
      assert ring[..i + 2][..i + 1] == ring[..i + 1];
      sum := sum + (ring[i].x * ring[i + 1].y - ring[i + 1].x * ring[i].y);
      i := i + 1;
    }
    assert |ring| > 0 ==> ring[..i + 1] == ring;
    return sum / 2.0;
  }

  lemma OneMoreCorner(ring: seq<Point>, p: Point)
    requires |ring| > 0
    ensures Shoelace(ring + [p]) == Shoelace(ring) + Cross(ring[|ring| - 1], p)
  {
    assert (ring + [p])[..|ring|] == ring;
  }

  /** Two edge vectors of a triangle, crossed and halved: positive when its corners turn to the left. */
  lemma TriangleArea(a: Point, b: Point, c: Point)
    ensures SignedArea([a, b, c, a]) == ((b.x - a.x) * (c.y - a.y) - (c.x - a.x) * (b.y - a.y)) / 2.0
  {
    OneMoreCorner([a], b);
    OneMoreCorner([a, b], c);
    OneMoreCorner([a, b, c], a);
    assert [a] + [b] == [a, b] && [a, b] + [c] == [a, b, c] && [a, b, c] + [a] == [a, b, c, a];
    CrossedEdges(a, b, c);
  }

  lemma CrossedEdges(a: Point, b: Point, c: Point)
    ensures (b.x - a.x) * (c.y - a.y) - (c.x - a.x) * (b.y - a.y) == Cross(a, b) + Cross(b, c) + Cross(c, a)
  {
    assert (b.x - a.x) * (c.y - a.y) == b.x * c.y - b.x * a.y - a.x * c.y + a.x * a.y;
    assert (c.x - a.x) * (b.y - a.y) == c.x * b.y - c.x * a.y - a.x * b.y + a.x * a.y;
  }

  /** Cutting a closed path at one of its points adds up: any ring's area is the sum over the pieces of a cut. */
  lemma {:induction false} AreaOfPieces(a: seq<Point>, p: Point, b: seq<Point>)
    ensures Shoelace(a + [p] + b) == Shoelace(a + [p]) + Shoelace([p] + b)
  {
    if |b| == 0 {
      assert a + [p] + b == a + [p] && [p] + b == [p];
    } else {
      var n, last := |b| - 1, b[|b| - 1];
      AreaOfPieces(a, p, b[..n]);
      OneMoreCorner(a + [p] + b[..n], last);
      OneMoreCorner([p] + b[..n], last);
      assert a + [p] + b[..n] + [last] == a + [p] + b && [p] + b[..n] + [last] == [p] + b;
    }
  }

  predicate Closed(ring: seq<Point>) {
    |ring| > 0 && ring[0] == ring[|ring| - 1]
  }

  /** The sum over the edges of |dx| + |dy|. */
  function Perimeter(ring: seq<Point>): (p: real)
    ensures p >= 0.0
  {
    if |ring| < 2 then 0.0
    else Perimeter(ring[..|ring| - 1]) + Taxicab(ring[|ring| - 2], ring[|ring| - 1])
  }

  function Taxicab(p: Point, q: Point): (d: real)
    ensures d >= 0.0
  {
    Abs(q.x - p.x) + Abs(q.y - p.y)
  }

  // --- Area drift ---------------------------------------------------------------

  /** `moved` has one vertex per vertex of `ring`, none further than `t` away. */
  ghost predicate Near(ring: seq<Point>, moved: seq<Point>, t: real) {
    && |ring| == |moved|
    && forall i | 0 <= i < |ring| :: DistanceSquared(ring[i], moved[i]) <= t * t
  }

  function Minus(p: Point, q: Point): Point {
    Point(p.x - q.x, p.y - q.y)
  }

  predicate Within(r: real, bound: real) {
    -bound <= r <= bound
  }

  lemma MovesAreSmall(p: Point, q: Point, t: real)
    requires t >= 0.0 && DistanceSquared(p, q) <= t * t
    ensures Within(q.x - p.x, t) && Within(q.y - p.y, t)
  {
    DistanceSymmetric(p, q);
    SmallerThanHypotenuse(q.x - p.x, q.y - p.y, t);
    SmallerThanHypotenuse(q.y - p.y, q.x - p.x, t);
  }

  lemma SmallerThanHypotenuse(a: real, b: real, t: real)
    requires t >= 0.0 && a * a + b * b <= t * t
    ensures Within(a, t)
  {
    SquareNonNegative(b);
    if a > t { ProductGreater(a, t); }
    assert (-a) * (-a) == a * a;
    if -a > t { ProductGreater(-a, t); }
  }

  lemma ProductGreater(a: real, t: real)
    requires a > t >= 0.0
    ensures a * a > t * t
  {
    ProductPositive(a - t, a + t);
    assert (a - t) * (a + t) == a * a - t * t;
  }

  lemma ProductBound(a: real, b: real, t: real)
    requires Within(a, t)
    ensures Within(a * b, t * Abs(b))
  {
    if b >= 0.0 {
      ProductNonNegative(t - a, b);
      ProductNonNegative(t + a, b);
    } else {
      ProductNonNegative(t - a, -b);
      ProductNonNegative(t + a, -b);
    }
  }

  lemma DifferenceBound(u: real, v: real, bu: real, bv: real)
    requires Within(u, bu) && Within(v, bv)
    ensures Within(u - v, bu + bv)
  {
  }

  /** A displacement of at most `t` turns an edge (dx, dy) through at most `t` times its length. */
  lemma CrossWithEdge(ex: real, ey: real, dx: real, dy: real, t: real)
    requires Within(ex, t) && Within(ey, t)
    ensures Within(ex * dy - dx * ey, t * Abs(dx) + t * Abs(dy))
  {
    ProductBound(ex, dy, t);
    ProductBound(ey, dx, t);
    DifferenceBound(ex * dy, ey * dx, t * Abs(dy), t * Abs(dx));
  }

  lemma HalfSumOfSquares(a: real, b: real, c: real, d: real, s: real)
    requires a * a + b * b <= s && c * c + d * d <= s
    ensures Within(a * d - c * b, s)
  {
    TwiceProduct(a, d, a * d, a * a, d * d);
    TwiceProduct(c, b, c * b, c * c, b * b);
  }

  /** The products are passed as parameters so that the solver keeps each as one term. */
  lemma TwiceProduct(a: real, d: real, ad: real, aa: real, dd: real)
    requires ad == a * d && aa == a * a && dd == d * d
    ensures Within(2.0 * ad, aa + dd)
  {
    SquareNonNegative(a - d);
    SquareNonNegative(a + d);
    assert (a - d) * (a - d) == aa - 2.0 * ad + dd;
    assert (a + d) * (a + d) == aa + 2.0 * ad + dd;
  }

  /** The part of an edge's change that telescopes: it belongs to one vertex. */
  function Pull(p: Point, p': Point): real {
    Cross(Minus(p', p), p)
  }

  /** How one edge's cross product changes, up to a difference that telescopes along the ring. */
  lemma EdgeDrift(p: Point, q: Point, p': Point, q': Point)
    ensures Cross(p', q') - Cross(p, q)
         == Pull(p, p') - Pull(q, q')
          + Cross(Minus(p', p), Minus(q, p)) + Cross(Minus(q', q), Minus(q, p))
          + Cross(Minus(p', p), Minus(q', q))
  {
    var e, f := Minus(p', p), Minus(q', q);
    assert p' == Point(p.x + e.x, p.y + e.y) && q' == Point(q.x + f.x, q.y + f.y);
    assert Cross(p', q') == Cross(p, q) + Cross(e, q) + Cross(p, f) + Cross(e, f) by {
      assert (p.x + e.x) * (q.y + f.y) == p.x * q.y + p.x * f.y + e.x * q.y + e.x * f.y;
      assert (q.x + f.x) * (p.y + e.y) == q.x * p.y + q.x * e.y + f.x * p.y + f.x * e.y;
    }
    var d := Minus(q, p);
    assert Cross(e, q) == Cross(e, p) + Cross(e, d) by {
      assert e.x * q.y == e.x * p.y + e.x * d.y;
      assert q.x * e.y == p.x * e.y + d.x * e.y;
    }
    assert Cross(p, f) == -Cross(f, q) + Cross(f, d) by {
      assert f.x * q.y == f.x * p.y + f.x * d.y;
      assert q.x * f.y == p.x * f.y + d.x * f.y;
    }
  }

  /** What one edge may contribute to the drift. */
  function EdgeSlack(p: Point, q: Point, t: real): real {
    t * Taxicab(p, q) + t * Taxicab(p, q) + t * t
  }

  lemma MovedEdge(p: Point, q: Point, p': Point, q': Point, t: real)
    requires t >= 0.0 && DistanceSquared(p, p') <= t * t && DistanceSquared(q, q') <= t * t
    ensures Within(Cross(Minus(p', p), Minus(q, p)), t * Taxicab(p, q))
    ensures Within(Cross(Minus(q', q), Minus(q, p)), t * Taxicab(p, q))
    ensures Within(Cross(Minus(p', p), Minus(q', q)), t * t)
  {
    hide Cross, DistanceSquared;
    SmallTurn(p, p', Minus(q, p), t);
    SmallTurn(q, q', Minus(q, p), t);
    SmallCross(p, p', q, q', t);
    assert Taxicab(p, q) == Abs(Minus(q, p).x) + Abs(Minus(q, p).y);
  }

  lemma SmallTurn(p: Point, p': Point, d: Point, t: real)
    requires t >= 0.0 && DistanceSquared(p, p') <= t * t
    ensures Within(Cross(Minus(p', p), d), t * (Abs(d.x) + Abs(d.y)))
  {
    hide DistanceSquared;
    MovesAreSmall(p, p', t);
    CrossWithEdge(p'.x - p.x, p'.y - p.y, d.x, d.y, t);
  }

  lemma SmallCross(p: Point, p': Point, q: Point, q': Point, t: real)
    requires DistanceSquared(p, p') <= t * t && DistanceSquared(q, q') <= t * t
    ensures Within(Cross(Minus(p', p), Minus(q', q)), t * t)
  {
    DistanceSymmetric(p, p');
    DistanceSymmetric(q, q');
    HalfSumOfSquares(p'.x - p.x, p'.y - p.y, q'.x - q.x, q'.y - q.y, t * t);
  }

  lemma SumOfThree(a: real, b: real, c: real, x: real, z: real, total: real)
    requires Within(a, x) && Within(b, x) && Within(c, z) && total == a + b + c
    ensures Within(total, x + x + z)
  {
  }

  lemma EdgeDriftBound(p: Point, q: Point, p': Point, q': Point, t: real)
    requires t >= 0.0 && DistanceSquared(p, p') <= t * t && DistanceSquared(q, q') <= t * t
    ensures Within(Cross(p', q') - Cross(p, q) - Pull(p, p') + Pull(q, q'), EdgeSlack(p, q, t))
  {
    hide Cross, Pull, Taxicab, DistanceSquared;
    EdgeDrift(p, q, p', q');
    MovedEdge(p, q, p', q', t);
    SumOfThree(Cross(Minus(p', p), Minus(q, p)), Cross(Minus(q', q), Minus(q, p)), Cross(Minus(p', p), Minus(q', q)),
               t * Taxicab(p, q), t * t, Cross(p', q') - Cross(p, q) - Pull(p, p') + Pull(q, q'));
  }

  function Slack(ring: seq<Point>, t: real): real {
    if |ring| < 2 then 0.0
    else Slack(ring[..|ring| - 1], t) + EdgeSlack(ring[|ring| - 2], ring[|ring| - 1], t)
  }

  lemma {:induction false} SlackIsLinear(ring: seq<Point>, t: real)
    requires |ring| > 0
    ensures Slack(ring, t) == 2.0 * (t * Perimeter(ring)) + ((|ring| - 1) as real) * (t * t)
  {
    var n := |ring| - 1;
    hide Taxicab;
    if n > 0 {
      SlackIsLinear(ring[..n], t);
      SlackStep(t, Perimeter(ring[..n]), Taxicab(ring[n - 1], ring[n]), n);
    }
  }

  lemma SlackStep(t: real, P: real, k: real, n: int)
    ensures 2.0 * (t * P) + ((n - 1) as real) * (t * t) + (t * k + t * k + t * t)
         == 2.0 * (t * (P + k)) + (n as real) * (t * t)
  {
    assert n as real == ((n - 1) as real) + 1.0;
  }

  lemma AddDrift(a: real, b: real, x: real, y: real)
    requires Within(a, x) && Within(b, y)
    ensures Within(a + b, x + y)
  {
  }

  /** The drift of an open chain: the per-edge bounds add up, the telescoped part is left at the two ends. */
  lemma {:induction false} ChainDrift(ring: seq<Point>, moved: seq<Point>, t: real)
    requires t >= 0.0 && Near(ring, moved, t) && |ring| > 0
    ensures var n := |ring| - 1;
            Within(Shoelace(moved) - Shoelace(ring) - Pull(ring[0], moved[0]) + Pull(ring[n], moved[n]), Slack(ring, t))
  {
    var n := |ring| - 1;
    if n > 0 {
      var r, m := ring[..n], moved[..n];
      ChainDrift(r, m, t);
      EdgeDriftBound(ring[n - 1], ring[n], moved[n - 1], moved[n], t);
      AddDrift(Shoelace(m) - Shoelace(r) - Pull(r[0], m[0]) + Pull(r[n - 1], m[n - 1]),
               Cross(moved[n - 1], moved[n]) - Cross(ring[n - 1], ring[n])
               - Pull(ring[n - 1], moved[n - 1]) + Pull(ring[n], moved[n]),
               Slack(r, t), EdgeSlack(ring[n - 1], ring[n], t));
    }
  }

  /** How far the area of a closed ring may drift: t * P + n * t^2 / 2 for n edges and L1 perimeter P. */
  function Drift(ring: seq<Point>, t: real): real {
    t * Perimeter(ring) + ((|ring| - 1) as real) * (t * t) / 2.0
  }

  /** Moving every vertex of a closed ring by at most `t`, to a closed ring, changes its signed area by at most `Drift`. */
  lemma AreaDrift(ring: seq<Point>, moved: seq<Point>, t: real)
    requires t >= 0.0 && Near(ring, moved, t) && Closed(ring) && Closed(moved)
    ensures Within(SignedArea(moved) - SignedArea(ring), Drift(ring, t))
  {
    hide Cross, DistanceSquared, Slack, Perimeter, Shoelace;
    ChainDrift(ring, moved, t);
    SlackIsLinear(ring, t);
    Halve(Shoelace(ring), Shoelace(moved), t * Perimeter(ring), ((|ring| - 1) as real) * (t * t));
  }

  lemma Halve(a: real, b: real, u: real, v: real)
    requires Within(b - a, 2.0 * u + v)
    ensures Within(b / 2.0 - a / 2.0, u + v / 2.0)
  {
  }
}
