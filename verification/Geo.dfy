/** Plane geometry of the simulator (geo.py): points, straight-line motion and
    travel time.  The distance is a parameter: every result about it needs only
    the laws in `Metric`, and `EuclideanIsMetric` shows that the distance the
    simulator uses (the non-negative root of dx^2 + dy^2) obeys them. */
module Geo {

  datatype Point = Point(x: real, y: real)

  /** A distance in kilometres. */
  type Distance = (Point, Point) -> real

  /** Seconds needed to go from `a` to `b` at the default speed of 24 km/h. */
  function TravelTime(d: Distance, a: Point, b: Point): real {
    d(a, b) / 24.0 * 3600.0
  }

  /** The point a fraction `f` of the way along the segment from `a` to `b`. */
  function Lerp(a: Point, b: Point, f: real): Point {
    Point(a.x + (b.x - a.x) * f, a.y + (b.y - a.y) * f)
  }

  /** Going from `a` to `c` by way of `b` is no shorter. */
  ghost predicate Triangle(d: Distance, a: Point, b: Point, c: Point) {
    d(a, c) <= d(a, b) + d(b, c)
  }

  /** What the proofs need of a distance. */
  ghost predicate Metric(d: Distance) {
    && (forall a: Point :: d(a, a) == 0.0)
    && (forall a: Point, b: Point :: d(a, b) >= 0.0)
    && (forall a: Point, b: Point, c: Point :: Triangle(d, a, b, c))
    && (forall a: Point, b: Point, f: real {:trigger Lerp(a, b, f)} :: 0.0 <= f <= 1.0 ==>
          && d(Lerp(a, b, f), b) == (1.0 - f) * d(a, b)
          && d(a, Lerp(a, b, f)) == f * d(a, b))
  }

  // ---------------------------------------------------------------- the laws on two distances

  function Abs(x: real): (r: real)
    ensures r >= 0.0 && (r == x || r == -x)
  {
    if x < 0.0 then -x else x
  }

  /** The taxicab distance: a distance that can be written down exactly. */
  function Taxicab(a: Point, b: Point): real {
    Abs(a.x - b.x) + Abs(a.y - b.y)
  }

  lemma AbsScale(f: real, x: real)
    requires f >= 0.0
    ensures Abs(f * x) == f * Abs(x)
  {
    if x < 0.0 {
      assert f * x <= 0.0;
      assert f * -x == -(f * x);
    } else {
      assert f * x >= 0.0;
    }
  }

  function Times(f: real, x: real): real {
    f * x
  }

  lemma SumScale(f: real, u: real, v: real, p: real, q: real)
    requires p == Times(f, u) && q == Times(f, v)
    ensures p + q == Times(f, u + v)
  {
  }

  /** One coordinate: the distances from a point of the segment to its ends. */
  lemma TaxicabAxis(a: real, b: real, f: real)
    requires 0.0 <= f <= 1.0
    ensures Abs(a + (b - a) * f - b) == Times(1.0 - f, Abs(a - b))
    ensures Abs(a - (a + (b - a) * f)) == Times(f, Abs(a - b))
  {
    LerpVector(a, b, f);
    AbsScale(1.0 - f, a - b);
    AbsScale(f, a - b);
  }

  lemma TaxicabSum(a: Point, b: Point, m: Point, f: real)
    requires Abs(m.x - b.x) == Times(1.0 - f, Abs(a.x - b.x)) && Abs(m.y - b.y) == Times(1.0 - f, Abs(a.y - b.y))
    requires Abs(a.x - m.x) == Times(f, Abs(a.x - b.x)) && Abs(a.y - m.y) == Times(f, Abs(a.y - b.y))
    ensures Taxicab(m, b) == Times(1.0 - f, Taxicab(a, b))
    ensures Taxicab(a, m) == Times(f, Taxicab(a, b))
  {
    SumScale(1.0 - f, Abs(a.x - b.x), Abs(a.y - b.y), Abs(m.x - b.x), Abs(m.y - b.y));
    SumScale(f, Abs(a.x - b.x), Abs(a.y - b.y), Abs(a.x - m.x), Abs(a.y - m.y));
  }

  lemma TaxicabLerp(a: Point, b: Point, f: real)
    requires 0.0 <= f <= 1.0
    ensures Taxicab(Lerp(a, b, f), b) == Times(1.0 - f, Taxicab(a, b))
    ensures Taxicab(a, Lerp(a, b, f)) == Times(f, Taxicab(a, b))
  {
    TaxicabAxis(a.x, b.x, f);
    TaxicabAxis(a.y, b.y, f);
    TaxicabSum(a, b, Lerp(a, b, f), f);
  }

  /** One coordinate of the two pieces a point of the segment cuts it into. */
  lemma LerpVector(a: real, b: real, f: real)
    ensures a + (b - a) * f - b == (1.0 - f) * (a - b)
    ensures a - (a + (b - a) * f) == f * (a - b)
  {
  }

  lemma TaxicabTriangle(a: Point, b: Point, c: Point)
    ensures Triangle(Taxicab, a, b, c) && Taxicab(a, b) >= 0.0
  {
  }

  lemma TaxicabIsMetric()
    ensures Metric(Taxicab)
  {
    forall a: Point, b: Point, c: Point ensures Triangle(Taxicab, a, b, c) && Taxicab(a, b) >= 0.0 {
      TaxicabTriangle(a, b, c);
    }
    TaxicabLerps();
  }

  lemma TaxicabLerps()
    ensures forall a: Point, b: Point, f: real {:trigger Lerp(a, b, f)} :: 0.0 <= f <= 1.0 ==>
              && Taxicab(Lerp(a, b, f), b) == (1.0 - f) * Taxicab(a, b)
              && Taxicab(a, Lerp(a, b, f)) == f * Taxicab(a, b)
  {
    forall a: Point, b: Point, f: real | 0.0 <= f <= 1.0
      ensures Taxicab(Lerp(a, b, f), b) == (1.0 - f) * Taxicab(a, b)
      ensures Taxicab(a, Lerp(a, b, f)) == f * Taxicab(a, b)
    {
      TaxicabLerp(a, b, f);
    }
  }

  /** `d` is the straight-line distance: the non-negative root of dx^2 + dy^2. */
  ghost predicate Euclidean(d: Distance) {
    forall a: Point, b: Point ::
      && d(a, b) >= 0.0
      && d(a, b) * d(a, b) == (a.x - b.x) * (a.x - b.x) + (a.y - b.y) * (a.y - b.y)
  }

  lemma Positive(p: real, q: real)
    requires p > 0.0 && q > 0.0
    ensures p * q > 0.0
  {
  }

  lemma SquareOrder(p: real, q: real)
    requires p >= 0.0 && q >= 0.0
    ensures p * p <= q * q ==> p <= q
    ensures p * p == q * q ==> p == q
  {
    if p > q {
      Positive(p - q, p + q);
    } else if p < q {
      Positive(q - p, p + q);
    }
  }

  /** The triangle inequality for roots: p, q, r are the lengths of u, v and u + v. */
  lemma Minkowski(ux: real, uy: real, vx: real, vy: real, p: real, q: real, r: real)
    requires p >= 0.0 && q >= 0.0 && r >= 0.0
    requires p * p == ux * ux + uy * uy
    requires q * q == vx * vx + vy * vy
    requires r * r == (ux + vx) * (ux + vx) + (uy + vy) * (uy + vy)
    ensures r <= p + q
  {
    var dot := ux * vx + uy * vy;
    var cross := ux * vy - uy * vx;
    assert p * q >= 0.0;
    if dot > 0.0 {
      assert (p * q) * (p * q) == dot * dot + cross * cross by {
        assert (p * q) * (p * q) == (p * p) * (q * q);
        assert (ux * ux + uy * uy) * (vx * vx + vy * vy) == dot * dot + cross * cross;
      }
      assert cross * cross >= 0.0;
      SquareOrder(dot, p * q);
    }
    assert dot <= p * q;
    assert r * r == p * p + q * q + 2.0 * dot;
    assert (p + q) * (p + q) == p * p + q * q + 2.0 * (p * q);
    SquareOrder(r, p + q);
  }

  /** A vector scaled by f >= 0 has f times the length. */
  lemma ScaledLength(f: real, ux: real, uy: real, p: real, r: real)
    requires f >= 0.0 && p >= 0.0 && r >= 0.0
    requires p * p == ux * ux + uy * uy
    requires r * r == (f * ux) * (f * ux) + (f * uy) * (f * uy)
    ensures r == f * p
  {
    assert (f * ux) * (f * ux) == (f * f) * (ux * ux);
    assert (f * uy) * (f * uy) == (f * f) * (uy * uy);
    assert (f * f) * (ux * ux) + (f * f) * (uy * uy) == (f * f) * (ux * ux + uy * uy);
    assert (f * p) * (f * p) == (f * f) * (p * p);
    assert f * p >= 0.0;
    SquareOrder(r, f * p);
  }

  lemma EuclideanLerp(d: Distance, a: Point, b: Point, f: real)
    requires Euclidean(d)
    requires 0.0 <= f <= 1.0
    ensures d(Lerp(a, b, f), b) == (1.0 - f) * d(a, b)
    ensures d(a, Lerp(a, b, f)) == f * d(a, b)
  {
    var m := Lerp(a, b, f);
    LerpVector(a.x, b.x, f);
    LerpVector(a.y, b.y, f);
    ScaledLength(1.0 - f, a.x - b.x, a.y - b.y, d(a, b), d(m, b));
    ScaledLength(f, a.x - b.x, a.y - b.y, d(a, b), d(a, m));
  }

  lemma EuclideanTriangle(d: Distance, a: Point, b: Point, c: Point)
    requires Euclidean(d)
    ensures d(a, c) <= d(a, b) + d(b, c)
  {
    Minkowski(a.x - b.x, a.y - b.y, b.x - c.x, b.y - c.y, d(a, b), d(b, c), d(a, c));
  }

  lemma EuclideanSelf(d: Distance, a: Point)
    requires Euclidean(d)
    ensures d(a, a) == 0.0
  {
    SquareOrder(d(a, a), 0.0);
  }

  /** The simulator's own distance satisfies every law the proofs use. */
  lemma EuclideanIsMetric(d: Distance)
    requires Euclidean(d)
    ensures Metric(d)
  {
    forall a: Point ensures d(a, a) == 0.0 {
      EuclideanSelf(d, a);
    }
    forall a: Point, b: Point, c: Point ensures Triangle(d, a, b, c) {
      EuclideanTriangle(d, a, b, c);
    }
    forall a: Point, b: Point, f: real | 0.0 <= f <= 1.0
      ensures d(Lerp(a, b, f), b) == (1.0 - f) * d(a, b)
      ensures d(a, Lerp(a, b, f)) == f * d(a, b)
    {
      EuclideanLerp(d, a, b, f);
    }
  }

  /** On the x axis the distance is the difference. */
  ghost predicate OnLine(d: Distance) {
    forall a: real, b: real :: d(Point(a, 0.0), Point(b, 0.0)) == Abs(a - b)
  }

  lemma AbsSquare(x: real)
    ensures Abs(x) * Abs(x) == x * x
  {
  }

  lemma EuclideanOnLine(d: Distance)
    requires Euclidean(d)
    ensures OnLine(d)
  {
    forall a: real, b: real ensures d(Point(a, 0.0), Point(b, 0.0)) == Abs(a - b) {
      AbsSquare(a - b);
      assert 0.0 * 0.0 == 0.0;
      SquareOrder(d(Point(a, 0.0), Point(b, 0.0)), Abs(a - b));
    }
  }
}
