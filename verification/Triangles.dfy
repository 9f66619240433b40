/** The exact test on a triangle: it covers the convex combinations of the corners and nothing else,
    whatever the shape, the direction of the corners and the place of the point. */
module Triangles {
  import opened Tables
  import opened GeoJsonPolygon
  import opened SpatialIndex

  function Triangle(a: Point, b: Point, c: Point): Ring { [a, b, c, a] }

  /** The point is this mean of the corners. */
  predicate IsMean(p: Point, a: Point, b: Point, c: Point, u: real, v: real, w: real) {
    && u >= 0.0 && v >= 0.0 && w >= 0.0 && u + v + w == 1.0
    && p.lng == u * a.lng + v * b.lng + w * c.lng && p.lat == u * a.lat + v * b.lat + w * c.lat
  }

  /** The convex combinations of the corners. */
  ghost predicate InHull(p: Point, a: Point, b: Point, c: Point) {
    exists u: real, v: real, w: real :: IsMean(p, a, b, c, u, v, w)
  }

  lemma HullTurns(p: Point, a: Point, b: Point, c: Point)
    ensures InHull(p, b, c, a) <==> InHull(p, a, b, c)
  {
    if InHull(p, b, c, a) {
      var v: real, w: real, u: real :| IsMean(p, b, c, a, v, w, u);
      assert IsMean(p, a, b, c, u, v, w);
    }
    if InHull(p, a, b, c) {
      var u: real, v: real, w: real :| IsMean(p, a, b, c, u, v, w);
      assert IsMean(p, b, c, a, v, w, u);
    }
  }

  // ----- crossings of a triangle

  function One(crosses: bool): nat { if crosses then 1 else 0 }

  lemma TriangleCrossings(p: Point, a: Point, b: Point, c: Point)
    ensures Crossings(Triangle(a, b, c), p) == One(Crosses(p, a, b)) + One(Crosses(p, b, c)) + One(Crosses(p, c, a))
  {
    var ring := Triangle(a, b, c);
    assert ring[..3][..2] == ring[..2] && ring[..2][..1] == ring[..1];
    assert Crossings(ring[..1], p) == 0 && Crossings(ring[..2], p) == One(Crosses(p, a, b));
    assert Crossings(ring[..3], p) == Crossings(ring[..2], p) + One(Crosses(p, b, c));
  }

  lemma TriangleBoundary(p: Point, a: Point, b: Point, c: Point)
    ensures OnBoundary(Triangle(a, b, c), p) <==> OnSegment(p, a, b) || OnSegment(p, b, c) || OnSegment(p, c, a)
  {
    var ring := Triangle(a, b, c);
    assert ring[0] == a && ring[1] == b && ring[2] == c && ring[3] == a;
    if OnSegment(p, a, b) { assert OnSegment(p, ring[0], ring[1]); }
    if OnSegment(p, b, c) { assert OnSegment(p, ring[1], ring[2]); }
    if OnSegment(p, c, a) { assert OnSegment(p, ring[2], ring[3]); }
  }

  // ----- on which side of an edge

  /** Positive on one side of the edge, negative on the other; it is what `Crosses` compares with 0. */
  function Side(p: Point, a: Point, b: Point): real {
    (p.lng - a.lng) * (b.lat - a.lat) - (b.lng - a.lng) * (p.lat - a.lat)
  }

  /** The side seen from p: the determinant of the two ends. */
  lemma SideFromPoint(p: Point, a: Point, b: Point)
    ensures Side(p, a, b) == (b.lng - p.lng) * (a.lat - p.lat) - (a.lng - p.lng) * (b.lat - p.lat)
  {
  }

  lemma Balanced(x1: real, y1: real, x2: real, y2: real, x3: real, y3: real)
    ensures (x3 * y2 - x2 * y3) * x1 + (x1 * y3 - x3 * y1) * x2 + (x2 * y1 - x1 * y2) * x3 == 0.0
    ensures (x3 * y2 - x2 * y3) * y1 + (x1 * y3 - x3 * y1) * y2 + (x2 * y1 - x1 * y2) * y3 == 0.0
  {
  }

  /** Weighted with the sides of the opposite edges, the corners balance at p. */
  lemma SidesBalance(p: Point, a: Point, b: Point, c: Point)
    ensures Side(p, b, c) * (a.lng - p.lng) + Side(p, c, a) * (b.lng - p.lng) + Side(p, a, b) * (c.lng - p.lng) == 0.0
    ensures Side(p, b, c) * (a.lat - p.lat) + Side(p, c, a) * (b.lat - p.lat) + Side(p, a, b) * (c.lat - p.lat) == 0.0
  {
    SideFromPoint(p, a, b);
    SideFromPoint(p, b, c);
    SideFromPoint(p, c, a);
    Balanced(a.lng - p.lng, a.lat - p.lat, b.lng - p.lng, b.lat - p.lat, c.lng - p.lng, c.lat - p.lat);
  }

  /** An edge whose line meets p at p's own height holds p. */
  lemma ZeroSideIsOnSegment(p: Point, a: Point, b: Point)
    requires Straddles(p, a, b) && Side(p, a, b) == 0.0
    ensures OnSegment(p, a, b)
  {
    SideIdentity(p, a, b);
    OppositeSigns(p.lng - a.lng, p.lng - b.lng, b.lat - p.lat, p.lat - a.lat);
  }

  lemma OppositeSigns(x: real, y: real, k: real, m: real)
    requires x * k + y * m == 0.0 && ((k > 0.0 && m >= 0.0) || (k <= 0.0 && m < 0.0))
    ensures x <= 0.0 <= y || y <= 0.0 <= x
  {
    ProductSign(x, k);
    ProductSign(y, m);
  }

  // ----- weights and means

  /** The corners balance at p under these weights. */
  predicate Weighs(p: Point, a: Point, b: Point, c: Point, u: real, v: real, w: real) {
    && u >= 0.0 && v >= 0.0 && w >= 0.0 && u + v + w > 0.0
    && u * (a.lng - p.lng) + v * (b.lng - p.lng) + w * (c.lng - p.lng) == 0.0
    && u * (a.lat - p.lat) + v * (b.lat - p.lat) + w * (c.lat - p.lat) == 0.0
  }

  lemma Quotients(u: real, v: real, w: real, sum: real)
    requires u >= 0.0 && v >= 0.0 && w >= 0.0 && sum == u + v + w && sum > 0.0
    ensures u / sum >= 0.0 && v / sum >= 0.0 && w / sum >= 0.0 && u / sum + v / sum + w / sum == 1.0
  {
    QuotientTimes(u, sum);
    QuotientTimes(v, sum);
    QuotientTimes(w, sum);
    Distributes(u / sum, v / sum, w / sum, u, v, w, sum);
  }

  lemma QuotientTimes(x: real, sum: real)
    requires x >= 0.0 && sum > 0.0
    ensures (x / sum) * sum == x && x / sum >= 0.0
  {
  }

  lemma Distributes(x: real, y: real, z: real, u: real, v: real, w: real, sum: real)
    requires sum > 0.0 && x * sum == u && y * sum == v && z * sum == w && u + v + w == sum
    ensures x + y + z == 1.0
  {
    assert (x + y + z) * sum == x * sum + y * sum + z * sum;
  }

  lemma MeanOfOffsets(u: real, v: real, w: real, sum: real, x: real, y: real, z: real, q: real)
    requires sum == u + v + w && sum > 0.0 && u * (x - q) + v * (y - q) + w * (z - q) == 0.0
    ensures q == (u / sum) * x + (v / sum) * y + (w / sum) * z
  {
    assert (u / sum) * sum == u && (v / sum) * sum == v && (w / sum) * sum == w;
    assert u * x + v * y + w * z == sum * q;
    assert sum * ((u / sum) * x + (v / sum) * y + (w / sum) * z) == sum * q;
  }

  lemma WeightsAreMeans(p: Point, a: Point, b: Point, c: Point, u: real, v: real, w: real)
    requires Weighs(p, a, b, c, u, v, w)
    ensures InHull(p, a, b, c)
  {
    var sum := u + v + w;
    Quotients(u, v, w, sum);
    MeanOfOffsets(u, v, w, sum, a.lng, b.lng, c.lng, p.lng);
    MeanOfOffsets(u, v, w, sum, a.lat, b.lat, c.lat, p.lat);
    assert IsMean(p, a, b, c, u / sum, v / sum, w / sum);
  }

  lemma SideScales(px: real, py: real, x: real, y: real, dx: real, dy: real, u: real, w: real)
    requires px == u * x + w * dx && py == u * y + w * dy
    ensures px * dy - dx * py == u * (x * dy - dx * y)
  {
    assert (u * x + w * dx) * dy == u * (x * dy) + w * (dx * dy);
    assert dx * (u * y + w * dy) == u * (dx * y) + w * (dx * dy);
  }

  /** Seen from a mean, each corner's opposite edge shows its share of the triangle. */
  lemma MeanSide(p: Point, a: Point, b: Point, c: Point, u: real, v: real, w: real)
    requires IsMean(p, a, b, c, u, v, w)
    ensures Side(p, b, c) == u * Side(a, b, c)
  {
    assert v == 1.0 - u - w;
    assert p.lng - b.lng == u * (a.lng - b.lng) + w * (c.lng - b.lng);
    assert p.lat - b.lat == u * (a.lat - b.lat) + w * (c.lat - b.lat);
    SideScales(p.lng - b.lng, p.lat - b.lat, a.lng - b.lng, a.lat - b.lat, c.lng - b.lng, c.lat - b.lat, u, w);
  }

  lemma CornersTurn(a: Point, b: Point, c: Point)
    ensures Side(a, b, c) == Side(b, c, a)
  {
    SideFromPoint(a, b, c);
  }

  lemma SignOfShares(u: real, v: real, t: real)
    requires u >= 0.0 && v >= 0.0 && u * t != 0.0 && v * t != 0.0
    ensures u * t > 0.0 <==> v * t > 0.0
  {
    ProductSign(u, t);
    ProductSign(v, t);
  }

  /** Seen from a point of the hull off their lines, two edges lie on the same side. */
  lemma HullSides(p: Point, a: Point, b: Point, c: Point)
    requires InHull(p, a, b, c) && Side(p, b, c) != 0.0 && Side(p, c, a) != 0.0
    ensures Side(p, b, c) > 0.0 <==> Side(p, c, a) > 0.0
  {
    var u: real, v: real, w: real :| IsMean(p, a, b, c, u, v, w);
    MeanSide(p, a, b, c, u, v, w);
    MeanSide(p, b, c, a, v, w, u);
    CornersTurn(a, b, c);
    SignOfShares(u, v, Side(a, b, c));
  }

  predicate SameSign(x: real, y: real, z: real) {
    (x > 0.0 && y > 0.0 && z >= 0.0) || (x < 0.0 && y < 0.0 && z <= 0.0)
  }

  lemma SidesWeigh(p: Point, a: Point, b: Point, c: Point)
    requires SameSign(Side(p, b, c), Side(p, c, a), Side(p, a, b))
    ensures InHull(p, a, b, c)
  {
    SidesBalance(p, a, b, c);
    if Side(p, b, c) > 0.0 {
      WeightsAreMeans(p, a, b, c, Side(p, b, c), Side(p, c, a), Side(p, a, b));
    } else {
      WeightsAreMeans(p, a, b, c, -Side(p, b, c), -Side(p, c, a), -Side(p, a, b));
    }
  }

  // ----- one corner alone above or below

  predicate Alone(p: Point, a: Point, b: Point, c: Point) { Above(a, p) == Above(b, p) != Above(c, p) }

  function Count(p: Point, a: Point, b: Point, c: Point): nat {
    One(Crosses(p, a, b)) + One(Crosses(p, b, c)) + One(Crosses(p, c, a))
  }

  lemma ThirdSide(s1: real, s2: real, s3: real, y1: real, y2: real, y3: real)
    requires s1 * y1 + s2 * y2 + s3 * y3 == 0.0
    requires (y1 > 0.0 && y2 > 0.0 && y3 <= 0.0) || (y1 <= 0.0 && y2 <= 0.0 && y3 > 0.0)
    ensures s1 > 0.0 && s2 > 0.0 ==> s3 >= 0.0
    ensures s1 < 0.0 && s2 < 0.0 ==> s3 <= 0.0
  {
    ProductSign(s1, y1);
    ProductSign(s2, y2);
    ProductSign(s3, y3);
  }

  /** When corner c alone lies above, or alone not above, the two edges at c decide. */
  lemma AloneDecides(p: Point, a: Point, b: Point, c: Point)
    requires Alone(p, a, b, c) && !OnSegment(p, b, c) && !OnSegment(p, c, a)
    ensures Side(p, b, c) != 0.0 && Side(p, c, a) != 0.0
    ensures Count(p, a, b, c) % 2 == 1 <==> (Side(p, b, c) > 0.0 <==> Side(p, c, a) > 0.0)
    ensures (Side(p, b, c) > 0.0 <==> Side(p, c, a) > 0.0) ==> SameSign(Side(p, b, c), Side(p, c, a), Side(p, a, b))
  {
    if Side(p, b, c) == 0.0 { ZeroSideIsOnSegment(p, b, c); }
    if Side(p, c, a) == 0.0 { ZeroSideIsOnSegment(p, c, a); }
    SidesBalance(p, a, b, c);
    ThirdSide(Side(p, b, c), Side(p, c, a), Side(p, a, b), a.lat - p.lat, b.lat - p.lat, c.lat - p.lat);
  }

  lemma AloneCovers(p: Point, a: Point, b: Point, c: Point)
    requires Alone(p, a, b, c) && !OnSegment(p, b, c) && !OnSegment(p, c, a)
    ensures Count(p, a, b, c) % 2 == 1 <==> InHull(p, a, b, c)
  {
    AloneDecides(p, a, b, c);
    if Count(p, a, b, c) % 2 == 1 {
      SidesWeigh(p, a, b, c);
    } else if InHull(p, a, b, c) {
      HullSides(p, a, b, c);
    }
  }

  // ----- no corner alone

  lemma Offsets(u: real, v: real, w: real, x: real, y: real, z: real, q: real)
    requires u + v + w == 1.0 && q == u * x + v * y + w * z
    ensures u * (x - q) + v * (y - q) + w * (z - q) == 0.0
  {
    assert u * (x - q) + v * (y - q) + w * (z - q) == (u * x + v * y + w * z) - (u + v + w) * q;
  }

  lemma MeansWeigh(p: Point, a: Point, b: Point, c: Point, u: real, v: real, w: real)
    requires IsMean(p, a, b, c, u, v, w)
    ensures Weighs(p, a, b, c, u, v, w)
  {
    Offsets(u, v, w, a.lng, b.lng, c.lng, p.lng);
    Offsets(u, v, w, a.lat, b.lat, c.lat, p.lat);
  }

  /** A sum of terms of one sign that vanishes has no other terms. */
  lemma NoTerms(u: real, v: real, w: real, x: real, y: real, z: real)
    requires u >= 0.0 && v >= 0.0 && w >= 0.0 && u + v + w > 0.0
    requires u * x + v * y + w * z == 0.0
    ensures !(x > 0.0 && y > 0.0 && z > 0.0)
    ensures x <= 0.0 && y <= 0.0 && z <= 0.0 ==> (u > 0.0 ==> x == 0.0) && (v > 0.0 ==> y == 0.0) && (w > 0.0 ==> z == 0.0)
  {
    ProductSign(u, x);
    ProductSign(v, y);
    ProductSign(w, z);
  }

  /** Among the corners that weigh something one lies not east and one not west of the mean. */
  lemma BothSides(u: real, v: real, w: real, x: real, y: real, z: real)
    requires u >= 0.0 && v >= 0.0 && w >= 0.0 && u + v + w > 0.0
    requires u * x + v * y + w * z == 0.0
    ensures (u > 0.0 && x <= 0.0) || (v > 0.0 && y <= 0.0) || (w > 0.0 && z <= 0.0)
    ensures (u > 0.0 && x >= 0.0) || (v > 0.0 && y >= 0.0) || (w > 0.0 && z >= 0.0)
  {
    ProductSign(u, x);
    ProductSign(v, y);
    ProductSign(w, z);
  }

  /** The corner lies at the height of p, and not east of it, or not west of it. */
  predicate Level(p: Point, q: Point, west: bool) { q.lat == p.lat && if west then q.lng <= p.lng else p.lng <= q.lng }

  lemma LevelSegment(p: Point, q: Point, r: Point)
    requires Level(p, q, true) && Level(p, r, false)
    ensures OnSegment(p, q, r) && OnSegment(p, r, q)
  {
  }

  lemma LevelCorners(p: Point, a: Point, b: Point, c: Point)
    requires Level(p, a, true) || Level(p, b, true) || Level(p, c, true)
    requires Level(p, a, false) || Level(p, b, false) || Level(p, c, false)
    ensures OnSegment(p, a, b) || OnSegment(p, b, c) || OnSegment(p, c, a)
  {
    var q := if Level(p, a, true) then a else if Level(p, b, true) then b else c;
    var r := if Level(p, a, false) then a else if Level(p, b, false) then b else c;
    LevelSegment(p, q, r);
    if p == a {
      assert OnSegment(p, a, b);
    } else if p == b {
      assert OnSegment(p, b, c);
    } else if p == c {
      assert OnSegment(p, c, a);
    }
  }

  /** Offsets that balance, all of them above or none: some lie at height 0, on either side. */
  lemma SomeAreLevel(u: real, v: real, w: real, x1: real, x2: real, x3: real, y1: real, y2: real, y3: real)
    requires u >= 0.0 && v >= 0.0 && w >= 0.0 && u + v + w > 0.0
    requires u * x1 + v * x2 + w * x3 == 0.0 && u * y1 + v * y2 + w * y3 == 0.0
    requires (y1 > 0.0) == (y2 > 0.0) == (y3 > 0.0)
    ensures (y1 == 0.0 && x1 <= 0.0) || (y2 == 0.0 && x2 <= 0.0) || (y3 == 0.0 && x3 <= 0.0)
    ensures (y1 == 0.0 && x1 >= 0.0) || (y2 == 0.0 && x2 >= 0.0) || (y3 == 0.0 && x3 >= 0.0)
  {
    NoTerms(u, v, w, y1, y2, y3);
    BothSides(u, v, w, x1, x2, x3);
  }

  /** When all corners or none lie above, the hull is met at its lower border only. */
  lemma TogetherOnBoundary(p: Point, a: Point, b: Point, c: Point)
    requires Above(a, p) == Above(b, p) == Above(c, p) && InHull(p, a, b, c)
    ensures OnSegment(p, a, b) || OnSegment(p, b, c) || OnSegment(p, c, a)
  {
    var u: real, v: real, w: real :| IsMean(p, a, b, c, u, v, w);
    MeansWeigh(p, a, b, c, u, v, w);
    SomeAreLevel(u, v, w, a.lng - p.lng, b.lng - p.lng, c.lng - p.lng, a.lat - p.lat, b.lat - p.lat, c.lat - p.lat);
    LevelCorners(p, a, b, c);
  }

  lemma TogetherUncrossed(p: Point, a: Point, b: Point, c: Point)
    requires Above(a, p) == Above(b, p) == Above(c, p)
    ensures Count(p, a, b, c) == 0
  {
  }

  // ----- the boundary

  lemma PointBetween(t: real, h: real)
    requires h != 0.0 && (0.0 <= t <= h || h <= t <= 0.0)
    ensures 0.0 <= t / h <= 1.0 && (t / h) * h == t
  {
    if h > 0.0 {
      assert (t / h) * h == t;
    } else {
      assert t / h == (-t) / (-h);
    }
  }

  lemma OnTheWay(x: real, d: real, t: real, h: real)
    requires h != 0.0 && x * h == d * t
    ensures x == (t / h) * d
  {
    assert (t / h) * h == t;
    assert (x - (t / h) * d) * h == 0.0;
  }

  lemma SegmentIsInHull(p: Point, a: Point, b: Point, c: Point)
    requires OnSegment(p, a, b)
    ensures InHull(p, a, b, c)
  {
    var x, y, d, h := p.lng - a.lng, p.lat - a.lat, b.lng - a.lng, b.lat - a.lat;
    if h != 0.0 {
      PointBetween(y, h);
      OnTheWay(x, d, y, h);
      assert IsMean(p, a, b, c, 1.0 - y / h, y / h, 0.0);
    } else if d != 0.0 {
      PointBetween(x, d);
      assert IsMean(p, a, b, c, 1.0 - x / d, x / d, 0.0);
    } else {
      assert IsMean(p, a, b, c, 1.0, 0.0, 0.0);
    }
  }

  lemma BoundaryIsInHull(p: Point, a: Point, b: Point, c: Point)
    requires OnBoundary(Triangle(a, b, c), p)
    ensures InHull(p, a, b, c)
  {
    TriangleBoundary(p, a, b, c);
    HullTurns(p, a, b, c);
    HullTurns(p, b, c, a);
    if OnSegment(p, a, b) {
      SegmentIsInHull(p, a, b, c);
    } else if OnSegment(p, b, c) {
      SegmentIsInHull(p, b, c, a);
    } else {
      SegmentIsInHull(p, c, a, b);
    }
  }

  // ----- together

  lemma InsideIsHull(p: Point, a: Point, b: Point, c: Point)
    requires !OnSegment(p, a, b) && !OnSegment(p, b, c) && !OnSegment(p, c, a)
    ensures Count(p, a, b, c) % 2 == 1 <==> InHull(p, a, b, c)
  {
    HullTurns(p, a, b, c);
    HullTurns(p, b, c, a);
    if Alone(p, a, b, c) {
      AloneCovers(p, a, b, c);
    } else if Alone(p, b, c, a) {
      AloneCovers(p, b, c, a);
    } else if Alone(p, c, a, b) {
      AloneCovers(p, c, a, b);
    } else {
      TogetherUncrossed(p, a, b, c);
      if InHull(p, a, b, c) {
        TogetherOnBoundary(p, a, b, c);
      }
    }
  }

  /** The exact test on a triangle: the boundary or an odd number of crossings is the hull. */
  lemma TriangleIsHull(p: Point, a: Point, b: Point, c: Point)
    ensures OnBoundary(Triangle(a, b, c), p) || Crossings(Triangle(a, b, c), p) % 2 == 1 <==> InHull(p, a, b, c)
  {
    TriangleCrossings(p, a, b, c);
    TriangleBoundary(p, a, b, c);
    if OnBoundary(Triangle(a, b, c), p) {
      BoundaryIsInHull(p, a, b, c);
    } else {
      InsideIsHull(p, a, b, c);
    }
  }
}
