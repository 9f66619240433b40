/** What the exact test of the spatial index computes, said without crossings: on triangles the hull of
    the corners, on closed rings the parity of the triangles of a fan, and holes cut out. */
module Coverage {
  import opened Tables
  import opened GeoJsonPolygon
  import opened SpatialIndex
  import opened Triangles

  // ----- every closed ring flips what lies inside it

  ghost predicate OffBoundaries(polygon: Polygon, p: Point) {
    forall r :: 0 <= r < |polygon| ==> !OnBoundary(polygon[r], p)
  }

  lemma {:induction false} CrossingsOfOneMore(polygon: Polygon, ring: Ring, p: Point)
    ensures AllCrossings(polygon + [ring], p) == AllCrossings(polygon, p) + Crossings(ring, p)
  {
    if polygon == [] {
      assert polygon + [ring] == [ring] && [ring][1..] == [];
      assert AllCrossings([ring], p) == Crossings(ring, p) + AllCrossings([ring][1..], p);
    } else {
      CrossingsOfOneMore(polygon[1..], ring, p);
      assert (polygon + [ring])[1..] == polygon[1..] + [ring];
    }
  }

  lemma CoversOneRing(ring: Ring, p: Point)
    ensures Covers([ring], p) <==> OnBoundary(ring, p) || Crossings(ring, p) % 2 == 1
  {
    CrossingsOfOneMore([], ring, p);
    assert [] + [ring] == [ring] && [ring][0] == ring;
  }

  lemma CoversOff(polygon: Polygon, p: Point)
    requires OffBoundaries(polygon, p)
    ensures Covers(polygon, p) <==> AllCrossings(polygon, p) % 2 == 1
  {
  }

  lemma OffOneMore(polygon: Polygon, ring: Ring, p: Point)
    requires OffBoundaries(polygon, p) && !OnBoundary(ring, p)
    ensures OffBoundaries(polygon + [ring], p)
  {
    forall r | 0 <= r < |polygon + [ring]| ensures !OnBoundary((polygon + [ring])[r], p) {
      assert (polygon + [ring])[r] == if r < |polygon| then polygon[r] else ring;
    }
  }

  /** Off all boundaries one more ring, be it a hole, flips coverage exactly at the points inside it. */
  lemma RingFlipsItsInside(polygon: Polygon, ring: Ring, p: Point)
    requires OffBoundaries(polygon, p) && !OnBoundary(ring, p)
    ensures Covers(polygon + [ring], p) <==> (Covers(polygon, p) != Covers([ring], p))
  {
    CrossingsOfOneMore(polygon, ring, p);
    CoversOneRing(ring, p);
    OffOneMore(polygon, ring, p);
    CoversOff(polygon, p);
    CoversOff(polygon + [ring], p);
    OddSum(AllCrossings(polygon, p), Crossings(ring, p));
  }

  lemma OddSum(x: nat, y: nat)
    ensures (x + y) % 2 == 1 <==> (x % 2 == 1) != (y % 2 == 1)
  {
    var i, j := x / 2, y / 2;
    assert x == 2 * i + x % 2 && y == 2 * j + y % 2;
    assert x + y == 2 * (i + j) + (x % 2 + y % 2);
  }

  // ----- a rectangle with a hole

  lemma InnerIsOffBorder(x0: real, y0: real, x1: real, y1: real, p: Point)
    requires x0 < p.lng < x1 && y0 < p.lat < y1
    ensures !OnBoundary(Rectangle(x0, y0, x1, y1), p)
  {
  }

  lemma BorderIsBoundary(x0: real, y0: real, x1: real, y1: real, p: Point)
    requires x0 < x1 && y0 < y1 && x0 <= p.lng <= x1 && y0 <= p.lat <= y1
    requires !(x0 < p.lng < x1 && y0 < p.lat < y1)
    ensures OnBoundary(Rectangle(x0, y0, x1, y1), p)
  {
    var ring := Rectangle(x0, y0, x1, y1);
    assert OnSegment(p, ring[0], ring[1]) || OnSegment(p, ring[1], ring[2]) || OnSegment(p, ring[2], ring[3]) || OnSegment(p, ring[3], ring[4]);
  }

  /** A rectangle with a rectangular hole inside covers the closed rectangle without the open hole. */
  lemma CoversOfRectangleWithHole(x0: real, y0: real, x1: real, y1: real, u0: real, v0: real, u1: real, v1: real, p: Point)
    requires x0 < u0 < u1 < x1 && y0 < v0 < v1 < y1
    ensures Covers([Rectangle(x0, y0, x1, y1), Rectangle(u0, v0, u1, v1)], p)
      <==> x0 <= p.lng <= x1 && y0 <= p.lat <= y1 && !(u0 < p.lng < u1 && v0 < p.lat < v1)
  {
    var outer, hole := Rectangle(x0, y0, x1, y1), Rectangle(u0, v0, u1, v1);
    CoversOfRectangle(x0, y0, x1, y1, p);
    CoversOfRectangle(u0, v0, u1, v1, p);
    CoversOneRing(outer, p);
    CoversOneRing(hole, p);
    assert [outer] + [hole] == [outer, hole] && [outer, hole][0] == outer && [outer, hole][1] == hole;
    if u0 < p.lng < u1 && v0 < p.lat < v1 {
      InnerIsOffBorder(x0, y0, x1, y1, p);
      InnerIsOffBorder(u0, v0, u1, v1, p);
      RingFlipsItsInside([outer], hole, p);
    } else if OnBoundary(outer, p) || OnBoundary(hole, p) {
    } else {
      RingFlipsItsInside([outer], hole, p);
      if u0 <= p.lng <= u1 && v0 <= p.lat <= v1 {
        BorderIsBoundary(u0, v0, u1, v1, p);
      }
    }
  }

  // ----- triangles

  /** A triangle covers exactly the convex combinations of its corners. */
  lemma CoversOfTriangle(a: Point, b: Point, c: Point, p: Point)
    ensures Covers([Triangle(a, b, c)], p) <==> InHull(p, a, b, c)
  {
    CoversOneRing(Triangle(a, b, c), p);
    TriangleIsHull(p, a, b, c);
  }

  // ----- any closed rings

  /** The path closed by a last edge to its beginning. */
  function ClosedPath(path: Ring): Ring
    requires path != []
  {
    path + [path[0]]
  }

  /** In how many triangles of the fan from the first corner the point lies. */
  ghost function InFan(path: Ring, p: Point): nat {
    if |path| < 3 then 0
    else InFan(path[..|path| - 1], p) + One(InHull(p, path[0], path[|path| - 2], path[|path| - 1]))
  }

  ghost predicate OffTriangle(path: Ring, i: nat, p: Point)
    requires i + 1 < |path|
  {
    !OnBoundary(Triangle(path[0], path[i], path[i + 1]), p)
  }

  /** The point lies on no edge and no diagonal of the fan. */
  ghost predicate OffFan(path: Ring, p: Point) {
    forall i :: 1 <= i < |path| - 1 ==> OffTriangle(path, i, p)
  }

  lemma PathCrossings(path: Ring, x: Point, p: Point)
    requires path != []
    ensures Crossings(path + [x], p) == Crossings(path, p) + One(Crosses(p, path[|path| - 1], x))
  {
    var longer := path + [x];
    assert longer[..|longer| - 1] == path && longer[|longer| - 2] == path[|path| - 1] && longer[|longer| - 1] == x;
  }

  lemma ClosedCrossings(path: Ring, p: Point)
    requires path != []
    ensures Crossings(ClosedPath(path), p) == Crossings(path, p) + One(Crosses(p, path[|path| - 1], path[0]))
  {
    PathCrossings(path, path[0], p);
  }

  /** One more corner adds the crossings of one more triangle, up to twice the diagonal. */
  lemma OneMoreCorner(path: Ring, x: Point, p: Point)
    requires |path| >= 2
    ensures Crossings(ClosedPath(path + [x]), p) % 2
      == (Crossings(ClosedPath(path), p) + Crossings(Triangle(path[0], path[|path| - 1], x), p)) % 2
  {
    var a, y := path[0], path[|path| - 1];
    ClosedCrossings(path, p);
    ClosedCrossings(path + [x], p);
    PathCrossings(path, x, p);
    TriangleCrossings(p, a, y, x);
    EdgesHaveNoDirection(p, a, y);
    TwiceIsEven(Crossings(path, p) + One(Crosses(p, y, x)) + One(Crosses(p, x, a)), One(Crosses(p, y, a)));
  }

  lemma TwiceIsEven(k: nat, d: nat)
    ensures (k + d + d) % 2 == k % 2
  {
  }

  lemma TwoCornersAreFlat(a: Point, x: Point, p: Point)
    ensures Crossings(ClosedPath([a, x]), p) % 2 == 0
  {
    ClosedCrossings([a, x], p);
    PathCrossings([a], x, p);
    assert [a] + [x] == [a, x] && Crossings([a], p) == 0;
    EdgesHaveNoDirection(p, a, x);
  }

  lemma OffShorterFan(path: Ring, p: Point)
    requires |path| >= 3 && OffFan(path, p)
    ensures OffFan(path[..|path| - 1], p)
    ensures !OnBoundary(Triangle(path[0], path[|path| - 2], path[|path| - 1]), p)
  {
    var n := |path| - 1;
    assert OffTriangle(path, n - 1, p);
    forall j | 1 <= j < |path[..n]| - 1 ensures OffTriangle(path[..n], j, p) {
      assert OffTriangle(path, j, p);
    }
  }

  lemma {:induction false} FanParity(path: Ring, p: Point)
    requires |path| >= 2 && OffFan(path, p)
    ensures Crossings(ClosedPath(path), p) % 2 == InFan(path, p) % 2
  {
    var n := |path| - 1;
    if n == 1 {
      TwoCornersAreFlat(path[0], path[1], p);
      assert path == [path[0], path[1]];
    } else {
      OffShorterFan(path, p);
      FanParity(path[..n], p);
      OneMoreCorner(path[..n], path[n], p);
      TriangleIsHull(p, path[0], path[n - 1], path[n]);
      assert path[..n] + [path[n]] == path;
      SameParity(Crossings(ClosedPath(path[..n]), p), InFan(path[..n], p),
                 Crossings(Triangle(path[0], path[n - 1], path[n]), p), One(InHull(p, path[0], path[n - 1], path[n])));
    }
  }

  lemma SameParity(k: nat, m: nat, x: nat, y: nat)
    requires k % 2 == m % 2 && x % 2 == y % 2
    ensures (k + x) % 2 == (m + y) % 2
  {
    OddSum(k, x);
    OddSum(m, y);
  }

  /** A closed ring of any shape covers a point off its edges, and off the diagonals of the fan, exactly
      when the point lies in an odd number of the fan's triangles. */
  lemma CoversOfRing(path: Ring, p: Point)
    requires |path| >= 2 && OffFan(path, p) && !OnBoundary(ClosedPath(path), p)
    ensures Covers([ClosedPath(path)], p) <==> InFan(path, p) % 2 == 1
  {
    CoversOneRing(ClosedPath(path), p);
    FanParity(path, p);
  }

  ghost function InFans(paths: seq<Ring>, p: Point): nat {
    if paths == [] then 0 else InFans(paths[..|paths| - 1], p) + InFan(paths[|paths| - 1], p)
  }

  function ClosedPaths(paths: seq<Ring>): Polygon
    requires forall r :: 0 <= r < |paths| ==> paths[r] != []
  {
    if paths == [] then [] else ClosedPaths(paths[..|paths| - 1]) + [ClosedPath(paths[|paths| - 1])]
  }

  /** The point lies on no ring and no diagonal. */
  ghost predicate OffFans(paths: seq<Ring>, p: Point) {
    forall r :: 0 <= r < |paths| ==> |paths[r]| >= 2 && OffFan(paths[r], p) && !OnBoundary(ClosedPath(paths[r]), p)
  }

  lemma OneMoreRing(polygon: Polygon, k: nat, ring: Ring, m: nat, p: Point)
    requires OffBoundaries(polygon, p) && (Covers(polygon, p) <==> k % 2 == 1)
    requires !OnBoundary(ring, p) && (Covers([ring], p) <==> m % 2 == 1)
    ensures Covers(polygon + [ring], p) <==> (k + m) % 2 == 1
    ensures OffBoundaries(polygon + [ring], p)
  {
    RingFlipsItsInside(polygon, ring, p);
    OffOneMore(polygon, ring, p);
    OddSum(k, m);
  }

  /** A polygon of closed rings, holes included, covers such a point exactly when it lies in an odd number
      of the triangles of all fans. */
  lemma {:induction false} CoversOfPolygon(paths: seq<Ring>, p: Point)
    requires OffFans(paths, p)
    ensures Covers(ClosedPaths(paths), p) <==> InFans(paths, p) % 2 == 1
    ensures OffBoundaries(ClosedPaths(paths), p)
  {
    if paths == [] {
      CoversOff([], p);
    } else {
      var n := |paths| - 1;
      CoversOfPolygon(paths[..n], p);
      CoversOfRing(paths[n], p);
      OneMoreRing(ClosedPaths(paths[..n]), InFans(paths[..n], p), ClosedPath(paths[n]), InFan(paths[n], p), p);
    }
  }
}
