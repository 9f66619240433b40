/** The in-memory spatial index: a bounding-box search followed by an exact test, against a scan
    of all areas with the exact test alone. */
module SpatialIndex {
  import opened Tables
  import opened Lists
  import opened GeoJsonPolygon

  // ----- the exact test: even-odd over all rings, the boundary inside

  predicate OnSegment(p: Point, a: Point, b: Point) {
    && (p.lng - a.lng) * (b.lat - a.lat) == (b.lng - a.lng) * (p.lat - a.lat)
    && (a.lng <= p.lng <= b.lng || b.lng <= p.lng <= a.lng)
    && (a.lat <= p.lat <= b.lat || b.lat <= p.lat <= a.lat)
  }

  predicate Above(a: Point, p: Point) { a.lat > p.lat }

  /** The edge meets the horizontal line through p; its lower end counts, its upper end does not. */
  predicate Straddles(p: Point, a: Point, b: Point) { Above(a, p) != Above(b, p) }

  /** The edge meets the ray that leaves p to the east. */
  predicate Crosses(p: Point, a: Point, b: Point) {
    && Straddles(p, a, b)
    && var side := (p.lng - a.lng) * (b.lat - a.lat) - (b.lng - a.lng) * (p.lat - a.lat);
       if Above(b, p) then side < 0.0 else side > 0.0
  }

  predicate OnBoundary(ring: Ring, p: Point) {
    exists i | 0 <= i < |ring| - 1 :: OnSegment(p, ring[i], ring[i + 1])
  }

  function Crossings(ring: Ring, p: Point): nat {
    if |ring| < 2 then 0
    else Crossings(ring[..|ring| - 1], p) + if Crosses(p, ring[|ring| - 2], ring[|ring| - 1]) then 1 else 0
  }

  function AllCrossings(polygon: Polygon, p: Point): nat {
    if polygon == [] then 0 else Crossings(polygon[0], p) + AllCrossings(polygon[1..], p)
  }

  predicate Covers(polygon: Polygon, p: Point) {
    || (exists r | 0 <= r < |polygon| :: OnBoundary(polygon[r], p))
    || AllCrossings(polygon, p) % 2 == 1
  }

  // ----- boxes

  /** A number or one of the two infinities. */
  datatype Bound = MinusInfinity | Finite(value: real) | PlusInfinity {
    predicate Below(x: real) { MinusInfinity? || (Finite? && value < x) }
    predicate Beyond(x: real) { PlusInfinity? || (Finite? && value > x) }
  }

  datatype Box = Box(minX: Bound, minY: Bound, maxX: Bound, maxY: Bound)

  /** The box and the point, as a box without extent, intersect. */
  predicate Meets(box: Box, p: Point) {
    !box.minX.Beyond(p.lng) && !box.maxX.Below(p.lng) && !box.minY.Beyond(p.lat) && !box.maxY.Below(p.lat)
  }

  datatype AreaGeometryRow = AreaGeometryRow(id: AreaId, boundary: Polygon)

  datatype IndexedArea = IndexedArea(box: Box, id: AreaId, boundary: Polygon)

  /** The smallest box around the points. */
  ghost predicate Encloses(box: Box, points: seq<Point>) {
    && (forall q :: q in points ==> Meets(box, q))
    && (points == [] ==> box == Box(PlusInfinity, PlusInfinity, MinusInfinity, MinusInfinity))
    && (points != [] ==>
          && (exists q :: q in points && box.minX == Finite(q.lng))
          && (exists q :: q in points && box.maxX == Finite(q.lng))
          && (exists q :: q in points && box.minY == Finite(q.lat))
          && (exists q :: q in points && box.maxY == Finite(q.lat)))
  }

  method ToIndexedArea(row: AreaGeometryRow) returns (r: IndexedArea)
    requires row.boundary != []
    ensures r.id == row.id && r.boundary == row.boundary && Encloses(r.box, row.boundary[0])
  {
    var minX, minY, maxX, maxY := PlusInfinity, PlusInfinity, MinusInfinity, MinusInfinity;
    var ring := row.boundary[0];
    for i := 0 to |ring|
      invariant Encloses(Box(minX, minY, maxX, maxY), ring[..i])
    {
      var q := ring[i];
      assert ring[..i + 1] == ring[..i] + [q];
      if minX.Beyond(q.lng) { minX := Finite(q.lng); }
      if maxX.Below(q.lng) { maxX := Finite(q.lng); }
      if minY.Beyond(q.lat) { minY := Finite(q.lat); }
      if maxY.Below(q.lat) { maxY := Finite(q.lat); }
    }
    assert ring[..|ring|] == ring;
    r := IndexedArea(Box(minX, minY, maxX, maxY), row.id, row.boundary);
  }

  // ----- a ring in a box does not count outside the box

  ghost predicate Within(ring: Ring, box: Box) { forall q :: q in ring ==> Meets(box, q) }

  /** Along a path, the horizontal line through p is crossed an odd number of times exactly when
      the ends lie on different sides; so a closed ring crosses it an even number of times. */
  function StraddleCount(ring: Ring, p: Point): nat {
    if |ring| < 2 then 0
    else StraddleCount(ring[..|ring| - 1], p) + if Straddles(p, ring[|ring| - 2], ring[|ring| - 1]) then 1 else 0
  }

  lemma {:induction false} StraddleParity(ring: Ring, p: Point)
    requires ring != []
    ensures StraddleCount(ring, p) % 2 == 1 <==> Straddles(p, ring[0], ring[|ring| - 1])
  {
    if |ring| >= 2 {
      StraddleParity(ring[..|ring| - 1], p);
    }
  }

  lemma ClosedRingStraddlesEvenly(ring: Ring, p: Point)
    requires Closed(ring)
    ensures StraddleCount(ring, p) % 2 == 0
  {
    StraddleParity(ring, p);
  }

  /** The side of the edge on which p lies, written with p between the ends. */
  lemma SideIdentity(p: Point, a: Point, b: Point)
    ensures (p.lng - a.lng) * (b.lat - a.lat) - (b.lng - a.lng) * (p.lat - a.lat)
         == (p.lng - a.lng) * (b.lat - p.lat) + (p.lng - b.lng) * (p.lat - a.lat)
  {
  }

  lemma ProductSign(x: real, y: real)
    ensures x < 0.0 && y > 0.0 ==> x * y < 0.0
    ensures x > 0.0 && y > 0.0 ==> x * y > 0.0
    ensures x < 0.0 && y < 0.0 ==> x * y > 0.0
    ensures x > 0.0 && y < 0.0 ==> x * y < 0.0
    ensures y == 0.0 ==> x * y == 0.0
  {
  }

  /** West of both ends every edge on the line is crossed, east of both none. */
  lemma EdgeOnOneSide(p: Point, a: Point, b: Point)
    ensures p.lng < a.lng && p.lng < b.lng ==> (Crosses(p, a, b) <==> Straddles(p, a, b))
    ensures p.lng > a.lng && p.lng > b.lng ==> !Crosses(p, a, b)
  {
    if Straddles(p, a, b) && ((p.lng < a.lng && p.lng < b.lng) || (p.lng > a.lng && p.lng > b.lng)) {
      SideIdentity(p, a, b);
      ProductSign(p.lng - a.lng, b.lat - p.lat);
      ProductSign(p.lng - b.lng, p.lat - a.lat);
    }
  }

  /** Seen from outside the box, every edge on the line is crossed when the box lies east, and
      none is crossed otherwise. */
  lemma EdgeOutside(p: Point, a: Point, b: Point, box: Box)
    requires Meets(box, a) && Meets(box, b) && !Meets(box, p)
    ensures Crosses(p, a, b) <==> box.minX.Beyond(p.lng) && Straddles(p, a, b)
    ensures !OnSegment(p, a, b)
  {
    EdgeOnOneSide(p, a, b);
  }

  lemma {:induction false} RingOutside(ring: Ring, box: Box, p: Point)
    requires Within(ring, box) && !Meets(box, p)
    ensures Crossings(ring, p) == if box.minX.Beyond(p.lng) then StraddleCount(ring, p) else 0
    ensures !OnBoundary(ring, p)
  {
    if |ring| >= 2 {
      var n := |ring| - 1;
      RingOutside(ring[..n], box, p);
      EdgeOutside(p, ring[n - 1], ring[n], box);
      forall i | 0 <= i < n ensures !OnSegment(p, ring[i], ring[i + 1]) {
        EdgeOutside(p, ring[i], ring[i + 1], box);
      }
    }
  }

  /** A closed ring neither touches a point outside its box nor changes the parity there. */
  lemma ClosedRingIsSilentOutside(ring: Ring, box: Box, p: Point)
    requires Closed(ring) && Within(ring, box) && !Meets(box, p)
    ensures Crossings(ring, p) % 2 == 0 && !OnBoundary(ring, p)
  {
    RingOutside(ring, box, p);
    ClosedRingStraddlesEvenly(ring, p);
  }

  /** Outside the outer ring's box, an area covers exactly what its holes alone would cover. */
  lemma OnlyHolesReachOut(polygon: Polygon, box: Box, p: Point)
    requires polygon != [] && Closed(polygon[0]) && Within(polygon[0], box) && !Meets(box, p)
    ensures Covers(polygon, p) <==> Covers(polygon[1..], p)
  {
    ClosedRingIsSilentOutside(polygon[0], box, p);
    if r :| 0 <= r < |polygon| && OnBoundary(polygon[r], p) {
      assert polygon[1..][r - 1] == polygon[r];
    }
    if r :| 0 <= r < |polygon[1..]| && OnBoundary(polygon[1..][r], p) {
      assert polygon[r + 1] == polygon[1..][r];
    }
  }

  ghost predicate RingsWithin(polygon: Polygon, box: Box) {
    forall r :: 0 <= r < |polygon| ==> Closed(polygon[r]) && Within(polygon[r], box)
  }

  lemma {:induction false} ClosedRingsAreSilentOutside(polygon: Polygon, box: Box, p: Point)
    requires RingsWithin(polygon, box) && !Meets(box, p)
    ensures !Covers(polygon, p) && AllCrossings(polygon, p) % 2 == 0
  {
    if polygon != [] {
      ClosedRingIsSilentOutside(polygon[0], box, p);
      ClosedRingsAreSilentOutside(polygon[1..], box, p);
      OnlyHolesReachOut(polygon, box, p);
    }
  }

  // ----- what the exact test means

  /** The direction in which a ring is listed does not matter. */
  lemma EdgesHaveNoDirection(p: Point, a: Point, b: Point)
    ensures Crosses(p, a, b) <==> Crosses(p, b, a)
    ensures OnSegment(p, a, b) <==> OnSegment(p, b, a)
  {
    SideIdentity(p, a, b);
    SideIdentity(p, b, a);
  }

  function Rectangle(x0: real, y0: real, x1: real, y1: real): Ring {
    [Point(x0, y0), Point(x1, y0), Point(x1, y1), Point(x0, y1), Point(x0, y0)]
  }

  /** On a rectangle the test is the comparison of coordinates, its border included. */
  lemma CoversOfRectangle(x0: real, y0: real, x1: real, y1: real, p: Point)
    requires x0 < x1 && y0 < y1
    ensures Covers([Rectangle(x0, y0, x1, y1)], p) <==> x0 <= p.lng <= x1 && y0 <= p.lat <= y1
  {
    var ring := Rectangle(x0, y0, x1, y1);
    var box := Box(Finite(x0), Finite(y0), Finite(x1), Finite(y1));
    if !Meets(box, p) {
      ClosedRingsAreSilentOutside([ring], box, p);
    } else if p.lat == y0 || p.lat == y1 || p.lng == x0 || p.lng == x1 {
      assert OnSegment(p, ring[0], ring[1]) || OnSegment(p, ring[1], ring[2]) || OnSegment(p, ring[2], ring[3]) || OnSegment(p, ring[3], ring[4]);
      assert OnBoundary([ring][0], p);
    } else {
      RectangleCrossings(x0, y0, x1, y1, p);
      assert [ring][1..] == [] && AllCrossings([ring], p) == Crossings(ring, p) + AllCrossings([ring][1..], p);
      assert AllCrossings([], p) == 0;
    }
  }

  lemma RectangleCrossings(x0: real, y0: real, x1: real, y1: real, p: Point)
    requires x0 < p.lng < x1 && y0 < p.lat < y1
    ensures Crossings(Rectangle(x0, y0, x1, y1), p) == 1
  {
    var ring := Rectangle(x0, y0, x1, y1);
    EdgeOnOneSide(p, ring[1], ring[2]);
    EdgeOnOneSide(p, ring[3], ring[4]);
    assert ring[..4][..3] == ring[..3] && ring[..3][..2] == ring[..2] && ring[..2][..1] == ring[..1];
    assert Crossings(ring[..1], p) == 0 && Crossings(ring[..2], p) == 0;
    assert Crossings(ring[..3], p) == 1 && Crossings(ring[..4], p) == 1;
  }

  function JsonPosition(p: Point): Json { Array([Number(p.lng), Number(p.lat)]) }

  function JsonTriangle(a: Point, b: Point, c: Point): Json {
    Array([JsonPosition(a), JsonPosition(b), JsonPosition(c), JsonPosition(a)])
  }

  function TwoTriangles(): Json {
    Object(Some(Text("Polygon")), Some(Array([
      JsonTriangle(Point(0.0, 0.0), Point(1.0, 0.0), Point(1.0, 1.0)),
      JsonTriangle(Point(5.0, 5.0), Point(6.0, 5.0), Point(6.0, 6.0))])))
  }

  lemma TwoTrianglesAreAcceptable()
    ensures Acceptable(TwoTriangles())
  {
  }

  /** A hole outside the outer ring passes the structural check; the exact test covers its
      corner, which lies outside the box. */
  lemma HoleOutsideTheBoxIsLost(box: Box)
    requires Acceptable(TwoTriangles()) ==> Encloses(box, PolygonOf(TwoTriangles())[0])
    ensures Acceptable(TwoTriangles())
    ensures Covers(PolygonOf(TwoTriangles()), Point(5.0, 5.0)) && !Meets(box, Point(5.0, 5.0))
  {
    TwoTrianglesAreAcceptable();
    var polygon, p := PolygonOf(TwoTriangles()), Point(5.0, 5.0);
    assert OnSegment(p, polygon[1][0], polygon[1][1]);
    assert OnBoundary(polygon[1], p);
    var q: Point :| q in polygon[0] && box.maxX == Finite(q.lng);
    assert q.lng <= 1.0;
  }

  // ----- the index

  /** The rows' entries, each with the box of its outer ring. */
  ghost predicate Indexes(tree: seq<IndexedArea>, rows: seq<AreaGeometryRow>) {
    && |tree| == |rows|
    && forall i :: 0 <= i < |rows| ==>
         && tree[i].id == rows[i].id && tree[i].boundary == rows[i].boundary
         && rows[i].boundary != [] && Encloses(tree[i].box, rows[i].boundary[0])
  }

  /** The ids of the areas that cover a point: a scan of all rows with the exact test. */
  function FullScan(rows: seq<AreaGeometryRow>, p: Point): seq<AreaId> {
    if rows == [] then []
    else (if Covers(rows[0].boundary, p) then [rows[0].id] else []) + FullScan(rows[1..], p)
  }

  function Met(tree: seq<IndexedArea>, p: Point): seq<IndexedArea> {
    if tree == [] then []
    else (if Meets(tree[0].box, p) then [tree[0]] else []) + Met(tree[1..], p)
  }

  function Exact(entries: seq<IndexedArea>, p: Point): seq<AreaId> {
    if entries == [] then []
    else (if Covers(entries[0].boundary, p) then [entries[0].id] else []) + Exact(entries[1..], p)
  }

  lemma {:induction false} ExactOfConcat(x: seq<IndexedArea>, y: seq<IndexedArea>, p: Point)
    ensures Exact(x + y, p) == Exact(x, p) + Exact(y, p)
  {
    if x == [] {
      assert x + y == y;
    } else {
      ExactOfConcat(x[1..], y, p);
      assert (x + y)[1..] == x[1..] + y;
    }
  }

  /** The order in which the tree reports its entries does not matter. */
  lemma {:induction false} ExactOfPermutation(x: seq<IndexedArea>, y: seq<IndexedArea>, p: Point)
    requires multiset(x) == multiset(y)
    ensures multiset(Exact(x, p)) == multiset(Exact(y, p))
    decreases |x|
  {
    if x == [] {
      assert |multiset(y)| == 0;
    } else {
      var e := x[0];
      assert e in multiset(y);
      var i :| 0 <= i < |y| && y[i] == e;
      assert x == [e] + x[1..];
      ExactOfConcat([e], x[1..], p);
      ExactWithout(y, i, p);
      ExactOfPermutation(x[1..], y[..i] + y[i + 1..], p);
    }
  }

  lemma ExactWithout(y: seq<IndexedArea>, i: nat, p: Point)
    requires i < |y|
    ensures multiset(y[..i] + y[i + 1..]) == multiset(y) - multiset{y[i]}
    ensures multiset(Exact(y, p)) == multiset(Exact([y[i]], p)) + multiset(Exact(y[..i] + y[i + 1..], p))
  {
    var left, e, right := y[..i], [y[i]], y[i + 1..];
    assert y == left + (e + right);
    ExactOfConcat(left, e + right, p);
    ExactOfConcat(e, right, p);
    ExactOfConcat(left, right, p);
  }

  /** No area of the rows covers p outside its own box. */
  ghost predicate NothingReachesOut(tree: seq<IndexedArea>, p: Point) {
    forall i :: 0 <= i < |tree| && !Meets(tree[i].box, p) ==> !Covers(tree[i].boundary, p)
  }

  /** The prefilter followed by the exact test is the scan, exactly when nothing reaches out. */
  lemma {:induction false} PrefilterLosesNothing(tree: seq<IndexedArea>, rows: seq<AreaGeometryRow>, p: Point)
    requires Indexes(tree, rows)
    ensures NothingReachesOut(tree, p) ==> Exact(Met(tree, p), p) == FullScan(rows, p)
    ensures !NothingReachesOut(tree, p) ==> |Exact(Met(tree, p), p)| < |FullScan(rows, p)|
  {
    if tree != [] {
      PrefilterLosesNothing(tree[1..], rows[1..], p);
      ExactOfConcat(if Meets(tree[0].box, p) then [tree[0]] else [], Met(tree[1..], p), p);
      ReachingOutSplits(tree, p);
    }
  }

  lemma ReachingOutSplits(tree: seq<IndexedArea>, p: Point)
    requires tree != []
    ensures NothingReachesOut(tree, p) <==>
      (Covers(tree[0].boundary, p) ==> Meets(tree[0].box, p)) && NothingReachesOut(tree[1..], p)
  {
  }

  /** When the rings of every area are closed and lie in the box of its outer ring, nothing
      reaches out anywhere. */
  lemma RingsInTheirBoxesNeverReachOut(tree: seq<IndexedArea>, p: Point)
    requires forall i :: 0 <= i < |tree| ==> RingsWithin(tree[i].boundary, tree[i].box)
    ensures NothingReachesOut(tree, p)
  {
    forall i | 0 <= i < |tree| && !Meets(tree[i].box, p) ensures !Covers(tree[i].boundary, p) {
      ClosedRingsAreSilentOutside(tree[i].boundary, tree[i].box, p);
    }
  }

  /** For closed outer rings, what reaches out is what the holes alone would cover out there. */
  lemma ReachingOutIsAboutHoles(tree: seq<IndexedArea>, rows: seq<AreaGeometryRow>, p: Point)
    requires Indexes(tree, rows) && forall i :: 0 <= i < |rows| ==> Closed(rows[i].boundary[0])
    ensures NothingReachesOut(tree, p) <==>
      forall i :: 0 <= i < |tree| && !Meets(tree[i].box, p) ==> !Covers(tree[i].boundary[1..], p)
  {
    forall i | 0 <= i < |tree| && !Meets(tree[i].box, p)
      ensures Covers(tree[i].boundary, p) <==> Covers(tree[i].boundary[1..], p)
    {
      OnlyHolesReachOut(tree[i].boundary, tree[i].box, p);
    }
  }

  ghost predicate DistinctIds(tree: seq<IndexedArea>) {
    forall i, j :: 0 <= i < j < |tree| ==> tree[i].id != tree[j].id
  }

  lemma {:induction false} DistinctIdsAreFoundOnce(tree: seq<IndexedArea>, p: Point)
    requires DistinctIds(tree)
    ensures NoDuplicates(Exact(Met(tree, p), p))
    ensures forall a :: a in Exact(Met(tree, p), p) ==> exists i :: 0 <= i < |tree| && tree[i].id == a
  {
    if tree != [] {
      var rest := tree[1..];
      DistinctIdsAreFoundOnce(rest, p);
      ExactOfConcat(if Meets(tree[0].box, p) then [tree[0]] else [], Met(rest, p), p);
      forall a | a in Exact(Met(rest, p), p) ensures exists i :: 1 <= i < |tree| && tree[i].id == a {
        var i :| 0 <= i < |rest| && rest[i].id == a;
        assert tree[i + 1].id == a;
      }
      assert tree[0].id !in Exact(Met(rest, p), p);
      assert Exact([tree[0]], p) == if Covers(tree[0].boundary, p) then [tree[0].id] else [];
    }
  }

  class AreaSpatialIndex {
    var tree: seq<IndexedArea>
    var areaCount: nat
    ghost var rows: seq<AreaGeometryRow>

    ghost predicate Valid()
      reads this
    {
      Indexes(tree, rows) && areaCount == |rows|
    }

    constructor (rows: seq<AreaGeometryRow>)
      requires forall i :: 0 <= i < |rows| ==> rows[i].boundary != []
      ensures Valid() && this.rows == rows
    {
      this.rows := rows;
      tree := [];
      areaCount := |rows|;
      new;
      for i := 0 to |rows|
        invariant Indexes(tree, rows[..i]) && this.rows == rows && areaCount == |rows|
      {
        var entry := ToIndexedArea(rows[i]);
        tree := tree + [entry];
      }
      assert rows[..|rows|] == rows;
    }

    /** The tree's search: the entries whose box meets the point, in an order of its own. */
    method Search(p: Point) returns (hits: seq<IndexedArea>)
      ensures multiset(hits) == multiset(Met(tree, p))
    {
      hits := [];
      for i := |tree| downto 0
        invariant hits == Met(tree[i..], p)
      {
        assert tree[i..][1..] == tree[i + 1..];
        if Meets(tree[i].box, p) {
          hits := [tree[i]] + hits;
        }
      }
    }

    /** The answer is the scan's, up to order, exactly when no area covers the point outside its
        own box; and no id is found twice. */
    method FindCoveringAreaIds(lng: real, lat: real) returns (ids: seq<AreaId>)
      requires Valid()
      ensures multiset(ids) == multiset(FullScan(rows, Point(lng, lat))) <==> NothingReachesOut(tree, Point(lng, lat))
      ensures DistinctIds(tree) ==> NoDuplicates(ids)
    {
      var p := Point(lng, lat);
      var hits := Search(p);
      ids := [];
      for i := |hits| downto 0
        invariant ids == Exact(hits[i..], p)
      {
        assert hits[i..][1..] == hits[i + 1..];
        if Covers(hits[i].boundary, p) {
          ids := [hits[i].id] + ids;
        }
      }
      assert hits[0..] == hits;
      ExactOfPermutation(hits, Met(tree, p), p);
      PrefilterLosesNothing(tree, rows, p);
      var exact := Exact(Met(tree, p), p);
      assert |ids| == |multiset(ids)| == |exact| && |FullScan(rows, p)| == |multiset(FullScan(rows, p))|;
      if DistinctIds(tree) {
        DistinctIdsAreFoundOnce(tree, p);
        SameCountsSameDuplicates(ids, exact);
      }
    }
  }
}
