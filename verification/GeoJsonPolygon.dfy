/** The structural check of a GeoJSON polygon (section 3.1.6 of RFC 7946), over untyped JSON. */
module GeoJsonPolygon {
  import opened Tables

  const LNG_RANGE := 180.0
  const LAT_RANGE := 90.0
  const MIN_RING_POSITIONS := 4
  const MAX_POLYGON_VERTICES := 1000

  /** A parsed JSON value. `Number` is a finite number; `NotFinite` stands for the values of type
      number that are not. Fields that the check does not look at are left out of objects. */
  datatype Json =
    | Null
    | Bool(b: bool)
    | Text(text: string)
    | Number(number: real)
    | NotFinite
    | Array(items: seq<Json>)
    | Object(typeField: Option<Json>, coordinates: Option<Json>)

  datatype Failure =
    | NotAnObject
    | NotAPolygon
    | NoRings
    | ShortRing(ring: nat)
    | NotAPair(ring: nat, position: nat)
    | NotNumbers(ring: nat, position: nat)
    | LongitudeOutOfRange(ring: nat, position: nat)
    | LatitudeOutOfRange(ring: nat, position: nat)
    | NotClosed(ring: nat)
    | TooManyVertices(count: nat)

  // ----- what is acceptable

  type Ring = seq<Point>

  predicate IsPosition(v: Json) {
    v.Array? && |v.items| == 2 && v.items[0].Number? && v.items[1].Number?
  }

  function PositionOf(v: Json): Point
    requires IsPosition(v)
  {
    Point(v.items[0].number, v.items[1].number)
  }

  predicate InRange(p: Point) {
    -LNG_RANGE <= p.lng <= LNG_RANGE && -LAT_RANGE <= p.lat <= LAT_RANGE
  }

  predicate AcceptablePosition(v: Json) { IsPosition(v) && InRange(PositionOf(v)) }

  predicate IsRing(v: Json) {
    && v.Array? && |v.items| >= MIN_RING_POSITIONS
    && (forall i :: 0 <= i < |v.items| ==> AcceptablePosition(v.items[i]))
    && PositionOf(v.items[0]) == PositionOf(v.items[|v.items| - 1])
  }

  predicate HasRings(v: Json) {
    v.Object? && v.typeField == Some(Text("Polygon")) && v.coordinates.Some? && v.coordinates.value.Array? && v.coordinates.value.items != []
  }

  /** Positions of the rings, the closing repeat of each not counted. */
  function Vertices(rings: seq<Json>): int {
    if rings == [] then 0
    else Vertices(rings[..|rings| - 1]) + if rings[|rings| - 1].Array? then |rings[|rings| - 1].items| - 1 else 0
  }

  predicate Acceptable(v: Json) {
    && HasRings(v)
    && (forall r :: 0 <= r < |v.coordinates.value.items| ==> IsRing(v.coordinates.value.items[r]))
    && Vertices(v.coordinates.value.items) <= MAX_POLYGON_VERTICES
  }

  // ----- the check

  /** The first defect of one ring. */
  method RingFailure(ring: Json, ringIndex: nat) returns (failure: Option<Failure>)
    ensures failure.None? <==> IsRing(ring)
    ensures failure.Some? ==> NamesDefect(failure.value, ring, ringIndex)
  {
    if !ring.Array? || |ring.items| < MIN_RING_POSITIONS {
      return Some(ShortRing(ringIndex));
    }
    var positionIndex := 0;
    while positionIndex < |ring.items|
      invariant 0 <= positionIndex <= |ring.items|
      invariant forall i :: 0 <= i < positionIndex ==> AcceptablePosition(ring.items[i])
    {
      var position := ring.items[positionIndex];
      if !position.Array? || |position.items| != 2 {
        return Some(NotAPair(ringIndex, positionIndex));
      }
      var lng, lat := position.items[0], position.items[1];
      if !lng.Number? || !lat.Number? {
        return Some(NotNumbers(ringIndex, positionIndex));
      }
      if (if lng.number < 0.0 then -lng.number else lng.number) > LNG_RANGE {
        return Some(LongitudeOutOfRange(ringIndex, positionIndex));
      }
      if (if lat.number < 0.0 then -lat.number else lat.number) > LAT_RANGE {
        return Some(LatitudeOutOfRange(ringIndex, positionIndex));
      }
      positionIndex := positionIndex + 1;
    }
    var first, last := PositionOf(ring.items[0]), PositionOf(ring.items[|ring.items| - 1]);
    if first.lng != last.lng || first.lat != last.lat {
      return Some(NotClosed(ringIndex));
    }
    return None;
  }

  /** The failure points at a place that is wrong, and every place before it is right. */
  ghost predicate NamesDefect(f: Failure, ring: Json, ringIndex: nat) {
    match f
    case ShortRing(r) => r == ringIndex && (ring.Array? ==> |ring.items| < MIN_RING_POSITIONS)
    case NotAPair(r, p) => r == ringIndex && FirstBad(ring, p) && !(ring.items[p].Array? && |ring.items[p].items| == 2)
    case NotNumbers(r, p) =>
      && r == ringIndex && FirstBad(ring, p) && ring.items[p].Array? && |ring.items[p].items| == 2
      && !IsPosition(ring.items[p])
    case LongitudeOutOfRange(r, p) =>
      && r == ringIndex && FirstBad(ring, p) && IsPosition(ring.items[p])
      && !(-LNG_RANGE <= PositionOf(ring.items[p]).lng <= LNG_RANGE)
    case LatitudeOutOfRange(r, p) =>
      && r == ringIndex && FirstBad(ring, p) && IsPosition(ring.items[p])
      && -LNG_RANGE <= PositionOf(ring.items[p]).lng <= LNG_RANGE
    case NotClosed(r) =>
      && r == ringIndex && ring.Array? && |ring.items| >= MIN_RING_POSITIONS
      && forall i :: 0 <= i < |ring.items| ==> AcceptablePosition(ring.items[i])
    case _ => false
  }

  ghost predicate FirstBad(ring: Json, p: nat) {
    && ring.Array? && MIN_RING_POSITIONS <= |ring.items| && p < |ring.items|
    && !AcceptablePosition(ring.items[p])
    && forall i :: 0 <= i < p ==> AcceptablePosition(ring.items[i])
  }

  method GeoJsonPolygonFailure(v: Json) returns (failure: Option<Failure>)
    ensures failure.None? <==> Acceptable(v)
    ensures failure == Some(NotAnObject) <==> !v.Object? && !v.Array?
    ensures failure.Some? && failure.value.TooManyVertices? ==>
      && HasRings(v) && failure.value.count == Vertices(v.coordinates.value.items) > MAX_POLYGON_VERTICES
    ensures failure == Some(NotAPolygon) <==> v.Array? || (v.Object? && v.typeField != Some(Text("Polygon")))
    ensures failure == Some(NoRings) <==> v.Object? && v.typeField == Some(Text("Polygon")) && !HasRings(v)
    ensures failure.Some? && HasRings(v) && !failure.value.TooManyVertices? ==>
      exists r: nat :: FirstBadRing(v.coordinates.value.items, r, failure.value)
  {
    if !v.Object? && !v.Array? {
      return Some(NotAnObject);
    }
    if v.Array? || v.typeField != Some(Text("Polygon")) {
      return Some(NotAPolygon);
    }
    if v.coordinates.None? || !v.coordinates.value.Array? || |v.coordinates.value.items| == 0 {
      return Some(NoRings);
    }
    var rings := v.coordinates.value.items;
    var vertexCount := 0;
    var ringIndex := 0;
    while ringIndex < |rings|
      invariant 0 <= ringIndex <= |rings|
      invariant forall r :: 0 <= r < ringIndex ==> IsRing(rings[r])
      invariant vertexCount == Vertices(rings[..ringIndex])
    {
      failure := RingFailure(rings[ringIndex], ringIndex);
      if failure.Some? {
        assert FirstBadRing(rings, ringIndex, failure.value);
        return failure;
      }
      assert rings[..ringIndex + 1][..ringIndex] == rings[..ringIndex];
      vertexCount := vertexCount + |rings[ringIndex].items| - 1;
      ringIndex := ringIndex + 1;
    }
    assert rings[..ringIndex] == rings;
    if vertexCount > MAX_POLYGON_VERTICES {
      return Some(TooManyVertices(vertexCount));
    }
    return None;
  }

  ghost predicate FirstBadRing(rings: seq<Json>, r: nat, f: Failure) {
    && r < |rings| && !IsRing(rings[r]) && NamesDefect(f, rings[r], r)
    && forall q :: 0 <= q < r ==> IsRing(rings[q])
  }

  // ----- the accepted value as a polygon

  function RingOf(v: Json): (ring: Ring)
    requires IsRing(v)
    ensures |ring| == |v.items|
    ensures ring[0] == ring[|ring| - 1]
  {
    seq(|v.items|, i requires 0 <= i < |v.items| => PositionOf(v.items[i]))
  }

  type Polygon = seq<Ring>

  function PolygonOf(v: Json): (polygon: Polygon)
    requires Acceptable(v)
    ensures |polygon| == |v.coordinates.value.items|
    ensures forall r :: 0 <= r < |polygon| ==> |polygon[r]| >= 4 && Closed(polygon[r])
  {
    var rings := v.coordinates.value.items;
    seq(|rings|, r requires 0 <= r < |rings| => RingOf(rings[r]))
  }

  predicate Closed(ring: Ring) { ring != [] && ring[0] == ring[|ring| - 1] }
}
