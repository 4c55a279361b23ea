/**
 * Conversion between a field's request coordinates (lists of `[lon, lat]`
 * number lists) and its stored geometry: an outer polygon and a
 * multipolygon of holes. Each ring is closed on the way in by appending a
 * copy of its first point when the last point differs; on the way out each
 * exterior-ring coordinate becomes an `[x, y]` pair again.
 */
module FieldMapper {
  import opened Wrappers

  /** A planar coordinate: x is the longitude, y the latitude (section 3.1.1 of RFC 7946). */
  datatype Coordinate = Coordinate(x: real, y: real)

  /** A polygon without interior rings; `shell` is its exterior ring. */
  datatype Polygon = Polygon(shell: seq<Coordinate>)

  datatype MultiPolygon = MultiPolygon(polygons: seq<Polygon>)

  /** A point list with fewer than two numbers: reading its second number throws. */
  datatype MapError = ShortPoint(index: nat)

  type PointList = seq<seq<real>>

  /** The coordinates of a point list, or the first point too short to read. */
  function ToCoordinates(points: PointList): (r: Result<seq<Coordinate>, MapError>)
    ensures r.Ok? <==> forall i :: 0 <= i < |points| ==> |points[i]| >= 2
    ensures r.Ok? ==> |r.value| == |points|
    ensures r.Ok? ==> forall i :: 0 <= i < |points| ==> r.value[i] == Coordinate(points[i][0], points[i][1])
    ensures r.Err? ==> r.error.index < |points| && |points[r.error.index]| < 2
    ensures r.Err? ==> forall i :: 0 <= i < r.error.index ==> |points[i]| >= 2
  {
    if |points| == 0 then Ok([])
    else
      var init := ToCoordinates(points[..|points| - 1]);
      var last := points[|points| - 1];
      if init.Err? then Err(init.error)
      else if |last| < 2 then Err(ShortPoint(|points| - 1))
      else Ok(init.value + [Coordinate(last[0], last[1])])
  }

  /** A ring is closed when its first and last coordinates coincide (section 3.1.6 of RFC 7946). */
  predicate Closed(ring: seq<Coordinate>) {
    |ring| <= 1 || ring[0] == ring[|ring| - 1]
  }

  /**
   * The ring with a copy of its first coordinate appended when it has more
   * than one coordinate and is not yet closed.
   */
  function ClosedRing(ring: seq<Coordinate>): (r: seq<Coordinate>)
    ensures Closed(r)
    ensures r == ring <==> Closed(ring)
    ensures r == ring || (|ring| > 1 && r == ring + [ring[0]])
  {
    if |ring| > 1 && ring[0] != ring[|ring| - 1] then ring + [ring[0]] else ring
  }

  /** Closing a ring twice closes it once. */
  lemma ClosingIsIdempotent(ring: seq<Coordinate>)
    ensures ClosedRing(ClosedRing(ring)) == ClosedRing(ring)
  {
  }

  /** The polygon on one ring, closed, or the ring's first short point. */
  function RingOf(points: PointList): Result<Polygon, MapError> {
    var cs := ToCoordinates(points);
    if cs.Err? then Err(cs.error) else Ok(Polygon(ClosedRing(cs.value)))
  }

  /** A null or empty list gives no polygon; otherwise the polygon on the closed ring. */
  function PolygonOf(coordinates: Option<PointList>): Result<Option<Polygon>, MapError> {
    if coordinates.None? || |coordinates.value| == 0 then Ok(None)
    else
      var p := RingOf(coordinates.value);
      if p.Err? then Err(p.error) else Ok(Some(p.value))
  }

  /** The polygons of a list of rings, or the first short point met. */
  function Rings(rings: seq<PointList>): (r: Result<seq<Polygon>, MapError>)
    ensures r.Ok? <==> forall i :: 0 <= i < |rings| ==> RingOf(rings[i]).Ok?
    ensures r.Ok? ==> |r.value| == |rings|
    ensures r.Ok? ==> forall i :: 0 <= i < |rings| ==> r.value[i] == RingOf(rings[i]).value
  {
    if |rings| == 0 then Ok([])
    else
      var init := Rings(rings[..|rings| - 1]);
      var last := RingOf(rings[|rings| - 1]);
      if init.Err? then Err(init.error)
      else if last.Err? then Err(last.error)
      else Ok(init.value + [last.value])
  }

  /** A null or empty list of rings gives no multipolygon; otherwise one polygon per ring. */
  function MultiPolygonOf(rings: Option<seq<PointList>>): Result<Option<MultiPolygon>, MapError> {
    if rings.None? || |rings.value| == 0 then Ok(None)
    else
      var ps := Rings(rings.value);
      if ps.Err? then Err(ps.error) else Ok(Some(MultiPolygon(ps.value)))
  }

  function Pair(c: Coordinate): seq<real> {
    [c.x, c.y]
  }

  /** One `[x, y]` pair per exterior-ring coordinate, in ring order. */
  function RingList(p: Polygon): (r: PointList)
    ensures |r| == |p.shell|
    ensures forall i :: 0 <= i < |r| ==> r[i] == Pair(p.shell[i])
  {
    seq(|p.shell|, i requires 0 <= i < |p.shell| => Pair(p.shell[i]))
  }

  function ListOf(polygon: Option<Polygon>): Option<PointList> {
    if polygon.None? then None else Some(RingList(polygon.value))
  }

  function MultiListOf(multi: Option<MultiPolygon>): (r: Option<seq<PointList>>)
    ensures r.None? <==> multi.None?
    ensures r.Some? ==> |r.value| == |multi.value.polygons|
    ensures r.Some? ==> forall i :: 0 <= i < |r.value| ==> r.value[i] == RingList(multi.value.polygons[i])
  {
    if multi.None? then None
    else Some(seq(|multi.value.polygons|, i requires 0 <= i < |multi.value.polygons| =>
                RingList(multi.value.polygons[i])))
  }

  /**
   * Reads each point's first two numbers into a fresh coordinate array, or
   * fails at the first point with fewer than two.
   */
  method ReadCoordinates(points: PointList) returns (r: Result<array<Coordinate>, MapError>)
    ensures r.Ok? <==> ToCoordinates(points).Ok?
    ensures r.Ok? ==> fresh(r.value) && r.value[..] == ToCoordinates(points).value
    ensures r.Err? ==> r.error == ToCoordinates(points).error
  {
    var coords := new Coordinate[|points|];
    var i := 0;
    while i < |points|
      invariant 0 <= i <= |points|
      invariant forall k :: 0 <= k < i ==> |points[k]| >= 2
      invariant forall k :: 0 <= k < i ==> coords[k] == Coordinate(points[k][0], points[k][1])
    {
      var point := points[i];
      if |point| < 2 {
        return Err(ShortPoint(i));
      }
      coords[i] := Coordinate(point[0], point[1]);
      i := i + 1;
    }
    return Ok(coords);
  }

  /**
   * Closes the ring held in `coords`: when it has more than one coordinate
   * and its ends differ, a fresh array one longer receives a copy of it and
   * of its first coordinate; otherwise `coords` itself is the ring.
   */
  method CloseRing(coords: array<Coordinate>) returns (ring: array<Coordinate>)
    ensures ring[..] == ClosedRing(coords[..])
    ensures ring == coords || fresh(ring)
    ensures coords[..] == old(coords[..])
  {
    ring := coords;
    var n := coords.Length;
    if n > 1 && coords[0] != coords[n - 1] {
      var closed := new Coordinate[n + 1];
      forall i | 0 <= i < n {
        closed[i] := coords[i];
      }
      closed[n] := Coordinate(coords[0].x, coords[0].y);
      assert closed[..] == coords[..] + [coords[0]];
      ring := closed;
    }
  }

  /** `listToPolygon`: a null or empty list gives no polygon, otherwise the polygon on the closed ring. */
  method ListToPolygon(coordinates: Option<PointList>) returns (r: Result<Option<Polygon>, MapError>)
    ensures r == PolygonOf(coordinates)
  {
    if coordinates.None? || |coordinates.value| == 0 {
      return Ok(None);
    }
    var one := ReadRing(coordinates.value);
    if one.Err? {
      return Err(one.error);
    }
    return Ok(Some(one.value));
  }

  /** Once a prefix of the rings fails, the whole list fails with the same error. */
  lemma {:induction false} FailureExtends(rings: seq<PointList>, k: nat)
    requires k <= |rings| && Rings(rings[..k]).Err?
    ensures Rings(rings) == Rings(rings[..k])
    decreases |rings| - k
  {
    if k < |rings| {
      assert rings[..k + 1][..k] == rings[..k];
      FailureExtends(rings, k + 1);
    } else {
      assert rings[..k] == rings;
    }
  }

  /** One more ring either fails the list with its own error or adds its closed polygon. */
  lemma RingsStep(rings: seq<PointList>, i: nat)
    requires i < |rings| && Rings(rings[..i]).Ok?
    ensures RingOf(rings[i]).Err? ==> Rings(rings[..i + 1]) == Err(RingOf(rings[i]).error)
    ensures RingOf(rings[i]).Ok? ==> Rings(rings[..i + 1]) == Ok(Rings(rings[..i]).value + [RingOf(rings[i]).value])
  {
    assert rings[..i + 1][..i] == rings[..i];
  }

  /** Reads one ring's points and closes the ring, as `listToPolygon` does for a non-empty list. */
  method ReadRing(points: PointList) returns (r: Result<Polygon, MapError>)
    ensures r == RingOf(points)
  {
    var read := ReadCoordinates(points);
    if read.Err? {
      return Err(read.error);
    }
    var ring := CloseRing(read.value);
    return Ok(Polygon(ring[..]));
  }

  /** `listToMultiPolygon`: one polygon per ring, each ring closed as in `listToPolygon`. */
  method ListToMultiPolygon(rings: Option<seq<PointList>>) returns (r: Result<Option<MultiPolygon>, MapError>)
    ensures r == MultiPolygonOf(rings)
  {
    if rings.None? || |rings.value| == 0 {
      return Ok(None);
    }
    var polys := rings.value;
    var polygons := new Polygon[|polys|];
    var i := 0;
    while i < |polys|
      invariant 0 <= i <= |polys|
      invariant Rings(polys[..i]) == Ok(polygons[..i])
    {
      RingsStep(polys, i);
      ghost var done := polygons[..i];
      var one := ReadRing(polys[i]);
      if one.Err? {
        FailureExtends(polys, i + 1);
        return Err(one.error);
      }
      polygons[i] := one.value;
      assert polygons[..i + 1] == done + [one.value];
      i := i + 1;
    }
    assert polys[..i] == polys && polygons[..i] == polygons[..];
    return Ok(Some(MultiPolygon(polygons[..])));
  }

  /** `polygonToList`: null for null, else one `[x, y]` pair per exterior-ring coordinate. */
  method PolygonToList(polygon: Option<Polygon>) returns (result: Option<PointList>)
    ensures result == ListOf(polygon)
  {
    if polygon.None? {
      return None;
    }
    var coordinates := polygon.value.shell;
    var list: PointList := [];
    for i := 0 to |coordinates|
      invariant list == RingList(Polygon(coordinates[..i]))
    {
      list := list + [[coordinates[i].x, coordinates[i].y]];
    }
    assert coordinates[..|coordinates|] == coordinates;
    return Some(list);
  }

  /** `multiPolygonToList`: null for null, else one pair list per component polygon, in order. */
  method MultiPolygonToList(multi: Option<MultiPolygon>) returns (result: Option<seq<PointList>>)
    ensures result == MultiListOf(multi)
  {
    if multi.None? {
      return None;
    }
    var polygons := multi.value.polygons;
    var lists: seq<PointList> := [];
    for i := 0 to |polygons|
      invariant |lists| == i
      invariant forall k :: 0 <= k < i ==> lists[k] == RingList(polygons[k])
    {
      var coordinates := polygons[i].shell;
      var pairs: PointList := [];
      for j := 0 to |coordinates|
        invariant pairs == RingList(Polygon(coordinates[..j]))
      {
        pairs := pairs + [[coordinates[j].x, coordinates[j].y]];
      }
      assert coordinates[..|coordinates|] == coordinates;
      lists := lists + [pairs];
    }
    assert lists == MultiListOf(multi).value;
    return Some(lists);
  }

  predicate PairsOnly(points: PointList) {
    forall i :: 0 <= i < |points| ==> |points[i]| == 2
  }

  /**
   * A non-empty list of `[lon, lat]` pairs comes back unchanged when it is
   * already closed, and with its first pair appended otherwise.
   */
  lemma {:induction false} ListRoundTrip(points: PointList)
    requires |points| > 0 && PairsOnly(points)
    ensures PolygonOf(Some(points)).Ok?
    ensures var back := ListOf(PolygonOf(Some(points)).value).value;
            if |points| > 1 && points[0] != points[|points| - 1] then back == points + [points[0]]
            else back == points
  {
    var cs := ToCoordinates(points).value;
    forall i | 0 <= i < |points|
      ensures Pair(cs[i]) == points[i]
    {
      assert points[i] == [points[i][0], points[i][1]];
    }
    var back := RingList(Polygon(ClosedRing(cs)));
    if |points| > 1 && points[0] != points[|points| - 1] {
      assert cs[0] != cs[|cs| - 1] by {
        assert Pair(cs[0]) == points[0] && Pair(cs[|cs| - 1]) == points[|points| - 1];
      }
      assert back == points + [points[0]];
    } else {
      assert Closed(cs);
      assert back == points;
    }
  }

  /** The pairs of a ring read back give the same ring. */
  lemma {:induction false} PairsReadBack(ring: seq<Coordinate>)
    ensures ToCoordinates(RingList(Polygon(ring))) == Ok(ring)
  {
    var pts := RingList(Polygon(ring));
    var r := ToCoordinates(pts);
    assert r.value == ring;
  }

  /** Stored polygons with a non-empty closed shell survive the trip to pairs and back. */
  lemma PolygonRoundTrip(p: Polygon)
    requires |p.shell| > 0 && Closed(p.shell)
    ensures PolygonOf(ListOf(Some(p))) == Ok(Some(p))
  {
    PairsReadBack(p.shell);
  }

  /** The same for a non-empty multipolygon whose shells are non-empty and closed. */
  lemma {:induction false} MultiPolygonRoundTrip(m: MultiPolygon)
    requires |m.polygons| > 0
    requires forall i :: 0 <= i < |m.polygons| ==> |m.polygons[i].shell| > 0 && Closed(m.polygons[i].shell)
    ensures MultiPolygonOf(MultiListOf(Some(m))) == Ok(Some(m))
  {
    var lists := MultiListOf(Some(m)).value;
    forall i | 0 <= i < |lists|
      ensures ToCoordinates(lists[i]) == Ok(m.polygons[i].shell)
    {
      PairsReadBack(m.polygons[i].shell);
    }
    assert Rings(lists).value == m.polygons;
  }

  /** Closing never reorders: the input ring is a prefix of the closed ring, at most one coordinate shorter. */
  lemma ClosingKeepsOrder(ring: seq<Coordinate>)
    ensures |ring| <= |ClosedRing(ring)| <= |ring| + 1
    ensures ClosedRing(ring)[..|ring|] == ring
  {
  }
}
