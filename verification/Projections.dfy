/** What Shape's projections, points and bearings are, told in degrees from the
    points of the polyline (rider/shape.go). */
module Projections {
  import opened Prelude
  import opened Shape

  // ---- In degrees ----------------------------------------------------------

  /** The point t of segment i. */
  ghost function PointOn(g: ShapeGeom, i: int, t: real): LatLon
    requires g.WellFormed() && 0 <= i < g.Segments()
  {
    var a, b := g.points[i], g.points[i + 1];
    LatLon(a.lat + t * (b.lat - a.lat), a.lon + t * (b.lon - a.lon))
  }

  /** The square of the distance in the plane, a degree of latitude being
      111,320 m and one of longitude as many times the cosine. */
  ghost function PlaneSquared(g: ShapeGeom, p: LatLon, q: LatLon): real {
    Square((p.lon - q.lon) * g.cosLat * 111_320.0) + Square((p.lat - q.lat) * 111_320.0)
  }

  /** t is where segment i comes nearest to p; its start, if it goes nowhere. */
  ghost predicate NearestOn(g: ShapeGeom, p: LatLon, i: int, t: real)
    requires g.WellFormed() && 0 <= i < g.Segments()
  {
    && 0.0 <= t <= 1.0
    && (forall s | 0.0 <= s <= 1.0 :: PlaneSquared(g, p, PointOn(g, i, t)) <= PlaneSquared(g, p, PointOn(g, i, s)))
    && (g.points[i] == g.points[i + 1] ==> t == 0.0)
  }

  /** Segment i lies d from p, at the place a along the shape. */
  ghost predicate Lies(g: ShapeGeom, p: LatLon, i: int, d: real, a: real)
    requires g.WellFormed() && 0 <= i < g.Segments()
  {
    exists t :: NearestOn(g, p, i, t) && d == g.metric.root(PlaneSquared(g, p, PointOn(g, i, t)))
                && a == g.cumulative[i] + t * (g.cumulative[i + 1] - g.cumulative[i])
  }

  lemma LocalIsDegrees(g: ShapeGeom, i: int, t: real, p: LatLon)
    requires g.Valid() && 0 <= i < g.Segments()
    ensures g.LocalX(p) - g.localX[i] - Product(t, g.localX[i + 1] - g.localX[i]) ==
            (p.lon - PointOn(g, i, t).lon) * g.cosLat * 111_320.0
    ensures g.LocalY(p) - g.localY[i] - Product(t, g.localY[i + 1] - g.localY[i]) == (p.lat - PointOn(g, i, t).lat) * 111_320.0
  {
    var a, b, o := g.points[i], g.points[i + 1], g.origin;
    Scaled(p.lon - o.lon, a.lon - o.lon, b.lon - o.lon, t, g.cosLat * METRES_PER_DEGREE);
    Scaled(p.lat - o.lat, a.lat - o.lat, b.lat - o.lat, t, METRES_PER_DEGREE);
  }

  lemma Scaled(p: real, a: real, b: real, t: real, c: real)
    ensures p * c - a * c - t * (b * c - a * c) == (p - (a + t * (b - a))) * c
  {
  }

  lemma SquaredInPlane(g: ShapeGeom, i: int, t: real, p: LatLon)
    requires g.Valid() && 0 <= i < g.Segments()
    ensures Square(g.LocalX(p) - g.localX[i] - Product(t, g.localX[i + 1] - g.localX[i]))
            + Square(g.LocalY(p) - g.localY[i] - Product(t, g.localY[i + 1] - g.localY[i])) == PlaneSquared(g, p, PointOn(g, i, t))
  {
    LocalIsDegrees(g, i, t, p);
  }

  lemma FootIsNearest(g: ShapeGeom, p: LatLon, i: int, s: real)
    requires g.Valid() && 0 <= i < g.Segments() && 0.0 <= s <= 1.0
    ensures var t := g.ClosestFraction(i, g.LocalX(p), g.LocalY(p));
            PlaneSquared(g, p, PointOn(g, i, t)) <= PlaneSquared(g, p, PointOn(g, i, s))
  {
    var ax, ay := g.LocalX(p) - g.localX[i], g.LocalY(p) - g.localY[i];
    FootIsLeast(ax, ay, g.localX[i + 1] - g.localX[i], g.localY[i + 1] - g.localY[i], s);
    SquaredInPlane(g, i, g.ClosestFraction(i, g.LocalX(p), g.LocalY(p)), p);
    SquaredInPlane(g, i, s, p);
  }

  lemma StillAtItsStart(g: ShapeGeom, p: LatLon, i: int)
    requires g.Valid() && 0 <= i < g.Segments() && g.points[i] == g.points[i + 1]
    ensures g.ClosestFraction(i, g.LocalX(p), g.LocalY(p)) == 0.0
  {
  }

  lemma SegmentLies(g: ShapeGeom, p: LatLon, i: int)
    requires g.Valid() && 0 <= i < g.Segments()
    ensures Lies(g, p, i, g.Dists(g.LocalX(p), g.LocalY(p))[i], g.Alongs(g.LocalX(p), g.LocalY(p))[i])
  {
    var t := g.ClosestFraction(i, g.LocalX(p), g.LocalY(p));
    SquaredInPlane(g, i, t, p);
    forall s | 0.0 <= s <= 1.0 ensures PlaneSquared(g, p, PointOn(g, i, t)) <= PlaneSquared(g, p, PointOn(g, i, s)) {
      FootIsNearest(g, p, i, s);
    }
    if g.points[i] == g.points[i + 1] {
      StillAtItsStart(g, p, i);
    }
    assert NearestOn(g, p, i, t);
  }

  ghost predicate IsLeast(d: seq<real>, m: int) {
    0 <= m < |d| && forall j | 0 <= j < |d| :: d[m] <= d[j]
  }

  /** A place a hint may choose: no further than a neighbouring segment, and
      within 30 m or a metre more than twice the least distance. */
  ghost predicate Passes(d: seq<real>, j: int) {
    && 0 <= j < |d|
    && (forall m | IsLeast(d, m) :: d[j] <= 30.0 || d[j] <= 2.0 * d[m] + 1.0)
    && (j > 0 ==> d[j] <= d[j - 1]) && (j + 1 < |d| ==> d[j] <= d[j + 1])
  }

  /** How far the place is from the hint, twice as far behind it. */
  ghost function Behind(along: real, hint: real): real {
    if along >= hint then along - hint else 2.0 * (hint - along)
  }

  /** Project in full: without a hint the first segment of those nearest, with
      one the first of the places nearest to the hint. */
  lemma ProjectsExactly(g: ShapeGeom, p: LatLon, hint: Option<real>) returns (d: seq<real>, a: seq<real>, k: int)
    requires g.Valid()
    ensures |d| == |a| == g.Segments() && forall i | 0 <= i < |d| :: Lies(g, p, i, d[i], a[i])
    ensures 0 <= k < |d| && g.Project(p, hint) == Projection(a[k], d[k])
    ensures hint.None? ==> IsLeast(d, k) && forall j | 0 <= j < k :: d[k] < d[j]
    ensures hint.Some? ==> Passes(d, k)
    ensures hint.Some? ==> forall j | Passes(d, j) ::
              Behind(a[k], hint.value) <= Behind(a[j], hint.value) && (j < k ==> Behind(a[k], hint.value) < Behind(a[j], hint.value))
  {
    d, a := g.Dists(g.LocalX(p), g.LocalY(p)), g.Alongs(g.LocalX(p), g.LocalY(p));
    forall i | 0 <= i < |d| ensures Lies(g, p, i, d[i], a[i]) {
      SegmentLies(g, p, i);
    }
    DistsNonNegative(g, g.LocalX(p), g.LocalY(p));
    k := SelectsExactly(d, a, hint);
  }

  lemma PassesExactlyWhen(d: seq<real>, best: int, j: int)
    requires IsLeast(d, best) && 0 <= j < |d|
    ensures Passes(d, j) <==> Candidate(d, d[best], j)
  {
    forall m | IsLeast(d, m) ensures d[m] == d[best] {
    }
  }

  lemma SelectsExactly(d: seq<real>, a: seq<real>, hint: Option<real>) returns (k: int)
    requires |d| == |a| > 0 && forall i | 0 <= i < |d| :: d[i] >= 0.0
    ensures 0 <= k < |d| && Select(d, a, hint) == Projection(a[k], d[k])
    ensures hint.None? ==> IsLeast(d, k) && forall j | 0 <= j < k :: d[k] < d[j]
    ensures hint.Some? ==> Passes(d, k)
    ensures hint.Some? ==> forall j | Passes(d, j) ::
              Behind(a[k], hint.value) <= Behind(a[j], hint.value) && (j < k ==> Behind(a[k], hint.value) < Behind(a[j], hint.value))
  {
    var best := FirstLeast(d, |d|);
    k := best;
    if hint.Some? {
      assert Candidate(d, d[best], best);
      k := FirstClosest(d, a, hint.value, d[best], |d|);
      PassesExactlyWhen(d, best, k);
      forall j | Passes(d, j) ensures Behind(a[k], hint.value) <= Behind(a[j], hint.value)
                              ensures j < k ==> Behind(a[k], hint.value) < Behind(a[j], hint.value) {
        PassesExactlyWhen(d, best, j);
      }
    }
  }

  /** The point at a distance is the point of a segment where that distance is
      reached, heading along that segment; and off the ends the first or the last
      point. */
  lemma PointAtExactly(g: ShapeGeom, along: real)
    requires g.Valid()
    ensures 0.0 <= along <= g.length ==>
              exists i, t | 0 <= i < g.Segments() && 0.0 <= t <= 1.0 ::
                g.cumulative[i] + t * (g.cumulative[i + 1] - g.cumulative[i]) == along
                && g.PointAt(along) == PointOn(g, i, t) && g.BearingAt(along) == g.metric.bearing(g.points[i], g.points[i + 1])
    ensures along >= g.length ==>
              g.PointAt(along) == g.points[|g.points| - 1]
              && g.BearingAt(along) == g.metric.bearing(g.points[|g.points| - 2], g.points[|g.points| - 1])
    ensures along <= 0.0 < g.length ==>
              g.PointAt(along) == g.points[0] && g.BearingAt(along) == g.metric.bearing(g.points[0], g.points[1])
  {
    if 0.0 <= along <= g.length {
      SegmentAtInverts(g, along);
      var (i, t) := g.SegmentAt(along);
      assert g.PointAt(along) == PointOn(g, i, t);
    }
  }
}
