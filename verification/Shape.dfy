/** rider/shape.go: polylines with cumulative distances, the hinted and the
    unhinted projection of a point onto one, and its inverse. Coordinates are
    reals; the great-circle distance and bearing, the cosine and the square
    root behind math.Hypot are parameters. */
module Shape {
  import opened Prelude

  const METRES_PER_DEGREE: real := 111_320.0
  const HINT_CANDIDATE_BAND: real := 30.0
  const BACKWARD_HINT_WEIGHT: real := 2.0

  datatype LatLon = LatLon(lat: real, lon: real)

  /** The functions the source takes from its math library. */
  datatype Metric = Metric(
    distance: (LatLon, LatLon) -> real,
    bearing: (LatLon, LatLon) -> real,
    cosDegrees: real -> real,
    root: real -> real)
  {
    /** All that is ever used of the square root: it starts at zero and does
        not decrease. */
    ghost predicate Valid() {
      && (forall a, b :: distance(a, b) >= 0.0)
      && root(0.0) == 0.0
      && (forall x, y | 0.0 <= x <= y :: root(x) <= root(y))
    }

    /** math.Hypot. */
    function Hypot(x: real, y: real): real {
      root(Square(x) + Square(y))
    }
  }

  datatype Projection = Projection(alongShape: real, distanceToShape: real)

  datatype ShapeGeom = ShapeGeom(
    points: seq<LatLon>,
    cumulative: seq<real>,
    length: real,
    origin: LatLon,
    cosLat: real,
    localX: seq<real>,
    localY: seq<real>,
    metric: Metric)
  {
    /** Enough for every index below to be in range. */
    predicate WellFormed() {
      |points| >= 2 && |cumulative| == |localX| == |localY| == |points|
    }

    /** What NewShapeGeom establishes. */
    ghost predicate Valid() {
      && WellFormed()
      && metric.Valid()
      && cumulative[0] == 0.0
      && (forall i | 0 <= i < Segments() :: CumulativeStep(i))
      && length == cumulative[|points| - 1]
      && (forall i | 0 <= i < |points| :: localX[i] == LocalX(points[i]))
      && (forall i | 0 <= i < |points| :: localY[i] == LocalY(points[i]))
    }

    ghost predicate CumulativeStep(i: int)
      requires WellFormed() && 0 <= i < Segments()
    {
      cumulative[i + 1] == cumulative[i] + metric.distance(points[i], points[i + 1])
    }

    function Segments(): (n: int) {
      |points| - 1
    }

    function LocalX(p: LatLon): real {
      (p.lon - origin.lon) * cosLat * METRES_PER_DEGREE
    }

    function LocalY(p: LatLon): real {
      (p.lat - origin.lat) * METRES_PER_DEGREE
    }

    /** How far into segment i the point of it closest to (px, py) lies. */
    function ClosestFraction(i: int, px: real, py: real): (t: real)
      requires WellFormed() && 0 <= i < Segments()
      ensures 0.0 <= t <= 1.0
    {
      Foot(px - localX[i], py - localY[i], localX[i + 1] - localX[i], localY[i + 1] - localY[i])
    }

    /** Distance in the local plane from (px, py) to the point t of segment i. */
    function DistanceAt(i: int, t: real, px: real, py: real): real
      requires WellFormed() && 0 <= i < Segments()
    {
      metric.Hypot(
        px - localX[i] - Product(t, localX[i + 1] - localX[i]),
        py - localY[i] - Product(t, localY[i + 1] - localY[i]))
    }

    /** Distance along the shape to the point t of segment i. */
    function AlongAt(i: int, t: real): real
      requires WellFormed() && 0 <= i < Segments()
    {
      cumulative[i] + Product(t, cumulative[i + 1] - cumulative[i])
    }

    function ProjectOnto(i: int, px: real, py: real): (real, real)
      requires WellFormed() && 0 <= i < Segments()
    {
      var t := ClosestFraction(i, px, py);
      (DistanceAt(i, t, px, py), AlongAt(i, t))
    }

    function Dists(px: real, py: real): (s: seq<real>)
      requires WellFormed()
      ensures |s| == Segments()
    {
      seq(Segments(), i requires 0 <= i < Segments() => ProjectOnto(i, px, py).0)
    }

    function Alongs(px: real, py: real): (s: seq<real>)
      requires WellFormed()
      ensures |s| == Segments()
    {
      seq(Segments(), i requires 0 <= i < Segments() => ProjectOnto(i, px, py).1)
    }

    /** What Project answers: the nearest segment without a hint, the candidate
        with the least weighted gap to the hint with one. */
    function Project(p: LatLon, hint: Option<real>): Projection
      requires WellFormed()
    {
      Select(Dists(LocalX(p), LocalY(p)), Alongs(LocalX(p), LocalY(p)), hint)
    }

    /** The segment containing `along` and the fraction into it. */
    function SegmentAt(along: real): (r: (int, real))
      requires WellFormed()
      ensures 0 <= r.0 < Segments()
    {
      if along >= length then (Segments() - 1, 1.0)
      else if along <= 0.0 then (0, 0.0)
      else SegmentFrom(along, 0)
    }

    function SegmentFrom(along: real, i: int): (r: (int, real))
      requires WellFormed() && 0 <= i <= Segments()
      ensures 0 <= r.0 < Segments()
      decreases Segments() - i
    {
      if i == Segments() then (Segments() - 1, 1.0)
      else if along < cumulative[i + 1] then
        var segLen := cumulative[i + 1] - cumulative[i];
        if segLen <= 0.0 then (i, 0.0) else (i, (along - cumulative[i]) / segLen)
      else SegmentFrom(along, i + 1)
    }

    function PointAt(along: real): LatLon
      requires WellFormed()
    {
      var (i, t) := SegmentAt(along);
      LatLon(
        points[i].lat + t * (points[i + 1].lat - points[i].lat),
        points[i].lon + t * (points[i + 1].lon - points[i].lon))
    }

    function BearingAt(along: real): real
      requires WellFormed()
    {
      var i := SegmentAt(along).0;
      metric.bearing(points[i], points[i + 1])
    }
  }

  /** A shape as the engine holds it: at least two points, every table filled. */
  type Polyline = g: ShapeGeom | g.WellFormed()
    witness ShapeGeom([LatLon(0.0, 0.0), LatLon(0.0, 0.0)], [0.0, 0.0], 0.0, LatLon(0.0, 0.0), 1.0,
                      [0.0, 0.0], [0.0, 0.0], Metric((a, b) => 0.0, (a, b) => 0.0, x => 1.0, x => x))

  /** The multiple of (dx, dy) in [0, 1] nearest to (ax, ay). */
  function Foot(ax: real, ay: real, dx: real, dy: real): (t: real)
    ensures 0.0 <= t <= 1.0
  {
    var lenSq := Square(dx) + Square(dy);
    if lenSq > 0.0 then MinReal(1.0, MaxReal(0.0, (ax * dx + ay * dy) / lenSq)) else 0.0
  }

  predicate IsLocalMin(dists: seq<real>, i: int)
    requires 0 <= i < |dists|
  {
    && (i > 0 ==> dists[i] <= dists[i - 1])
    && (i < |dists| - 1 ==> dists[i] <= dists[i + 1])
  }

  /** The choice between the segments, given their distances from the point
      and the place along the shape each distance is reached. */
  function Select(dists: seq<real>, alongs: seq<real>, hint: Option<real>): Projection
    requires |dists| == |alongs| > 0
  {
    var best := FirstLeast(dists, |dists|);
    match hint
    case None => Projection(alongs[best], dists[best])
    case Some(h) =>
      var chosen := FirstClosest(dists, alongs, h, dists[best], |dists|);
      var k := if chosen < 0 then best else chosen;
      Projection(alongs[k], dists[k])
  }

  function Threshold(best: real): real {
    MaxReal(2.0 * best + 1.0, HINT_CANDIDATE_BAND)
  }

  /** A pass a hint may choose: a local minimum inside the band. */
  predicate Candidate(dists: seq<real>, best: real, i: int)
    requires 0 <= i < |dists|
  {
    dists[i] <= Threshold(best) && IsLocalMin(dists, i)
  }

  /** How far a candidate sits from the hint, backwards counting for more. */
  function WeightedGap(along: real, hint: real): (g: real)
    ensures g >= 0.0
    ensures g == 0.0 <==> along == hint
  {
    var delta := along - hint;
    if delta < 0.0 then -delta * BACKWARD_HINT_WEIGHT else delta
  }

  /** The first index of the least of the first n values. */
  function FirstLeast(s: seq<real>, n: int): (k: int)
    requires 0 < n <= |s|
    ensures 0 <= k < n
    ensures forall j | 0 <= j < n :: s[k] <= s[j]
    ensures forall j | 0 <= j < k :: s[k] < s[j]
  {
    if n == 1 then 0
    else
      var k := FirstLeast(s, n - 1);
      if s[n - 1] < s[k] then n - 1 else k
  }

  /** The first candidate among the first n with the least weighted gap to the
      hint, or -1 when none of them is a candidate. */
  function FirstClosest(dists: seq<real>, alongs: seq<real>, hint: real, best: real, n: int): (k: int)
    requires |dists| == |alongs| && 0 <= n <= |dists|
    ensures -1 <= k < n
    ensures k == -1 ==> forall j | 0 <= j < n :: !Candidate(dists, best, j)
    ensures k >= 0 ==> Candidate(dists, best, k)
    ensures k >= 0 ==> forall j | 0 <= j < n && Candidate(dists, best, j) ::
              WeightedGap(alongs[k], hint) <= WeightedGap(alongs[j], hint)
    ensures k >= 0 ==> forall j | 0 <= j < k && Candidate(dists, best, j) ::
              WeightedGap(alongs[k], hint) < WeightedGap(alongs[j], hint)
  {
    if n == 0 then -1
    else
      var k := FirstClosest(dists, alongs, hint, best, n - 1);
      if !Candidate(dists, best, n - 1) then k
      else if k < 0 || WeightedGap(alongs[n - 1], hint) < WeightedGap(alongs[k], hint) then n - 1
      else k
  }

  // ---- The loops of the source --------------------------------------------

  function SumLat(points: seq<LatLon>): real {
    if |points| == 0 then 0.0 else SumLat(points[..|points| - 1]) + points[|points| - 1].lat
  }

  function MeanLat(points: seq<LatLon>): real
    requires |points| > 0
  {
    SumLat(points) / |points| as real
  }

  lemma MeanLatIs(points: seq<LatLon>, sum: real)
    requires |points| > 0 && sum == SumLat(points)
    ensures sum / |points| as real == MeanLat(points)
  {
  }

  /** The vertices' places in the plane depend on its origin and scale alone. */
  lemma Completes(bare: ShapeGeom, localX: seq<real>, localY: seq<real>)
    requires |bare.points| >= 2 && |bare.points| == |bare.cumulative| == |localX| == |localY| && bare.metric.Valid()
    requires bare.cumulative[0] == 0.0 && bare.length == bare.cumulative[|bare.points| - 1]
    requires forall i, j | 0 <= i < |bare.points| - 1 && j == i + 1 ::
               bare.cumulative[j] == bare.cumulative[i] + bare.metric.distance(bare.points[i], bare.points[j])
    requires forall i | 0 <= i < |bare.points| :: localX[i] == bare.LocalX(bare.points[i]) && localY[i] == bare.LocalY(bare.points[i])
    ensures bare.(localX := localX, localY := localY).Valid()
  {
    var g := bare.(localX := localX, localY := localY);
    assert forall i | 0 <= i < g.Segments() :: g.CumulativeStep(i);
    assert forall p :: g.LocalX(p) == bare.LocalX(p) && g.LocalY(p) == bare.LocalY(p);
  }

  /** NewShapeGeom: the distances along the points, and the local plane scaled by
      the cosine of their mean latitude. */
  method NewShapeGeom(points: seq<LatLon>, metric: Metric) returns (g: ShapeGeom)
    requires |points| >= 2
    requires metric.Valid()
    ensures g.Valid() && g.points == points && g.metric == metric && g.origin == points[0]
    ensures g.cosLat == metric.cosDegrees(MeanLat(points))
  {
    var sumLat := SumLatitudes(points);
    MeanLatIs(points, sumLat);
    var cosLat := metric.cosDegrees(sumLat / |points| as real);
    var cumulative := AccumulateDistances(points, metric.distance);
    g := ShapeGeom(points, cumulative, cumulative[|points| - 1], points[0], cosLat, [], [], metric);
    var localX, localY := LocalVertices(g);
    Completes(g, localX, localY);
    g := g.(localX := localX, localY := localY);
  }

  method SumLatitudes(points: seq<LatLon>) returns (sum: real)
    ensures sum == SumLat(points)
  {
    sum := 0.0;
    for i := 0 to |points|
      invariant sum == SumLat(points[..i])
    {
      assert points[..i + 1][..i] == points[..i];
      sum := sum + points[i].lat;
    }
    assert points[..|points|] == points;
  }

  method AccumulateDistances(points: seq<LatLon>, distance: (LatLon, LatLon) -> real) returns (r: seq<real>)
    requires |points| >= 2
    ensures |r| == |points| && r[0] == 0.0
    ensures forall i, j | 0 <= i < |points| - 1 && j == i + 1 :: r[j] == r[i] + distance(points[i], points[j])
  {
    var cumulative := new real[|points|](_ => 0.0);
    for i := 1 to |points|
      invariant cumulative[0] == 0.0
      invariant forall k, j | 0 <= k < i - 1 && j == k + 1 :: cumulative[j] == cumulative[k] + distance(points[k], points[j])
    {
      cumulative[i] := cumulative[i - 1] + distance(points[i - 1], points[i]);
    }
    r := cumulative[..];
  }

  method LocalVertices(g: ShapeGeom) returns (xs: seq<real>, ys: seq<real>)
    ensures |xs| == |ys| == |g.points|
    ensures forall i | 0 <= i < |g.points| :: xs[i] == g.LocalX(g.points[i]) && ys[i] == g.LocalY(g.points[i])
  {
    var localX, localY := new real[|g.points|](_ => 0.0), new real[|g.points|](_ => 0.0);
    for i := 0 to |g.points|
      invariant forall j | 0 <= j < i :: localX[j] == g.LocalX(g.points[j]) && localY[j] == g.LocalY(g.points[j])
    {
      localX[i], localY[i] := g.LocalX(g.points[i]), g.LocalY(g.points[i]);
    }
    xs, ys := localX[..], localY[..];
  }

  /** projectOnto as a function of the segment, zero outside the shape. */
  function Onto(g: ShapeGeom, px: real, py: real): (f: int -> (real, real))
    requires g.WellFormed()
  {
    i => if 0 <= i < g.Segments() then g.ProjectOnto(i, px, py) else (0.0, 0.0)
  }

  /** Project without a hint: one pass with a running minimum. */
  method ProjectNearest(g: ShapeGeom, p: LatLon) returns (r: Projection)
    requires g.WellFormed()
    ensures r == g.Project(p, None)
  {
    var px, py := g.LocalX(p), g.LocalY(p);
    r := NearestSegment(g.Segments(), Onto(g, px, py), g.Dists(px, py), g.Alongs(px, py));
  }

  method NearestSegment(n: int, onto: int -> (real, real), ghost dists: seq<real>, ghost alongs: seq<real>)
    returns (r: Projection)
    requires n == |dists| == |alongs| > 0
    requires forall i | 0 <= i < n :: onto(i) == (dists[i], alongs[i])
    ensures r == Select(dists, alongs, None)
  {
    var (bestDist, bestAlong) := onto(0);
    for i := 1 to n
      invariant var k := FirstLeast(dists, i); bestDist == dists[k] && bestAlong == alongs[k]
    {
      var (d, along) := onto(i);
      if d < bestDist {
        bestDist, bestAlong := d, along;
      }
    }
    r := Projection(bestAlong, bestDist);
  }

  /** Project with a hint: every segment's distance, then the candidates. */
  method ProjectHinted(g: ShapeGeom, p: LatLon, hint: real) returns (r: Projection)
    requires g.WellFormed()
    ensures r == g.Project(p, Some(hint))
  {
    var px, py := g.LocalX(p), g.LocalY(p);
    var dists, alongs, best := AllSegments(g.Segments(), Onto(g, px, py));
    assert dists == g.Dists(px, py);
    assert alongs == g.Alongs(px, py);
    var chosen := ChooseCandidate(dists, alongs, hint, best);
    r := Projection(alongs[chosen], dists[chosen]);
  }

  method AllSegments(n: int, onto: int -> (real, real)) returns (ds: seq<real>, xs: seq<real>, best: int)
    requires n > 0
    ensures |ds| == |xs| == n && forall i | 0 <= i < n :: onto(i) == (ds[i], xs[i])
    ensures best == FirstLeast(ds, n)
  {
    var dists, alongs := new real[n](_ => 0.0), new real[n](_ => 0.0);
    best := 0;
    for i := 0 to n
      invariant forall j | 0 <= j < i :: onto(j) == (dists[j], alongs[j])
      invariant 0 <= best <= i && best < n
      invariant forall j | 0 <= j < i :: onto(best).0 <= onto(j).0
      invariant forall j | 0 <= j < best :: onto(best).0 < onto(j).0
    {
      var (dist, along) := onto(i);
      dists[i], alongs[i] := dist, along;
      if dists[i] < dists[best] {
        best := i;
      }
    }
    ds, xs := dists[..], alongs[..];
  }

  method ChooseCandidate(dists: seq<real>, alongs: seq<real>, hint: real, best: int) returns (chosen: int)
    requires 0 <= best < |dists| == |alongs|
    ensures 0 <= chosen < |dists|
    ensures var k := FirstClosest(dists, alongs, hint, dists[best], |dists|);
            chosen == if k < 0 then best else k
  {
    chosen := best;
    var threshold := Threshold(dists[best]);
    var closest: Option<real> := None;
    for i := 0 to |dists|
      invariant var k := FirstClosest(dists, alongs, hint, dists[best], i);
                if k < 0 then chosen == best && closest == None
                else chosen == k && closest == Some(WeightedGap(alongs[k], hint))
    {
      if dists[i] > threshold || !IsLocalMin(dists, i) {
        continue;
      }
      var delta := WeightedGap(alongs[i], hint);
      if closest.None? || delta < closest.value {
        closest := Some(delta);
        chosen := i;
      }
    }
  }

  /** segmentAt's search. */
  method FindSegment(g: ShapeGeom, along: real) returns (i: int, t: real)
    requires g.WellFormed()
    ensures (i, t) == g.SegmentAt(along)
  {
    var last := g.Segments() - 1;
    if along >= g.length {
      return last, 1.0;
    }
    if along <= 0.0 {
      return 0, 0.0;
    }
    i := 0;
    while i <= last
      invariant 0 <= i <= last + 1
      invariant g.SegmentFrom(along, i) == g.SegmentAt(along)
    {
      if along < g.cumulative[i + 1] {
        var segLen := g.cumulative[i + 1] - g.cumulative[i];
        if segLen <= 0.0 {
          return i, 0.0;
        }
        return i, (along - g.cumulative[i]) / segLen;
      }
      i := i + 1;
    }
    return last, 1.0;
  }

  // ---- Unhinted projection -------------------------------------------------

  /** s^2 len - 2 s q, the part of |a - s d|^2 that depends on s. */
  ghost function Parabola(len: real, q: real, s: real): real {
    s * s * len - 2.0 * s * q
  }

  /** On [0, 1] the parabola is least at its vertex q / len, clamped. */
  lemma ClampedVertexIsLeast(len: real, q: real, s: real, best: real)
    requires len > 0.0 && 0.0 <= s <= 1.0
    requires best == MinReal(1.0, MaxReal(0.0, q / len))
    ensures Parabola(len, q, best) <= Parabola(len, q, s)
  {
    var u := q / len;
    var d, e := s - best, s + best - 2.0 * u;
    assert Product(d, e) >= 0.0;
    assert Product(len, Product(d, e)) >= 0.0;
    ParabolaDifference(len, q, u, s, best);
  }

  lemma ParabolaDifference(len: real, q: real, u: real, s: real, best: real)
    requires q == u * len
    ensures Parabola(len, q, s) - Parabola(len, q, best) == Product(len, Product(s - best, s + best - 2.0 * u))
  {
    assert (s - best) * (s + best - 2.0 * u) == s * s - best * best - 2.0 * u * s + 2.0 * u * best;
    assert s * q == len * (u * s) && best * q == len * (u * best);
  }

  lemma SquaredDistance(ax: real, ay: real, dx: real, dy: real, s: real)
    ensures Square(ax - Product(s, dx)) + Square(ay - Product(s, dy))
         == Square(ax) + Square(ay) + Parabola(Square(dx) + Square(dy), ax * dx + ay * dy, s)
  {
    SquaredDifference(ax, dx, s);
    SquaredDifference(ay, dy, s);
    Distribute(s * s, Square(dx), Square(dy));
    Distribute(2.0 * s, ax * dx, ay * dy);
  }

  lemma Distribute(k: real, a: real, b: real)
    ensures k * (a + b) == k * a + k * b
  {
  }

  lemma SquaredDifference(a: real, d: real, s: real)
    ensures Square(a - Product(s, d)) == Square(a) - 2.0 * s * (a * d) + s * s * Square(d)
  {
    var e := s * d;
    assert (a - e) * (a - e) == a * a - 2.0 * (a * e) + e * e;
    assert a * e == s * (a * d);
    assert e * e == s * s * (d * d);
  }

  /** The foot of the perpendicular, clamped into the segment, is no further
      from the point than the point s of the segment. */
  lemma FootIsLeast(ax: real, ay: real, dx: real, dy: real, s: real)
    requires 0.0 <= s <= 1.0
    ensures var best := Foot(ax, ay, dx, dy);
            Square(ax - Product(best, dx)) + Square(ay - Product(best, dy))
              <= Square(ax - Product(s, dx)) + Square(ay - Product(s, dy))
  {
    var len, q, best := Square(dx) + Square(dy), ax * dx + ay * dy, Foot(ax, ay, dx, dy);
    if len > 0.0 {
      SquaredDistance(ax, ay, dx, dy, best);
      SquaredDistance(ax, ay, dx, dy, s);
      ClampedVertexIsLeast(len, q, s, best);
    } else {
      assert dx == 0.0 && dy == 0.0;
    }
  }

  /** projectOnto's answer is the least distance to any point of the segment. */
  lemma ProjectOntoIsLeast(g: ShapeGeom, i: int, s: real, px: real, py: real)
    requires g.WellFormed() && g.metric.Valid() && 0 <= i < g.Segments() && 0.0 <= s <= 1.0
    ensures g.ProjectOnto(i, px, py).0 <= g.DistanceAt(i, s, px, py)
  {
    var ax, ay := px - g.localX[i], py - g.localY[i];
    var dx, dy := g.localX[i + 1] - g.localX[i], g.localY[i + 1] - g.localY[i];
    FootIsLeast(ax, ay, dx, dy, s);
  }

  /** Without a hint, Project returns the least local-plane distance to any
      point of any segment, together with the place it is reached. */
  lemma UnhintedIsNearest(g: ShapeGeom, p: LatLon)
    requires g.WellFormed() && g.metric.Valid()
    ensures var r := g.Project(p, None);
            && (forall i, t | 0 <= i < g.Segments() && 0.0 <= t <= 1.0 ::
                  r.distanceToShape <= g.DistanceAt(i, t, g.LocalX(p), g.LocalY(p)))
            && (exists i, t | 0 <= i < g.Segments() && 0.0 <= t <= 1.0 ::
                  r.distanceToShape == g.DistanceAt(i, t, g.LocalX(p), g.LocalY(p)) && r.alongShape == g.AlongAt(i, t))
  {
    var px, py := g.LocalX(p), g.LocalY(p);
    var r := g.Project(p, None);
    var dists := g.Dists(px, py);
    forall i, t | 0 <= i < g.Segments() && 0.0 <= t <= 1.0
      ensures r.distanceToShape <= g.DistanceAt(i, t, px, py)
    {
      ProjectOntoIsLeast(g, i, t, px, py);
      assert r.distanceToShape <= dists[i];
    }
    var k := FirstLeast(dists, |dists|);
    var t := g.ClosestFraction(k, px, py);
    assert r.distanceToShape == g.DistanceAt(k, t, px, py) && r.alongShape == g.AlongAt(k, t);
  }

  // ---- The inverse ---------------------------------------------------------

  lemma {:induction false} CumulativeMonotone(g: ShapeGeom, i: int, j: int)
    requires g.Valid() && 0 <= i <= j < |g.points|
    ensures g.cumulative[i] <= g.cumulative[j]
    decreases j - i
  {
    if i < j {
      CumulativeMonotone(g, i, j - 1);
      assert g.CumulativeStep(j - 1);
    }
  }

  lemma QuotientBelowOne(a: real, b: real)
    requires 0.0 <= a < b
    ensures 0.0 <= a / b < 1.0 && Product(a / b, b) == a
  {
  }

  lemma {:induction false} SegmentFromInverts(g: ShapeGeom, along: real, i: int)
    requires g.Valid() && 0 <= i < g.Segments()
    requires g.cumulative[i] <= along < g.length
    ensures var (k, t) := g.SegmentFrom(along, i);
            && 0.0 <= t < 1.0 && g.AlongAt(k, t) == along
            && g.cumulative[k] < g.cumulative[k + 1]
    decreases g.Segments() - i
  {
    if along < g.cumulative[i + 1] {
      QuotientBelowOne(along - g.cumulative[i], g.cumulative[i + 1] - g.cumulative[i]);
    } else {
      SegmentFromInverts(g, along, i + 1);
    }
  }

  /** segmentAt inverts the cumulative-distance formula on all of [0, Length].
      Strictly inside, the segment found has positive length and a fraction
      below one, so neither the zero-length branch nor the fall-through of the
      search is ever taken there. */
  lemma SegmentAtInverts(g: ShapeGeom, along: real)
    requires g.Valid() && 0.0 <= along <= g.length
    ensures var (k, t) := g.SegmentAt(along);
            && 0.0 <= t <= 1.0 && g.AlongAt(k, t) == along
            && (0.0 < along < g.length ==> t < 1.0 && g.cumulative[k] < g.cumulative[k + 1])
  {
    if 0.0 < along < g.length {
      SegmentFromInverts(g, along, 0);
    }
  }

  /** The local coordinates of an interpolated point are interpolated. */
  lemma LocalIsAffine(g: ShapeGeom, i: int, t: real)
    requires g.Valid() && 0 <= i < g.Segments()
    ensures var p := LatLon(g.points[i].lat + t * (g.points[i + 1].lat - g.points[i].lat),
                            g.points[i].lon + t * (g.points[i + 1].lon - g.points[i].lon));
            && g.LocalX(p) == g.localX[i] + t * (g.localX[i + 1] - g.localX[i])
            && g.LocalY(p) == g.localY[i] + t * (g.localY[i + 1] - g.localY[i])
  {
    var a, b, o := g.points[i], g.points[i + 1], g.origin;
    var c := g.cosLat * METRES_PER_DEGREE;
    assert (a.lon + t * (b.lon - a.lon) - o.lon) * c == (a.lon - o.lon) * c + t * ((b.lon - o.lon) * c - (a.lon - o.lon) * c);
    assert g.localX[i] == (a.lon - o.lon) * c && g.localX[i + 1] == (b.lon - o.lon) * c;
  }

  lemma SegmentFractionInRange(g: ShapeGeom, along: real)
    requires g.Valid()
    ensures 0.0 <= g.SegmentAt(along).1 <= 1.0
  {
    if 0.0 < along < g.length {
      SegmentAtInverts(g, along);
    }
  }

  /** Projecting the point `along` metres into the shape finds it on the shape. */
  lemma PointAtIsOnShape(g: ShapeGeom, along: real)
    requires g.Valid()
    ensures g.Project(g.PointAt(along), None).distanceToShape == 0.0
  {
    var p := g.PointAt(along);
    var px, py := g.LocalX(p), g.LocalY(p);
    var (i, t) := g.SegmentAt(along);
    SegmentFractionInRange(g, along);
    LocalIsAffine(g, i, t);
    assert g.DistanceAt(i, t, px, py) == 0.0;
    UnhintedIsNearest(g, p);
    assert g.Project(p, None).distanceToShape <= g.DistanceAt(i, t, px, py);
  }

  // ---- Hinted projection ---------------------------------------------------

  /** The passes a hint may choose between. */
  ghost predicate IsPass(dists: seq<real>, i: int)
    requires 0 <= i < |dists|
  {
    Candidate(dists, dists[FirstLeast(dists, |dists|)], i)
  }

  /** With a hint the segment chosen is one of the passes; the nearest segment
      always is one, so there is always a choice; and no pass has a smaller
      weighted gap to the hint than the one chosen. */
  lemma HintChoosesClosestPass(dists: seq<real>, alongs: seq<real>, hint: real)
    requires |dists| == |alongs| > 0 && forall i | 0 <= i < |dists| :: dists[i] >= 0.0
    ensures IsPass(dists, FirstLeast(dists, |dists|))
    ensures var r := Select(dists, alongs, Some(hint));
            && (exists i | 0 <= i < |dists| :: IsPass(dists, i) && r == Projection(alongs[i], dists[i]))
            && (forall i | 0 <= i < |dists| && IsPass(dists, i) :: WeightedGap(r.alongShape, hint) <= WeightedGap(alongs[i], hint))
  {
    var best := FirstLeast(dists, |dists|);
    assert Candidate(dists, dists[best], best);
    var k := FirstClosest(dists, alongs, hint, dists[best], |dists|);
    assert k >= 0 && IsPass(dists, k);
  }

  /** Selecting again from the same distances, with the answer as the hint,
      gives the same place along the shape. */
  lemma SelectIsStable(dists: seq<real>, alongs: seq<real>, hint: Option<real>)
    requires |dists| == |alongs| > 0 && forall i | 0 <= i < |dists| :: dists[i] >= 0.0
    ensures var r := Select(dists, alongs, hint);
            Select(dists, alongs, Some(r.alongShape)).alongShape == r.alongShape
  {
    var r := Select(dists, alongs, hint);
    HintChoosesClosestPass(dists, alongs, r.alongShape);
    if hint.Some? {
      HintChoosesClosestPass(dists, alongs, hint.value);
    }
    var i :| 0 <= i < |dists| && IsPass(dists, i) && alongs[i] == r.alongShape;
    assert WeightedGap(Select(dists, alongs, Some(r.alongShape)).alongShape, r.alongShape) <= WeightedGap(alongs[i], r.alongShape);
  }

  lemma DistsNonNegative(g: ShapeGeom, px: real, py: real)
    requires g.WellFormed() && g.metric.Valid()
    ensures forall i | 0 <= i < g.Segments() :: g.Dists(px, py)[i] >= 0.0
  {
    forall i | 0 <= i < g.Segments()
      ensures g.Dists(px, py)[i] >= 0.0
    {
      var t := g.ClosestFraction(i, px, py);
      assert g.Dists(px, py)[i] == g.DistanceAt(i, t, px, py);
    }
  }

  /** With a hint, the answer is the pass with the least weighted gap to the
      hint, no nearer than the nearest segment and no further than the band
      around it allows. */
  lemma HintedProjection(g: ShapeGeom, p: LatLon, hint: real)
    requires g.WellFormed() && g.metric.Valid()
    ensures var dists, alongs := g.Dists(g.LocalX(p), g.LocalY(p)), g.Alongs(g.LocalX(p), g.LocalY(p));
            var r, nearest := g.Project(p, Some(hint)), g.Project(p, None);
            && (exists i | 0 <= i < |dists| :: IsPass(dists, i) && r == Projection(alongs[i], dists[i]))
            && (forall i | 0 <= i < |dists| && IsPass(dists, i) :: WeightedGap(r.alongShape, hint) <= WeightedGap(alongs[i], hint))
            && nearest.distanceToShape <= r.distanceToShape
            && r.distanceToShape <= MaxReal(2.0 * nearest.distanceToShape + 1.0, HINT_CANDIDATE_BAND)
  {
    DistsNonNegative(g, g.LocalX(p), g.LocalY(p));
    HintChoosesClosestPass(g.Dists(g.LocalX(p), g.LocalY(p)), g.Alongs(g.LocalX(p), g.LocalY(p)), hint);
  }

  /** Projecting the same point again, with its own answer as the hint, gives
      the same place along the shape. */
  lemma HintedIsStable(g: ShapeGeom, p: LatLon, hint: Option<real>)
    requires g.WellFormed() && g.metric.Valid()
    ensures var r := g.Project(p, hint);
            g.Project(p, Some(r.alongShape)).alongShape == r.alongShape
  {
    DistsNonNegative(g, g.LocalX(p), g.LocalY(p));
    SelectIsStable(g.Dists(g.LocalX(p), g.LocalY(p)), g.Alongs(g.LocalX(p), g.LocalY(p)), hint);
  }

  lemma FractionOfSpan(t: real, span: real)
    requires 0.0 <= t <= 1.0 && span >= 0.0
    ensures 0.0 <= Product(t, span) <= span
  {
    assert Product(1.0 - t, span) >= 0.0;
  }

  lemma CumulativeBounds(g: ShapeGeom, i: int)
    requires g.Valid() && 0 <= i < g.Segments()
    ensures 0.0 <= g.cumulative[i] <= g.cumulative[i + 1] <= g.length
  {
    CumulativeMonotone(g, 0, i);
    CumulativeMonotone(g, i, i + 1);
    CumulativeMonotone(g, i + 1, |g.points| - 1);
  }

  lemma AlongWithinShape(g: ShapeGeom, i: int, t: real)
    requires g.Valid() && 0 <= i < g.Segments() && 0.0 <= t <= 1.0
    ensures 0.0 <= g.AlongAt(i, t) <= g.length
  {
    CumulativeBounds(g, i);
    FractionOfSpan(t, g.cumulative[i + 1] - g.cumulative[i]);
  }

  /** Every projection lands on the shape: between 0 and its length. */
  lemma ProjectionWithinShape(g: ShapeGeom, p: LatLon, hint: Option<real>)
    requires g.Valid()
    ensures 0.0 <= g.Project(p, hint).alongShape <= g.length
  {
    var px, py := g.LocalX(p), g.LocalY(p);
    forall i | 0 <= i < g.Segments()
      ensures 0.0 <= g.Alongs(px, py)[i] <= g.length
    {
      AlongWithinShape(g, i, g.ClosestFraction(i, px, py));
    }
  }
}
