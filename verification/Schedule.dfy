/** rider/index.go: where a trip should be by its timetable, and the unit a
    feed publishes its stop distances in. */
module Schedule {
  import opened Prelude
  import Shape

  datatype StopTimeInfo = StopTimeInfo(stopId: string, sequence: int, alongShape: real, arrival: int, departure: int)

  datatype TripInfo = TripInfo(id: string, routeId: string, shape: Option<Shape.Polyline>, stopTimes: seq<StopTimeInfo>)

  // ---- ScheduledOffsetAt ---------------------------------------------------

  /** time.Duration of a float: towards zero. */
  function Truncate(x: real): int {
    if x >= 0.0 then x.Floor else -((-x).Floor)
  }

  function Interpolate(a: StopTimeInfo, b: StopTimeInfo, along: real): int {
    var span := b.alongShape - a.alongShape;
    if span <= 0.0 then a.departure
    else a.departure + Truncate(Product((along - a.alongShape) / span, (b.arrival - a.departure) as real))
  }

  function ScheduledOffsetAt(stops: seq<StopTimeInfo>, along: real): int {
    if |stops| == 0 then 0
    else
      var first, last := stops[0], stops[|stops| - 1];
      if along <= first.alongShape then first.arrival
      else if along >= last.alongShape then last.arrival
      else OffsetFrom(stops, along, 1)
  }

  /** The search for the bracketing stops, from stop i on. */
  function OffsetFrom(stops: seq<StopTimeInfo>, along: real, i: int): int
    requires 1 <= i <= |stops|
    decreases |stops| - i
  {
    if i == |stops| then stops[|stops| - 1].arrival
    else if along > stops[i].alongShape then OffsetFrom(stops, along, i + 1)
    else Interpolate(stops[i - 1], stops[i], along)
  }

  method FindScheduledOffset(stops: seq<StopTimeInfo>, along: real) returns (offset: int)
    ensures offset == ScheduledOffsetAt(stops, along)
  {
    if |stops| == 0 {
      return 0;
    }
    var first, last := stops[0], stops[|stops| - 1];
    if along <= first.alongShape {
      return first.arrival;
    }
    if along >= last.alongShape {
      return last.arrival;
    }
    for i := 1 to |stops|
      invariant OffsetFrom(stops, along, i) == OffsetFrom(stops, along, 1)
    {
      var a, b := stops[i - 1], stops[i];
      if along > b.alongShape {
        continue;
      }
      var span := b.alongShape - a.alongShape;
      if span <= 0.0 {
        return a.departure;
      }
      var fraction := (along - a.alongShape) / span;
      return a.departure + Truncate(Product(fraction, (b.arrival - a.departure) as real));
    }
    return last.arrival;
  }

  /** Stops k - 1 and k bracket the place. */
  ghost predicate Brackets(stops: seq<StopTimeInfo>, along: real, k: int) {
    && 1 <= k < |stops|
    && stops[k - 1].alongShape < along <= stops[k].alongShape
    && forall j | 1 <= j < k :: stops[j].alongShape < along
  }

  lemma {:induction false} OffsetFromBrackets(stops: seq<StopTimeInfo>, along: real, i: int)
    requires 1 <= i < |stops| && along < stops[|stops| - 1].alongShape
    requires forall j | 0 <= j < i :: stops[j].alongShape < along
    ensures exists k :: i <= k && Brackets(stops, along, k)
              && OffsetFrom(stops, along, i) == Interpolate(stops[k - 1], stops[k], along)
    decreases |stops| - i
  {
    if along > stops[i].alongShape {
      OffsetFromBrackets(stops, along, i + 1);
    } else {
      assert Brackets(stops, along, i);
    }
  }

  /** Whatever the stop list, a place strictly between the first and the last
      stop is interpolated between two stops a positive distance apart: the
      zero-span branch and the return after the loop are never reached. It is
      due after the departure from the first by the same share of the time to
      the arrival at the next as it is of the way, cut to the nanosecond. */
  lemma BetweenStopsInterpolates(stops: seq<StopTimeInfo>, along: real)
    requires |stops| > 0 && stops[0].alongShape < along < stops[|stops| - 1].alongShape
    ensures exists k :: Brackets(stops, along, k)
              && DueBetween(stops[k - 1], stops[k], along, ScheduledOffsetAt(stops, along))
  {
    var k := FindBrackets(stops, along);
    InterpolateIsDue(stops[k - 1], stops[k], along);
  }

  lemma FindBrackets(stops: seq<StopTimeInfo>, along: real) returns (k: int)
    requires |stops| > 0 && stops[0].alongShape < along < stops[|stops| - 1].alongShape
    ensures Brackets(stops, along, k) && ScheduledOffsetAt(stops, along) == Interpolate(stops[k - 1], stops[k], along)
  {
    OffsetFromBrackets(stops, along, 1);
    k :| 1 <= k && Brackets(stops, along, k) && OffsetFrom(stops, along, 1) == Interpolate(stops[k - 1], stops[k], along);
  }

  /** offset - a.departure is the share of the time, cut towards zero. */
  ghost predicate DueBetween(a: StopTimeInfo, b: StopTimeInfo, along: real, offset: int)
    requires a.alongShape < b.alongShape
  {
    var share := (along - a.alongShape) / (b.alongShape - a.alongShape);
    var time := share * (b.arrival - a.departure) as real;
    if time >= 0.0 then (offset - a.departure) as real <= time < (offset - a.departure + 1) as real
    else (offset - a.departure - 1) as real < time <= (offset - a.departure) as real
  }

  lemma InterpolateIsDue(a: StopTimeInfo, b: StopTimeInfo, along: real)
    requires a.alongShape < b.alongShape
    ensures DueBetween(a, b, along, Interpolate(a, b, along))
  {
    var x := Product((along - a.alongShape) / (b.alongShape - a.alongShape), (b.arrival - a.departure) as real);
    CutTowardsZero(x);
  }

  lemma CutTowardsZero(x: real)
    ensures x >= 0.0 ==> Truncate(x) as real <= x < (Truncate(x) + 1) as real
    ensures x < 0.0 ==> (Truncate(x) - 1) as real < x <= Truncate(x) as real
  {
  }

  /** Off the ends, the timetable's first arrival and its last; without stops, its
      start. */
  lemma OffTheEnds(stops: seq<StopTimeInfo>, along: real)
    ensures |stops| == 0 ==> ScheduledOffsetAt(stops, along) == 0
    ensures |stops| > 0 && along <= stops[0].alongShape ==> ScheduledOffsetAt(stops, along) == stops[0].arrival
    ensures |stops| > 0 && along > stops[0].alongShape && along >= stops[|stops| - 1].alongShape ==>
              ScheduledOffsetAt(stops, along) == stops[|stops| - 1].arrival
  {
  }

  /** Non-decreasing in distance and in time. */
  ghost predicate Monotone(stops: seq<StopTimeInfo>) {
    && (forall i | 0 <= i < |stops| :: stops[i].arrival <= stops[i].departure)
    && (forall i, j | 0 <= i < j < |stops| ::
          stops[i].alongShape <= stops[j].alongShape && stops[i].departure <= stops[j].arrival)
  }

  lemma TruncateMonotone(x: real, y: real)
    requires x <= y
    ensures Truncate(x) <= Truncate(y)
  {
  }

  lemma FractionMonotone(p: real, q: real, span: real, d: real)
    requires 0.0 <= p <= q <= span && span > 0.0 && d >= 0.0
    ensures 0.0 <= Product(p / span, d) <= Product(q / span, d) <= d
  {
    var u, v := p / span, q / span;
    assert 0.0 <= u <= v <= 1.0 by {
      QuotientOrder(p, q, span);
      QuotientOrder(q, span, span);
      QuotientOrder(0.0, p, span);
    }
    assert Product(v - u, d) >= 0.0 && Product(1.0 - v, d) >= 0.0;
  }

  lemma QuotientOrder(p: real, q: real, span: real)
    requires p <= q && span > 0.0
    ensures p / span <= q / span
    ensures span / span == 1.0 && 0.0 / span == 0.0
  {
  }

  lemma InterpolateMonotone(a: StopTimeInfo, b: StopTimeInfo, x: real, y: real)
    requires a.alongShape < x <= y <= b.alongShape && a.departure <= b.arrival
    ensures a.departure <= Interpolate(a, b, x) <= Interpolate(a, b, y) <= b.arrival
  {
    var span, d := b.alongShape - a.alongShape, (b.arrival - a.departure) as real;
    var p, q := x - a.alongShape, y - a.alongShape;
    FractionMonotone(p, q, span, d);
    TruncateMonotone(0.0, Product(p / span, d));
    TruncateMonotone(Product(p / span, d), Product(q / span, d));
    TruncateMonotone(Product(q / span, d), d);
    assert Truncate(d) == b.arrival - a.departure;
  }

  lemma OffsetWithinTimetable(stops: seq<StopTimeInfo>, along: real)
    requires |stops| > 0 && Monotone(stops)
    ensures stops[0].arrival <= ScheduledOffsetAt(stops, along) <= stops[|stops| - 1].arrival
  {
    if stops[0].alongShape < along < stops[|stops| - 1].alongShape {
      var k := FindBrackets(stops, along);
      InterpolateMonotone(stops[k - 1], stops[k], along, along);
    }
  }

  /** On a monotone timetable the scheduled offset never decreases along the
      shape, and stays between the first and the last arrival. */
  lemma ScheduledOffsetMonotone(stops: seq<StopTimeInfo>, x: real, y: real)
    requires |stops| > 0 && Monotone(stops) && x <= y
    ensures stops[0].arrival <= ScheduledOffsetAt(stops, x) <= ScheduledOffsetAt(stops, y) <= stops[|stops| - 1].arrival
  {
    OffsetWithinTimetable(stops, x);
    OffsetWithinTimetable(stops, y);
    if stops[0].alongShape < x && y < stops[|stops| - 1].alongShape {
      var i := FindBrackets(stops, x);
      var j := FindBrackets(stops, y);
      BracketsMonotone(stops, x, i, y, j);
    }
  }

  lemma BracketsMonotone(stops: seq<StopTimeInfo>, x: real, i: int, y: real, j: int)
    requires Monotone(stops) && x <= y && Brackets(stops, x, i) && Brackets(stops, y, j)
    ensures Interpolate(stops[i - 1], stops[i], x) <= Interpolate(stops[j - 1], stops[j], y)
  {
    if i == j {
      InterpolateMonotone(stops[i - 1], stops[i], x, y);
    } else {
      assert i < j;
      InterpolateMonotone(stops[i - 1], stops[i], x, x);
      InterpolateMonotone(stops[j - 1], stops[j], y, y);
    }
  }

  // ---- shapeDistScale ------------------------------------------------------

  const SHAPE_DIST_MAX_FRACTION: real := 1.05

  /** Metres per unit: metres, feet, kilometres and miles. */
  const SHAPE_DIST_UNITS: seq<real> := [1.0, 0.3048, 1000.0, 1609.344]

  /** The best of the first n units: the one putting the last stop furthest
      along without running off the end, 0 when none does. */
  function BestUnit(ratio: real, n: int): (r: (real, real))
    requires 0 <= n <= |SHAPE_DIST_UNITS|
  {
    if n == 0 then (0.0, 0.0)
    else
      var (best, bestFraction) := BestUnit(ratio, n - 1);
      var unit := SHAPE_DIST_UNITS[n - 1];
      var fraction := ratio * unit;
      if fraction > bestFraction && fraction <= SHAPE_DIST_MAX_FRACTION then (unit, fraction) else (best, bestFraction)
  }

  /** The factor from the feed's distances to metres, None when they are of no
      use. */
  function ShapeDistScale(distances: seq<Option<real>>, shapeLength: real): Option<real> {
    if |distances| == 0 || (exists i | 0 <= i < |distances| :: distances[i].None?) then None
    else
      var last := distances[|distances| - 1].value;
      if last <= 0.0 then None
      else if shapeLength <= 0.0 then Some(1.0)
      else
        var best := BestUnit(last / shapeLength, |SHAPE_DIST_UNITS|).0;
        if best == 0.0 then None else Some(best)
  }

  method FindShapeDistScale(distances: seq<Option<real>>, shapeLength: real) returns (scale: Option<real>)
    ensures scale == ShapeDistScale(distances, shapeLength)
  {
    if |distances| == 0 {
      return None;
    }
    var last := 0.0;
    for i := 0 to |distances|
      invariant forall j | 0 <= j < i :: distances[j].Some?
      invariant i > 0 ==> Some(last) == distances[i - 1]
    {
      if distances[i].None? {
        return None;
      }
      last := distances[i].value;
    }
    if last <= 0.0 {
      return None;
    }
    if shapeLength <= 0.0 {
      return Some(1.0);
    }
    var ratio := last / shapeLength;
    var best, bestFraction := 0.0, 0.0;
    for i := 0 to |SHAPE_DIST_UNITS|
      invariant (best, bestFraction) == BestUnit(ratio, i)
    {
      var fraction := ratio * SHAPE_DIST_UNITS[i];
      if fraction > bestFraction && fraction <= SHAPE_DIST_MAX_FRACTION {
        best, bestFraction := SHAPE_DIST_UNITS[i], fraction;
      }
    }
    if best == 0.0 {
      return None;
    }
    return Some(best);
  }

  lemma BestUnitUnfolded(ratio: real)
    requires ratio > 0.0
    ensures var (best, fraction) := BestUnit(ratio, 4);
            if best == 0.0 then forall u | u in SHAPE_DIST_UNITS :: ratio * u > SHAPE_DIST_MAX_FRACTION
            else && best in SHAPE_DIST_UNITS && ratio * best <= SHAPE_DIST_MAX_FRACTION
                 && forall u | u in SHAPE_DIST_UNITS && u > best :: ratio * u > SHAPE_DIST_MAX_FRACTION
  {
    assert BestUnit(ratio, 0) == (0.0, 0.0);
    var m1, m2, m3, m4 := BestUnit(ratio, 1), BestUnit(ratio, 2), BestUnit(ratio, 3), BestUnit(ratio, 4);
    assert SHAPE_DIST_UNITS[0] == 1.0 && SHAPE_DIST_UNITS[1] == 0.3048;
    assert SHAPE_DIST_UNITS[2] == 1000.0 && SHAPE_DIST_UNITS[3] == 1609.344;
  }

  lemma BestUnitExactly(ratio: real, unit: real)
    requires ratio > 0.0 && unit in SHAPE_DIST_UNITS
    ensures BestUnit(ratio, |SHAPE_DIST_UNITS|).0 == unit
       <==> && ratio * unit <= SHAPE_DIST_MAX_FRACTION
            && forall longer | longer in SHAPE_DIST_UNITS && longer > unit :: ratio * longer > SHAPE_DIST_MAX_FRACTION
  {
    BestUnitUnfolded(ratio);
    var best := BestUnit(ratio, 4).0;
    assert best > unit || best == unit || best < unit;
  }

  lemma TrueFraction(last: real, length: real, unit: real, fraction: real)
    requires length > 0.0 && last * unit == fraction * length
    ensures last / length * unit == fraction
  {
    var ratio := last / length;
    assert ratio * length == last;
    calc {
      (ratio * unit - fraction) * length;
      ratio * length * unit - fraction * length;
      0.0;
    }
  }

  /** A feed published in `unit`, whose last stop lies at `fraction` of its
      shape. */
  ghost predicate PublishedIn(distances: seq<Option<real>>, length: real, unit: real, fraction: real) {
    && length > 0.0 && fraction > 0.0 && unit in SHAPE_DIST_UNITS
    && |distances| > 0
    && (forall i | 0 <= i < |distances| :: distances[i].Some?)
    && distances[|distances| - 1].value * unit == fraction * length
  }

  /** The unit is recovered exactly when the last stop does not lie past the
      end, and would under every longer unit. */
  lemma UnitRecoveredExactlyWhen(distances: seq<Option<real>>, length: real, unit: real, fraction: real)
    requires PublishedIn(distances, length, unit, fraction)
    ensures ShapeDistScale(distances, length) == Some(unit)
       <==> && fraction <= SHAPE_DIST_MAX_FRACTION
            && forall longer | longer in SHAPE_DIST_UNITS && longer > unit ::
                 fraction * (longer / unit) > SHAPE_DIST_MAX_FRACTION
  {
    var last := distances[|distances| - 1].value;
    var ratio := last / length;
    TrueFraction(last, length, unit, fraction);
    assert last > 0.0 && ratio > 0.0 by { PositiveParts(last, length, unit, fraction); }
    BestUnitExactly(ratio, unit);
    forall longer | longer in SHAPE_DIST_UNITS
      ensures fraction * (longer / unit) == ratio * longer
    {
      Rescale(ratio, unit, longer);
    }
  }

  lemma Rescale(ratio: real, unit: real, longer: real)
    requires unit > 0.0
    ensures ratio * unit * (longer / unit) == ratio * longer
  {
    assert unit * (longer / unit) == longer;
  }

  lemma PositiveParts(last: real, length: real, unit: real, fraction: real)
    requires length > 0.0 && fraction > 0.0 && unit > 0.0 && last * unit == fraction * length
    ensures last > 0.0 && last / length > 0.0
  {
    assert Product(fraction, length) > 0.0;
    assert last > 0.0 || Product(-last, unit) >= 0.0;
    assert Product(-last, unit) == -(last * unit);
  }

  /** Between 1.05/1.609344 (kilometres taken for miles) and 1.05 of the shape,
      every feed's unit is recovered. */
  lemma UnitRecovered(distances: seq<Option<real>>, length: real, unit: real, fraction: real)
    requires PublishedIn(distances, length, unit, fraction)
    requires SHAPE_DIST_MAX_FRACTION / 1.609344 < fraction <= SHAPE_DIST_MAX_FRACTION
    ensures ShapeDistScale(distances, length) == Some(unit)
  {
    UnitRecoveredExactlyWhen(distances, length, unit, fraction);
    forall longer | longer in SHAPE_DIST_UNITS && longer > unit
      ensures fraction * (longer / unit) > SHAPE_DIST_MAX_FRACTION
    {
      assert longer / unit >= 1.609344;
    }
  }

  /** That lower end is the real one: a kilometre feed whose last stop lies
      exactly there is read as miles. */
  lemma UnitLostAtTheBound(distances: seq<Option<real>>, length: real)
    requires PublishedIn(distances, length, 1000.0, SHAPE_DIST_MAX_FRACTION / 1.609344)
    ensures ShapeDistScale(distances, length) == Some(1609.344)
  {
    var last, fraction := distances[|distances| - 1].value, SHAPE_DIST_MAX_FRACTION / 1.609344;
    TrueFraction(last, length, 1000.0, fraction);
    PositiveParts(last, length, 1000.0, fraction);
    var ratio := last / length;
    assert SHAPE_DIST_UNITS[3] == 1609.344;
    BestUnitExactly(ratio, 1609.344);
    assert ratio * 1609.344 == ratio * 1000.0 * 1.609344 == SHAPE_DIST_MAX_FRACTION;
  }

  /** Whatever unit is chosen, the last stop is never placed beyond 1.05 of the
      shape. */
  lemma ScaleStaysOnShape(distances: seq<Option<real>>, length: real)
    requires length > 0.0 && ShapeDistScale(distances, length).Some?
    ensures distances[|distances| - 1].Some?
    ensures distances[|distances| - 1].value * ShapeDistScale(distances, length).value <= SHAPE_DIST_MAX_FRACTION * length
  {
    var last, unit := distances[|distances| - 1].value, ShapeDistScale(distances, length).value;
    BestUnitUnfolded(last / length);
    var fraction := last / length * unit;
    assert Product(SHAPE_DIST_MAX_FRACTION - fraction, length) >= 0.0;
    assert fraction * length == last * unit;
  }

  /** Of metres, feet, kilometres and miles, the unit fits if the last stop is not
      past 1.05 of the shape. */
  ghost predicate Fits(last: real, length: real, unit: real) {
    unit in {1.0, 0.3048, 1000.0, 1609.344} && last * unit <= 1.05 * length
  }

  /** The scale in full: none without a distance at every stop, or with none gone
      by the last; metres where the shape has no length; and otherwise the longest
      unit that fits, none if even feet do not. */
  lemma ScaleExactlyWhen(distances: seq<Option<real>>, length: real, unit: real)
    ensures |distances| == 0 || (exists i | 0 <= i < |distances| :: distances[i].None?) ==> ShapeDistScale(distances, length).None?
    ensures |distances| > 0 && (forall i | 0 <= i < |distances| :: distances[i].Some?) ==>
              var last := distances[|distances| - 1].value;
              && (last <= 0.0 ==> ShapeDistScale(distances, length).None?)
              && (last > 0.0 && length <= 0.0 ==> ShapeDistScale(distances, length) == Some(1.0))
              && (last > 0.0 && length > 0.0 ==>
                    && (ShapeDistScale(distances, length) == Some(unit) <==>
                          Fits(last, length, unit) && forall longer | Fits(last, length, longer) :: longer <= unit)
                    && (ShapeDistScale(distances, length).None? <==> !Fits(last, length, 0.3048)))
  {
    if |distances| > 0 && (forall i | 0 <= i < |distances| :: distances[i].Some?) && length > 0.0 {
      var last := distances[|distances| - 1].value;
      if last > 0.0 {
        assert last / length > 0.0;
        BestUnitUnfolded(last / length);
        forall u | u in SHAPE_DIST_UNITS ensures last / length * u <= 1.05 <==> Fits(last, length, u) {
          FitsByRatio(last, length, u);
        }
        FitsAreUnits(last, length, unit);
      }
    }
  }

  lemma FitsByRatio(last: real, length: real, u: real)
    requires length > 0.0 && u in SHAPE_DIST_UNITS
    ensures last / length * u <= 1.05 <==> Fits(last, length, u)
  {
    assert last / length * u * length == last * u by {
      assert last / length * length == last;
    }
    assert last / length * u <= 1.05 ==> Product(1.05 - last / length * u, length) >= 0.0;
    assert last / length * u > 1.05 ==> Product(last / length * u - 1.05, length) > 0.0;
  }

  lemma FitsAreUnits(last: real, length: real, unit: real)
    ensures SHAPE_DIST_UNITS[1] == 0.3048 && 0.3048 in SHAPE_DIST_UNITS
    ensures forall u | Fits(last, length, u) :: u in SHAPE_DIST_UNITS
    ensures forall u | u in SHAPE_DIST_UNITS :: u in {1.0, 0.3048, 1000.0, 1609.344} && u >= 0.3048
    ensures last > 0.0 && Fits(last, length, unit) ==> Fits(last, length, 0.3048)
  {
    assert SHAPE_DIST_UNITS[0] == 1.0 && SHAPE_DIST_UNITS[1] == 0.3048;
    assert SHAPE_DIST_UNITS[2] == 1000.0 && SHAPE_DIST_UNITS[3] == 1609.344;
  }
}
