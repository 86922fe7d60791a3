/** rider/verify.go: the verdict on one reported position. */
module Verification {
  import opened Prelude
  import Shape
  import Schedule

  datatype Thresholds = Thresholds(
    maxShapeDistance: real,
    maxSpeed: real,
    maxAccuracy: real,
    pastWindow: int,
    futureWindow: int,
    scheduleEarly: int,
    scheduleLate: int,
    pointMaxAge: int,
    maxRegression: real,
    corroborationBase: real,
    contradictionExtra: real)

  /** A negative accuracy, speed or bearing stands for one not measured. */
  datatype Point = Point(pos: Shape.LatLon, accuracy: real, speed: real, bearing: real, timestamp: Time)

  datatype AcceptedPoint = AcceptedPoint(point: Point, alongShape: real)

  datatype TrustedVehicle = TrustedVehicle(vehicleId: string, pos: Shape.LatLon, timestamp: Time)

  datatype Outcome = Ignored | OffRoute | Implausible | OffSchedule | Matched

  datatype Corroboration = Unavailable | NoCorroboration | Corroborated | Contradicted

  /** Why a point was ignored or did not match; the source formats a text. */
  datatype Reason =
    | NoReason
    | NoShape | InvalidCoordinates | TooCoarse | OutsideWindow | NotNewer
    | TooFar | WentBackwards | TooFast | BadStartDate | OffTimetable

  /** dayStart is ServiceDayStart of the ride's start date, None when that is
      not a date; lastAccepted is ZERO_TIME before the first accepted point. */
  datatype VerifyInput = VerifyInput(
    trip: Option<Schedule.TripInfo>,
    dayStart: Option<Time>,
    prev: Option<AcceptedPoint>,
    lastAccepted: Time,
    point: Point,
    trusted: Option<TrustedVehicle>,
    trustedAlong: Option<real>,
    thresholds: Thresholds,
    now: Time)

  datatype Verdict = Verdict(
    outcome: Outcome,
    corroboration: Corroboration,
    alongShape: real,
    distanceToShape: real,
    scheduleDeviation: int,
    reason: Reason)

  predicate PlausiblePos(p: Shape.LatLon) {
    && -90.0 <= p.lat <= 90.0
    && -180.0 <= p.lon <= 180.0
    && (p.lat != 0.0 || p.lon != 0.0)
  }

  function IgnoreReason(input: VerifyInput): Reason {
    var th, p := input.thresholds, input.point;
    var age := input.now - p.timestamp;
    if input.trip.None? || input.trip.value.shape.None? then NoShape
    else if !PlausiblePos(p.pos) then InvalidCoordinates
    else if p.accuracy > th.maxAccuracy then TooCoarse
    else if age > th.pastWindow || age < -th.futureWindow then OutsideWindow
    else if input.lastAccepted != ZERO_TIME && p.timestamp <= input.lastAccepted then NotNewer
    else if input.prev.Some? && p.timestamp <= input.prev.value.point.timestamp then NotNewer
    else NoReason
  }

  /** Why the move from the last match cannot have happened, if it cannot. */
  function Movement(th: Thresholds, prev: AcceptedPoint, p: Point, along: real): Reason {
    var travelled := along - prev.alongShape;
    var elapsed := Seconds(p.timestamp - prev.point.timestamp);
    if travelled < -th.maxRegression then WentBackwards
    else if elapsed > 0.0 && AbsReal(travelled) / elapsed > th.maxSpeed then TooFast
    else NoReason
  }

  function Corroborate(input: VerifyInput, along: real): Corroboration {
    if input.trusted.None? || input.trustedAlong.None? then Unavailable
    else
      var th := input.thresholds;
      var gap := AbsReal(input.trustedAlong.value - along);
      var skew := AbsInt(input.trusted.value.timestamp - input.point.timestamp);
      var allowance := th.corroborationBase + th.maxSpeed * Seconds(skew);
      if gap <= allowance then Corroborated
      else if gap > allowance + th.contradictionExtra then Contradicted
      else NoCorroboration
  }

  function Verify(input: VerifyInput): Verdict {
    var ignored := IgnoreReason(input);
    if ignored != NoReason then Verdict(Ignored, Unavailable, 0.0, 0.0, 0, ignored)
    else
      var th, p, trip := input.thresholds, input.point, input.trip.value;
      var hint := if input.prev.Some? then Some(input.prev.value.alongShape) else None;
      var proj := trip.shape.value.Project(p.pos, hint);
      var v := Verdict(OffRoute, Unavailable, proj.alongShape, proj.distanceToShape, 0, NoReason);
      if proj.distanceToShape > th.maxShapeDistance + MaxReal(p.accuracy, 0.0) then v.(reason := TooFar)
      else
        var movement := if input.prev.Some? then Movement(th, input.prev.value, p, proj.alongShape) else NoReason;
        if movement != NoReason then v.(outcome := Implausible, reason := movement)
        else if input.dayStart.None? then v.(outcome := OffSchedule, reason := BadStartDate)
        else
          var deviation := p.timestamp - (input.dayStart.value + Schedule.ScheduledOffsetAt(trip.stopTimes, proj.alongShape));
          var w := v.(scheduleDeviation := deviation);
          if deviation < -th.scheduleEarly || deviation > th.scheduleLate
          then w.(outcome := OffSchedule, reason := OffTimetable)
          else w.(outcome := Matched, corroboration := Corroborate(input, proj.alongShape))
  }

  /** How far a vehicle may get along the shape in d nanoseconds. */
  function Reach(th: Thresholds, d: int): real {
    Product(th.maxSpeed, Seconds(d))
  }

  /** The place is one the vehicle could have moved to since the last match. */
  ghost predicate WithinReach(th: Thresholds, prev: AcceptedPoint, p: Point, along: real) {
    && along >= prev.alongShape - th.maxRegression
    && AbsReal(along - prev.alongShape) <= Reach(th, p.timestamp - prev.point.timestamp)
  }

  ghost predicate OnSchedule(th: Thresholds, trip: Schedule.TripInfo, dayStart: Time, p: Point, along: real) {
    var scheduled := dayStart + Schedule.ScheduledOffsetAt(trip.stopTimes, along);
    scheduled - th.scheduleEarly <= p.timestamp <= scheduled + th.scheduleLate
  }

  lemma SpeedIsReach(distance: real, elapsed: real, speed: real)
    requires elapsed > 0.0
    ensures distance / elapsed > speed <==> distance > Product(speed, elapsed)
  {
    var v := distance / elapsed;
    assert Product(v, elapsed) == distance;
    assert v > speed ==> Product(v - speed, elapsed) > 0.0;
    assert v <= speed ==> Product(speed - v, elapsed) >= 0.0;
  }

  lemma MovementExactlyWhen(th: Thresholds, prev: AcceptedPoint, p: Point, along: real)
    requires p.timestamp > prev.point.timestamp
    ensures Movement(th, prev, p, along) == NoReason <==> WithinReach(th, prev, p, along)
  {
    var elapsed := Seconds(p.timestamp - prev.point.timestamp);
    assert elapsed > 0.0;
    SpeedIsReach(AbsReal(along - prev.alongShape), elapsed, th.maxSpeed);
  }

  /** A point that counts for or against the ride: on a trip with a shape, at a
      real place, sharp enough, in the time windows, and newer than what came
      before it. */
  ghost predicate Usable(input: VerifyInput) {
    var p, th := input.point, input.thresholds;
    && input.trip.Some? && input.trip.value.shape.Some?
    && -90.0 <= p.pos.lat <= 90.0 && -180.0 <= p.pos.lon <= 180.0 && !(p.pos.lat == 0.0 && p.pos.lon == 0.0)
    && p.accuracy <= th.maxAccuracy
    && input.now - th.pastWindow <= p.timestamp <= input.now + th.futureWindow
    && (input.lastAccepted != ZERO_TIME ==> p.timestamp > input.lastAccepted)
    && (input.prev.Some? ==> p.timestamp > input.prev.value.point.timestamp)
  }

  /** The point's place on the shape, looked for near the previous match. */
  ghost function Placed(input: VerifyInput): Shape.Projection
    requires Usable(input)
  {
    input.trip.value.shape.value.Project(input.point.pos,
      if input.prev.Some? then Some(input.prev.value.alongShape) else None)
  }

  ghost predicate OnRoute(input: VerifyInput)
    requires Usable(input)
  {
    Placed(input).distanceToShape <=
      input.thresholds.maxShapeDistance + (if input.point.accuracy > 0.0 then input.point.accuracy else 0.0)
  }

  ghost predicate Reachable(input: VerifyInput)
    requires Usable(input)
  {
    input.prev.Some? ==> WithinReach(input.thresholds, input.prev.value, input.point, Placed(input).alongShape)
  }

  ghost predicate OnTime(input: VerifyInput)
    requires Usable(input)
  {
    input.dayStart.Some?
    && OnSchedule(input.thresholds, input.trip.value, input.dayStart.value, input.point, Placed(input).alongShape)
  }

  /** Each outcome, told from the point alone: unusable points are ignored, and
      the others fail the first test they do not pass, or match. The verdict
      places the point where its projection does, and times it as far as it got. */
  lemma OutcomeExactlyWhen(input: VerifyInput)
    ensures Verify(input).outcome == Ignored <==> !Usable(input)
    ensures Usable(input) ==>
              var v := Verify(input);
              && v.alongShape == Placed(input).alongShape && v.distanceToShape == Placed(input).distanceToShape
              && (v.outcome == OffRoute <==> !OnRoute(input))
              && (v.outcome == Implausible <==> OnRoute(input) && !Reachable(input))
              && (v.outcome == OffSchedule <==> OnRoute(input) && Reachable(input) && !OnTime(input))
              && (v.outcome == Matched <==> OnRoute(input) && Reachable(input) && OnTime(input))
              && v.scheduleDeviation ==
                 if OnRoute(input) && Reachable(input) && input.dayStart.Some?
                 then input.point.timestamp
                      - (input.dayStart.value + Schedule.ScheduledOffsetAt(input.trip.value.stopTimes, v.alongShape))
                 else 0
  {
    IgnoredExactlyWhen(input);
    if Usable(input) && input.prev.Some? {
      MovementExactlyWhen(input.thresholds, input.prev.value, input.point, Placed(input).alongShape);
    }
  }

  /** The reason logged goes with the outcome. */
  lemma ReasonExactly(input: VerifyInput)
    ensures var r, o := Verify(input).reason, Verify(input).outcome;
            && (r in {NoShape, InvalidCoordinates, TooCoarse, OutsideWindow, NotNewer} <==> o == Ignored)
            && (r == TooFar <==> o == OffRoute)
            && (r in {WentBackwards, TooFast} <==> o == Implausible)
            && (r in {BadStartDate, OffTimetable} <==> o == OffSchedule)
            && (r == NoReason <==> o == Matched)
    ensures Verify(input).reason == BadStartDate ==> input.dayStart.None?
    ensures Verify(input).reason == OffTimetable ==> input.dayStart.Some?
  {
  }

  /** Going backwards comes before going too fast. */
  lemma BackwardsExactlyWhen(input: VerifyInput)
    requires Verify(input).outcome == Implausible
    ensures input.prev.Some?
    ensures Verify(input).reason == WentBackwards <==>
            Verify(input).alongShape < input.prev.value.alongShape - input.thresholds.maxRegression
  {
  }

  /** A point ignored is ignored for a test it does not pass; for want of a shape,
      whenever it has none. */
  lemma IgnoredForATest(input: VerifyInput)
    ensures var p, th, r := input.point, input.thresholds, Verify(input).reason;
            && (r == NoShape <==> input.trip.None? || input.trip.value.shape.None?)
            && (r == NotNewer ==> (input.lastAccepted != ZERO_TIME && p.timestamp <= input.lastAccepted)
                                  || (input.prev.Some? && p.timestamp <= input.prev.value.point.timestamp))
            && (r == OutsideWindow ==> p.timestamp < input.now - th.pastWindow || p.timestamp > input.now + th.futureWindow)
            && (r == TooCoarse ==> p.accuracy > th.maxAccuracy)
  {
  }

  lemma IgnoredExactlyWhen(input: VerifyInput)
    ensures Verify(input).outcome == Ignored <==> !Usable(input)
    ensures IgnoreReason(input) == NoReason <==> Usable(input)
  {
  }

  /** A point matches exactly when it is usable, close enough to the shape,
      within reach of the previous match, and near its scheduled time. */
  lemma MatchedExactlyWhen(input: VerifyInput)
    ensures Verify(input).outcome == Matched <==>
            Usable(input) && OnRoute(input) && Reachable(input) && OnTime(input)
  {
    OutcomeExactlyWhen(input);
  }

  /** A matched point is held against the trusted vehicle's place: within the
      distance a vehicle makes between the two fixes, and a base, it is
      corroborated; more than a further allowance off, contradicted. No other
      point is. */
  lemma CorroborationExactlyWhen(input: VerifyInput)
    ensures Verify(input).outcome != Matched || input.trusted.None? || input.trustedAlong.None? ==>
              Verify(input).corroboration == Unavailable
    ensures Verify(input).outcome == Matched && input.trusted.Some? && input.trustedAlong.Some? ==>
              var v, th, there := Verify(input), input.thresholds, input.trustedAlong.value;
              var later, earlier := input.trusted.value.timestamp, input.point.timestamp;
              var a := th.corroborationBase + Reach(th, if later >= earlier then later - earlier else earlier - later);
              && v.corroboration != Unavailable
              && (v.corroboration == Corroborated <==> there - a <= v.alongShape <= there + a)
              && (v.corroboration == Contradicted <==>
                    (v.alongShape < there - a || v.alongShape > there + a)
                    && (v.alongShape < there - a - th.contradictionExtra || v.alongShape > there + a + th.contradictionExtra))
  {
    VerdictCorroborates(input);
    if input.trusted.Some? && input.trustedAlong.Some? {
      CorroboratesWithin(input, Verify(input).alongShape);
    }
  }

  lemma VerdictCorroborates(input: VerifyInput)
    ensures Verify(input).corroboration ==
            if Verify(input).outcome == Matched then Corroborate(input, Verify(input).alongShape) else Unavailable
  {
    if IgnoreReason(input) == NoReason {
      OutcomeExactlyWhen(input);
    }
  }

  lemma CorroboratesWithin(input: VerifyInput, along: real)
    requires input.trusted.Some? && input.trustedAlong.Some?
    ensures var th, gap := input.thresholds, AbsReal(input.trustedAlong.value - along);
            var a := th.corroborationBase + Reach(th, AbsInt(input.trusted.value.timestamp - input.point.timestamp));
            Corroborate(input, along) ==
            if gap <= a then Corroborated else if gap > a + th.contradictionExtra then Contradicted else NoCorroboration
  {
  }

  /** In a whole number of seconds, that many times the distance of one. */
  lemma ReachInSeconds(th: Thresholds, seconds: int)
    ensures Reach(th, seconds * 1_000_000_000) == Product(th.maxSpeed, seconds as real)
  {
  }

  /** A point that counts is inside the windows around the clock and newer than
      everything accepted before it, and one that matches is within the vehicle's
      reach of the previous match. */
  lemma VerifiedPointFollows(input: VerifyInput)
    requires Verify(input).outcome != Ignored
    ensures -input.thresholds.futureWindow <= input.now - input.point.timestamp <= input.thresholds.pastWindow
    ensures input.lastAccepted != ZERO_TIME ==> input.point.timestamp > input.lastAccepted
    ensures input.prev.Some? ==> input.point.timestamp > input.prev.value.point.timestamp
    ensures input.prev.Some? && Verify(input).outcome == Matched ==>
              WithinReach(input.thresholds, input.prev.value, input.point, Verify(input).alongShape)
  {
    MatchedExactlyWhen(input);
  }

  /** Being ignored for a reason the point carries itself, or for not being
      newer, is permanent: with the same clock and trip, a point once ignored
      stays ignored whatever has been accepted in between. */
  lemma IgnoredStaysIgnored(input: VerifyInput, later: VerifyInput)
    requires Verify(input).outcome == Ignored
    requires later.trip == input.trip && later.point == input.point
    requires later.thresholds == input.thresholds && later.now == input.now
    requires input.lastAccepted != ZERO_TIME ==> later.lastAccepted != ZERO_TIME && later.lastAccepted >= input.lastAccepted
    requires input.prev.Some? ==> later.prev.Some? && later.prev.value.point.timestamp >= input.prev.value.point.timestamp
    ensures Verify(later).outcome == Ignored
  {
    assert IgnoreReason(input) != NoReason;
  }
}
