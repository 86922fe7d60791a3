/** The batch half of rider/aggregator.go as values: points sorted oldest
    first, verified one by one against the ride so far, and folded in. */
module Batches {
  import opened Prelude
  import opened Verification
  import Reputation
  import opened Sessions

  datatype AppliedPoint = AppliedPoint(point: Point, verdict: Verdict)

  /** What a batch is judged with. dayStart is ServiceDayStart in the
      aggregator's time zone. */
  datatype Context = Context(thresholds: Thresholds, dayStart: string -> Option<Time>, trusted: Option<TrustedVehicle>, now: Time)

  /** A batch under way: the ride so far, the points accepted, how many were not. */
  datatype Progress = Progress(ride: Ride, applied: seq<AppliedPoint>, ignored: nat)

  // ---- Sorting -------------------------------------------------------------

  function InsertByTime(sorted: seq<Point>, p: Point): (r: seq<Point>)
    ensures |r| == |sorted| + 1
  {
    if |sorted| == 0 || sorted[|sorted| - 1].timestamp <= p.timestamp then sorted + [p]
    else InsertByTime(sorted[..|sorted| - 1], p) + [sorted[|sorted| - 1]]
  }

  /** slices.SortStableFunc by timestamp. */
  function SortByTime(points: seq<Point>): (r: seq<Point>)
    ensures |r| == |points|
  {
    if |points| == 0 then [] else InsertByTime(SortByTime(points[..|points| - 1]), points[|points| - 1])
  }

  ghost predicate Ascending(points: seq<Point>) {
    forall i, j | 0 <= i < j < |points| :: points[i].timestamp <= points[j].timestamp
  }

  ghost predicate DistinctTimes(points: seq<Point>) {
    forall i, j | 0 <= i < j < |points| :: points[i].timestamp != points[j].timestamp
  }

  /** The points reported for time t, in order. */
  ghost function AtTime(points: seq<Point>, t: Time): seq<Point> {
    if |points| == 0 then []
    else AtTime(points[..|points| - 1], t) + (if points[|points| - 1].timestamp == t then [points[|points| - 1]] else [])
  }

  lemma AtTimeSnoc(points: seq<Point>, p: Point, t: Time)
    ensures AtTime(points + [p], t) == AtTime(points, t) + (if p.timestamp == t then [p] else [])
  {
    assert (points + [p])[..|points|] == points;
  }

  lemma {:induction false} NoneAtTime(points: seq<Point>, t: Time)
    requires forall i | 0 <= i < |points| :: points[i].timestamp != t
    ensures AtTime(points, t) == []
  {
    if |points| > 0 {
      NoneAtTime(points[..|points| - 1], t);
    }
  }

  lemma {:induction false} InsertByTimeSorts(sorted: seq<Point>, p: Point)
    requires Ascending(sorted)
    ensures Ascending(InsertByTime(sorted, p))
  {
    if |sorted| > 0 && sorted[|sorted| - 1].timestamp > p.timestamp {
      var init, last := sorted[..|sorted| - 1], sorted[|sorted| - 1];
      InsertByTimeSorts(init, p);
      forall i | 0 <= i < |InsertByTime(init, p)|
        ensures InsertByTime(init, p)[i].timestamp <= last.timestamp
      {
        InsertByTimeMembers(init, p, InsertByTime(init, p)[i]);
      }
    }
  }

  lemma {:induction false} InsertByTimePermutes(sorted: seq<Point>, p: Point)
    ensures multiset(InsertByTime(sorted, p)) == multiset(sorted) + multiset{p}
  {
    if |sorted| > 0 && sorted[|sorted| - 1].timestamp > p.timestamp {
      var init, last := sorted[..|sorted| - 1], sorted[|sorted| - 1];
      assert sorted == init + [last];
      InsertByTimePermutes(init, p);
    }
  }

  lemma InsertByTimeMembers(sorted: seq<Point>, p: Point, q: Point)
    requires q in InsertByTime(sorted, p)
    ensures q == p || q in sorted
  {
    InsertByTimePermutes(sorted, p);
    assert q in multiset(InsertByTime(sorted, p));
  }

  lemma {:induction false} InsertByTimeIsStable(sorted: seq<Point>, p: Point, t: Time)
    ensures AtTime(InsertByTime(sorted, p), t) == AtTime(sorted + [p], t)
  {
    if |sorted| > 0 && sorted[|sorted| - 1].timestamp > p.timestamp {
      var init, last := sorted[..|sorted| - 1], sorted[|sorted| - 1];
      assert sorted == init + [last];
      InsertByTimeIsStable(init, p, t);
      AtTimeSnoc(InsertByTime(init, p), last, t);
      AtTimeSnoc(init, p, t);
      AtTimeSnoc(init, last, t);
      AtTimeSnoc(sorted, p, t);
    }
  }

  /** The sort orders the points by time, loses and invents none, and keeps the
      order of those reported for the same time. */
  lemma {:induction false} SortByTimeSorts(points: seq<Point>)
    ensures Ascending(SortByTime(points))
    ensures multiset(SortByTime(points)) == multiset(points)
    ensures forall t :: AtTime(SortByTime(points), t) == AtTime(points, t)
  {
    if |points| > 0 {
      var init, last := points[..|points| - 1], points[|points| - 1];
      assert points == init + [last];
      SortByTimeSorts(init);
      InsertByTimeSorts(SortByTime(init), last);
      InsertByTimePermutes(SortByTime(init), last);
      forall t
        ensures AtTime(SortByTime(points), t) == AtTime(points, t)
      {
        InsertByTimeIsStable(SortByTime(init), last, t);
        AtTimeSnoc(SortByTime(init), last, t);
        AtTimeSnoc(init, last, t);
      }
    }
  }

  /** The last point is the latest, and the only one at its time. */
  lemma LastIsLatest(a: seq<Point>, p: Point)
    requires Ascending(a) && p in a
    ensures p.timestamp <= a[|a| - 1].timestamp
  {
    var i :| 0 <= i < |a| && a[i] == p;
  }

  lemma SameLast(a: seq<Point>, b: seq<Point>)
    requires |a| > 0 && |b| > 0 && Ascending(a) && Ascending(b)
    requires forall p :: p in a <==> p in b
    requires DistinctTimes(a)
    ensures a[|a| - 1] == b[|b| - 1]
  {
    LastIsLatest(b, a[|a| - 1]);
    LastIsLatest(a, b[|b| - 1]);
    var i :| 0 <= i < |a| && a[i] == b[|b| - 1];
  }

  lemma {:induction false} AscendingIsUnique(a: seq<Point>, b: seq<Point>)
    requires Ascending(a) && Ascending(b) && multiset(a) == multiset(b) && DistinctTimes(a)
    ensures a == b
    decreases |a|
  {
    SameLength(a, b);
    if |a| > 0 {
      var ia, ib := a[..|a| - 1], b[..|b| - 1];
      SamePoints(a, b);
      SameLast(a, b);
      DropLast(a);
      DropLast(b);
      AscendingIsUnique(ia, ib);
      assert a == ia + [a[|a| - 1]];
      assert b == ib + [b[|b| - 1]];
    }
  }

  lemma DropLast(a: seq<Point>)
    requires |a| > 0
    ensures multiset(a[..|a| - 1]) == multiset(a) - multiset{a[|a| - 1]}
    ensures Ascending(a) ==> Ascending(a[..|a| - 1])
    ensures DistinctTimes(a) ==> DistinctTimes(a[..|a| - 1])
  {
    assert a == a[..|a| - 1] + [a[|a| - 1]];
  }

  // ---- Folding a batch in --------------------------------------------------

  function InputFor(ride: Ride, p: Point, trustedAlong: Option<real>, ctx: Context): VerifyInput {
    VerifyInput(ride.trip, ctx.dayStart(ride.key.startDate), ride.latestMatched, ride.LastAcceptedAt(), p,
      ctx.trusted, trustedAlong, ctx.thresholds, ctx.now)
  }

  /** The trusted position on the ride's shape, hinted by its last match. */
  function TrustedAlong(ride: Ride, ctx: Context): Option<real> {
    if ctx.trusted.None? || ride.trip.None? || ride.trip.value.shape.None? then None
    else
      var hint := if ride.latestMatched.Some? then Some(ride.latestMatched.value.alongShape) else None;
      Some(ride.trip.value.shape.value.Project(ctx.trusted.value.pos, hint).alongShape)
  }

  /** One point; once the ride has ended, the rest are ignored. */
  function ApplyPoint(s: Progress, p: Point, trustedAlong: Option<real>, ctx: Context): Progress {
    if s.ride.ended then s.(ignored := s.ignored + 1)
    else
      var v := Verify(InputFor(s.ride, p, trustedAlong, ctx));
      if v.outcome == Ignored then s.(ignored := s.ignored + 1)
      else s.(ride := s.ride.Apply(v, p), applied := s.applied + [AppliedPoint(p, v)])
  }

  function ApplyPoints(ride: Ride, points: seq<Point>, trustedAlong: Option<real>, ctx: Context): Progress {
    if |points| == 0 then Progress(ride, [], 0)
    else ApplyPoint(ApplyPoints(ride, points[..|points| - 1], trustedAlong, ctx), points[|points| - 1], trustedAlong, ctx)
  }

  lemma ApplyNext(ride: Ride, points: seq<Point>, i: nat, along: Option<real>, ctx: Context)
    requires i < |points|
    ensures ApplyPoints(ride, points[..i + 1], along, ctx) ==
            ApplyPoint(ApplyPoints(ride, points[..i], along, ctx), points[i], along, ctx)
  {
    assert points[..i + 1][..i] == points[..i];
  }

  /** A batch for a live ride. */
  function ApplyBatch(ride: Ride, points: seq<Point>, ctx: Context): Progress {
    ApplyPoints(ride, SortByTime(points), TrustedAlong(ride, ctx), ctx)
  }

  /** Only a point on the trip's shape matches. */
  lemma {:induction false} PointsKeepShape(ride: Ride, points: seq<Point>, along: Option<real>, ctx: Context)
    requires OnShape(ride)
    ensures var r := ApplyPoints(ride, points, along, ctx).ride; OnShape(r) && r.trip == ride.trip
  {
    if |points| > 0 {
      PointsKeepShape(ride, points[..|points| - 1], along, ctx);
      PointKeepsShape(ApplyPoints(ride, points[..|points| - 1], along, ctx), points[|points| - 1], along, ctx);
    }
  }

  lemma PointKeepsShape(s: Progress, p: Point, along: Option<real>, ctx: Context)
    requires OnShape(s.ride)
    ensures var r := ApplyPoint(s, p, along, ctx).ride; OnShape(r) && r.trip == s.ride.trip
  {
    var v := Verify(InputFor(s.ride, p, along, ctx));
    if v.outcome == Matched {
      MatchNeedsShape(InputFor(s.ride, p, along, ctx));
    }
    ApplyLooksAtMatches(s.ride, v, p);
  }

  lemma MatchNeedsShape(input: VerifyInput)
    requires Verify(input).outcome == Matched
    ensures input.trip.Some? && input.trip.value.shape.Some?
  {
  }

  lemma ApplyLooksAtMatches(r: Ride, v: Verdict, p: Point)
    ensures r.Apply(v, p).trip == r.trip
    ensures v.outcome != Matched ==> r.Apply(v, p).latestMatched == r.latestMatched
  {
  }

  // ---- What each point is judged against -----------------------------------

  /** The match before: the last among the points accepted so far, or the ride's
      latest when the batch came. */
  ghost predicate IsPrevious(ride: Ride, accepted: seq<AppliedPoint>, prev: Option<AcceptedPoint>) {
    if forall a | a in accepted :: a.verdict.outcome != Matched then prev == ride.latestMatched
    else exists k | 0 <= k < |accepted| ::
           && accepted[k].verdict.outcome == Matched && (forall j | k < j < |accepted| :: accepted[j].verdict.outcome != Matched)
           && prev == Some(AcceptedPoint(accepted[k].point, accepted[k].verdict.alongShape))
  }

  /** The point is judged on the ride's trip and date, against the match before,
      later than the last point accepted, beside the trusted vehicle. */
  ghost predicate Judges(input: VerifyInput, ride: Ride, accepted: seq<AppliedPoint>, p: Point, place: Option<real>, ctx: Context) {
    && input.trip == ride.trip && input.dayStart == ctx.dayStart(ride.key.startDate)
    && IsPrevious(ride, accepted, input.prev)
    && input.lastAccepted == (if |accepted| > 0 then accepted[|accepted| - 1].point.timestamp
                              else if ride.latest.Some? then ride.latest.value.point.timestamp else ZERO_TIME)
    && input.point == p && input.trusted == ctx.trusted && input.trustedAlong == place
    && input.thresholds == ctx.thresholds && input.now == ctx.now
  }

  ghost predicate PointJudged(ride: Ride, s: Progress, p: Point, place: Option<real>, ctx: Context, s': Progress) {
    if s.ride.ended then s'.ride == s.ride && s'.applied == s.applied && s'.ignored == s.ignored + 1
    else exists input :: Judges(input, ride, s.applied, p, place, ctx) && Takes(s, p, Verify(input), s')
  }

  /** An ignored point is counted, any other is accepted and changes the ride. */
  ghost predicate Takes(s: Progress, p: Point, v: Verdict, s': Progress) {
    if v.outcome == Ignored then s'.ride == s.ride && s'.applied == s.applied && s'.ignored == s.ignored + 1
    else s'.applied == s.applied + [AppliedPoint(p, v)] && s'.ignored == s.ignored && s'.ride == s.ride.Apply(v, p)
  }

  lemma {:induction false} RemembersAccepted(ride: Ride, points: seq<Point>, place: Option<real>, ctx: Context)
    ensures var s := ApplyPoints(ride, points, place, ctx);
            && IsPrevious(ride, s.applied, s.ride.latestMatched)
            && s.ride.LastAcceptedAt() == (if |s.applied| > 0 then s.applied[|s.applied| - 1].point.timestamp
                                           else if ride.latest.Some? then ride.latest.value.point.timestamp else ZERO_TIME)
            && s.ride.trip == ride.trip && s.ride.key == ride.key
  {
    if |points| > 0 {
      var s := ApplyPoints(ride, points[..|points| - 1], place, ctx);
      var p := points[|points| - 1];
      RemembersAccepted(ride, points[..|points| - 1], place, ctx);
      var v := Verify(InputFor(s.ride, p, place, ctx));
      if !s.ride.ended && v.outcome != Ignored {
        RemembersOneMore(ride, s, p, v);
      }
    }
  }

  lemma RemembersOneMore(ride: Ride, s: Progress, p: Point, v: Verdict)
    requires !s.ride.ended && v.outcome != Ignored && IsPrevious(ride, s.applied, s.ride.latestMatched)
    ensures var r := s.ride.Apply(v, p);
            && IsPrevious(ride, s.applied + [AppliedPoint(p, v)], r.latestMatched)
            && r.LastAcceptedAt() == p.timestamp && r.trip == s.ride.trip && r.key == s.ride.key
  {
    ApplyRecords(s.ride, p, v);
    ApplyLooksAtMatches(s.ride, v, p);
    PreviousOneMore(ride, s.applied, s.ride.latestMatched, AppliedPoint(p, v), s.ride.Apply(v, p).latestMatched);
  }

  lemma PreviousOneMore(ride: Ride, accepted: seq<AppliedPoint>, prev: Option<AcceptedPoint>, a: AppliedPoint,
                        prev': Option<AcceptedPoint>)
    requires IsPrevious(ride, accepted, prev)
    requires prev' == if a.verdict.outcome == Matched then Some(AcceptedPoint(a.point, a.verdict.alongShape)) else prev
    ensures IsPrevious(ride, accepted + [a], prev')
  {
    var longer := accepted + [a];
    assert longer[|accepted|] == a;
    if a.verdict.outcome != Matched && !(forall x | x in accepted :: x.verdict.outcome != Matched) {
      var k :| 0 <= k < |accepted| && accepted[k].verdict.outcome == Matched
               && (forall j | k < j < |accepted| :: accepted[j].verdict.outcome != Matched)
               && prev == Some(AcceptedPoint(accepted[k].point, accepted[k].verdict.alongShape));
      assert longer[k] == accepted[k] && longer[k] in longer;
      assert forall j | k < j < |longer| :: longer[j].verdict.outcome != Matched;
    }
  }

  /** A batch in full: sorted by time, each point in turn is judged against those
      accepted before it, and, where the ride has a shape, against the trusted
      vehicle's place on it, near the match the batch found. */
  lemma BatchIsJudged(ride: Ride, points: seq<Point>, ctx: Context) returns (sorted: seq<Point>, place: Option<real>)
    ensures Ascending(sorted) && multiset(sorted) == multiset(points)
    ensures forall t :: AtTime(sorted, t) == AtTime(points, t)
    ensures place.Some? <==> ctx.trusted.Some? && ride.trip.Some? && ride.trip.value.shape.Some?
    ensures place.Some? ==>
              place.value == ride.trip.value.shape.value.Project(ctx.trusted.value.pos,
                if ride.latestMatched.Some? then Some(ride.latestMatched.value.alongShape) else None).alongShape
    ensures ApplyBatch(ride, points, ctx) == ApplyPoints(ride, sorted, place, ctx)
    ensures ApplyPoints(ride, sorted[..0], place, ctx) == Progress(ride, [], 0) && sorted[..|sorted|] == sorted
    ensures forall k | 0 <= k < |sorted| ::
              PointJudged(ride, ApplyPoints(ride, sorted[..k], place, ctx), sorted[k], place, ctx,
                          ApplyPoints(ride, sorted[..k + 1], place, ctx))
  {
    sorted, place := SortByTime(points), TrustedAlong(ride, ctx);
    SortByTimeSorts(points);
    forall k | 0 <= k < |sorted| ensures
      PointJudged(ride, ApplyPoints(ride, sorted[..k], place, ctx), sorted[k], place, ctx, ApplyPoints(ride, sorted[..k + 1], place, ctx)) {
      NextIsJudged(ride, sorted, k, place, ctx);
    }
  }

  lemma NextIsJudged(ride: Ride, sorted: seq<Point>, k: nat, place: Option<real>, ctx: Context)
    requires k < |sorted|
    ensures PointJudged(ride, ApplyPoints(ride, sorted[..k], place, ctx), sorted[k], place, ctx,
                        ApplyPoints(ride, sorted[..k + 1], place, ctx))
  {
    var s := ApplyPoints(ride, sorted[..k], place, ctx);
    ApplyNext(ride, sorted, k, place, ctx);
    RemembersAccepted(ride, sorted[..k], place, ctx);
    assert Judges(InputFor(s.ride, sorted[k], place, ctx), ride, s.applied, sorted[k], place, ctx);
  }

  lemma {:induction false} EveryPointAccountedFor(ride: Ride, points: seq<Point>, along: Option<real>, ctx: Context)
    ensures var s := ApplyPoints(ride, points, along, ctx); |s.applied| + s.ignored == |points|
  {
    if |points| > 0 {
      EveryPointAccountedFor(ride, points[..|points| - 1], along, ctx);
    }
  }

  /** Batches of the same distinct-time points give the same result whatever
      order they are sent in. */
  lemma SendOrderIsIrrelevant(ride: Ride, sent: seq<Point>, resent: seq<Point>, ctx: Context)
    requires multiset(sent) == multiset(resent)
    requires DistinctTimes(sent)
    ensures ApplyBatch(ride, sent, ctx) == ApplyBatch(ride, resent, ctx)
  {
    SortByTimeSorts(sent);
    SortByTimeSorts(resent);
    var a := SortByTime(sent);
    DistinctTimesSurvive(sent, a);
    AscendingIsUnique(a, SortByTime(resent));
  }

  lemma {:induction false} CountAtTime(points: seq<Point>, t: Time, i: int)
    requires 0 <= i < |points| && points[i].timestamp == t
    ensures |AtTime(points, t)| >= 1
    ensures forall j | 0 <= j < |points| && j != i && points[j].timestamp == t :: |AtTime(points, t)| >= 2
    ensures (forall j | 0 <= j < |points| && j != i :: points[j].timestamp != t) ==> |AtTime(points, t)| == 1
  {
    var init := points[..|points| - 1];
    if i < |init| {
      CountAtTime(init, t, i);
    } else if exists j :: 0 <= j < |init| && init[j].timestamp == t {
      var j :| 0 <= j < |init| && init[j].timestamp == t;
      CountAtTime(init, t, j);
    } else {
      NoneAtTime(init, t);
    }
  }

  lemma DistinctTimesSurvive(a: seq<Point>, b: seq<Point>)
    requires forall t :: AtTime(a, t) == AtTime(b, t)
    requires multiset(a) == multiset(b)
    requires DistinctTimes(a)
    ensures DistinctTimes(b)
  {
    forall i, j | 0 <= i < j < |b|
      ensures b[i].timestamp != b[j].timestamp
    {
      if b[i].timestamp == b[j].timestamp {
        var t := b[i].timestamp;
        CountAtTime(b, t, i);
        assert b[i] in multiset(a);
        var k :| 0 <= k < |a| && a[k] == b[i];
        CountAtTime(a, t, k);
      }
    }
  }

  // ---- Redelivery ----------------------------------------------------------

  /** A usable report carries a time after the zero time. */
  predicate Dated(points: seq<Point>) {
    forall i | 0 <= i < |points| :: points[i].timestamp > ZERO_TIME
  }

  /** The ride r has moved on to r2: same trip, nothing accepted forgotten. */
  ghost predicate MovedOn(r: Ride, r2: Ride) {
    && r2.trip == r.trip
    && (r.latest.Some? ==> r2.latest.Some? && r2.latest.value.point.timestamp >= r.latest.value.point.timestamp)
    && (r.latestMatched.Some? ==>
          r2.latestMatched.Some? && r2.latestMatched.value.point.timestamp >= r.latestMatched.value.point.timestamp)
    && (r.latest.Some? && r.latest.value.point.timestamp > ZERO_TIME ==> r2.latest.value.point.timestamp > ZERO_TIME)
  }

  ghost predicate Positive(r: Ride) {
    r.latest.Some? ==> r.latest.value.point.timestamp > ZERO_TIME
  }

  predicate Unusable(r: Ride, p: Point, ctx: Context) {
    IgnoreReason(InputFor(r, p, None, ctx)) != NoReason
  }

  lemma UnusableForever(r: Ride, r2: Ride, p: Point, ctx: Context)
    requires Positive(r) && MovedOn(r, r2) && Unusable(r, p, ctx)
    ensures Unusable(r2, p, ctx)
  {
    IgnoredStaysIgnored(InputFor(r, p, None, ctx), InputFor(r2, p, None, ctx));
  }

  lemma ApplyMovesOn(r: Ride, p: Point, v: Verdict, ctx: Context)
    requires Positive(r) && !r.ended && p.timestamp > ZERO_TIME && v.outcome != Ignored
    requires r.latest.Some? ==> p.timestamp > r.latest.value.point.timestamp
    requires r.latestMatched.Some? ==> p.timestamp > r.latestMatched.value.point.timestamp
    ensures Positive(r.Apply(v, p)) && MovedOn(r, r.Apply(v, p)) && Unusable(r.Apply(v, p), p, ctx)
  {
    ApplyRecords(r, p, v);
  }

  lemma ApplyRecords(r: Ride, p: Point, v: Verdict)
    requires !r.ended && v.outcome != Ignored
    ensures var r2, ap := r.Apply(v, p), AcceptedPoint(p, v.alongShape);
            && r2.trip == r.trip && r2.key == r.key && r2.latest == Some(ap)
            && r2.latestMatched == if v.outcome == Matched then Some(ap) else r.latestMatched
  {
  }

  /** After a batch, every point of it is unusable to the ride. */
  lemma {:induction false} BatchIsSpent(ride: Ride, points: seq<Point>, along: Option<real>, ctx: Context)
    requires Positive(ride) && Dated(points)
    ensures var s := ApplyPoints(ride, points, along, ctx);
            Positive(s.ride) && (!s.ride.ended ==> AllUnusable(s.ride, points, ctx))
  {
    if |points| > 0 {
      var init, last := points[..|points| - 1], points[|points| - 1];
      BatchIsSpent(ride, init, along, ctx);
      assert points == init + [last];
      PointIsSpent(ApplyPoints(ride, init, along, ctx), init, last, along, ctx);
    }
  }

  ghost predicate AllUnusable(r: Ride, points: seq<Point>, ctx: Context) {
    forall p | p in points :: Unusable(r, p, ctx)
  }

  lemma PointIsSpent(s: Progress, init: seq<Point>, last: Point, along: Option<real>, ctx: Context)
    requires Positive(s.ride) && last.timestamp > ZERO_TIME
    requires !s.ride.ended ==> AllUnusable(s.ride, init, ctx)
    ensures var r := ApplyPoint(s, last, along, ctx).ride;
            Positive(r) && (!r.ended ==> AllUnusable(r, init + [last], ctx))
  {
    var input := InputFor(s.ride, last, along, ctx);
    if !s.ride.ended {
      UnusableIsIgnored(s.ride, last, along, ctx);
      if Verify(input).outcome != Ignored {
        VerifiedPointFollows(input);
        ApplyMovesOn(s.ride, last, Verify(input), ctx);
        forall p | p in init
          ensures Unusable(s.ride.Apply(Verify(input), last), p, ctx)
        {
          UnusableForever(s.ride, s.ride.Apply(Verify(input), last), p, ctx);
        }
      }
    }
  }

  lemma UnusableIsIgnored(ride: Ride, p: Point, along: Option<real>, ctx: Context)
    ensures Verify(InputFor(ride, p, along, ctx)).outcome == Ignored <==> Unusable(ride, p, ctx)
  {
    assert IgnoreReason(InputFor(ride, p, along, ctx)) == IgnoreReason(InputFor(ride, p, None, ctx));
  }

  lemma {:induction false} UnusableBatchChangesNothing(ride: Ride, points: seq<Point>, along: Option<real>, ctx: Context)
    requires AllUnusable(ride, points, ctx)
    ensures ApplyPoints(ride, points, along, ctx) == Progress(ride, [], |points|)
  {
    if |points| > 0 {
      var init, p := points[..|points| - 1], points[|points| - 1];
      assert forall q | q in init :: q in points;
      UnusableBatchChangesNothing(ride, init, along, ctx);
      UnusableIsIgnored(ride, p, along, ctx);
    }
  }

  /** A batch delivered again, whole or in part, in any order and any number of
      copies, at the same instant and whatever the trusted feed says by then:
      unless the ride ended, nothing is accepted and nothing changes. */
  lemma RedeliveryIsHarmless(ride: Ride, points: seq<Point>, again: seq<Point>, ctx: Context, ctx2: Context)
    requires Positive(ride) && Dated(points)
    requires forall p | p in again :: p in points
    requires ctx2 == ctx.(trusted := ctx2.trusted)
    ensures var s := ApplyBatch(ride, points, ctx);
            !s.ride.ended ==> ApplyBatch(s.ride, again, ctx2) == Progress(s.ride, [], |again|)
  {
    var sorted, sorted2 := SortByTime(points), SortByTime(again);
    SortByTimeSorts(points);
    SortByTimeSorts(again);
    SamePoints(points, sorted);
    SamePoints(again, sorted2);
    var s := ApplyBatch(ride, points, ctx);
    BatchIsSpent(ride, sorted, TrustedAlong(ride, ctx), ctx);
    if !s.ride.ended {
      UnusableWhateverTheFeed(s.ride, sorted, sorted2, ctx, ctx2);
      UnusableBatchChangesNothing(s.ride, sorted2, TrustedAlong(s.ride, ctx2), ctx2);
    }
  }

  lemma UnusableWhateverTheFeed(r: Ride, points: seq<Point>, again: seq<Point>, ctx: Context, ctx2: Context)
    requires AllUnusable(r, points, ctx) && ctx2 == ctx.(trusted := ctx2.trusted)
    requires forall p | p in again :: p in points
    ensures AllUnusable(r, again, ctx2)
  {
    forall p | p in again
      ensures Unusable(r, p, ctx2)
    {
      assert Unusable(r, p, ctx);
      assert IgnoreReason(InputFor(r, p, None, ctx)) == IgnoreReason(InputFor(r, p, None, ctx2));
    }
  }

  lemma SamePoints(a: seq<Point>, b: seq<Point>)
    requires multiset(a) == multiset(b)
    ensures forall p :: p in a <==> p in b
    ensures Dated(a) ==> Dated(b)
  {
    forall p
      ensures p in a <==> p in b
    {
      assert p in a <==> p in multiset(a);
    }
    forall i | 0 <= i < |b|
      ensures b[i] in a
    {
      assert b[i] in multiset(b);
    }
  }

  // ---- Whole rides ---------------------------------------------------------

  /** What can happen to a ride in the aggregator. */
  datatype Occurrence =
    | Batch(points: seq<Point>, ctx: Context)
    | Finish(reason: Reputation.EndReason, at: Time)
    | Retier(tier: Reputation.Tier)

  /** The ride after the events, and every point it accepted. */
  function RunEvents(ride: Ride, events: seq<Occurrence>): (Ride, seq<AppliedPoint>) {
    if |events| == 0 then (ride, [])
    else
      var (r, log) := RunEvents(ride, events[..|events| - 1]);
      match events[|events| - 1]
      case Batch(points, ctx) =>
        if r.ended then (r, log) else var s := ApplyBatch(r, points, ctx); (s.ride, log + s.applied)
      case Finish(reason, at) => (r.End(reason, at), log)
      case Retier(t) => (r.(tier := t), log)
  }

  predicate Hit(a: AppliedPoint) {
    a.verdict.outcome == Matched
  }

  ghost predicate LastHitAt(log: seq<AppliedPoint>, k: int) {
    0 <= k < |log| && Hit(log[k]) && forall j | k < j < |log| :: !Hit(log[j])
  }

  /** The log runs strictly forward in time, and any two of its matched points
      are within the vehicle's reach of each other. */
  ghost predicate Plausible(th: Thresholds, log: seq<AppliedPoint>) {
    && (forall i, j | 0 <= i < j < |log| :: log[i].point.timestamp < log[j].point.timestamp)
    && (forall i, j | 0 <= i < j < |log| && Hit(log[i]) && Hit(log[j]) ::
          AbsReal(log[j].verdict.alongShape - log[i].verdict.alongShape)
            <= Reach(th, log[j].point.timestamp - log[i].point.timestamp))
  }

  /** The ride remembers the end of the log. */
  ghost predicate Remembers(r: Ride, log: seq<AppliedPoint>) {
    && (if |log| == 0 then r.latest == None
        else r.latest.Some? && r.latest.value.point == log[|log| - 1].point && log[|log| - 1].point.timestamp > ZERO_TIME)
    && (if r.latestMatched.None? then forall a | a in log :: !Hit(a)
        else exists k :: LastHitAt(log, k) && r.latestMatched.value == AcceptedPoint(log[k].point, log[k].verdict.alongShape))
  }

  lemma ReachAdds(th: Thresholds, a: int, b: int)
    ensures Reach(th, a) + Reach(th, b) == Reach(th, a + b)
  {
    ProductAdds(th.maxSpeed, Seconds(a), Seconds(b));
    assert Seconds(a) + Seconds(b) == Seconds(a + b);
  }

  lemma ProductAdds(k: real, x: real, y: real)
    ensures Product(k, x) + Product(k, y) == Product(k, x + y)
  {
  }

  lemma ReachChains(th: Thresholds, x: real, y: real, z: real, atX: Time, atY: Time, atZ: Time)
    requires AbsReal(y - x) <= Reach(th, atY - atX) && AbsReal(z - y) <= Reach(th, atZ - atY)
    ensures AbsReal(z - x) <= Reach(th, atZ - atX)
  {
    ReachAdds(th, atY - atX, atZ - atY);
  }

  /** The point follows what the ride remembers. */
  ghost predicate FollowsOn(th: Thresholds, r: Ride, a: AppliedPoint) {
    && (r.latest.Some? ==> a.point.timestamp > r.latest.value.point.timestamp)
    && (Hit(a) && r.latestMatched.Some? ==>
          AbsReal(a.verdict.alongShape - r.latestMatched.value.alongShape)
            <= Reach(th, a.point.timestamp - r.latestMatched.value.point.timestamp))
  }

  /** One more accepted point keeps the log plausible: whatever it reaches from
      the last match, it reaches from every earlier one. */
  lemma PlausibleSnoc(th: Thresholds, r: Ride, log: seq<AppliedPoint>, a: AppliedPoint)
    requires Plausible(th, log) && Remembers(r, log) && FollowsOn(th, r, a)
    ensures Plausible(th, log + [a])
  {
    forall i | 0 <= i < |log| && Hit(log[i]) && Hit(a)
      ensures AbsReal(a.verdict.alongShape - log[i].verdict.alongShape) <= Reach(th, a.point.timestamp - log[i].point.timestamp)
    {
      assert log[i] in log;
      var k :| LastHitAt(log, k) && r.latestMatched.value == AcceptedPoint(log[k].point, log[k].verdict.alongShape);
      if i < k {
        ReachChains(th, log[i].verdict.alongShape, log[k].verdict.alongShape, a.verdict.alongShape,
          log[i].point.timestamp, log[k].point.timestamp, a.point.timestamp);
      }
    }
    PlausibleExtended(th, log, a);
  }

  lemma PlausibleExtended(th: Thresholds, log: seq<AppliedPoint>, a: AppliedPoint)
    requires Plausible(th, log)
    requires |log| > 0 ==> a.point.timestamp > log[|log| - 1].point.timestamp
    requires forall i | 0 <= i < |log| && Hit(log[i]) && Hit(a) ::
               AbsReal(a.verdict.alongShape - log[i].verdict.alongShape) <= Reach(th, a.point.timestamp - log[i].point.timestamp)
    ensures Plausible(th, log + [a])
  {
  }

  lemma RemembersSnoc(r: Ride, log: seq<AppliedPoint>, p: Point, v: Verdict)
    requires Remembers(r, log) && !r.ended && p.timestamp > ZERO_TIME && v.outcome != Ignored
    ensures Remembers(r.Apply(v, p), log + [AppliedPoint(p, v)])
  {
    var longer := log + [AppliedPoint(p, v)];
    ApplyRecords(r, p, v);
    if v.outcome == Matched {
      assert LastHitAt(longer, |log|);
    } else if r.latestMatched.Some? {
      var k :| LastHitAt(log, k) && r.latestMatched.value == AcceptedPoint(log[k].point, log[k].verdict.alongShape);
      assert LastHitAt(longer, k);
    }
  }

  lemma PointStaysPlausible(log: seq<AppliedPoint>, s: Progress, p: Point, along: Option<real>, ctx: Context)
    requires Plausible(ctx.thresholds, log + s.applied) && Remembers(s.ride, log + s.applied) && p.timestamp > ZERO_TIME
    ensures var t := ApplyPoint(s, p, along, ctx);
            Plausible(ctx.thresholds, log + t.applied) && Remembers(t.ride, log + t.applied)
  {
    var v := Verify(InputFor(s.ride, p, along, ctx));
    if !s.ride.ended && v.outcome != Ignored {
      var a := AppliedPoint(p, v);
      VerifiedPointFollows(InputFor(s.ride, p, along, ctx));
      assert FollowsOn(ctx.thresholds, s.ride, a);
      PlausibleSnoc(ctx.thresholds, s.ride, log + s.applied, a);
      RemembersSnoc(s.ride, log + s.applied, p, v);
      assert log + (s.applied + [a]) == log + s.applied + [a];
    }
  }

  lemma {:induction false} PointsStayPlausible(r: Ride, log: seq<AppliedPoint>, points: seq<Point>, along: Option<real>, ctx: Context)
    requires Plausible(ctx.thresholds, log) && Remembers(r, log) && Dated(points)
    ensures var s := ApplyPoints(r, points, along, ctx);
            Plausible(ctx.thresholds, log + s.applied) && Remembers(s.ride, log + s.applied)
  {
    if |points| == 0 {
      assert log + [] == log;
    } else {
      PointsStayPlausible(r, log, points[..|points| - 1], along, ctx);
      PointStaysPlausible(log, ApplyPoints(r, points[..|points| - 1], along, ctx), points[|points| - 1], along, ctx);
    }
  }

  /** Over a whole ride, however its points were batched and ordered: accepted
      points run strictly forward in time, and for any two matched ones, not
      only neighbours, the distance between them along the shape is at most
      MaxSpeed times the time between them. */
  lemma {:induction false} WholeRideSpeedBound(ride: Ride, events: seq<Occurrence>, th: Thresholds)
    requires ride == NewRide(ride.id, ride.riderId, ride.key, ride.trip, ride.tier, ride.startedAt)
    requires forall e | e in events && e.Batch? :: Dated(e.points) && e.ctx.thresholds == th
    ensures var (r, log) := RunEvents(ride, events); Plausible(th, log) && Remembers(r, log)
  {
    if |events| > 0 {
      var init, last := events[..|events| - 1], events[|events| - 1];
      WholeRideSpeedBound(ride, init, th);
      var (r, log) := RunEvents(ride, init);
      if last.Batch? && !r.ended {
        assert last in events;
        SortByTimeSorts(last.points);
        SamePoints(last.points, SortByTime(last.points));
        PointsStayPlausible(r, log, SortByTime(last.points), TrustedAlong(r, last.ctx), last.ctx);
      }
    }
  }
}
