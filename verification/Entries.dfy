/** What an entry of the published list says (rider/aggregator.go): whose rides
    it comes from, when there is one, and what it shows, told from the rides. */
module Entries {
  import opened Prelude
  import Schedule
  import Shape
  import opened Verification
  import opened Reputation
  import opened Sessions
  import opened Registry
  import opened Consensus
  import opened Publication

  // ---- Whose rides ---------------------------------------------------------

  /** The ride counts towards the trip: live, verified, of a rider not blocked and
      their newest, matched no longer ago than maxAge. */
  ghost predicate CountsFor(g: Registry, id: string, key: TripKey, now: Time, maxAge: int) {
    && id in g.rides
    && var r := g.rides[id];
       && r.key == key && !r.ended && r.state == State.Verified && r.tier != TierBlocked
       && r.riderId in g.newest && g.newest[r.riderId] == id
       && r.latestMatched.Some? && now - r.latestMatched.value.point.timestamp <= maxAge
  }

  /** What the ride contributes is its latest match; it stands alone if its rider
      is trusted or a trusted vehicle has vouched for it. */
  ghost predicate Brings(r: Ride, m: Member) {
    && r.latestMatched.Some? && m.riderId == r.riderId
    && m.along == r.latestMatched.value.alongShape
    && m.speed == r.latestMatched.value.point.speed
    && m.timestamp == r.latestMatched.value.point.timestamp
    && (m.publishable <==> r.tier == TierTrusted || r.corroborated)
  }

  lemma ContributesExactlyWhen(g: Registry, id: string, key: TripKey, now: Time, maxAge: int)
    requires g.WellKeyed()
    ensures Contributes(g, id, key, now, maxAge) <==> CountsFor(g, id, key, now, maxAge)
    ensures Contributes(g, id, key, now, maxAge) ==> Brings(g.rides[id], MemberOf(g, id, now, maxAge).value)
  {
  }

  lemma MembersExactlyWhen(g: Registry, key: TripKey, now: Time, maxAge: int, m: Member)
    requires g.WellKeyed()
    ensures m in Members(g, key, now, maxAge) <==>
            exists id | id in g.rides :: CountsFor(g, id, key, now, maxAge) && Brings(g.rides[id], m)
  {
    if m in Members(g, key, now, maxAge) {
      var id :| id in g.rides && Contributes(g, id, key, now, maxAge) && m == MemberOf(g, id, now, maxAge).value;
      ContributesExactlyWhen(g, id, key, now, maxAge);
    }
    if id :| id in g.rides && CountsFor(g, id, key, now, maxAge) && Brings(g.rides[id], m) {
      ContributesExactlyWhen(g, id, key, now, maxAge);
      assert m == MemberOf(g, id, now, maxAge).value;
    }
  }

  // ---- When there is an entry ----------------------------------------------

  /** The middle of the values in order, or half way between the middle two. */
  ghost predicate IsMedian(values: seq<real>, m: real) {
    exists sorted: seq<real> :: Sorts(values, sorted) && |sorted| > 0 && m == Middle(sorted)
  }

  ghost predicate Sorts(values: seq<real>, sorted: seq<real>) {
    multiset(sorted) == multiset(values) && SortedReals(sorted)
  }

  ghost function Middle(sorted: seq<real>): real
    requires |sorted| > 0
  {
    var n := |sorted|;
    if n % 2 == 1 then sorted[n / 2] else (sorted[n / 2 - 1] + sorted[n / 2]) / 2.0
  }

  /** left are the members no further than 100 m from the place, each as often. */
  ghost predicate Trims(members: seq<Member>, along: real, left: seq<Member>) {
    forall m: Member ::
      multiset(left)[m] == if along - 100.0 <= m.along <= along + 100.0 then multiset(members)[m] else 0
  }

  /** One stands alone, or two different riders are within 100 m of each other. */
  ghost predicate Credible(members: seq<Member>) {
    || (exists m | m in members :: m.publishable)
    || (exists a, b | a in members && b in members :: a.riderId != b.riderId && -100.0 <= a.along - b.along <= 100.0)
  }

  lemma CredibleIsPublishable(members: seq<Member>)
    ensures Credible(members) <==> Consensus.Publishable(members)
  {
    if a, b :| a in members && b in members && Vouch(a, b) {
      assert a.riderId != b.riderId && -100.0 <= a.along - b.along <= 100.0;
    }
    if a, b :| a in members && b in members && a.riderId != b.riderId && -100.0 <= a.along - b.along <= 100.0 {
      assert Vouch(a, b);
    }
  }

  lemma MedianIsMedian(values: seq<real>)
    requires |values| > 0
    ensures IsMedian(values, Median(values))
    ensures forall m | IsMedian(values, m) :: m == Median(values)
  {
    SortRealsSorts(values);
    assert Sorts(values, SortReals(values));
    forall m | IsMedian(values, m) ensures m == Median(values) {
      var sorted :| Sorts(values, sorted) && |sorted| > 0 && m == Middle(sorted);
      SortRealsUnique(sorted, SortReals(values));
    }
  }

  lemma WithinTrims(members: seq<Member>, along: real)
    ensures Trims(members, along, Within(members, along, OUTLIER_DISTANCE))
  {
    forall m: Member ensures multiset(Within(members, along, OUTLIER_DISTANCE))[m] ==
                              if along - 100.0 <= m.along <= along + 100.0 then multiset(members)[m] else 0 {
      KeepMultiplicity(members, Near(along, OUTLIER_DISTANCE), m);
    }
  }

  lemma SameTrim(members: seq<Member>, along: real, left: seq<Member>, left': seq<Member>)
    requires Trims(members, along, left) && Trims(members, along, left')
    ensures multiset(left) == multiset(left') && (Credible(left) <==> Credible(left'))
  {
    assert forall m: Member :: multiset(left)[m] == multiset(left')[m];
    assert multiset(left) == multiset(left');
    SameMembers(left, left');
  }

  ghost function Alongs(members: seq<Member>): (r: seq<real>)
    ensures |r| == |members|
  {
    seq(|members|, i requires 0 <= i < |members| => members[i].along)
  }

  ghost function Speeds(members: seq<Member>): (r: seq<real>)
    ensures |r| == |members|
  {
    seq(|members|, i requires 0 <= i < |members| => members[i].speed)
  }

  lemma Collected(members: seq<Member>)
    ensures Collect(members, AlongOf) == Alongs(members) && Collect(members, SpeedOf) == Speeds(members)
  {
  }

  /** A group has an estimate exactly when its trip has a shape, its members are
      credible, and those near their median are. */
  lemma EstimatedExactlyWhen(g: Group, key: TripKey, now: Time, along: real, left: seq<Member>)
    requires IsMedian(Alongs(g.members), along) && Trims(g.members, along, left)
    ensures Estimate(g, key, now).Some? <==>
            g.trip.Some? && g.trip.value.shape.Some? && Credible(g.members) && Credible(left)
  {
    Collected(g.members);
    MedianHasSome(Alongs(g.members), along);
    MedianIsMedian(Alongs(g.members));
    var kept := Within(g.members, along, OUTLIER_DISTANCE);
    WithinTrims(g.members, along);
    SameTrim(g.members, along, left, kept);
    CredibleIsPublishable(g.members);
    CredibleIsPublishable(kept);
    if Consensus.Publishable(g.members) {
      SurvivorsAreCredible(g.members);
    }
  }

  lemma MedianHasSome(values: seq<real>, m: real)
    requires IsMedian(values, m)
    ensures |values| > 0
  {
    var sorted :| Sorts(values, sorted) && |sorted| > 0 && m == Middle(sorted);
    SameLength(values, sorted);
  }

  // ---- What it shows -------------------------------------------------------

  /** moving are the members that reported a speed, each as often. */
  ghost predicate Reported(members: seq<Member>, moving: seq<Member>) {
    forall m: Member :: multiset(moving)[m] == if m.speed >= 0.0 then multiset(members)[m] else 0
  }

  /** The median of the speeds reported, if any were. */
  ghost predicate ShowsSpeed(speed: Option<real>, left: seq<Member>) {
    if forall m | m in left :: m.speed < 0.0 then speed.None?
    else speed.Some? && exists moving :: Reported(left, moving) && IsMedian(Speeds(moving), speed.value)
  }

  /** The latest member's time, or now when a member's is later. */
  ghost predicate ShowsTime(timestamp: Time, left: seq<Member>, now: Time) {
    if exists m | m in left :: m.timestamp > now then timestamp == now
    else (exists m | m in left :: m.timestamp == timestamp) && forall m | m in left :: m.timestamp <= timestamp
  }

  /** The first stop at or beyond the place, if there is one. */
  ghost predicate ShowsStop(stopId: string, sequence: int, stops: seq<Schedule.StopTimeInfo>, along: real) {
    if forall i | 0 <= i < |stops| :: stops[i].alongShape < along then stopId == "" && sequence == 0
    else exists i | 0 <= i < |stops| ::
           && stops[i].alongShape >= along && stopId == stops[i].stopId && sequence == stops[i].sequence
           && forall j | 0 <= j < i :: stops[j].alongShape < along
  }

  /** An entry for the trip: of the members near the median place, their median
      place on the shape, with all else about it. */
  ghost predicate Shows(e: TripEstimate, key: TripKey, trip: Schedule.TripInfo, shape: Shape.Polyline, left: seq<Member>,
                        along: real, now: Time)
  {
    && IsMedian(Alongs(left), along)
    && e.key == key && e.routeId == trip.routeId
    && e.pos == shape.PointAt(along) && e.bearing == shape.BearingAt(along)
    && ShowsSpeed(e.speed, left) && ShowsTime(e.timestamp, left, now)
    && ShowsStop(e.stopId, e.stopSequence, trip.stopTimes, along)
    && e.riders == |set m | m in left :: m.riderId|
  }

  lemma SpeedShown(left: seq<Member>)
    ensures ShowsSpeed(MedianSpeed(left), left)
  {
    var moving := Keep(left, Moving);
    forall m: Member ensures multiset(moving)[m] == if m.speed >= 0.0 then multiset(left)[m] else 0 {
      KeepMultiplicity(left, Moving, m);
    }
    assert Reported(left, moving);
    Collected(moving);
    if |moving| > 0 {
      assert moving[0] in moving;
      MedianIsMedian(Speeds(moving));
    } else {
      assert forall m | m in left :: m !in moving;
    }
  }

  lemma TimeShown(left: seq<Member>, now: Time)
    requires |left| > 0
    ensures ShowsTime(NewestTimestamp(left, now), left, now)
  {
  }

  lemma RenderShows(trip: Schedule.TripInfo, shape: Shape.Polyline, left: seq<Member>, key: TripKey, now: Time)
    requires |left| > 0
    ensures Shows(Render(trip, shape, left, key, now), key, trip, shape, left, Median(Alongs(left)), now)
  {
    Collected(left);
    MedianIsMedian(Alongs(left));
    SpeedShown(left);
    TimeShown(left, now);
  }

  /** What the estimate is of a group: the members within 100 m of the median
      place, and what is shown of those. */
  lemma EstimateShows(g: Group, key: TripKey, now: Time) returns (middle: real, left: seq<Member>, along: real)
    requires Estimate(g, key, now).Some?
    ensures IsMedian(Alongs(g.members), middle) && Trims(g.members, middle, left)
    ensures Shows(Estimate(g, key, now).value, key, g.trip.value, g.trip.value.shape.value, left, along, now)
  {
    SurvivorsAreCredible(g.members);
    Collected(g.members);
    middle := MedianAlong(g.members);
    left := Within(g.members, middle, OUTLIER_DISTANCE);
    MedianIsMedian(Alongs(g.members));
    WithinTrims(g.members, middle);
    along := Median(Alongs(left));
    RenderShows(g.trip.value, g.trip.value.shape.value, left, key, now);
  }

  // ---- The published list --------------------------------------------------

  /** members lists the rides that count towards the trip, one member each. */
  ghost predicate Lists(members: seq<Member>, g: Registry, key: TripKey, now: Time, maxAge: int) {
    && (forall m :: m in members <==> exists id | id in g.rides :: CountsFor(g, id, key, now, maxAge) && Brings(g.rides[id], m))
    && (forall i, j | 0 <= i < j < |members| :: members[i].riderId != members[j].riderId)
  }

  lemma MembersListed(g: Registry, key: TripKey, now: Time, maxAge: int)
    requires g.WellKeyed()
    ensures Lists(InSomeOrder(Members(g, key, now, maxAge)), g, key, now, maxAge)
  {
    RidersContributeOnce(g, key, now, maxAge);
    InSomeOrderOnce(Members(g, key, now, maxAge));
    forall m ensures m in InSomeOrder(Members(g, key, now, maxAge)) <==>
                     exists id | id in g.rides :: CountsFor(g, id, key, now, maxAge) && Brings(g.rides[id], m) {
      MembersExactlyWhen(g, key, now, maxAge, m);
    }
  }

  /** A trip is in the published list exactly when it is not covered, the rides
      that count towards it are on a shape and credible together, and those near
      their median place are. */
  lemma PublishedExactlyWhen(g: Registry, trips: TripKey -> Option<Schedule.TripInfo>, out: seq<TripEstimate>, now: Time,
                             maxAge: int, covered: TripKey -> bool, key: TripKey) returns (members: seq<Member>)
    requires g.WellKeyed() && Publishes(g, trips, out, now, maxAge, covered)
    ensures Lists(members, g, key, now, maxAge)
    ensures |members| == 0 ==> forall e | e in out :: e.key != key
    ensures forall along, left | IsMedian(Alongs(members), along) && Trims(members, along, left) ::
              (exists e | e in out :: e.key == key)
              <==> !covered(key) && trips(key).Some? && trips(key).value.shape.Some? && Credible(members) && Credible(left)
  {
    members := InSomeOrder(Members(g, key, now, maxAge));
    MembersListed(g, key, now, maxAge);
    EntryExactlyWhen(g, trips, out, now, maxAge, covered, key);
    forall along, left | IsMedian(Alongs(members), along) && Trims(members, along, left)
      ensures EstimateFor(g, trips(key), key, now, maxAge).Some?
         <==> trips(key).Some? && trips(key).value.shape.Some? && Credible(members) && Credible(left)
    {
      EstimatedExactlyWhen(Group(trips(key), members), key, now, along, left);
    }
  }

  lemma EntryExactlyWhen(g: Registry, trips: TripKey -> Option<Schedule.TripInfo>, out: seq<TripEstimate>, now: Time,
                         maxAge: int, covered: TripKey -> bool, key: TripKey)
    requires Publishes(g, trips, out, now, maxAge, covered)
    ensures (exists e | e in out :: e.key == key) <==> !covered(key) && EstimateFor(g, trips(key), key, now, maxAge).Some?
    ensures forall e | e in out && e.key == key :: EstimateFor(g, trips(key), key, now, maxAge) == Some(e)
  {
    EstimateIsForItsKey(Group(trips(key), InSomeOrder(Members(g, key, now, maxAge))), key, now);
    if !covered(key) && EstimateFor(g, trips(key), key, now, maxAge).Some? {
      assert EstimateFor(g, trips(key), key, now, maxAge).value in out;
    }
  }

  /** And what its entry shows is what those rides bring. */
  lemma PublishedShows(g: Registry, trips: TripKey -> Option<Schedule.TripInfo>, out: seq<TripEstimate>, now: Time,
                       maxAge: int, covered: TripKey -> bool, e: TripEstimate)
    returns (members: seq<Member>, middle: real, left: seq<Member>, along: real)
    requires g.WellKeyed() && Publishes(g, trips, out, now, maxAge, covered) && e in out
    ensures Lists(members, g, e.key, now, maxAge) && IsMedian(Alongs(members), middle) && Trims(members, middle, left)
    ensures trips(e.key).Some? && trips(e.key).value.shape.Some?
    ensures Shows(e, e.key, trips(e.key).value, trips(e.key).value.shape.value, left, along, now)
  {
    members := InSomeOrder(Members(g, e.key, now, maxAge));
    MembersListed(g, e.key, now, maxAge);
    middle, left, along := EstimateShows(Group(trips(e.key), members), e.key, now);
  }

  /** A trip's status counts the rides that count towards it, and reports it when
      it would be published. */
  lemma AnswersExactlyWhen(g: Registry, key: TripKey, now: Time, maxAge: int, covered: TripKey -> bool, reported: bool,
                           riders: nat) returns (trip: Option<Schedule.TripInfo>, members: seq<Member>)
    requires g.WellKeyed() && Answers(g, key, now, maxAge, covered, reported, riders)
    ensures Lists(members, g, key, now, maxAge) && riders == |members|
    ensures |members| == 0 ==> !reported
    ensures |members| > 0 ==> IsSchedule(g, key, trip, now, maxAge)
    ensures forall along, left | IsMedian(Alongs(members), along) && Trims(members, along, left) ::
              reported <==> !covered(key) && trip.Some? && trip.value.shape.Some? && Credible(members) && Credible(left)
  {
    trip :| IsStatus(g, trip, key, now, maxAge, covered, reported, riders);
    members := InSomeOrder(Members(g, key, now, maxAge));
    MembersListed(g, key, now, maxAge);
    RidersContributeOnce(g, key, now, maxAge);
    InSomeOrderOnce(Members(g, key, now, maxAge));
    forall along, left | IsMedian(Alongs(members), along) && Trims(members, along, left)
      ensures EstimateFor(g, trip, key, now, maxAge).Some?
         <==> trip.Some? && trip.value.shape.Some? && Credible(members) && Credible(left)
    {
      EstimatedExactlyWhen(Group(trip, members), key, now, along, left);
    }
  }

  // ---- Riders nobody vouches for -------------------------------------------

  /** Nobody whose ride counts towards the trip is trusted or has been vouched
      for by a trusted vehicle. */
  ghost predicate AllStrangers(g: Registry, key: TripKey, now: Time, maxAge: int) {
    forall id | CountsFor(g, id, key, now, maxAge) :: g.rides[id].tier != TierTrusted && !g.rides[id].corroborated
  }

  ghost predicate TwoAgree(g: Registry, a: string, b: string, key: TripKey, now: Time, maxAge: int) {
    && CountsFor(g, a, key, now, maxAge) && CountsFor(g, b, key, now, maxAge) && g.rides[a].riderId != g.rides[b].riderId
    && -100.0 <= g.rides[a].latestMatched.value.alongShape - g.rides[b].latestMatched.value.alongShape <= 100.0
  }

  /** Strangers are published only where two of them agree on the place. */
  lemma StrangersMustAgree(g: Registry, trips: TripKey -> Option<Schedule.TripInfo>, out: seq<TripEstimate>, now: Time,
                           maxAge: int, covered: TripKey -> bool, e: TripEstimate)
    requires g.WellKeyed() && Publishes(g, trips, out, now, maxAge, covered) && e in out
    requires AllStrangers(g, e.key, now, maxAge)
    ensures exists a, b :: TwoAgree(g, a, b, e.key, now, maxAge)
  {
    var members, middle, left, along := PublishedShows(g, trips, out, now, maxAge, covered, e);
    var members' := InSomeOrder(Members(g, e.key, now, maxAge));
    CredibleIsPublishable(members');
    MembersListed(g, e.key, now, maxAge);
    var x, y :| x in members' && y in members' && x.riderId != y.riderId && -100.0 <= x.along - y.along <= 100.0;
    var a :| a in g.rides && CountsFor(g, a, e.key, now, maxAge) && Brings(g.rides[a], x);
    var b :| b in g.rides && CountsFor(g, b, e.key, now, maxAge) && Brings(g.rides[b], y);
    assert TwoAgree(g, a, b, e.key, now, maxAge);
  }

  /** A rider alone on a trip with a shape, not covered, is published exactly when
      trusted, or vouched for by a trusted vehicle. */
  lemma LoneRiderPublishedExactlyWhen(g: Registry, trips: TripKey -> Option<Schedule.TripInfo>, out: seq<TripEstimate>,
                                      now: Time, maxAge: int, covered: TripKey -> bool, key: TripKey, id: string)
    requires g.WellKeyed() && g.OnShapes() && Schedules(g, trips, now, maxAge) && Publishes(g, trips, out, now, maxAge, covered)
    requires CountsFor(g, id, key, now, maxAge) && forall other | CountsFor(g, other, key, now, maxAge) :: other == id
    ensures (exists e | e in out :: e.key == key)
       <==> !covered(key) && (g.rides[id].tier == TierTrusted || g.rides[id].corroborated)
  {
    ContributesExactlyWhen(g, id, key, now, maxAge);
    var m := MemberOf(g, id, now, maxAge).value;
    assert m in Members(g, key, now, maxAge);
    ContributorsAreOnShapes(g, key, trips(key), now, maxAge);
    var members := PublishedExactlyWhen(g, trips, out, now, maxAge, covered, key);
    assert m in members;
    OnlyMember(members, g, key, now, maxAge, id, m);
    LoneMedian(m);
  }

  lemma OnlyMember(members: seq<Member>, g: Registry, key: TripKey, now: Time, maxAge: int, id: string, m: Member)
    requires Lists(members, g, key, now, maxAge) && m in members && CountsFor(g, id, key, now, maxAge)
    requires forall other | CountsFor(g, other, key, now, maxAge) :: other == id
    ensures members == [m] && (m.publishable <==> g.rides[id].tier == TierTrusted || g.rides[id].corroborated)
  {
    assert |members| > 1 ==> members[0].riderId != members[1].riderId;
    forall i | 0 <= i < |members| ensures members[i].riderId == g.rides[id].riderId {
      assert members[i] in members;
    }
  }

  lemma LoneMedian(m: Member)
    ensures IsMedian(Alongs([m]), m.along) && Trims([m], m.along, [m])
    ensures Credible([m]) <==> m.publishable
  {
    assert Sorts(Alongs([m]), [m.along]) && Middle([m.along]) == m.along;
    assert Alongs([m]) == [m.along];
  }
}
