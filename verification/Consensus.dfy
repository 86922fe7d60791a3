/** The estimate half of rider/aggregator.go: many riders' places on one trip
    turned into one published position, by a median and a single trim. */
module Consensus {
  import opened Prelude
  import Shape
  import Schedule
  import Sessions

  const CONSENSUS_DISTANCE: real := 100.0
  const OUTLIER_DISTANCE: real := 100.0

  /** One rider's contribution: their latest matched point. */
  datatype Member = Member(riderId: string, along: real, speed: real, timestamp: Time, publishable: bool)

  datatype Group = Group(trip: Option<Schedule.TripInfo>, members: seq<Member>)

  /** stopId is empty and stopSequence 0 past the last stop. */
  datatype TripEstimate = TripEstimate(
    key: Sessions.TripKey, routeId: string, pos: Shape.LatLon, bearing: real, speed: Option<real>, timestamp: Time,
    stopId: string, stopSequence: int, riders: nat)

  // ---- The parts of an estimate --------------------------------------------

  function InsertReal(s: seq<real>, x: real): (r: seq<real>)
    ensures |r| == |s| + 1
  {
    if |s| == 0 || s[|s| - 1] <= x then s + [x] else InsertReal(s[..|s| - 1], x) + [s[|s| - 1]]
  }

  /** slices.Sort. */
  function SortReals(s: seq<real>): (r: seq<real>)
    ensures |r| == |s|
  {
    if |s| == 0 then [] else InsertReal(SortReals(s[..|s| - 1]), s[|s| - 1])
  }

  /** The middle value, or the average of the middle two. */
  function Median(values: seq<real>): real
    requires |values| > 0
  {
    var sorted, n := SortReals(values), |values|;
    if n % 2 == 1 then sorted[n / 2] else (sorted[n / 2 - 1] + sorted[n / 2]) / 2.0
  }

  function Collect(members: seq<Member>, f: Member -> real): (r: seq<real>)
    ensures |r| == |members| && forall i | 0 <= i < |r| :: r[i] == f(members[i])
  {
    seq(|members|, i requires 0 <= i < |members| => f(members[i]))
  }

  function Keep(members: seq<Member>, p: Member -> bool): (r: seq<Member>)
    ensures |r| <= |members|
    ensures forall m :: m in r <==> m in members && p(m)
  {
    if |members| == 0 then []
    else
      var init, last := members[..|members| - 1], members[|members| - 1];
      assert members == init + [last];
      Keep(init, p) + (if p(last) then [last] else [])
  }

  function AlongOf(m: Member): real {
    m.along
  }

  function SpeedOf(m: Member): real {
    m.speed
  }

  predicate Moving(m: Member) {
    m.speed >= 0.0
  }

  function MedianAlong(members: seq<Member>): real
    requires |members| > 0
  {
    Median(Collect(members, AlongOf))
  }

  function Near(along: real, limit: real): Member -> bool {
    (m: Member) => AbsReal(m.along - along) <= limit
  }

  function Within(members: seq<Member>, along: real, limit: real): seq<Member> {
    Keep(members, Near(along, limit))
  }

  function MedianSpeed(members: seq<Member>): Option<real> {
    var speeds := Collect(Keep(members, Moving), SpeedOf);
    if |speeds| == 0 then None else Some(Median(speeds))
  }

  /** Two different riders put the vehicle in the same place. */
  predicate Vouch(a: Member, b: Member) {
    a.riderId != b.riderId && AbsReal(a.along - b.along) <= CONSENSUS_DISTANCE
  }

  /** One rider is trusted enough alone, or two vouch for each other. */
  predicate Publishable(members: seq<Member>) {
    || (exists m | m in members :: m.publishable)
    || (exists a, b | a in members && b in members :: Vouch(a, b))
  }

  /** The freshest timestamp. */
  function Newest(members: seq<Member>): (t: Time)
    requires |members| > 0
    ensures exists m | m in members :: m.timestamp == t
    ensures forall m | m in members :: m.timestamp <= t
  {
    var init, last := members[..|members| - 1], members[|members| - 1];
    assert members == init + [last];
    if |init| == 0 || last.timestamp > Newest(init) then last.timestamp else Newest(init)
  }

  /** Never in the future. */
  function NewestTimestamp(members: seq<Member>, now: Time): Time
    requires |members| > 0
  {
    if Newest(members) > now then now else Newest(members)
  }

  function Riders(members: seq<Member>): set<string> {
    set m | m in members :: m.riderId
  }

  function NextStop(stops: seq<Schedule.StopTimeInfo>, along: real): (r: Option<Schedule.StopTimeInfo>)
    ensures r.None? ==> forall i | 0 <= i < |stops| :: stops[i].alongShape < along
    ensures r.Some? ==> exists i | 0 <= i < |stops| ::
              stops[i] == r.value && stops[i].alongShape >= along && forall j | 0 <= j < i :: stops[j].alongShape < along
  {
    if |stops| == 0 then None
    else if stops[0].alongShape >= along then Some(stops[0])
    else
      var rest := NextStop(stops[1..], along);
      assert forall i | 1 <= i < |stops| :: stops[i] == stops[1..][i - 1];
      rest
  }

  /** The members left after the trim, None when they may not be published. */
  function Survivors(members: seq<Member>): Option<seq<Member>>
    requires |members| > 0
  {
    var kept := Within(members, MedianAlong(members), OUTLIER_DISTANCE);
    if |kept| == |members| then Some(members)
    else if |kept| == 0 || !Publishable(kept) then None
    else Some(kept)
  }

  function Estimate(g: Group, key: Sessions.TripKey, now: Time): Option<TripEstimate> {
    if g.trip.None? || g.trip.value.shape.None? || !Publishable(g.members) then None
    else
      match Survivors(g.members)
      case None => None
      case Some(left) =>
        assert |left| > 0;
        Some(Render(g.trip.value, g.trip.value.shape.value, left, key, now))
  }

  /** The members' median place, as the vehicle's position. */
  function Render(trip: Schedule.TripInfo, shape: Shape.Polyline, members: seq<Member>, key: Sessions.TripKey,
                  now: Time): TripEstimate
    requires |members| > 0
  {
    var median := MedianAlong(members);
    var stop := NextStop(trip.stopTimes, median);
    TripEstimate(
      key, trip.routeId, shape.PointAt(median), shape.BearingAt(median),
      MedianSpeed(members), NewestTimestamp(members, now),
      if stop.Some? then stop.value.stopId else "", if stop.Some? then stop.value.sequence else 0,
      |Riders(members)|)
  }

  // ---- The loops of the source ---------------------------------------------

  method IsPublishable(members: seq<Member>) returns (r: bool)
    ensures r == Publishable(members)
  {
    for i := 0 to |members|
      invariant forall j | 0 <= j < i :: !members[j].publishable
    {
      if members[i].publishable {
        return true;
      }
    }
    for i := 0 to |members|
      invariant forall a, b | 0 <= a < i && a < b < |members| :: !Vouch(members[a], members[b])
    {
      for j := i + 1 to |members|
        invariant forall b | i < b < j :: !Vouch(members[i], members[b])
      {
        if members[i].riderId != members[j].riderId && AbsReal(members[i].along - members[j].along) <= CONSENSUS_DISTANCE {
          assert members[i] in members && members[j] in members && Vouch(members[i], members[j]);
          return true;
        }
      }
    }
    return false;
  }

  method FindWithin(members: seq<Member>, along: real, limit: real) returns (kept: seq<Member>)
    ensures kept == Within(members, along, limit)
  {
    kept := [];
    for i := 0 to |members|
      invariant kept == Within(members[..i], along, limit)
    {
      assert members[..i + 1][..i] == members[..i];
      if AbsReal(members[i].along - along) <= limit {
        kept := kept + [members[i]];
      }
    }
    assert members[..|members|] == members;
  }

  method FindNewestTimestamp(members: seq<Member>, now: Time) returns (t: Time)
    requires |members| > 0
    ensures t == NewestTimestamp(members, now)
  {
    var newest := members[0].timestamp;
    for i := 1 to |members|
      invariant newest == Newest(members[..i])
    {
      assert members[..i + 1][..i] == members[..i];
      if members[i].timestamp > newest {
        newest := members[i].timestamp;
      }
    }
    assert members[..|members|] == members;
    t := if newest > now then now else newest;
  }

  method FindNextStop(stops: seq<Schedule.StopTimeInfo>, along: real) returns (r: Option<Schedule.StopTimeInfo>)
    ensures r == NextStop(stops, along)
  {
    for i := 0 to |stops|
      invariant NextStop(stops[i..], along) == NextStop(stops, along)
    {
      if stops[i].alongShape >= along {
        return Some(stops[i]);
      }
      assert stops[i..][1..] == stops[i + 1..];
    }
    return None;
  }

  method ComputeEstimate(g: Group, key: Sessions.TripKey, now: Time) returns (r: Option<TripEstimate>)
    ensures r == Estimate(g, key, now)
  {
    if g.trip.None? || g.trip.value.shape.None? {
      return None;
    }
    var publishable := IsPublishable(g.members);
    if !publishable {
      return None;
    }
    var members := g.members;
    var kept := FindWithin(members, MedianAlong(members), OUTLIER_DISTANCE);
    if |kept| < |members| {
      var credible := IsPublishable(kept);
      if |kept| == 0 || !credible {
        return None;
      }
      members := kept;
    }
    assert Survivors(g.members) == Some(members);
    var est := RenderEstimate(g.trip.value, g.trip.value.shape.value, members, key, now);
    return Some(est);
  }

  method RenderEstimate(trip: Schedule.TripInfo, shape: Shape.Polyline, members: seq<Member>, key: Sessions.TripKey, now: Time)
    returns (est: TripEstimate)
    requires |members| > 0
    ensures est == Render(trip, shape, members, key, now)
  {
    var median := MedianAlong(members);
    var newest := FindNewestTimestamp(members, now);
    var stop := FindNextStop(trip.stopTimes, median);
    est := TripEstimate(key, trip.routeId, shape.PointAt(median), shape.BearingAt(median), MedianSpeed(members), newest,
      "", 0, |Riders(members)|);
    if stop.Some? {
      est := est.(stopId := stop.value.stopId, stopSequence := stop.value.sequence);
    }
  }

  // ---- Counting and sorting ------------------------------------------------

  predicate In(x: real, lo: real, hi: real) {
    lo <= x <= hi
  }

  function CountIn(s: seq<real>, lo: real, hi: real): nat {
    if |s| == 0 then 0 else CountIn(s[..|s| - 1], lo, hi) + (if In(s[|s| - 1], lo, hi) then 1 else 0)
  }

  ghost predicate SortedReals(s: seq<real>) {
    forall i, j | 0 <= i <= j < |s| :: s[i] <= s[j]
  }

  lemma {:induction false} InsertRealKeeps(s: seq<real>, x: real)
    ensures multiset(InsertReal(s, x)) == multiset(s) + multiset{x}
  {
    if |s| > 0 && s[|s| - 1] > x {
      InsertRealKeeps(s[..|s| - 1], x);
      assert s == s[..|s| - 1] + [s[|s| - 1]];
    }
  }

  lemma {:induction false} InsertRealSorts(s: seq<real>, x: real)
    requires SortedReals(s)
    ensures SortedReals(InsertReal(s, x))
    ensures |s| > 0 ==> forall i | 0 <= i <= |s| :: InsertReal(s, x)[i] <= MaxReal(s[|s| - 1], x)
  {
    if |s| > 0 && s[|s| - 1] > x {
      InsertRealSorts(s[..|s| - 1], x);
    }
  }

  lemma {:induction false} SortRealsSorts(s: seq<real>)
    ensures SortedReals(SortReals(s)) && multiset(SortReals(s)) == multiset(s)
  {
    if |s| > 0 {
      var init, last := s[..|s| - 1], s[|s| - 1];
      assert s == init + [last];
      SortRealsSorts(init);
      InsertRealKeeps(SortReals(init), last);
      InsertRealSorts(SortReals(init), last);
    }
  }

  lemma CountInSnoc(s: seq<real>, x: real, lo: real, hi: real)
    ensures CountIn(s + [x], lo, hi) == CountIn(s, lo, hi) + (if In(x, lo, hi) then 1 else 0)
  {
    assert (s + [x])[..|s|] == s;
  }

  lemma {:induction false} CountInInsert(s: seq<real>, x: real, lo: real, hi: real)
    ensures CountIn(InsertReal(s, x), lo, hi) == CountIn(s, lo, hi) + (if In(x, lo, hi) then 1 else 0)
  {
    if |s| == 0 || s[|s| - 1] <= x {
      CountInSnoc(s, x, lo, hi);
    } else {
      CountInInsert(s[..|s| - 1], x, lo, hi);
      CountInSnoc(InsertReal(s[..|s| - 1], x), s[|s| - 1], lo, hi);
    }
  }

  lemma {:induction false} CountInSort(s: seq<real>, lo: real, hi: real)
    ensures CountIn(SortReals(s), lo, hi) == CountIn(s, lo, hi)
  {
    if |s| > 0 {
      CountInSort(s[..|s| - 1], lo, hi);
      CountInInsert(SortReals(s[..|s| - 1]), s[|s| - 1], lo, hi);
    }
  }

  /** Values before a or from b on that miss the interval bound its count. */
  lemma {:induction false} CountInBound(s: seq<real>, lo: real, hi: real, a: nat, b: nat)
    requires a <= b <= |s|
    requires forall i | 0 <= i < a :: !In(s[i], lo, hi)
    requires forall i | b <= i < |s| :: !In(s[i], lo, hi)
    ensures CountIn(s, lo, hi) <= b - a
  {
    if |s| > 0 {
      var init := s[..|s| - 1];
      if b == |s| && a < b {
        CountInBound(init, lo, hi, a, b - 1);
      } else if b == |s| {
        CountInBound(init, lo, hi, a - 1, b - 1);
      } else {
        CountInBound(init, lo, hi, a, b);
      }
    }
  }

  /** With more than half of the values in an interval, position k of the
      sorted values is in it too, for every k but the outer halves. */
  lemma MajorityHoldsMiddle(values: seq<real>, lo: real, hi: real, k: nat)
    requires 2 * CountIn(values, lo, hi) > |values|
    requires k < |values| && |values| <= 2 * (k + 1) && 2 * k <= |values|
    ensures In(SortReals(values)[k], lo, hi)
  {
    var s := SortReals(values);
    SortRealsSorts(values);
    CountInSort(values, lo, hi);
    if s[k] < lo {
      CountInBound(s, lo, hi, k + 1, |s|);
    }
    if s[k] > hi {
      CountInBound(s, lo, hi, 0, k);
    }
  }

  lemma MajorityHoldsMedian(values: seq<real>, lo: real, hi: real)
    requires 2 * CountIn(values, lo, hi) > |values|
    ensures |values| > 0 && In(Median(values), lo, hi)
  {
    var n := |values|;
    MajorityHoldsMiddle(values, lo, hi, n / 2);
    if n % 2 == 0 {
      MajorityHoldsMiddle(values, lo, hi, n / 2 - 1);
    }
  }

  // ---- Majority robustness -------------------------------------------------

  function CountMembers(members: seq<Member>, lo: real, hi: real): nat {
    CountIn(Collect(members, AlongOf), lo, hi)
  }

  /** No two contributions come from one rider. */
  ghost predicate OneEach(members: seq<Member>) {
    forall i, j | 0 <= i < j < |members| :: members[i].riderId != members[j].riderId
  }

  ghost predicate Majority(members: seq<Member>, lo: real, hi: real) {
    2 * CountMembers(members, lo, hi) > |members|
  }

  lemma CountMembersSnoc(members: seq<Member>, m: Member, lo: real, hi: real)
    ensures CountMembers(members + [m], lo, hi) == CountMembers(members, lo, hi) + (if In(m.along, lo, hi) then 1 else 0)
  {
    assert Collect(members + [m], AlongOf) == Collect(members, AlongOf) + [m.along];
    CountInSnoc(Collect(members, AlongOf), m.along, lo, hi);
  }

  /** Keeping at least everyone in the interval keeps its count. */
  lemma {:induction false} KeepKeepsCount(members: seq<Member>, p: Member -> bool, lo: real, hi: real)
    requires forall m | m in members && In(m.along, lo, hi) :: p(m)
    ensures CountMembers(Keep(members, p), lo, hi) == CountMembers(members, lo, hi)
  {
    if |members| > 0 {
      var init, last := members[..|members| - 1], members[|members| - 1];
      assert members == init + [last];
      KeepKeepsCount(init, p, lo, hi);
      CountMembersSnoc(init, last, lo, hi);
      CountMembersSnoc(Keep(init, p), last, lo, hi);
      assert Keep(init, p) + [] == Keep(init, p);
    }
  }

  lemma {:induction false} KeepKeepsOneEach(members: seq<Member>, p: Member -> bool)
    requires OneEach(members)
    ensures OneEach(Keep(members, p))
  {
    if |members| > 0 {
      var init, last := members[..|members| - 1], members[|members| - 1];
      KeepKeepsOneEach(init, p);
      forall m | m in Keep(init, p)
        ensures m.riderId != last.riderId
      {
        assert m in init;
      }
    }
  }

  lemma {:induction false} OneIn(members: seq<Member>, lo: real, hi: real) returns (i: int)
    requires CountMembers(members, lo, hi) >= 1
    ensures 0 <= i < |members| && In(members[i].along, lo, hi)
    ensures CountMembers(members[..i], lo, hi) == CountMembers(members, lo, hi) - 1
  {
    var init, last := members[..|members| - 1], members[|members| - 1];
    assert members == init + [last];
    CountMembersSnoc(init, last, lo, hi);
    if In(last.along, lo, hi) {
      i := |init|;
    } else {
      i := OneIn(init, lo, hi);
      assert members[..i] == init[..i];
    }
  }

  /** Two riders in an interval no wider than the consensus distance vouch for
      each other. */
  lemma TwoInVouch(members: seq<Member>, lo: real, hi: real)
    requires OneEach(members) && hi - lo <= CONSENSUS_DISTANCE
    requires CountMembers(members, lo, hi) >= 2
    ensures Publishable(members)
  {
    var j := OneIn(members, lo, hi);
    var i := OneIn(members[..j], lo, hi);
    assert members[i] in members && members[j] in members && Vouch(members[i], members[j]);
  }

  /** The trim keeps a majority a majority. */
  lemma TrimKeepsMajority(members: seq<Member>, lo: real, hi: real)
    requires Majority(members, lo, hi) && hi - lo <= OUTLIER_DISTANCE
    ensures |members| > 0
    ensures var kept := Within(members, MedianAlong(members), OUTLIER_DISTANCE);
            |kept| > 0 && Majority(kept, lo, hi) && CountMembers(kept, lo, hi) == CountMembers(members, lo, hi)
  {
    MajorityHoldsMedian(Collect(members, AlongOf), lo, hi);
    KeepKeepsCount(members, Near(MedianAlong(members), OUTLIER_DISTANCE), lo, hi);
  }

  /** If more than half of a trip's riders lie in an interval no wider than the
      outlier distance, the place published lies in it whatever the others
      report; and with two riders or more, one is always published. */
  lemma MajorityIsPublished(members: seq<Member>, lo: real, hi: real)
    requires OneEach(members) && Majority(members, lo, hi) && hi - lo <= OUTLIER_DISTANCE
    ensures |members| >= 2 ==> Publishable(members) && Survivors(members).Some?
    ensures |members| > 0 && (Survivors(members).Some? ==>
              |Survivors(members).value| > 0 && In(MedianAlong(Survivors(members).value), lo, hi))
  {
    var alongs := Collect(members, AlongOf);
    MajorityHoldsMedian(alongs, lo, hi);
    TrimKeepsMajority(members, lo, hi);
    var kept := Within(members, MedianAlong(members), OUTLIER_DISTANCE);
    MajorityHoldsMedian(Collect(kept, AlongOf), lo, hi);
    if |members| >= 2 {
      TwoInVouch(members, lo, hi);
      KeepKeepsOneEach(members, Near(MedianAlong(members), OUTLIER_DISTANCE));
      TwoInVouch(kept, lo, hi);
    }
  }

  /** The same, of the estimate itself. */
  lemma MajorityEstimate(g: Group, key: Sessions.TripKey, now: Time, lo: real, hi: real)
    requires OneEach(g.members) && Majority(g.members, lo, hi) && hi - lo <= OUTLIER_DISTANCE
    requires g.trip.Some? && g.trip.value.shape.Some?
    ensures |g.members| >= 2 ==> Estimate(g, key, now).Some?
    ensures Estimate(g, key, now).Some? ==>
              exists along | lo <= along <= hi :: Estimate(g, key, now).value.pos == g.trip.value.shape.value.PointAt(along)
  {
    MajorityIsPublished(g.members, lo, hi);
    if Estimate(g, key, now).Some? {
      var along := MedianAlong(Survivors(g.members).value);
      assert Estimate(g, key, now).value.pos == g.trip.value.shape.value.PointAt(along);
    }
  }

  // ---- The trim ------------------------------------------------------------

  lemma SameValues(a: seq<real>, b: seq<real>)
    requires multiset(a) == multiset(b)
    ensures forall x :: x in a <==> x in b
  {
    forall x
      ensures x in a <==> x in b
    {
      assert x in a <==> x in multiset(a);
    }
  }

  /** The trim keeps nobody exactly when the group is even and its middle two
      are further apart than twice the outlier distance. */
  lemma TrimKeepsNobodyExactlyWhen(members: seq<Member>)
    requires |members| > 0
    ensures var n, sorted := |members|, SortReals(Collect(members, AlongOf));
            (|Within(members, MedianAlong(members), OUTLIER_DISTANCE)| == 0
             <==> n % 2 == 0 && sorted[n / 2] - sorted[n / 2 - 1] > 2.0 * OUTLIER_DISTANCE)
  {
    var sorted := SortReals(Collect(members, AlongOf));
    SortRealsSorts(Collect(members, AlongOf));
    SameLength(Collect(members, AlongOf), sorted);
    NobodyIsKept(members, MedianAlong(members));
    MiddleIsNearest(sorted, MedianAlong(members));
  }

  /** A place is somebody's exactly when it is among those sorted. */
  lemma SortedPlaces(members: seq<Member>, along: real)
    ensures along in SortReals(Collect(members, AlongOf)) <==> exists m | m in members :: m.along == along
  {
    var alongs := Collect(members, AlongOf);
    SortRealsSorts(alongs);
    SameValues(alongs, SortReals(alongs));
    if m :| m in members && m.along == along {
      var i :| 0 <= i < |members| && members[i] == m;
      assert alongs[i] == along;
    }
    if along in alongs {
      var i :| 0 <= i < |alongs| && alongs[i] == along;
      assert members[i] in members;
    }
  }

  ghost predicate NobodyNear(sorted: seq<real>, median: real) {
    forall k | 0 <= k < |sorted| :: AbsReal(sorted[k] - median) > OUTLIER_DISTANCE
  }

  lemma NobodyIsKept(members: seq<Member>, median: real)
    ensures |Within(members, median, OUTLIER_DISTANCE)| == 0 <==> NobodyNear(SortReals(Collect(members, AlongOf)), median)
  {
    var sorted, kept := SortReals(Collect(members, AlongOf)), Within(members, median, OUTLIER_DISTANCE);
    if k :| 0 <= k < |sorted| && AbsReal(sorted[k] - median) <= OUTLIER_DISTANCE {
      SortedPlaces(members, sorted[k]);
      var m :| m in members && m.along == sorted[k];
      assert m in kept;
    }
    if |kept| > 0 {
      assert kept[0] in kept;
      SortedPlaces(members, kept[0].along);
    }
  }

  /** Nobody is nearer to the median than the middle one or two. */
  lemma MiddleIsNearest(sorted: seq<real>, median: real)
    requires SortedReals(sorted) && |sorted| > 0
    requires var n := |sorted|; median == if n % 2 == 1 then sorted[n / 2] else (sorted[n / 2 - 1] + sorted[n / 2]) / 2.0
    ensures NobodyNear(sorted, median) <==>
            |sorted| % 2 == 0 && sorted[|sorted| / 2] - sorted[|sorted| / 2 - 1] > 2.0 * OUTLIER_DISTANCE
  {
    var n := |sorted|;
    if n % 2 == 1 {
      assert AbsReal(sorted[n / 2] - median) <= OUTLIER_DISTANCE;
    } else {
      var a, b := sorted[n / 2 - 1], sorted[n / 2];
      assert AbsReal(a - median) == (b - a) / 2.0;
      forall k | 0 <= k < n
        ensures AbsReal(sorted[k] - median) >= (b - a) / 2.0
      {
        assert sorted[k] <= a || b <= sorted[k];
      }
    }
  }

  /** What is published: everyone within the outlier distance of the median,
      credible on their own. */
  lemma SurvivorsAreCredible(members: seq<Member>)
    requires Publishable(members)
    ensures |members| > 0
    ensures var kept := Within(members, MedianAlong(members), OUTLIER_DISTANCE);
            && (Survivors(members).Some? <==> |kept| > 0 && Publishable(kept))
            && (Survivors(members).Some? ==> Survivors(members).value == kept)
  {
    KeepEverything(members, Near(MedianAlong(members), OUTLIER_DISTANCE));
  }

  lemma {:induction false} KeepEverything(members: seq<Member>, p: Member -> bool)
    ensures |Keep(members, p)| == |members| ==> Keep(members, p) == members
  {
    if |members| > 0 {
      KeepEverything(members[..|members| - 1], p);
    }
  }

  /** The published time is never in the future, and no older than the oldest a
      contributing point may be. */
  lemma EstimateTimeIsFresh(g: Group, key: Sessions.TripKey, now: Time, maxAge: int)
    requires maxAge >= 0 && forall m | m in g.members :: now - m.timestamp <= maxAge
    requires Estimate(g, key, now).Some?
    ensures now - maxAge <= Estimate(g, key, now).value.timestamp <= now
  {
    var left := Survivors(g.members).value;
    assert forall m | m in left :: m in g.members;
  }

  /** Each rider left counts once. */
  lemma EstimateCountsRidersOnce(g: Group, key: Sessions.TripKey, now: Time)
    requires OneEach(g.members) && Estimate(g, key, now).Some?
    ensures Estimate(g, key, now).value.riders == |Survivors(g.members).value|
  {
    KeepKeepsOneEach(g.members, Near(MedianAlong(g.members), OUTLIER_DISTANCE));
    RidersOnce(Survivors(g.members).value);
  }

  lemma {:induction false} RidersOnce(members: seq<Member>)
    requires OneEach(members)
    ensures |Riders(members)| == |members|
  {
    if |members| > 0 {
      var init, last := members[..|members| - 1], members[|members| - 1];
      assert members == init + [last];
      RidersOnce(init);
      assert last.riderId !in Riders(init);
      assert Riders(members) == Riders(init) + {last.riderId};
    }
  }

  // ---- Order does not matter -----------------------------------------------

  lemma DropLastReal(a: seq<real>)
    requires |a| > 0
    ensures multiset(a[..|a| - 1]) == multiset(a) - multiset{a[|a| - 1]}
    ensures SortedReals(a) ==> SortedReals(a[..|a| - 1])
  {
    assert a == a[..|a| - 1] + [a[|a| - 1]];
  }

  lemma {:induction false} SortRealsUnique(a: seq<real>, b: seq<real>)
    requires SortedReals(a) && SortedReals(b) && multiset(a) == multiset(b)
    ensures a == b
    decreases |a|
  {
    SameLength(a, b);
    if |a| > 0 {
      SameLastReal(a, b);
      DropLastReal(a);
      DropLastReal(b);
      SortRealsUnique(a[..|a| - 1], b[..|b| - 1]);
      assert a == a[..|a| - 1] + [a[|a| - 1]];
      assert b == b[..|b| - 1] + [b[|b| - 1]];
    }
  }

  lemma SameLastReal(a: seq<real>, b: seq<real>)
    requires SortedReals(a) && SortedReals(b) && multiset(a) == multiset(b) && |a| == |b| > 0
    ensures a[|a| - 1] == b[|b| - 1]
  {
    SameValues(a, b);
    LastIsMost(a, b[|b| - 1]);
    LastIsMost(b, a[|a| - 1]);
  }

  lemma LastIsMost(s: seq<real>, x: real)
    requires SortedReals(s) && x in s
    ensures x <= s[|s| - 1]
  {
  }

  lemma MedianOfPermutation(a: seq<real>, b: seq<real>)
    requires |a| > 0 && multiset(a) == multiset(b)
    ensures |b| > 0 && Median(a) == Median(b)
  {
    SameLength(a, b);
    SortRealsSorts(a);
    SortRealsSorts(b);
    SortRealsUnique(SortReals(a), SortReals(b));
  }

  lemma {:induction false} CollectRemove(b: seq<Member>, i: nat, f: Member -> real)
    requires i < |b|
    ensures multiset(b) == multiset(b[..i] + b[i + 1..]) + multiset{b[i]}
    ensures multiset(Collect(b, f)) == multiset(Collect(b[..i] + b[i + 1..], f)) + multiset{f(b[i])}
  {
    assert b == b[..i] + [b[i]] + b[i + 1..];
    var c := Collect(b, f);
    assert c == c[..i] + [f(b[i])] + c[i + 1..];
    assert Collect(b[..i] + b[i + 1..], f) == c[..i] + c[i + 1..];
  }

  lemma WithoutOne(a: multiset<Member>, b: multiset<Member>, m: Member)
    requires a + multiset{m} == b + multiset{m}
    ensures a == b
  {
    assert a + multiset{m} - multiset{m} == a;
    assert b + multiset{m} - multiset{m} == b;
  }

  /** Collecting a value from permuted members gives permuted values. */
  lemma {:induction false} CollectPermutes(a: seq<Member>, b: seq<Member>, f: Member -> real)
    requires multiset(a) == multiset(b)
    ensures multiset(Collect(a, f)) == multiset(Collect(b, f))
    decreases |a|
  {
    SameLength(a, b);
    if |a| > 0 {
      var last := |a| - 1;
      assert a[last] in multiset(b);
      var i :| 0 <= i < |b| && b[i] == a[last];
      var a', b' := a[..last] + a[last + 1..], b[..i] + b[i + 1..];
      CollectRemove(a, last, f);
      CollectRemove(b, i, f);
      WithoutOne(multiset(a'), multiset(b'), a[last]);
      CollectPermutes(a', b', f);
    } else {
      assert Collect(a, f) == Collect(b, f);
    }
  }

  /** Keep counts each member it keeps as often as it occurs. */
  lemma {:induction false} KeepMultiplicity(members: seq<Member>, p: Member -> bool, m: Member)
    ensures multiset(Keep(members, p))[m] == if p(m) then multiset(members)[m] else 0
  {
    if |members| > 0 {
      var init, last := members[..|members| - 1], members[|members| - 1];
      assert members == init + [last];
      KeepMultiplicity(init, p, m);
    }
  }

  lemma KeepPermutes(a: seq<Member>, b: seq<Member>, p: Member -> bool)
    requires multiset(a) == multiset(b)
    ensures multiset(Keep(a, p)) == multiset(Keep(b, p))
    ensures |Keep(a, p)| == |Keep(b, p)|
  {
    forall m: Member
      ensures multiset(Keep(a, p))[m] == multiset(Keep(b, p))[m]
    {
      KeepMultiplicity(a, p, m);
      KeepMultiplicity(b, p, m);
    }
    SameLength(Keep(a, p), Keep(b, p));
  }

  lemma SameMembers(a: seq<Member>, b: seq<Member>)
    requires multiset(a) == multiset(b)
    ensures |a| == |b| && forall m :: m in a <==> m in b
    ensures Publishable(a) == Publishable(b) && Riders(a) == Riders(b)
    ensures |a| > 0 ==> Newest(a) == Newest(b)
  {
    SameLength(a, b);
    forall m
      ensures m in a <==> m in b
    {
      assert m in a <==> m in multiset(a);
    }
  }

  lemma MedianAlongOfPermutation(a: seq<Member>, b: seq<Member>)
    requires multiset(a) == multiset(b) && |a| > 0
    ensures |b| > 0 && MedianAlong(a) == MedianAlong(b) && MedianSpeed(a) == MedianSpeed(b)
  {
    SameMembers(a, b);
    CollectPermutes(a, b, AlongOf);
    MedianOfPermutation(Collect(a, AlongOf), Collect(b, AlongOf));
    var x, y := Collect(Keep(a, Moving), SpeedOf), Collect(Keep(b, Moving), SpeedOf);
    KeepPermutes(a, b, Moving);
    CollectPermutes(Keep(a, Moving), Keep(b, Moving), SpeedOf);
    if |x| > 0 {
      MedianOfPermutation(x, y);
    }
  }

  lemma SurvivorsOfPermutation(a: seq<Member>, b: seq<Member>)
    requires multiset(a) == multiset(b) && |a| > 0
    ensures |b| > 0 && Survivors(a).Some? == Survivors(b).Some?
    ensures Survivors(a).Some? ==> multiset(Survivors(a).value) == multiset(Survivors(b).value)
  {
    SameMembers(a, b);
    MedianAlongOfPermutation(a, b);
    var near := Near(MedianAlong(a), OUTLIER_DISTANCE);
    KeepPermutes(a, b, near);
    SameMembers(Keep(a, near), Keep(b, near));
  }

  lemma RenderOfPermutation(trip: Schedule.TripInfo, shape: Shape.Polyline, a: seq<Member>, b: seq<Member>,
                            key: Sessions.TripKey, now: Time)
    requires multiset(a) == multiset(b) && |a| > 0
    ensures |b| > 0 && Render(trip, shape, a, key, now) == Render(trip, shape, b, key, now)
  {
    SameMembers(a, b);
    MedianAlongOfPermutation(a, b);
  }

  /** The estimate does not depend on the order the members were gathered in. */
  lemma EstimateOfPermutation(trip: Option<Schedule.TripInfo>, a: seq<Member>, b: seq<Member>, key: Sessions.TripKey, now: Time)
    requires multiset(a) == multiset(b)
    ensures Estimate(Group(trip, a), key, now) == Estimate(Group(trip, b), key, now)
  {
    SameMembers(a, b);
    if Publishable(a) && trip.Some? && trip.value.shape.Some? {
      SurvivorsOfPermutation(a, b);
      if Survivors(a).Some? {
        RenderOfPermutation(trip.value, trip.value.shape.value, Survivors(a).value, Survivors(b).value, key, now);
      }
    }
  }
}
