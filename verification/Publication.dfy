/** What the registered rides add up to, trip by trip (rider/aggregator.go):
    defined on the set of rides, in whatever order they are gathered. */
module Publication {
  import opened Prelude
  import Schedule
  import Reputation
  import opened Sessions
  import opened Registry
  import opened Consensus

  /** memberOfLocked: one ride's contribution to its trip. */
  function Contribution(r: Ride, newest: map<string, string>, now: Time, maxAge: int): Option<Member> {
    if r.ended || r.tier == Reputation.TierBlocked || r.state != Reputation.Verified || !r.Fresh(now, maxAge) then None
    else if r.riderId !in newest || newest[r.riderId] != r.id then None
    else if r.latestMatched.None? then None
    else
      var m := r.latestMatched.value;
      Some(Member(r.riderId, m.alongShape, m.point.speed, m.point.timestamp, r.Publishable(now, maxAge)))
  }

  function MemberOf(g: Registry, id: string, now: Time, maxAge: int): Option<Member>
    requires id in g.rides
  {
    Contribution(g.rides[id], g.newest, now, maxAge)
  }

  predicate Contributes(g: Registry, id: string, key: TripKey, now: Time, maxAge: int) {
    id in g.rides && g.rides[id].key == key && MemberOf(g, id, now, maxAge).Some?
  }

  /** The contributions to a trip, of the rides named. */
  ghost function MembersAmong(g: Registry, ids: set<string>, key: TripKey, now: Time, maxAge: int): set<Member> {
    set id | id in ids && Contributes(g, id, key, now, maxAge) :: MemberOf(g, id, now, maxAge).value
  }

  ghost function Members(g: Registry, key: TripKey, now: Time, maxAge: int): set<Member> {
    MembersAmong(g, g.rides.Keys, key, now, maxAge)
  }

  /** Rides of one trip were started on one schedule. */
  ghost predicate SharedTrips(g: Registry) {
    forall a, b | a in g.rides && b in g.rides && g.rides[a].key == g.rides[b].key :: g.rides[a].trip == g.rides[b].trip
  }

  /** trips names, for each trip that has contributions, the schedule of a ride
      that makes one. */
  ghost predicate Schedules(g: Registry, trips: TripKey -> Option<Schedule.TripInfo>, now: Time, maxAge: int) {
    forall key | Members(g, key, now, maxAge) != {} :: IsSchedule(g, key, trips(key), now, maxAge)
  }

  ghost predicate IsSchedule(g: Registry, key: TripKey, trip: Option<Schedule.TripInfo>, now: Time, maxAge: int) {
    exists id :: Contributes(g, id, key, now, maxAge) && g.rides[id].trip == trip
  }

  ghost function Any(s: set<Member>): (m: Member)
    requires s != {}
    ensures m in s
  {
    var m :| m in s; m
  }

  ghost function InSomeOrder(s: set<Member>): (r: seq<Member>)
    ensures forall m :: m in r <==> m in s
  {
    if s == {} then [] else [Any(s)] + InSomeOrder(s - {Any(s)})
  }

  /** A trip's estimate on one of its schedules, from its contributions in some
      order. */
  ghost function EstimateFor(g: Registry, trip: Option<Schedule.TripInfo>, key: TripKey, now: Time,
                             maxAge: int): Option<TripEstimate> {
    Estimate(Group(trip, InSomeOrder(Members(g, key, now, maxAge))), key, now)
  }

  // ---- The order does not matter -------------------------------------------

  ghost predicate OneEachSet(s: set<Member>) {
    forall a, b | a in s && b in s && a.riderId == b.riderId :: a == b
  }

  /** A rider contributes through one ride: their newest. */
  lemma RidersContributeOnce(g: Registry, key: TripKey, now: Time, maxAge: int)
    requires g.WellKeyed()
    ensures OneEachSet(Members(g, key, now, maxAge))
  {
    forall a, b | a in Members(g, key, now, maxAge) && b in Members(g, key, now, maxAge) && a.riderId == b.riderId
      ensures a == b
    {
      var i :| i in g.rides && Contributes(g, i, key, now, maxAge) && MemberOf(g, i, now, maxAge).value == a;
      var j :| j in g.rides && Contributes(g, j, key, now, maxAge) && MemberOf(g, j, now, maxAge).value == b;
      assert g.newest[a.riderId] == i && g.newest[b.riderId] == j;
    }
  }

  lemma {:induction false} OneEachCounts(s: seq<Member>, m: Member)
    requires OneEach(s)
    ensures multiset(s)[m] == if m in s then 1 else 0
  {
    if |s| > 0 {
      var init, last := s[..|s| - 1], s[|s| - 1];
      assert s == init + [last];
      OneEachCounts(init, m);
    }
  }

  lemma SameSetPermutes(a: seq<Member>, b: seq<Member>)
    requires OneEach(a) && OneEach(b) && forall m :: m in a <==> m in b
    ensures multiset(a) == multiset(b)
  {
    forall m: Member ensures multiset(a)[m] == multiset(b)[m] {
      OneEachCounts(a, m);
      OneEachCounts(b, m);
    }
  }

  lemma {:induction false} InSomeOrderOnce(s: set<Member>)
    requires OneEachSet(s)
    ensures OneEach(InSomeOrder(s)) && |InSomeOrder(s)| == |s|
  {
    if s != {} {
      var m := Any(s);
      InSomeOrderOnce(s - {m});
      assert s == s - {m} + {m};
    }
  }

  /** Whatever order a trip's contributions are gathered in, the estimate is the
      same. */
  lemma GatheredInAnyOrder(g: Registry, key: TripKey, now: Time, maxAge: int, group: Group)
    requires g.WellKeyed() && OneEach(group.members)
    requires forall m :: m in group.members <==> m in Members(g, key, now, maxAge)
    ensures Estimate(group, key, now) == EstimateFor(g, group.trip, key, now, maxAge)
    ensures Riders(group.members) == Riders(InSomeOrder(Members(g, key, now, maxAge)))
  {
    var members := InSomeOrder(Members(g, key, now, maxAge));
    RidersContributeOnce(g, key, now, maxAge);
    InSomeOrderOnce(Members(g, key, now, maxAge));
    SameSetPermutes(group.members, members);
    EstimateOfPermutation(group.trip, group.members, members, key, now);
    SameMembers(group.members, members);
  }

  lemma NobodyNoEstimate(g: Registry, trip: Option<Schedule.TripInfo>, key: TripKey, now: Time, maxAge: int)
    ensures Members(g, key, now, maxAge) == {} ==> EstimateFor(g, trip, key, now, maxAge) == None
  {
  }

  /** Where rides of a trip share its schedule, there is one estimate. */
  lemma SharedScheduleOneEstimate(g: Registry, trips: TripKey -> Option<Schedule.TripInfo>,
                                  trips': TripKey -> Option<Schedule.TripInfo>,
                                  key: TripKey, now: Time, maxAge: int)
    requires SharedTrips(g) && Schedules(g, trips, now, maxAge) && Schedules(g, trips', now, maxAge)
    ensures EstimateFor(g, trips(key), key, now, maxAge) == EstimateFor(g, trips'(key), key, now, maxAge)
  {
    if Members(g, key, now, maxAge) == {} {
      NobodyNoEstimate(g, trips(key), key, now, maxAge);
      NobodyNoEstimate(g, trips'(key), key, now, maxAge);
    } else {
      assert IsSchedule(g, key, trips(key), now, maxAge) && IsSchedule(g, key, trips'(key), now, maxAge);
    }
  }

  // ---- Gathering -----------------------------------------------------------

  /** The contributions of the rides seen so far, each once. */
  ghost predicate GroupFor(g: Registry, seen: set<string>, key: TripKey, group: Group, now: Time, maxAge: int) {
    && (forall m :: m in group.members <==> m in MembersAmong(g, seen, key, now, maxAge))
    && OneEach(group.members)
    && (exists id | id in seen :: Contributes(g, id, key, now, maxAge) && g.rides[id].trip == group.trip)
  }

  ghost predicate Gathered(g: Registry, seen: set<string>, groups: map<TripKey, Group>, now: Time, maxAge: int) {
    && (forall key :: key in groups <==> MembersAmong(g, seen, key, now, maxAge) != {})
    && (forall key | key in groups :: GroupFor(g, seen, key, groups[key], now, maxAge))
  }

  /** A ride's contribution, if it makes one, joins the group of its trip. */
  function Join(groups: map<TripKey, Group>, r: Ride, m: Option<Member>): map<TripKey, Group> {
    if m.None? then groups
    else
      var group := if r.key in groups then groups[r.key] else Group(r.trip, []);
      groups[r.key := group.(members := group.members + [m.value])]
  }

  lemma OneMoreRide(g: Registry, seen: set<string>, id: string, key: TripKey, now: Time, maxAge: int)
    requires id in g.rides
    ensures MembersAmong(g, seen + {id}, key, now, maxAge) ==
            MembersAmong(g, seen, key, now, maxAge) +
            (if Contributes(g, id, key, now, maxAge) then {MemberOf(g, id, now, maxAge).value} else {})
  {
  }

  /** A rider's one contributing ride is not yet among those seen. */
  lemma NewcomerIsNew(g: Registry, seen: set<string>, id: string, key: TripKey, now: Time, maxAge: int)
    requires g.WellKeyed() && id !in seen && Contributes(g, id, key, now, maxAge)
    ensures forall m | m in MembersAmong(g, seen, key, now, maxAge) :: m.riderId != MemberOf(g, id, now, maxAge).value.riderId
  {
  }

  lemma JoinGroups(g: Registry, seen: set<string>, id: string, group: Group, now: Time, maxAge: int)
    requires g.WellKeyed() && id in g.rides && id !in seen && Contributes(g, id, g.rides[id].key, now, maxAge)
    requires group == Group(g.rides[id].trip, []) || GroupFor(g, seen, g.rides[id].key, group, now, maxAge)
    requires group.members == [] ==> MembersAmong(g, seen, g.rides[id].key, now, maxAge) == {}
    ensures GroupFor(g, seen + {id}, g.rides[id].key,
              group.(members := group.members + [MemberOf(g, id, now, maxAge).value]), now, maxAge)
  {
    var key := g.rides[id].key;
    OneMoreRide(g, seen, id, key, now, maxAge);
    NewcomerIsNew(g, seen, id, key, now, maxAge);
    if group == Group(g.rides[id].trip, []) {
      assert Contributes(g, id, key, now, maxAge) && g.rides[id].trip == group.trip;
    }
  }

  lemma JoinGathers(g: Registry, seen: set<string>, id: string, groups: map<TripKey, Group>, now: Time, maxAge: int)
    requires g.WellKeyed() && id in g.rides && id !in seen && Gathered(g, seen, groups, now, maxAge)
    ensures Gathered(g, seen + {id}, Join(groups, g.rides[id], MemberOf(g, id, now, maxAge)), now, maxAge)
  {
    var m, at := MemberOf(g, id, now, maxAge), g.rides[id].key;
    if m.Some? {
      var group := if at in groups then groups[at] else Group(g.rides[id].trip, []);
      JoinGroups(g, seen, id, group, now, maxAge);
    }
    var groups' := Join(groups, g.rides[id], m);
    forall key ensures key in groups' <==> MembersAmong(g, seen + {id}, key, now, maxAge) != {} {
      OneMoreRide(g, seen, id, key, now, maxAge);
    }
    forall key | key in groups' ensures GroupFor(g, seen + {id}, key, groups'[key], now, maxAge) {
      OneMoreRide(g, seen, id, key, now, maxAge);
    }
  }

  // ---- Order of trips ------------------------------------------------------

  /** Strings as Go compares them. */
  predicate Less(a: string, b: string) {
    if |b| == 0 then false
    else if |a| == 0 then true
    else a[0] < b[0] || (a[0] == b[0] && Less(a[1..], b[1..]))
  }

  lemma {:induction false} LessIsStrict(a: string, b: string, c: string)
    ensures !Less(a, a)
    ensures Less(a, b) ==> !Less(b, a)
    ensures Less(a, b) && Less(b, c) ==> Less(a, c)
    ensures a == b || Less(a, b) || Less(b, a)
    decreases |a|
  {
    if |a| > 0 {
      LessIsStrict(a[1..], if |b| > 0 then b[1..] else b, if |c| > 0 then c[1..] else c);
      if |b| > 0 && a[0] == b[0] && a[1..] == b[1..] {
        assert a == [a[0]] + a[1..] == b;
      }
    }
  }

  /** The strings first differ at k, where a has the lesser character. */
  ghost predicate LesserAt(a: string, b: string, k: int) {
    0 <= k < |a| && k < |b| && a[..k] == b[..k] && a[k] < b[k]
  }

  /** The order of dictionaries: a goes first when it is the beginning of b, or
      has the lesser character where they first differ. */
  lemma {:induction false} LessExactlyWhen(a: string, b: string)
    ensures Less(a, b) <==> (|a| < |b| && b[..|a|] == a) || exists k :: LesserAt(a, b, k)
    decreases |a|
  {
    if |a| > 0 && |b| > 0 {
      LessExactlyWhen(a[1..], b[1..]);
      if a[0] < b[0] {
        assert LesserAt(a, b, 0);
      } else if a[0] == b[0] {
        assert forall k :: LesserAt(a[1..], b[1..], k) ==> LesserAt(a, b, k + 1) by {
          forall k | LesserAt(a[1..], b[1..], k) ensures LesserAt(a, b, k + 1) {
            assert a[..k + 1] == [a[0]] + a[1..][..k] && b[..k + 1] == [b[0]] + b[1..][..k];
          }
        }
        forall k | LesserAt(a, b, k) ensures LesserAt(a[1..], b[1..], k - 1) {
          assert a[1..][..k - 1] == a[..k][1..] && b[1..][..k - 1] == b[..k][1..];
        }
        assert |a| < |b| ==> (b[..|a|] == a <==> b[1..][..|a| - 1] == a[1..]) by {
          if |a| < |b| {
            assert b[..|a|] == [b[0]] + b[1..][..|a| - 1] && a == [a[0]] + a[1..];
          }
        }
      } else {
        assert forall k | LesserAt(a, b, k) :: a[..k][0] == b[..k][0];
      }
    }
  }

  ghost predicate Alphabetical(s: seq<string>) {
    forall i, j | 0 <= i < j < |s| :: Less(s[i], s[j])
  }

  function InsertString(s: seq<string>, x: string): (r: seq<string>)
    ensures |r| == |s| + 1
  {
    if |s| == 0 || !Less(x, s[|s| - 1]) then s + [x] else InsertString(s[..|s| - 1], x) + [s[|s| - 1]]
  }

  lemma {:induction false} InsertStringSorts(s: seq<string>, x: string)
    requires Alphabetical(s) && x !in s
    ensures Alphabetical(InsertString(s, x))
    ensures forall y :: y in InsertString(s, x) <==> y in s || y == x
  {
    if |s| > 0 {
      var init, last := s[..|s| - 1], s[|s| - 1];
      assert s == init + [last];
      LessIsStrict(x, last, last);
      if Less(x, last) {
        InsertStringSorts(init, x);
        assert forall y | y in init :: Less(y, last);
      } else {
        forall y | y in s ensures Less(y, x) {
          LessIsStrict(y, last, x);
        }
      }
    }
  }

  /** slices.Sort. */
  function SortStrings(s: seq<string>): (r: seq<string>)
    ensures |r| == |s|
  {
    if |s| == 0 then [] else InsertString(SortStrings(s[..|s| - 1]), s[|s| - 1])
  }

  lemma {:induction false} SortStringsSorts(s: seq<string>)
    requires forall i, j | 0 <= i < j < |s| :: s[i] != s[j]
    ensures Alphabetical(SortStrings(s)) && forall x :: x in SortStrings(s) <==> x in s
  {
    if |s| > 0 {
      var init, last := s[..|s| - 1], s[|s| - 1];
      assert s == init + [last];
      SortStringsSorts(init);
      InsertStringSorts(SortStrings(init), last);
    }
  }

  predicate Before(a: TripKey, b: TripKey) {
    Less(a.tripId, b.tripId) || (a.tripId == b.tripId && Less(a.startDate, b.startDate))
  }

  /** Trips go by their ids, and the dates of one trip by date. */
  lemma BeforeExactlyWhen(a: TripKey, b: TripKey)
    ensures a.tripId != b.tripId ==>
              (Before(a, b) <==> (|a.tripId| < |b.tripId| && b.tripId[..|a.tripId|] == a.tripId)
                                 || exists k :: LesserAt(a.tripId, b.tripId, k))
    ensures a.tripId == b.tripId ==>
              (Before(a, b) <==> (|a.startDate| < |b.startDate| && b.startDate[..|a.startDate|] == a.startDate)
                                 || exists k :: LesserAt(a.startDate, b.startDate, k))
  {
    LessExactlyWhen(a.tripId, b.tripId);
    LessExactlyWhen(a.startDate, b.startDate);
  }

  lemma BeforeIsStrict(a: TripKey, b: TripKey, c: TripKey)
    ensures !Before(a, a)
    ensures Before(a, b) ==> !Before(b, a)
    ensures Before(a, b) && Before(b, c) ==> Before(a, c)
    ensures a == b || Before(a, b) || Before(b, a)
  {
    LessIsStrict(a.tripId, b.tripId, c.tripId);
    LessIsStrict(a.startDate, b.startDate, c.startDate);
  }

  ghost predicate InOrder(s: seq<TripEstimate>) {
    forall i, j | 0 <= i < j < |s| :: Before(s[i].key, s[j].key)
  }

  function InsertEstimate(s: seq<TripEstimate>, e: TripEstimate): (r: seq<TripEstimate>)
    ensures |r| == |s| + 1
  {
    if |s| == 0 || !Before(e.key, s[|s| - 1].key) then s + [e]
    else InsertEstimate(s[..|s| - 1], e) + [s[|s| - 1]]
  }

  lemma {:induction false} InsertEstimateSorts(s: seq<TripEstimate>, e: TripEstimate)
    requires InOrder(s) && forall x | x in s :: x.key != e.key
    ensures InOrder(InsertEstimate(s, e))
    ensures forall x :: x in InsertEstimate(s, e) <==> x in s || x == e
  {
    if |s| > 0 {
      var init, last := s[..|s| - 1], s[|s| - 1];
      assert s == init + [last];
      BeforeIsStrict(e.key, last.key, last.key);
      if Before(e.key, last.key) {
        InsertEstimateSorts(init, e);
        assert forall x | x in init :: Before(x.key, last.key);
      } else {
        forall x | x in s ensures Before(x.key, e.key) {
          BeforeIsStrict(x.key, last.key, e.key);
        }
      }
    }
  }

  /** slices.SortFunc by trip. */
  function SortEstimates(s: seq<TripEstimate>): (r: seq<TripEstimate>)
    ensures |r| == |s|
  {
    if |s| == 0 then [] else InsertEstimate(SortEstimates(s[..|s| - 1]), s[|s| - 1])
  }

  lemma {:induction false} SortEstimatesSorts(s: seq<TripEstimate>)
    requires forall i, j | 0 <= i < j < |s| :: s[i].key != s[j].key
    ensures InOrder(SortEstimates(s)) && forall x :: x in SortEstimates(s) <==> x in s
  {
    if |s| > 0 {
      var init, last := s[..|s| - 1], s[|s| - 1];
      assert s == init + [last];
      SortEstimatesSorts(init);
      InsertEstimateSorts(SortEstimates(init), last);
    }
  }

  /** In order, a set of estimates is one list. */
  lemma {:induction false} InOrderIsUnique(a: seq<TripEstimate>, b: seq<TripEstimate>)
    requires InOrder(a) && InOrder(b) && forall x :: x in a <==> x in b
    ensures a == b
    decreases |a|
  {
    SameEmpty(a, b);
    if |a| > 0 {
      assert a[|a| - 1] in b;
      var x, y := a[|a| - 1], b[|b| - 1];
      assert y in a;
      BeforeIsStrict(x.key, y.key, x.key);
      LastIsLatest(a, y);
      LastIsLatest(b, x);
      assert x == y;
      assert a == a[..|a| - 1] + [x] && b == b[..|b| - 1] + [y];
      LastIsApart(a);
      LastIsApart(b);
      var a', b' := a[..|a| - 1], b[..|b| - 1];
      forall e ensures e in a' <==> e in b' {
        assert e in a' <==> e in a && e != x;
        assert e in b' <==> e in b && e != x;
      }
      InOrderIsUnique(a', b');
    }
  }

  lemma SameEmpty(a: seq<TripEstimate>, b: seq<TripEstimate>)
    requires forall x :: x in a <==> x in b
    ensures |a| == 0 <==> |b| == 0
  {
    if |a| > 0 {
      assert a[0] in b;
    }
    if |b| > 0 {
      assert b[0] in a;
    }
  }

  lemma LastIsLatest(s: seq<TripEstimate>, x: TripEstimate)
    requires InOrder(s) && x in s
    ensures x == s[|s| - 1] || Before(x.key, s[|s| - 1].key)
  {
  }

  lemma LastIsApart(s: seq<TripEstimate>)
    requires InOrder(s) && |s| > 0
    ensures InOrder(s[..|s| - 1])
    ensures forall x :: x in s[..|s| - 1] <==> x in s && x != s[|s| - 1]
  {
    var init, last := s[..|s| - 1], s[|s| - 1];
    assert s == init + [last];
    BeforeIsStrict(last.key, last.key, last.key);
    assert forall x | x in init :: Before(x.key, last.key);
  }

  // ---- What is published ---------------------------------------------------

  /** On these schedules, one estimate for each trip that has one and the trusted
      feed does not cover. */
  ghost predicate Publishes(g: Registry, trips: TripKey -> Option<Schedule.TripInfo>, out: seq<TripEstimate>, now: Time,
                            maxAge: int,
                            covered: TripKey -> bool)
  {
    && InOrder(out)
    && (forall e | e in out :: !covered(e.key) && EstimateFor(g, trips(e.key), e.key, now, maxAge) == Some(e))
    && (forall key | !covered(key) && EstimateFor(g, trips(key), key, now, maxAge).Some? ::
          EstimateFor(g, trips(key), key, now, maxAge).value in out)
  }

  /** What may be published: the list for some choice of schedules, that of the
      order in which the registry happens to be walked. */
  ghost predicate Published(g: Registry, out: seq<TripEstimate>, now: Time, maxAge: int, covered: TripKey -> bool) {
    exists trips :: Schedules(g, trips, now, maxAge) && Publishes(g, trips, out, now, maxAge, covered)
  }

  /** Where rides of a trip share its schedule, what is published depends on the
      set of rides alone. */
  lemma PublishesOneList(g: Registry, a: seq<TripEstimate>, b: seq<TripEstimate>, now: Time, maxAge: int, covered: TripKey -> bool)
    requires SharedTrips(g) && Published(g, a, now, maxAge, covered) && Published(g, b, now, maxAge, covered)
    ensures a == b
  {
    var trips :| Schedules(g, trips, now, maxAge) && Publishes(g, trips, a, now, maxAge, covered);
    var trips' :| Schedules(g, trips', now, maxAge) && Publishes(g, trips', b, now, maxAge, covered);
    forall key ensures EstimateFor(g, trips(key), key, now, maxAge) == EstimateFor(g, trips'(key), key, now, maxAge) {
      SharedScheduleOneEstimate(g, trips, trips', key, now, maxAge);
    }
    InOrderIsUnique(a, b);
  }

  lemma MembersAreFresh(g: Registry, key: TripKey, now: Time, maxAge: int)
    ensures forall m | m in Members(g, key, now, maxAge) :: now - m.timestamp <= maxAge
  {
  }

  /** Every published time is current. */
  lemma PublishedIsFresh(g: Registry, trips: TripKey -> Option<Schedule.TripInfo>, out: seq<TripEstimate>, now: Time, maxAge: int,
                         covered: TripKey -> bool, e: TripEstimate)
    requires Publishes(g, trips, out, now, maxAge, covered) && e in out && maxAge >= 0
    ensures now - maxAge <= e.timestamp <= now
  {
    MembersAreFresh(g, e.key, now, maxAge);
    EstimateTimeIsFresh(Group(trips(e.key), InSomeOrder(Members(g, e.key, now, maxAge))), e.key, now, maxAge);
  }

  /** Whoever contributes has matched, and so is on a shape. */
  lemma ContributorsAreOnShapes(g: Registry, key: TripKey, trip: Option<Schedule.TripInfo>, now: Time, maxAge: int)
    requires g.OnShapes() && IsSchedule(g, key, trip, now, maxAge)
    ensures trip.Some? && trip.value.shape.Some?
  {
    var id :| Contributes(g, id, key, now, maxAge) && g.rides[id].trip == trip;
    assert OnShape(g.rides[id]);
  }

  lemma MajorityHasSome(members: seq<Member>, lo: real, hi: real)
    requires Majority(members, lo, hi)
    ensures |members| > 0 && members[0] in members
  {
  }

  /** If more than half of a trip's riders lie in an interval no wider than the
      outlier distance, then with two riders or more the trip is published, unless
      covered, and whatever is published for it is placed in that interval of the
      shape. */
  lemma MajorityPlacesPublished(g: Registry, trips: TripKey -> Option<Schedule.TripInfo>, out: seq<TripEstimate>, now: Time,
                                maxAge: int,
                                covered: TripKey -> bool, key: TripKey, lo: real, hi: real)
    requires g.WellKeyed() && g.OnShapes() && Schedules(g, trips, now, maxAge) && Publishes(g, trips, out, now, maxAge, covered)
    requires Majority(InSomeOrder(Members(g, key, now, maxAge)), lo, hi) && hi - lo <= OUTLIER_DISTANCE
    ensures trips(key).Some? && trips(key).value.shape.Some?
    ensures |Members(g, key, now, maxAge)| >= 2 && !covered(key) ==> exists e | e in out :: e.key == key
    ensures forall e | e in out && e.key == key ::
              exists along | lo <= along <= hi :: e.pos == trips(key).value.shape.value.PointAt(along)
  {
    var members := InSomeOrder(Members(g, key, now, maxAge));
    MajorityHasSome(members, lo, hi);
    ContributorsAreOnShapes(g, key, trips(key), now, maxAge);
    RidersContributeOnce(g, key, now, maxAge);
    InSomeOrderOnce(Members(g, key, now, maxAge));
    MajorityEstimate(Group(trips(key), members), key, now, lo, hi);
    EstimateIsForItsKey(Group(trips(key), members), key, now);
  }

  lemma EstimateCounts(group: Group, key: TripKey, now: Time, e: TripEstimate)
    requires OneEach(group.members) && Estimate(group, key, now) == Some(e)
    ensures |group.members| > 0 && Survivors(group.members).Some?
    ensures e.riders == |Survivors(group.members).value| <= |group.members|
  {
    EstimateCountsRidersOnce(group, key, now);
  }

  /** Every rider left by the trim is counted, once. */
  lemma PublishedCountsRiders(g: Registry, trips: TripKey -> Option<Schedule.TripInfo>, out: seq<TripEstimate>, now: Time,
                              maxAge: int,
                              covered: TripKey -> bool, e: TripEstimate)
    requires g.WellKeyed() && Publishes(g, trips, out, now, maxAge, covered) && e in out
    ensures var members := InSomeOrder(Members(g, e.key, now, maxAge));
            |members| > 0 && Survivors(members).Some? && e.riders == |Survivors(members).value| <= |Members(g, e.key, now, maxAge)|
  {
    RidersContributeOnce(g, e.key, now, maxAge);
    InSomeOrderOnce(Members(g, e.key, now, maxAge));
    EstimateCounts(Group(trips(e.key), InSomeOrder(Members(g, e.key, now, maxAge))), e.key, now, e);
  }

  // ---- Publishing ----------------------------------------------------------

  /** The estimates of the groups done so far, one each. */
  ghost predicate Emitted(groups: map<TripKey, Group>, done: set<TripKey>, out: seq<TripEstimate>, now: Time, covered: TripKey -> bool) {
    && (forall i, j | 0 <= i < j < |out| :: out[i].key != out[j].key)
    && (forall e | e in out :: e.key in done && e.key in groups && !covered(e.key) && Estimate(groups[e.key], e.key, now) == Some(e))
    && (forall key | key in done && key in groups && !covered(key) && Estimate(groups[key], key, now).Some? ::
          Estimate(groups[key], key, now).value in out)
  }

  /** A group's estimate, unless the trusted feed covers the trip. */
  function Emit(out: seq<TripEstimate>, key: TripKey, estimate: Option<TripEstimate>, covered: bool): seq<TripEstimate> {
    if covered || estimate.None? then out else out + [estimate.value]
  }

  lemma EstimateIsForItsKey(group: Group, key: TripKey, now: Time)
    ensures Estimate(group, key, now).Some? ==> Estimate(group, key, now).value.key == key
  {
  }

  lemma EmitOne(groups: map<TripKey, Group>, done: set<TripKey>, out: seq<TripEstimate>, key: TripKey, now: Time, covered: TripKey -> bool)
    requires Emitted(groups, done, out, now, covered) && key in groups && key !in done
    ensures Emitted(groups, done + {key}, Emit(out, key, Estimate(groups[key], key, now), covered(key)), now, covered)
  {
    EstimateIsForItsKey(groups[key], key, now);
  }

  /** The schedules the groups took. */
  function GroupTrips(groups: map<TripKey, Group>): TripKey -> Option<Schedule.TripInfo> {
    (key: TripKey) => if key in groups then groups[key].trip else None
  }

  lemma GroupTripsAreSchedules(g: Registry, groups: map<TripKey, Group>, now: Time, maxAge: int)
    requires Gathered(g, g.rides.Keys, groups, now, maxAge)
    ensures Schedules(g, GroupTrips(groups), now, maxAge)
  {
    forall key | Members(g, key, now, maxAge) != {} ensures IsSchedule(g, key, GroupTrips(groups)(key), now, maxAge) {
      assert GroupFor(g, g.rides.Keys, key, groups[key], now, maxAge);
    }
  }

  /** A trip's gathered group has the trip's estimate; a trip without one has none. */
  lemma GroupsEstimate(g: Registry, groups: map<TripKey, Group>, key: TripKey, now: Time, maxAge: int)
    requires g.WellKeyed() && Gathered(g, g.rides.Keys, groups, now, maxAge)
    ensures EstimateFor(g, GroupTrips(groups)(key), key, now, maxAge) == if key in groups then Estimate(groups[key], key, now) else None
    ensures |Members(g, key, now, maxAge)| == if key in groups then |Riders(groups[key].members)| else 0
  {
    if key in groups {
      assert GroupFor(g, g.rides.Keys, key, groups[key], now, maxAge);
      GatheredInAnyOrder(g, key, now, maxAge, groups[key]);
      RidersOnce(groups[key].members);
      RidersContributeOnce(g, key, now, maxAge);
      InSomeOrderOnce(Members(g, key, now, maxAge));
      RidersOnce(InSomeOrder(Members(g, key, now, maxAge)));
    }
  }

  lemma EmittedPublishes(g: Registry, groups: map<TripKey, Group>, out: seq<TripEstimate>, now: Time, maxAge: int, covered: TripKey -> bool)
    requires g.WellKeyed() && Gathered(g, g.rides.Keys, groups, now, maxAge) && Emitted(groups, groups.Keys, out, now, covered)
    ensures Schedules(g, GroupTrips(groups), now, maxAge)
    ensures Publishes(g, GroupTrips(groups), SortEstimates(out), now, maxAge, covered)
  {
    GroupTripsAreSchedules(g, groups, now, maxAge);
    SortEstimatesSorts(out);
    SortedPublishes(g, groups, out, SortEstimates(out), now, maxAge, covered);
  }

  lemma SortedPublishes(g: Registry, groups: map<TripKey, Group>, out: seq<TripEstimate>, sorted: seq<TripEstimate>,
                        now: Time, maxAge: int, covered: TripKey -> bool)
    requires g.WellKeyed() && Gathered(g, g.rides.Keys, groups, now, maxAge)
    requires Emitted(groups, groups.Keys, out, now, covered) && InOrder(sorted) && forall e :: e in sorted <==> e in out
    ensures Publishes(g, GroupTrips(groups), sorted, now, maxAge, covered)
  {
    var trips := GroupTrips(groups);
    forall e | e in sorted ensures !covered(e.key) && EstimateFor(g, trips(e.key), e.key, now, maxAge) == Some(e) {
      assert e in out;
      GroupsEstimate(g, groups, e.key, now, maxAge);
    }
    forall key | !covered(key) && EstimateFor(g, trips(key), key, now, maxAge).Some?
      ensures EstimateFor(g, trips(key), key, now, maxAge).value in sorted
    {
      GroupsEstimate(g, groups, key, now, maxAge);
    }
  }

  /** What is to be answered about a trip, on the schedule taken for it. */
  ghost predicate IsStatus(g: Registry, trip: Option<Schedule.TripInfo>, key: TripKey, now: Time, maxAge: int,
                           covered: TripKey -> bool,
                           reported: bool, riders: nat)
  {
    && riders == |Members(g, key, now, maxAge)|
    && (reported <==> !covered(key) && EstimateFor(g, trip, key, now, maxAge).Some?)
    && (Members(g, key, now, maxAge) != {} ==> IsSchedule(g, key, trip, now, maxAge))
  }

  ghost predicate Answers(g: Registry, key: TripKey, now: Time, maxAge: int, covered: TripKey -> bool, reported: bool, riders: nat) {
    exists trip :: IsStatus(g, trip, key, now, maxAge, covered, reported, riders)
  }

  lemma StatusIs(g: Registry, groups: map<TripKey, Group>, key: TripKey, now: Time, maxAge: int, covered: TripKey -> bool,
                 reported: bool, riders: nat)
    requires g.WellKeyed() && Gathered(g, g.rides.Keys, groups, now, maxAge)
    requires riders == if key in groups then |Riders(groups[key].members)| else 0
    requires reported <==> key in groups && !covered(key) && Estimate(groups[key], key, now).Some?
    ensures Answers(g, key, now, maxAge, covered, reported, riders)
  {
    GroupTripsAreSchedules(g, groups, now, maxAge);
    GroupsEstimate(g, groups, key, now, maxAge);
    assert IsStatus(g, GroupTrips(groups)(key), key, now, maxAge, covered, reported, riders);
  }

  /** A trip is reported exactly when its estimate, on the same schedule, is among
      those published. */
  lemma ReportedIsPublished(g: Registry, trips: TripKey -> Option<Schedule.TripInfo>, key: TripKey, now: Time, maxAge: int,
                            covered: TripKey -> bool, reported: bool, riders: nat, out: seq<TripEstimate>)
    requires IsStatus(g, trips(key), key, now, maxAge, covered, reported, riders)
    requires Publishes(g, trips, out, now, maxAge, covered)
    ensures reported <==> exists e | e in out :: e.key == key
  {
    if reported {
      EstimateIsForItsKey(Group(trips(key), InSomeOrder(Members(g, key, now, maxAge))), key, now);
      assert EstimateFor(g, trips(key), key, now, maxAge).value in out;
    }
  }
}
