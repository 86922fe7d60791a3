/** The registry of live rides (rider/aggregator.go) as the object it is: it owns
    the sessions it holds and updates them in place, one locked section a
    method. Registry says what each section does as a value. */
module Aggregators {
  import opened Prelude
  import Verification
  import Reputation
  import opened Sessions
  import opened Registry
  import Consensus
  import opened Publication
  import Batches

  datatype RideSnapshot = RideSnapshot(
    id: string, riderId: string, key: TripKey, tier: Reputation.Tier, startedAt: Time, ended: bool, summary: Reputation.RideSummary)

  datatype BatchResult = BatchResult(
    published: bool, corroboration: Verification.Corroboration, accepted: nat, ignored: nat, offRouteStreak: nat,
    points: seq<Batches.AppliedPoint>, summary: Reputation.RideSummary)

  function SnapshotOf(r: Ride): RideSnapshot {
    RideSnapshot(r.id, r.riderId, r.key, r.tier, r.startedAt, r.ended, r.Summary())
  }

  function ResultOf(done: Batches.Progress, now: Time, maxAge: int): BatchResult {
    var r := done.ride;
    BatchResult(r.Publishable(now, maxAge), r.latestCorroboration, |done.applied|, done.ignored, |r.nonMatchedStreak|,
      done.applied, r.Summary())
  }

  class Aggregator {
    const th: Verification.Thresholds
    const dayStart: string -> Option<Time>
    var sessions: map<string, Session>
    var byRider: map<string, string>

    /** The rides registered, as a value. */
    function Value(): Registry
      reads this, sessions.Values
    {
      Registry(map id | id in sessions :: sessions[id].Value(), byRider)
    }

    /** Every session goes by its own id, so no two entries share one. */
    ghost predicate Valid()
      reads this, sessions.Values
    {
      Value().WellKeyed() && forall id | id in sessions :: sessions[id].id == id && sessions[id].Valid()
    }

    constructor (th: Verification.Thresholds, dayStart: string -> Option<Time>)
      ensures Valid() && Value() == Registry(map[], map[])
      ensures this.th == th && this.dayStart == dayStart
    {
      this.th, this.dayStart := th, dayStart;
      sessions, byRider := map[], map[];
    }

    /** After one session was updated in place. */
    twostate lemma OneChanged(id: string)
      requires old(Valid()) && id in sessions && sessions == old(sessions) && byRider == old(byRider)
      requires unchanged(set other | other in sessions && other != id :: sessions[other])
      requires sessions[id].Valid()
      ensures Valid() && Value() == old(Value()).Update(id, sessions[id].Value())
    {
      OneValueChanged(id);
    }

    twostate lemma OneValueChanged(id: string)
      requires id in sessions && sessions == old(sessions) && byRider == old(byRider)
      requires unchanged(set other | other in sessions && other != id :: sessions[other])
      ensures Value() == old(Value()).Update(id, sessions[id].Value())
    {
      assert forall other | other in sessions && other != id :: sessions[other].Value() == old(sessions[other].Value());
    }

    twostate lemma OneDropped(id: string)
      requires id in old(sessions) && sessions == old(sessions) - {id}
      requires unchanged(set other | other in sessions :: sessions[other])
      ensures Value().rides == old(Value()).rides - {id}
    {
      assert forall other | other in sessions :: sessions[other].Value() == old(sessions[other].Value());
    }

    method Add(s: Session)
      requires Valid() && s.Valid()
      modifies this
      ensures Valid() && Value() == old(Value()).Add(s.Value())
      ensures sessions == old(sessions)[s.id := s]
    {
      sessions := sessions[s.id := s];
      byRider := byRider[s.riderId := s.id];
      assert Value() == old(Value()).Add(s.Value());
    }

    method Snapshot(id: string) returns (snap: Option<RideSnapshot>)
      requires Valid()
      ensures snap == if id in Value().rides then Some(SnapshotOf(Value().rides[id])) else None
    {
      if id !in sessions {
        return None;
      }
      snap := Some(SnapshotOf(sessions[id].Value()));
    }

    method End(id: string, reason: Reputation.EndReason, now: Time) returns (snap: Option<RideSnapshot>)
      requires Valid()
      modifies sessions.Values
      ensures Valid() && Value() == old(Value()).End(id, reason, now) && sessions == old(sessions)
      ensures snap == if id in Value().rides then Some(SnapshotOf(Value().rides[id])) else None
      ensures snap.Some? ==> snap.value.ended
    {
      if id !in sessions {
        return None;
      }
      sessions[id].End(reason, now);
      OneChanged(id);
      snap := Some(SnapshotOf(sessions[id].Value()));
    }

    /** activeForRiderLocked. */
    method ActiveRideForRider(riderId: string) returns (id: Option<string>)
      requires Valid()
      ensures id == Value().ActiveRide(riderId)
    {
      if riderId !in byRider || byRider[riderId] !in sessions || sessions[byRider[riderId]].ended {
        return None;
      }
      return Some(byRider[riderId]);
    }

    method SetTier(riderId: string, tier: Reputation.Tier)
      requires Valid()
      modifies sessions.Values
      ensures Valid() && Value() == old(Value()).SetTier(riderId, tier) && sessions == old(sessions)
    {
      var id := ActiveRideForRider(riderId);
      if id.Some? {
        sessions[id.value].SetTier(tier);
        OneChanged(id.value);
      }
    }

    method Remove(id: string)
      requires Valid()
      modifies this
      ensures Valid() && Value() == old(Value()).Remove(id)
    {
      if id !in sessions {
        return;
      }
      ghost var g := Value();
      var riderId := sessions[id].riderId;
      sessions := sessions - {id};
      if riderId in byRider && byRider[riderId] == id {
        byRider := byRider - {riderId};
      }
      OneDropped(id);
    }

    // ---- Batches -----------------------------------------------------------

    /** The trip a live ride is on, read before the trusted feed is asked. */
    method LiveKey(id: string) returns (key: Option<TripKey>)
      requires Valid()
      ensures key == if Value().Live(id) then Some(Value().rides[id].key) else None
    {
      if id !in sessions || sessions[id].ended {
        return None;
      }
      return Some(sessions[id].key);
    }

    /** The section under the lock: the ride may meanwhile have ended, gone, or
        made way for one on another trip, and then the batch is for no ride. */
    method ApplyFetched(id: string, key: TripKey, points: seq<Verification.Point>,
                        trusted: Option<Verification.TrustedVehicle>, now: Time)
      returns (res: Option<BatchResult>)
      requires Valid()
      modifies sessions.Values
      ensures Valid() && sessions == old(sessions) && byRider == old(byRider)
      ensures res.Some? <==> old(Value()).Live(id) && old(Value()).rides[id].key == key
      ensures res.None? ==> Value() == old(Value())
      ensures res.Some? ==>
                var done := Batches.ApplyBatch(old(Value()).rides[id], points, Batches.Context(th, dayStart, trusted, now));
                Value() == old(Value()).Update(id, done.ride) && res.value == ResultOf(done, now, th.pointMaxAge)
    {
      if id !in sessions || sessions[id].ended || sessions[id].key != key {
        return None;
      }
      var s := sessions[id];
      var ctx := Batches.Context(th, dayStart, trusted, now);
      var sorted := Batches.SortByTime(points);
      var along := Batches.TrustedAlong(s.Value(), ctx);
      var applied, ignored := Fold(s, sorted, along, ctx);
      OneChanged(id);
      res := Some(ResultOf(Batches.Progress(s.Value(), applied, ignored), now, th.pointMaxAge));
    }

    /** Both sections, with nothing between them but the lookup. */
    method ApplyBatch(id: string, points: seq<Verification.Point>, lookup: TripKey -> Option<Verification.TrustedVehicle>,
                      now: Time)
      returns (res: Option<BatchResult>)
      requires Valid()
      modifies sessions.Values
      ensures Valid() && sessions == old(sessions) && byRider == old(byRider)
      ensures res.Some? <==> old(Value()).Live(id)
      ensures res.None? ==> Value() == old(Value())
      ensures res.Some? ==>
                var ride := old(Value()).rides[id];
                var done := Batches.ApplyBatch(ride, points, Batches.Context(th, dayStart, lookup(ride.key), now));
                Value() == old(Value()).Update(id, done.ride) && res.value == ResultOf(done, now, th.pointMaxAge)
    {
      var key := LiveKey(id);
      if key.None? {
        return None;
      }
      res := ApplyFetched(id, key.value, points, lookup(key.value), now);
    }

    // ---- The sweep ---------------------------------------------------------

    method ReapRide(id: string, now: Time) returns (over: bool)
      requires Valid() && id in sessions
      modifies sessions.Values
      ensures Valid() && sessions == old(sessions)
      ensures Value() == old(Value()).Update(id, Reaped(old(Value()).rides[id], now))
      ensures over == Reaped(old(Value()).rides[id], now).ended
    {
      var s := sessions[id];
      if !s.ended && Expiry(s.Value(), now).Some? {
        s.End(Expiry(s.Value(), now).value, now);
      }
      OneChanged(id);
      over := s.ended;
    }

    /** One ride more of the sweep of g. */
    method ReapNext(ghost g: Registry, ghost done: set<string>, id: string, now: Time) returns (over: bool)
      requires Valid() && id in sessions && id in g.rides && id !in done && Value() == ReapAmong(g, done, now)
      modifies sessions.Values
      ensures Valid() && sessions == old(sessions) && Value() == ReapAmong(g, done + {id}, now)
      ensures over == Reaped(g.rides[id], now).ended
    {
      ReapAmongNext(g, done, id, now);
      over := ReapRide(id, now);
    }

    method Reap(now: Time) returns (reaped: seq<string>)
      requires Valid()
      modifies sessions.Values
      ensures Valid() && Value() == old(Value()).Reap(now) && sessions == old(sessions)
      ensures Alphabetical(reaped) && forall id :: id in reaped <==> id in Value().rides && Value().rides[id].ended
      ensures forall id | id in old(Value()).rides :: id in Value().rides && ReapedAt(old(Value()).rides[id], Value().rides[id], now)
    {
      ghost var g := Value();
      ghost var ids, done := sessions.Keys, {};
      var todo := sessions.Keys;
      reaped := [];
      assert Value() == ReapAmong(g, done, now) && g.rides.Keys == ids;
      while todo != {}
        invariant todo == ids - done && sessions == old(sessions) && Valid()
        invariant Value() == ReapAmong(g, done, now)
        invariant ListsEnded(g, done, reaped, now)
        decreases |todo|
      {
        var id :| id in todo;
        var over := ReapNext(g, done, id, now);
        ListsEndedNext(g, done, id, reaped, now);
        if over {
          reaped := reaped + [id];
        }
        OneLessToDo(ids, todo, done, id);
        todo, done := todo - {id}, done + {id};
      }
      ReapAmongAll(g, done, reaped, now);
      ReapEndsExactlyWhen(g, now);
      reaped := SortStrings(reaped);
    }

    // ---- What is published -------------------------------------------------

    /** memberOfLocked. */
    function Contributes(id: string, now: Time): (m: Option<Consensus.Member>)
      requires id in sessions
      reads this, sessions.Values
      ensures m == MemberOf(Value(), id, now, th.pointMaxAge)
    {
      Contribution(sessions[id].Value(), byRider, now, th.pointMaxAge)
    }

    /** groups: the contributions by trip, in whatever order the map is walked. */
    method Groups(now: Time) returns (groups: map<TripKey, Consensus.Group>)
      requires Valid()
      ensures Gathered(Value(), Value().rides.Keys, groups, now, th.pointMaxAge)
    {
      ghost var g := Value();
      var todo := sessions.Keys;
      groups := map[];
      while todo != {}
        invariant todo <= sessions.Keys && g == Value()
        invariant Gathered(g, sessions.Keys - todo, groups, now, th.pointMaxAge)
        decreases |todo|
      {
        var id :| id in todo;
        JoinGathers(g, sessions.Keys - todo, id, groups, now, th.pointMaxAge);
        groups := Join(groups, sessions[id].Value(), Contributes(id, now));
        assert sessions.Keys - (todo - {id}) == sessions.Keys - todo + {id};
        todo := todo - {id};
      }
      assert sessions.Keys - todo == g.rides.Keys;
    }

    /** One position a trip the riders can vouch for, in order of trip; trips the
        trusted feed covers are left out. */
    method Estimates(now: Time, covered: TripKey -> bool) returns (out: seq<Consensus.TripEstimate>)
      requires Valid()
      ensures Published(Value(), out, now, th.pointMaxAge, covered)
    {
      var groups := Groups(now);
      out := Publish(Value(), groups, now, th.pointMaxAge, covered);
    }

    /** Whether a position is published for the trip, and how many riders
        contribute before the trim. */
    method TripStatus(key: TripKey, now: Time, covered: TripKey -> bool) returns (reported: bool, riders: nat)
      requires Valid()
      ensures Answers(Value(), key, now, th.pointMaxAge, covered, reported, riders)
    {
      var groups := Groups(now);
      reported, riders := AnswerFrom(Value(), groups, key, now, th.pointMaxAge, covered);
    }
  }

  method Publish(ghost g: Registry, groups: map<TripKey, Consensus.Group>, now: Time, ghost maxAge: int, covered: TripKey -> bool)
    returns (out: seq<Consensus.TripEstimate>)
    requires g.WellKeyed() && Gathered(g, g.rides.Keys, groups, now, maxAge)
    ensures Published(g, out, now, maxAge, covered)
  {
    var all := EstimateEach(groups, now, covered);
    EmittedPublishes(g, groups, all, now, maxAge, covered);
    out := SortEstimates(all);
  }

  method EstimateEach(groups: map<TripKey, Consensus.Group>, now: Time, covered: TripKey -> bool)
    returns (out: seq<Consensus.TripEstimate>)
    ensures Emitted(groups, groups.Keys, out, now, covered)
  {
    ghost var keys, done := groups.Keys, {};
    var todo := groups.Keys;
    out := [];
    while todo != {}
      invariant todo == keys - done && done <= keys
      invariant Emitted(groups, done, out, now, covered)
      decreases |todo|
    {
      var key :| key in todo;
      var estimate := Consensus.ComputeEstimate(groups[key], key, now);
      EmitOne(groups, done, out, key, now, covered);
      out := Emit(out, key, estimate, covered(key));
      OneLessToDo(keys, todo, done, key);
      todo, done := todo - {key}, done + {key};
    }
    assert done == keys;
  }

  method AnswerFrom(ghost g: Registry, groups: map<TripKey, Consensus.Group>, key: TripKey, now: Time, ghost maxAge: int,
                    covered: TripKey -> bool)
    returns (reported: bool, riders: nat)
    requires g.WellKeyed() && Gathered(g, g.rides.Keys, groups, now, maxAge)
    ensures Answers(g, key, now, maxAge, covered, reported, riders)
  {
    reported, riders := GroupStatus(groups, key, now, covered);
    StatusIs(g, groups, key, now, maxAge, covered, reported, riders);
  }

  method GroupStatus(groups: map<TripKey, Consensus.Group>, key: TripKey, now: Time, covered: TripKey -> bool)
    returns (reported: bool, riders: nat)
    ensures riders == if key in groups then |Consensus.Riders(groups[key].members)| else 0
    ensures reported <==> key in groups && !covered(key) && Consensus.Estimate(groups[key], key, now).Some?
  {
    if key !in groups {
      return false, 0;
    }
    riders := |Consensus.Riders(groups[key].members)|;
    if covered(key) {
      return false, riders;
    }
    var estimate := Consensus.ComputeEstimate(groups[key], key, now);
    reported := estimate.Some?;
  }

  lemma OneLessToDo<T>(all: set<T>, todo: set<T>, done: set<T>, x: T)
    requires todo == all - done
    ensures todo - {x} == all - (done + {x})
  {
  }

  /** Part of the way through a sweep. */
  ghost function ReapAmong(g: Registry, done: set<string>, now: Time): Registry {
    g.(rides := map id | id in g.rides :: if id in done then Reaped(g.rides[id], now) else g.rides[id])
  }

  ghost predicate ListsEnded(g: Registry, done: set<string>, ids: seq<string>, now: Time) {
    && (forall i, j | 0 <= i < j < |ids| :: ids[i] != ids[j])
    && (forall id :: id in ids <==> id in done && id in g.rides && Reaped(g.rides[id], now).ended)
  }

  lemma ReapAmongAll(g: Registry, done: set<string>, ids: seq<string>, now: Time)
    requires g.rides.Keys <= done && ListsEnded(g, done, ids, now)
    ensures ReapAmong(g, done, now) == g.Reap(now)
    ensures Alphabetical(SortStrings(ids)) && forall id :: id in SortStrings(ids) <==> id in g.Reap(now).Ended()
  {
    SortStringsSorts(ids);
  }

  lemma ReapAmongNext(g: Registry, done: set<string>, id: string, now: Time)
    requires id in g.rides && id !in done
    ensures ReapAmong(g, done, now).Update(id, Reaped(ReapAmong(g, done, now).rides[id], now)) == ReapAmong(g, done + {id}, now)
    ensures ReapAmong(g, done, now).rides[id] == g.rides[id]
  {
  }

  lemma ListsEndedNext(g: Registry, done: set<string>, id: string, ids: seq<string>, now: Time)
    requires id in g.rides && id !in done && ListsEnded(g, done, ids, now)
    ensures ListsEnded(g, done + {id}, if Reaped(g.rides[id], now).ended then ids + [id] else ids, now)
  {
  }

  lemma {:induction false} EndedIgnoresTheRest(ride: Ride, points: seq<Verification.Point>, along: Option<real>,
                                               ctx: Batches.Context, i: nat)
    requires i <= |points| && Batches.ApplyPoints(ride, points[..i], along, ctx).ride.ended
    ensures var done := Batches.ApplyPoints(ride, points[..i], along, ctx);
            Batches.ApplyPoints(ride, points, along, ctx) == done.(ignored := done.ignored + |points| - i)
    decreases |points| - i
  {
    if i == |points| {
      assert points[..i] == points;
    } else {
      assert points[..i + 1][..i] == points[..i];
      EndedIgnoresTheRest(ride, points, along, ctx, i + 1);
    }
  }

  /** One point into a session that goes on: ignored, or accepted with its verdict. */
  method Take(s: Session, p: Verification.Point, along: Option<real>, ctx: Batches.Context) returns (v: Verification.Verdict)
    requires s.Valid() && !s.ended
    modifies s
    ensures s.Valid() && v == Verification.Verify(Batches.InputFor(old(s.Value()), p, along, ctx))
    ensures s.Value() == if v.outcome == Verification.Ignored then old(s.Value()) else old(s.Value()).Apply(v, p)
  {
    v := Verification.Verify(Batches.InputFor(s.Value(), p, along, ctx));
    if v.outcome != Verification.Ignored {
      var _ := s.Apply(v, p);
    }
  }

  /** The points of a batch, oldest first, into a session. */
  method Fold(s: Session, sorted: seq<Verification.Point>, along: Option<real>, ctx: Batches.Context)
    returns (applied: seq<Batches.AppliedPoint>, ignored: nat)
    requires s.Valid()
    modifies s
    ensures s.Valid()
    ensures Batches.Progress(s.Value(), applied, ignored) == Batches.ApplyPoints(old(s.Value()), sorted, along, ctx)
  {
    applied, ignored := [], 0;
    var i := 0;
    ghost var ride := s.Value();
    while i < |sorted|
      invariant 0 <= i <= |sorted| && s.Valid()
      invariant Batches.Progress(s.Value(), applied, ignored) == Batches.ApplyPoints(ride, sorted[..i], along, ctx)
    {
      if s.ended {
        EndedIgnoresTheRest(ride, sorted, along, ctx, i);
        ignored := ignored + |sorted| - i;
        return;
      }
      Batches.ApplyNext(ride, sorted, i, along, ctx);
      var v := Take(s, sorted[i], along, ctx);
      if v.outcome == Verification.Ignored {
        ignored := ignored + 1;
      } else {
        applied := applied + [Batches.AppliedPoint(sorted[i], v)];
      }
      i := i + 1;
    }
    assert sorted[..i] == sorted;
  }
}
