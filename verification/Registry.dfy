/** The live rides of rider/aggregator.go as a value, and what each section under
    its lock does to them. */
module Registry {
  import opened Prelude
  import Reputation
  import Sessions

  const MAX_RIDE_DURATION: int := 180 * MINUTE
  const IDLE_TIMEOUT: int := 15 * MINUTE

  /** Length is looked at before silence, and a ride that has said nothing yet is
      silent since its start. */
  function Expiry(r: Sessions.Ride, now: Time): Option<Reputation.EndReason> {
    if now - r.startedAt > MAX_RIDE_DURATION then Some(Reputation.MaxDuration)
    else
      var last := if r.LastAcceptedAt() == ZERO_TIME then r.startedAt else r.LastAcceptedAt();
      if now - last > IDLE_TIMEOUT then Some(Reputation.Idle) else None
  }

  function Reaped(r: Sessions.Ride, now: Time): Sessions.Ride {
    if r.ended || Expiry(r, now).None? then r else r.End(Expiry(r, now).value, now)
  }

  /** rides by ride id; newest leads from a rider to their newest ride. */
  datatype Registry = Registry(rides: map<string, Sessions.Ride>, newest: map<string, string>)
  {
    function Add(r: Sessions.Ride): Registry {
      Registry(rides[r.id := r], newest[r.riderId := r.id])
    }

    function Update(id: string, r: Sessions.Ride): Registry {
      this.(rides := rides[id := r])
    }

    function End(id: string, reason: Reputation.EndReason, at: Time): Registry {
      if id in rides then Update(id, rides[id].End(reason, at)) else this
    }

    /** activeForRiderLocked. */
    function ActiveRide(riderId: string): Option<string> {
      if riderId in newest && newest[riderId] in rides && !rides[newest[riderId]].ended then Some(newest[riderId]) else None
    }

    function SetTier(riderId: string, tier: Reputation.Tier): Registry {
      match ActiveRide(riderId)
      case None => this
      case Some(id) => Update(id, rides[id].(tier := tier))
    }

    function Remove(id: string): Registry {
      if id !in rides then this
      else
        Registry(rides - {id},
          if rides[id].riderId in newest && newest[rides[id].riderId] == id then newest - {rides[id].riderId} else newest)
    }

    function Reap(now: Time): Registry {
      this.(rides := map id | id in rides :: Reaped(rides[id], now))
    }

    /** What Reap reports: every ride that has ended, the ones just ended and
        those waiting to be filed. */
    function Ended(): set<string> {
      set id | id in rides && rides[id].ended
    }

    predicate Live(id: string) {
      id in rides && !rides[id].ended
    }

    /** Rides go by their own ids. */
    ghost predicate WellKeyed() {
      forall id | id in rides :: rides[id].id == id
    }

    /** A rider's newest ride is registered, and theirs. */
    ghost predicate NeverDangles() {
      forall u | u in newest :: newest[u] in rides && rides[newest[u]].riderId == u
    }

    ghost predicate Valid() {
      WellKeyed() && NeverDangles()
    }

    /** A live ride is its rider's newest. */
    ghost predicate OneEach() {
      forall id | Live(id) :: rides[id].riderId in newest && newest[rides[id].riderId] == id
    }

    /** Rides that have matched are on a shape. */
    ghost predicate OnShapes() {
      forall id | id in rides :: Sessions.OnShape(rides[id])
    }

    ghost predicate NoneLive(riderId: string) {
      forall id | Live(id) :: rides[id].riderId != riderId
    }
  }

  /** Reap ends the live rides that have lasted over three hours, and those not
      heard from for over a quarter of one, since their start if never; every
      other ride, and one that has ended, stays as it was. */
  ghost predicate ReapedAt(r: Sessions.Ride, r': Sessions.Ride, now: Time) {
    var heard := if r.latest.Some? && r.latest.value.point.timestamp != ZERO_TIME then r.latest.value.point.timestamp
                 else r.startedAt;
    var long, silent := now - r.startedAt > 180 * MINUTE, now - heard > 15 * MINUTE;
    r' == if r.ended || !(long || silent) then r
          else r.(ended := true, endReason := if long then Reputation.MaxDuration else Reputation.Idle, endedAt := now)
  }

  lemma ReapEndsExactlyWhen(g: Registry, now: Time)
    ensures g.Reap(now).rides.Keys == g.rides.Keys && g.Reap(now).newest == g.newest
    ensures forall id | id in g.rides :: ReapedAt(g.rides[id], g.Reap(now).rides[id], now)
    ensures forall id :: id in g.Ended() <==> id in g.rides && g.rides[id].ended
  {
  }

  /** End ends the ride, where it has not, and changes no other. */
  lemma EndChangesOnly(g: Registry, id: string, reason: Reputation.EndReason, at: Time)
    ensures var g' := g.End(id, reason, at);
            && g'.newest == g.newest && g'.rides.Keys == g.rides.Keys
            && forall other | other in g.rides :: g'.rides[other] ==
                 if other == id && !g.rides[id].ended
                 then g.rides[id].(ended := true, endReason := reason, endedAt := at) else g.rides[other]
  {
  }

  /** SetTier gives the tier to the rider's newest ride, where it is live. */
  lemma SetTierChangesOnly(g: Registry, u: string, tier: Reputation.Tier)
    ensures var g' := g.SetTier(u, tier);
            && g'.newest == g.newest && g'.rides.Keys == g.rides.Keys
            && forall other | other in g.rides :: g'.rides[other] ==
                 if u in g.newest && g.newest[u] == other && !g.rides[other].ended
                 then g.rides[other].(tier := tier) else g.rides[other]
  {
  }

  /** Remove forgets the ride, and that it was its rider's newest. */
  lemma RemoveForgetsOnly(g: Registry, id: string)
    ensures var g' := g.Remove(id);
            && id !in g'.rides && (forall other | other != id :: other in g'.rides <==> other in g.rides)
            && (forall other | other in g'.rides :: g'.rides[other] == g.rides[other])
            && (forall v :: v in g'.newest <==>
                  v in g.newest && !(id in g.rides && v == g.rides[id].riderId && g.newest[v] == id))
            && (forall v | v in g'.newest :: g'.newest[v] == g.newest[v])
  {
  }

  /** A new ride is registered, and is its rider's newest. */
  lemma AddRegisters(g: Registry, r: Sessions.Ride)
    ensures r.id in g.Add(r).rides && g.Add(r).rides[r.id] == r && g.Add(r).rides.Keys == g.rides.Keys + {r.id}
    ensures forall id | id in g.rides && id != r.id :: g.Add(r).rides[id] == g.rides[id]
    ensures r.riderId in g.Add(r).newest && g.Add(r).newest[r.riderId] == r.id
    ensures g.Add(r).newest.Keys == g.newest.Keys + {r.riderId}
    ensures forall u | u in g.newest && u != r.riderId :: g.Add(r).newest[u] == g.newest[u]
  {
  }

  lemma ActiveIsTheLiveRide(g: Registry, riderId: string)
    requires g.Valid() && g.OneEach()
    ensures forall id :: g.ActiveRide(riderId) == Some(id) <==> g.Live(id) && g.rides[id].riderId == riderId
    ensures g.ActiveRide(riderId).None? <==> g.NoneLive(riderId)
  {
  }

  /** Each section keeps newest from dangling: an Add unless the id it replaces is
      another rider's newest ride. */
  lemma SectionsNeverDangle(g: Registry, r: Sessions.Ride, id: string)
    requires g.NeverDangles()
    ensures g.Add(r).NeverDangles() <==> forall u | u in g.newest && g.newest[u] == r.id :: u == r.riderId
    ensures id in g.rides && r.riderId == g.rides[id].riderId ==> g.Update(id, r).NeverDangles()
    ensures g.Remove(id).NeverDangles()
  {
    if u :| u in g.newest && g.newest[u] == r.id && u != r.riderId {
      assert g.Add(r).newest[u] == r.id;
    }
  }

  /** Each section keeps matched rides on shapes, given rides that are. */
  lemma ChangesKeepShapes(g: Registry, id: string, r: Sessions.Ride)
    requires g.OnShapes() && Sessions.OnShape(r)
    ensures g.Add(r).OnShapes() && g.Update(id, r).OnShapes()
  {
  }

  lemma SectionsKeepShapes(g: Registry, id: string, reason: Reputation.EndReason, tier: Reputation.Tier, now: Time)
    requires g.OnShapes()
    ensures g.End(id, reason, now).OnShapes() && g.SetTier(id, tier).OnShapes()
    ensures g.Remove(id).OnShapes() && g.Reap(now).OnShapes()
  {
  }

  lemma AddKeepsOneEach(g: Registry, r: Sessions.Ride)
    requires g.Valid() && g.OneEach() && g.NoneLive(r.riderId) && r.id !in g.rides
    ensures g.Add(r).Valid() && g.Add(r).OneEach()
  {
  }

  lemma UpdateKeepsOneEach(g: Registry, id: string, r: Sessions.Ride)
    requires g.Valid() && g.OneEach() && id in g.rides && r.id == id && r.riderId == g.rides[id].riderId
    requires g.rides[id].ended ==> r.ended
    ensures g.Update(id, r).Valid() && g.Update(id, r).OneEach()
  {
  }

  lemma RemoveKeepsOneEach(g: Registry, id: string)
    requires g.Valid() && g.OneEach()
    ensures g.Remove(id).Valid() && g.Remove(id).OneEach()
  {
  }

  lemma ReapKeepsOneEach(g: Registry, now: Time)
    requires g.Valid() && g.OneEach()
    ensures g.Reap(now).Valid() && g.Reap(now).OneEach()
  {
  }

  /** Two starts for one rider without the lock between them: the ride
      registered first is live and nobody's newest. */
  lemma AddingTwiceOrphans(g: Registry, a: Sessions.Ride, b: Sessions.Ride)
    requires g.Valid() && a.id !in g.rides && b.id !in g.rides && a.id != b.id && a.riderId == b.riderId && !a.ended
    ensures !g.Add(a).Add(b).OneEach()
  {
    assert g.Add(a).Add(b).Live(a.id);
  }
}
