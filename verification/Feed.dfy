/** The vehicle positions feed: the drivers' tracker (tracker.go) and its merge
    with the riders' estimates (handlers.go, rider_wiring.go). */
module Feed {
  import opened Prelude
  import Shape
  import Schedule
  import Verification
  import opened Sessions
  import Consensus
  import Publication
  import opened Registry
  import Aggregators

  /** A driver's report; timestamp is in Unix seconds, updatedAt the server's time
      of receipt. */
  datatype VehicleState = VehicleState(
    vehicleId: string, tripId: string, routeId: string, startDate: string,
    pos: Shape.LatLon, bearing: Option<real>, speed: Option<real>, timestamp: int, updatedAt: Time)

  /** An entity's id, which is also its vehicle's, and its vehicle: its trip, where
      it is, and when; what is empty is left out. */
  datatype Entity = Entity(
    id: string, tripId: string, routeId: string, startDate: string,
    pos: Shape.LatLon, bearing: Option<real>, speed: Option<real>, stop: Option<NextStop>, timestamp: nat, rider: bool)

  datatype NextStop = NextStop(id: string, sequence: int)

  datatype FeedMessage = FeedMessage(timestamp: int, entities: seq<Entity>)

  /** UpdatedAt.After(cutoff). */
  predicate Active(v: VehicleState, now: Time, maxAge: int) {
    v.updatedAt > now - maxAge
  }

  /** What vehicleIDPattern keeps out. */
  predicate NoColon(s: string) {
    ':' !in s
  }

  // ---- The tracker ---------------------------------------------------------

  class Tracker {
    const maxAge: int
    var vehicles: map<string, VehicleState>
    var seen: set<string>

    /** Vehicles go by their own ids, which vehicleIDPattern has let through. */
    ghost predicate Valid()
      reads this
    {
      (forall id | id in vehicles :: vehicles[id].vehicleId == id && NoColon(id)) && vehicles.Keys <= seen
    }

    constructor (maxAge: int)
      requires maxAge > 0
      ensures Valid() && vehicles == map[] && this.maxAge == maxAge
    {
      this.maxAge := maxAge;
      vehicles, seen := map[], {};
    }

    method Update(report: VehicleState, now: Time)
      requires Valid() && NoColon(report.vehicleId)
      modifies this
      ensures Valid() && vehicles == old(vehicles)[report.vehicleId := report.(updatedAt := now)]
      ensures seen == old(seen) + {report.vehicleId}
    {
      seen := seen + {report.vehicleId};
      vehicles := vehicles[report.vehicleId := report.(updatedAt := now)];
    }

    /** Every vehicle heard from within maxAge, once, in whatever order the map
        is walked. */
    method ActiveVehicles(now: Time) returns (active: seq<VehicleState>)
      requires Valid()
      ensures Lists(active, vehicles, now, maxAge)
    {
      active := [];
      var todo := vehicles.Keys;
      while todo != {}
        invariant todo <= vehicles.Keys
        invariant forall v :: v in active <==>
                    v.vehicleId in vehicles && v.vehicleId !in todo && v == vehicles[v.vehicleId] && Active(v, now, maxAge)
        invariant forall i, j | 0 <= i < j < |active| :: active[i].vehicleId != active[j].vehicleId
        decreases |todo|
      {
        var id :| id in todo;
        if Active(vehicles[id], now, maxAge) {
          active := active + [vehicles[id]];
        }
        todo := todo - {id};
      }
    }

    /** The freshest vehicle on the trip; of those tied, whichever the walk met
        first. */
    method VehicleOnTrip(tripId: string, now: Time) returns (found: Option<VehicleState>)
      requires Valid()
      ensures found.Some? <==> OnTrip(vehicles, tripId, now, maxAge)
      ensures found.Some? ==> Speaks(vehicles, found.value, tripId, now, maxAge)
      ensures found.Some? ==> forall v | Speaks(vehicles, v, tripId, now, maxAge) :: v.timestamp <= found.value.timestamp
    {
      found := None;
      if tripId == "" {
        return;
      }
      var todo := vehicles.Keys;
      while todo != {}
        invariant todo <= vehicles.Keys
        invariant found.Some? ==> Speaks(vehicles, found.value, tripId, now, maxAge)
        invariant forall v | Speaks(vehicles, v, tripId, now, maxAge) && v.vehicleId !in todo ::
          found.Some? && v.timestamp <= found.value.timestamp
        decreases |todo|
      {
        var id :| id in todo;
        var v := vehicles[id];
        if v.tripId == tripId && Active(v, now, maxAge) && (found.None? || v.timestamp > found.value.timestamp) {
          found := Some(v);
        }
        todo := todo - {id};
      }
      OnTripSpeaks(vehicles, tripId, now, maxAge);
    }

    /** Forgets the vehicles long silent; nothing that is still active. */
    method Cleanup(now: Time)
      requires Valid()
      modifies this
      ensures Valid() && seen == old(seen)
      ensures vehicles == map id | id in old(vehicles) && old(vehicles)[id].updatedAt >= now - maxAge :: old(vehicles)[id]
    {
      var todo := vehicles.Keys;
      while todo != {}
        invariant todo <= vehicles.Keys <= old(vehicles).Keys && seen == old(seen)
        invariant forall id | id in vehicles :: vehicles[id] == old(vehicles)[id]
        invariant forall id | id in old(vehicles) && id !in todo :: id in vehicles <==> old(vehicles)[id].updatedAt >= now - maxAge
        decreases |todo|
      {
        var id :| id in todo;
        if vehicles[id].updatedAt < now - maxAge {
          vehicles := vehicles - {id};
        }
        todo := todo - {id};
      }
    }
  }

  ghost predicate Lists(active: seq<VehicleState>, vehicles: map<string, VehicleState>, now: Time, maxAge: int) {
    && (forall v :: v in active <==> v.vehicleId in vehicles && v == vehicles[v.vehicleId] && v.updatedAt > now - maxAge)
    && (forall i, j | 0 <= i < j < |active| :: active[i].vehicleId != active[j].vehicleId)
  }

  /** v is a vehicle heard from lately and on the trip. */
  ghost predicate Speaks(vehicles: map<string, VehicleState>, v: VehicleState, tripId: string, now: Time, maxAge: int) {
    tripId != "" && v.vehicleId in vehicles && vehicles[v.vehicleId] == v && v.tripId == tripId && v.updatedAt > now - maxAge
  }

  predicate OnTrip(vehicles: map<string, VehicleState>, tripId: string, now: Time, maxAge: int) {
    tripId != "" && exists id | id in vehicles :: vehicles[id].tripId == tripId && Active(vehicles[id], now, maxAge)
  }

  lemma OnTripSpeaks(vehicles: map<string, VehicleState>, tripId: string, now: Time, maxAge: int)
    requires forall id | id in vehicles :: vehicles[id].vehicleId == id
    ensures OnTrip(vehicles, tripId, now, maxAge) <==> exists v :: Speaks(vehicles, v, tripId, now, maxAge)
  {
    if OnTrip(vehicles, tripId, now, maxAge) {
      var id :| id in vehicles && vehicles[id].tripId == tripId && Active(vehicles[id], now, maxAge);
      assert Speaks(vehicles, vehicles[id], tripId, now, maxAge);
    }
  }

  /** Cleaning up changes no answer, then or later. */
  lemma CleanupIsUnseen(before: map<string, VehicleState>, after: map<string, VehicleState>, at: Time, now: Time, maxAge: int)
    requires after == map id | id in before && before[id].updatedAt >= at - maxAge :: before[id]
    requires at <= now
    ensures forall v, tripId :: Speaks(after, v, tripId, now, maxAge) <==> Speaks(before, v, tripId, now, maxAge)
    ensures forall active :: Lists(active, after, now, maxAge) <==> Lists(active, before, now, maxAge)
  {
    assert forall v: VehicleState ::
      (v.vehicleId in after && v == after[v.vehicleId] && v.updatedAt > now - maxAge)
      <==> (v.vehicleId in before && v == before[v.vehicleId] && v.updatedAt > now - maxAge);
  }

  // ---- The merge -----------------------------------------------------------

  /** Unix time begins 719162 days after the zero time. */
  const UNIX_EPOCH: Time := 719162 * 24 * 60 * MINUTE

  function Unix(t: Time): int {
    (t - UNIX_EPOCH) / SECOND
  }

  function FromUnix(seconds: int): Time {
    UNIX_EPOCH + seconds * SECOND
  }

  function RiderEntityId(key: TripKey): string {
    "rider:" + key.tripId + ":" + key.startDate
  }

  function DriverEntity(v: VehicleState): Entity
    requires v.timestamp > 0
  {
    Entity(v.vehicleId, v.tripId, v.routeId, if v.tripId == "" && v.routeId == "" then "" else v.startDate,
      v.pos, v.bearing, v.speed, None, v.timestamp, false)
  }

  function RiderEntity(e: Consensus.TripEstimate): Entity
    requires Unix(e.timestamp) > 0
  {
    Entity(RiderEntityId(e.key), e.key.tripId, e.routeId, e.key.startDate, e.pos, Some(e.bearing), e.speed,
      if e.stopId == "" then None else Some(NextStop(e.stopId, e.stopSequence)), Unix(e.timestamp), true)
  }

  /** The entities of the drivers, then of the estimates, those with no positive
      time left out. */
  function DriverEntities(vehicles: seq<VehicleState>): seq<Entity> {
    if |vehicles| == 0 then []
    else
      DriverEntities(vehicles[..|vehicles| - 1]) +
      (if vehicles[|vehicles| - 1].timestamp > 0 then [DriverEntity(vehicles[|vehicles| - 1])] else [])
  }

  function RiderEntities(estimates: seq<Consensus.TripEstimate>): seq<Entity> {
    if |estimates| == 0 then []
    else
      RiderEntities(estimates[..|estimates| - 1]) +
      (if Unix(estimates[|estimates| - 1].timestamp) > 0 then [RiderEntity(estimates[|estimates| - 1])] else [])
  }

  /** No entity is later than the header, and the header is no later than it has
      to be. */
  ghost predicate HeaderFits(timestamp: int, entities: seq<Entity>, now: int) {
    && timestamp >= now
    && (forall e | e in entities :: e.timestamp <= timestamp)
    && (timestamp == now || exists e | e in entities :: e.timestamp == timestamp)
  }

  method BuildFeed(vehicles: seq<VehicleState>, estimates: seq<Consensus.TripEstimate>, now: Time) returns (feed: FeedMessage)
    ensures feed.entities == DriverEntities(vehicles) + RiderEntities(estimates)
    ensures HeaderFits(feed.timestamp, feed.entities, Unix(now))
  {
    var header, entities := AppendDrivers(vehicles, Unix(now));
    header, entities := AppendEstimates(estimates, header, entities, Unix(now));
    feed := FeedMessage(header, entities);
  }

  method AppendDrivers(vehicles: seq<VehicleState>, now: int) returns (header: int, entities: seq<Entity>)
    ensures entities == DriverEntities(vehicles) && HeaderFits(header, entities, now)
  {
    header, entities := now, [];
    for i := 0 to |vehicles|
      invariant entities == DriverEntities(vehicles[..i]) && HeaderFits(header, entities, now)
    {
      assert vehicles[..i + 1][..i] == vehicles[..i];
      var v := vehicles[i];
      if v.timestamp > 0 {
        if v.timestamp > header {
          header := v.timestamp;
        }
        HeaderRaised(entities, DriverEntity(v), header, now);
        entities := entities + [DriverEntity(v)];
      }
    }
    assert vehicles[..|vehicles|] == vehicles;
  }

  method AppendEstimates(estimates: seq<Consensus.TripEstimate>, header0: int, drivers: seq<Entity>, now: int)
    returns (header: int, entities: seq<Entity>)
    requires HeaderFits(header0, drivers, now)
    ensures entities == drivers + RiderEntities(estimates) && HeaderFits(header, entities, now)
  {
    header, entities := header0, drivers;
    for i := 0 to |estimates|
      invariant entities == drivers + RiderEntities(estimates[..i]) && HeaderFits(header, entities, now)
    {
      assert estimates[..i + 1][..i] == estimates[..i];
      var e := estimates[i];
      if Unix(e.timestamp) > 0 {
        if Unix(e.timestamp) > header {
          header := Unix(e.timestamp);
        }
        HeaderRaised(entities, RiderEntity(e), header, now);
        entities := entities + [RiderEntity(e)];
      }
    }
    assert estimates[..|estimates|] == estimates;
  }

  lemma HeaderRaised(entities: seq<Entity>, e: Entity, header: int, now: int)
    requires header >= now && header >= e.timestamp && forall x | x in entities :: x.timestamp <= header
    requires header == now || header == e.timestamp || exists x | x in entities :: x.timestamp == header
    ensures HeaderFits(header, entities + [e], now)
  {
    if x :| x in entities && x.timestamp == header {
      assert x in entities + [e];
    } else if header == e.timestamp {
      assert e in entities + [e];
    }
  }

  /** The drivers' reports with a positive time, in order. */
  ghost function Timed(vehicles: seq<VehicleState>): seq<VehicleState> {
    if |vehicles| == 0 then []
    else
      Timed(vehicles[..|vehicles| - 1])
      + (if vehicles[|vehicles| - 1].timestamp > 0 then [vehicles[|vehicles| - 1]] else [])
  }

  /** The estimates whose time is after the start of Unix time, in order. */
  ghost function TimedEstimates(estimates: seq<Consensus.TripEstimate>): seq<Consensus.TripEstimate> {
    if |estimates| == 0 then []
    else
      TimedEstimates(estimates[..|estimates| - 1])
      + (if estimates[|estimates| - 1].timestamp >= UNIX_EPOCH + SECOND then [estimates[|estimates| - 1]] else [])
  }

  /** An entity for each driver's report with a time: their vehicle, where they
      say they are. */
  lemma {:induction false} DriverEntitiesExactly(vehicles: seq<VehicleState>)
    ensures |DriverEntities(vehicles)| == |Timed(vehicles)|
    ensures forall i | 0 <= i < |DriverEntities(vehicles)| ::
              var e, v := DriverEntities(vehicles)[i], Timed(vehicles)[i];
              && e.id == v.vehicleId && e.tripId == v.tripId && e.routeId == v.routeId && !e.rider
              && e.startDate == (if v.tripId != "" || v.routeId != "" then v.startDate else "")
              && e.pos == v.pos && e.bearing == v.bearing && e.speed == v.speed && e.stop.None? && e.timestamp == v.timestamp
  {
    if |vehicles| > 0 {
      DriverEntitiesExactly(vehicles[..|vehicles| - 1]);
    }
  }

  /** And one for each estimate with a time, named for its trip and date, its time
      in whole seconds. */
  lemma {:induction false} RiderEntitiesExactly(estimates: seq<Consensus.TripEstimate>)
    ensures |RiderEntities(estimates)| == |TimedEstimates(estimates)|
    ensures forall i | 0 <= i < |RiderEntities(estimates)| ::
              var e, x := RiderEntities(estimates)[i], TimedEstimates(estimates)[i];
              && e.id == "rider:" + x.key.tripId + ":" + x.key.startDate
              && e.tripId == x.key.tripId && e.routeId == x.routeId && e.startDate == x.key.startDate && e.rider
              && e.pos == x.pos && e.bearing == Some(x.bearing) && e.speed == x.speed
              && (if x.stopId != "" then e.stop == Some(NextStop(x.stopId, x.stopSequence)) else e.stop.None?)
              && UNIX_EPOCH + e.timestamp * SECOND <= x.timestamp < UNIX_EPOCH + (e.timestamp + 1) * SECOND
  {
    if |estimates| > 0 {
      RiderEntitiesExactly(estimates[..|estimates| - 1]);
    }
  }

  /** Unix time begins with the year 1970, the zero time with the year 1. */
  lemma EpochIsDays()
    ensures UNIX_EPOCH == (1969 * 365 + 1969 / 4 - 1969 / 100 + 1969 / 400) * 86_400 * SECOND
  {
  }

  // ---- Ids -----------------------------------------------------------------

  /** A service date has eight digits, so that trip and date can be read back. */
  lemma RiderIdsDiffer(a: TripKey, b: TripKey)
    requires |a.startDate| == |b.startDate| && RiderEntityId(a) == RiderEntityId(b)
    ensures a == b
  {
    var x, y := RiderEntityId(a), RiderEntityId(b);
    assert |a.tripId| == |b.tripId|;
    assert a.tripId == x[6..6 + |a.tripId|] && b.tripId == y[6..6 + |b.tripId|];
    assert a.startDate == x[7 + |a.tripId|..] && b.startDate == y[7 + |b.tripId|..];
  }

  lemma DriverIsNoRider(v: string, key: TripKey)
    requires NoColon(v)
    ensures v != RiderEntityId(key)
  {
    assert RiderEntityId(key)[5] == ':';
  }

  ghost predicate DistinctIds(entities: seq<Entity>) {
    forall i, j | 0 <= i < j < |entities| :: entities[i].id != entities[j].id
  }

  lemma {:induction false} DriverIds(vehicles: seq<VehicleState>)
    requires forall i, j | 0 <= i < j < |vehicles| :: vehicles[i].vehicleId != vehicles[j].vehicleId
    ensures DistinctIds(DriverEntities(vehicles))
    ensures forall e | e in DriverEntities(vehicles) :: exists v | v in vehicles :: v.timestamp > 0 && e == DriverEntity(v)
  {
    if |vehicles| > 0 {
      var init, last := vehicles[..|vehicles| - 1], vehicles[|vehicles| - 1];
      assert vehicles == init + [last];
      DriverIds(init);
      var es := DriverEntities(init);
      forall i | 0 <= i < |es| ensures es[i].id != last.vehicleId {
        assert es[i] in es;
      }
    }
  }

  lemma {:induction false} RiderEntitiesFrom(estimates: seq<Consensus.TripEstimate>, r: Entity)
    requires r in RiderEntities(estimates)
    ensures exists x | x in estimates :: Unix(x.timestamp) > 0 && r == RiderEntity(x)
  {
    var init, last := estimates[..|estimates| - 1], estimates[|estimates| - 1];
    assert estimates == init + [last];
    if r in RiderEntities(init) {
      RiderEntitiesFrom(init, r);
    }
  }

  lemma {:induction false} RiderIds(estimates: seq<Consensus.TripEstimate>)
    requires forall i, j | 0 <= i < j < |estimates| :: estimates[i].key != estimates[j].key
    requires forall e | e in estimates :: |e.key.startDate| == 8
    ensures DistinctIds(RiderEntities(estimates))
  {
    if |estimates| > 0 {
      var init, last := estimates[..|estimates| - 1], estimates[|estimates| - 1];
      assert estimates == init + [last];
      RiderIds(init);
      var es := RiderEntities(init);
      forall i | 0 <= i < |es| ensures es[i].id != RiderEntityId(last.key) {
        RiderEntitiesFrom(init, es[i]);
        var x :| x in init && Unix(x.timestamp) > 0 && es[i] == RiderEntity(x);
        RidersApart(x.key, last.key);
      }
    }
  }

  lemma RidersApart(a: TripKey, b: TripKey)
    requires |a.startDate| == |b.startDate| && a != b
    ensures RiderEntityId(a) != RiderEntityId(b)
  {
    if RiderEntityId(a) == RiderEntityId(b) {
      RiderIdsDiffer(a, b);
    }
  }

  lemma AppendDistinct(ds: seq<Entity>, rs: seq<Entity>)
    requires DistinctIds(ds) && DistinctIds(rs) && forall d, r | d in ds && r in rs :: d.id != r.id
    ensures DistinctIds(ds + rs)
  {
    assert forall i | 0 <= i < |ds| :: ds[i] in ds;
    assert forall i | 0 <= i < |rs| :: rs[i] in rs;
  }

  // ---- What the trusted sources cover --------------------------------------

  /** trustedSources.Covers: the agency's own feed, then the drivers of this
      server; vehicles is empty without a tracker. */
  predicate Covers(agency: TripKey -> Option<Verification.TrustedVehicle>, vehicles: map<string, VehicleState>, key: TripKey,
                   now: Time, maxAge: int) {
    agency(key).Some? || OnTrip(vehicles, key.tripId, now, maxAge)
  }

  function CoveredBy(agency: TripKey -> Option<Verification.TrustedVehicle>, vehicles: map<string, VehicleState>, now: Time,
                     maxAge: int): TripKey -> bool {
    (key: TripKey) => Covers(agency, vehicles, key, now, maxAge)
  }

  lemma CoversExactlyWhen(agency: TripKey -> Option<Verification.TrustedVehicle>, vehicles: map<string, VehicleState>,
                          key: TripKey, now: Time, maxAge: int)
    requires forall id | id in vehicles :: vehicles[id].vehicleId == id
    ensures CoveredBy(agency, vehicles, now, maxAge)(key) <==>
            agency(key).Some? || exists v :: Speaks(vehicles, v, key.tripId, now, maxAge)
  {
    OnTripSpeaks(vehicles, key.tripId, now, maxAge);
  }

  ghost predicate Freshest(vehicles: map<string, VehicleState>, v: VehicleState, tripId: string, now: Time, maxAge: int) {
    && Speaks(vehicles, v, tripId, now, maxAge)
    && forall other | Speaks(vehicles, other, tripId, now, maxAge) :: other.timestamp <= v.timestamp
  }

  /** trustedSources.Lookup: where the trip's vehicle is, the agency's word first. */
  method Lookup(agency: TripKey -> Option<Verification.TrustedVehicle>, tracker: Tracker?, key: TripKey, now: Time)
    returns (found: Option<Verification.TrustedVehicle>)
    requires tracker != null ==> tracker.Valid()
    ensures found.Some? <==>
              agency(key).Some? || (tracker != null && Covers(agency, tracker.vehicles, key, now, tracker.maxAge))
    ensures agency(key).Some? ==> found == agency(key)
    ensures agency(key).None? && found.Some? ==>
              exists v :: Freshest(tracker.vehicles, v, key.tripId, now, tracker.maxAge)
                          && found.value == Verification.TrustedVehicle(v.vehicleId, v.pos, UNIX_EPOCH + v.timestamp * SECOND)
  {
    found := agency(key);
    if found.Some? || tracker == null {
      return;
    }
    var v := tracker.VehicleOnTrip(key.tripId, now);
    if v.Some? {
      assert Freshest(tracker.vehicles, v.value, key.tripId, now, tracker.maxAge);
      found := Some(Verification.TrustedVehicle(v.value.vehicleId, v.value.pos, FromUnix(v.value.timestamp)));
    }
  }

  // ---- The feed's promises -------------------------------------------------

  /** Rides are on trips with an id, on dates of eight digits. */
  ghost predicate DatedRides(g: Registry) {
    forall id | id in g.rides :: |g.rides[id].key.startDate| == 8 && g.rides[id].key.tripId != ""
  }

  lemma PublishedHasRide(g: Registry, trip: Option<Schedule.TripInfo>, e: Consensus.TripEstimate, now: Time, maxAge: int)
    requires Publication.EstimateFor(g, trip, e.key, now, maxAge) == Some(e)
    ensures exists id :: id in g.rides && g.rides[id].key == e.key
  {
    Publication.NobodyNoEstimate(g, trip, e.key, now, maxAge);
    var m :| m in Publication.Members(g, e.key, now, maxAge);
  }

  lemma PublishedIsDated(g: Registry, trips: TripKey -> Option<Schedule.TripInfo>, out: seq<Consensus.TripEstimate>,
                         now: Time, maxAge: int,
                         covered: TripKey -> bool)
    requires DatedRides(g) && Publication.Publishes(g, trips, out, now, maxAge, covered)
    ensures forall e | e in out :: |e.key.startDate| == 8 && e.key.tripId != ""
  {
    forall e | e in out ensures |e.key.startDate| == 8 && e.key.tripId != "" {
      PublishedHasRide(g, trips(e.key), e, now, maxAge);
    }
  }

  /** The drivers are listed at one moment and the estimates made at another: no
      two entities share an id, and a trip is in the feed both as a driver's and
      as an estimate only if no driver is on it any more when the estimates are
      made. */
  lemma FeedIsConsistent(active: seq<VehicleState>, earlier: map<string, VehicleState>, listed: Time,
                         agency: TripKey -> Option<Verification.TrustedVehicle>, vehicles: map<string, VehicleState>,
                         now: Time, maxAge: int,
                         g: Registry, trips: TripKey -> Option<Schedule.TripInfo>, estimates: seq<Consensus.TripEstimate>,
                         pointMaxAge: int)
    requires Lists(active, earlier, listed, maxAge) && forall id | id in earlier :: NoColon(id)
    requires DatedRides(g) && Publication.Publishes(g, trips, estimates, now, pointMaxAge, CoveredBy(agency, vehicles, now, maxAge))
    ensures DistinctIds(DriverEntities(active) + RiderEntities(estimates))
    ensures forall d, r | d in DriverEntities(active) && r in RiderEntities(estimates) && d.tripId == r.tripId ::
              d.tripId != "" && !OnTrip(vehicles, d.tripId, now, maxAge)
  {
    PublishedIsDated(g, trips, estimates, now, pointMaxAge, CoveredBy(agency, vehicles, now, maxAge));
    InOrderKeysDiffer(estimates);
    DriverIds(active);
    RiderIds(estimates);
    var ds, rs := DriverEntities(active), RiderEntities(estimates);
    forall d, r | d in ds && r in rs
      ensures d.id != r.id
      ensures d.tripId == r.tripId ==> d.tripId != "" && !OnTrip(vehicles, d.tripId, now, maxAge)
    {
      var v :| v in active && v.timestamp > 0 && d == DriverEntity(v);
      RiderEntitiesFrom(estimates, r);
      var x :| x in estimates && Unix(x.timestamp) > 0 && r == RiderEntity(x);
      DriverIsNoRider(v.vehicleId, x.key);
      assert !Covers(agency, vehicles, x.key, now, maxAge);
    }
    AppendDistinct(ds, rs);
  }

  lemma InOrderKeysDiffer(estimates: seq<Consensus.TripEstimate>)
    requires Publication.InOrder(estimates)
    ensures forall i, j | 0 <= i < j < |estimates| :: estimates[i].key != estimates[j].key
  {
    forall i, j | 0 <= i < j < |estimates| ensures estimates[i].key != estimates[j].key {
      Publication.BeforeIsStrict(estimates[i].key, estimates[j].key, estimates[j].key);
    }
  }

  /** At one instant no trip is in the feed twice over: a listed driver is on its
      trip, and so covers it. */
  lemma FeedAtOneInstant(active: seq<VehicleState>, vehicles: map<string, VehicleState>,
                         agency: TripKey -> Option<Verification.TrustedVehicle>,
                         now: Time, maxAge: int, g: Registry, trips: TripKey -> Option<Schedule.TripInfo>,
                         estimates: seq<Consensus.TripEstimate>,
                         pointMaxAge: int)
    requires Lists(active, vehicles, now, maxAge) && forall id | id in vehicles :: NoColon(id)
    requires DatedRides(g) && Publication.Publishes(g, trips, estimates, now, pointMaxAge, CoveredBy(agency, vehicles, now, maxAge))
    ensures DistinctIds(DriverEntities(active) + RiderEntities(estimates))
    ensures forall d, r | d in DriverEntities(active) && r in RiderEntities(estimates) :: d.tripId != r.tripId
  {
    FeedIsConsistent(active, vehicles, now, agency, vehicles, now, maxAge, g, trips, estimates, pointMaxAge);
    DriversAreOnTheirTrips(active, vehicles, now, maxAge);
  }

  lemma DriversAreOnTheirTrips(active: seq<VehicleState>, vehicles: map<string, VehicleState>, now: Time, maxAge: int)
    requires Lists(active, vehicles, now, maxAge)
    ensures forall d | d in DriverEntities(active) && d.tripId != "" :: OnTrip(vehicles, d.tripId, now, maxAge)
  {
    DriverIds(active);
    forall d | d in DriverEntities(active) && d.tripId != "" ensures OnTrip(vehicles, d.tripId, now, maxAge) {
      var v :| v in active && v.timestamp > 0 && d == DriverEntity(v);
      assert vehicles[v.vehicleId] == v;
    }
  }

  /** No entity is twice in the feed, and no trip in both halves. */
  ghost predicate Consistent(entities: seq<Entity>) {
    && DistinctIds(entities)
    && (forall d, r | d in entities && r in entities && !d.rider && r.rider :: d.tripId != r.tripId)
  }

  lemma FeedIsFit(active: seq<VehicleState>, vehicles: map<string, VehicleState>,
                  agency: TripKey -> Option<Verification.TrustedVehicle>,
                  now: Time, maxAge: int, g: Registry, estimates: seq<Consensus.TripEstimate>, pointMaxAge: int)
    requires Lists(active, vehicles, now, maxAge) && forall id | id in vehicles :: NoColon(id)
    requires DatedRides(g) && Publication.Published(g, estimates, now, pointMaxAge, CoveredBy(agency, vehicles, now, maxAge))
    ensures Consistent(DriverEntities(active) + RiderEntities(estimates))
  {
    var trips :| Publication.Schedules(g, trips, now, pointMaxAge)
              && Publication.Publishes(g, trips, estimates, now, pointMaxAge, CoveredBy(agency, vehicles, now, maxAge));
    FeedAtOneInstant(active, vehicles, agency, now, maxAge, g, trips, estimates, pointMaxAge);
    HalvesApart(active, estimates);
  }

  /** The entities of every active driver, then of every estimate to publish
      beside what the agency and the drivers cover. */
  ghost predicate Carries(entities: seq<Entity>, vehicles: map<string, VehicleState>, maxAge: int, g: Registry, pointMaxAge: int,
                          agency: TripKey -> Option<Verification.TrustedVehicle>, now: Time)
  {
    exists active, estimates ::
      && Lists(active, vehicles, now, maxAge)
      && Publication.Published(g, estimates, now, pointMaxAge, CoveredBy(agency, vehicles, now, maxAge))
      && entities == DriverEntities(active) + RiderEntities(estimates)
  }

  /** handleGetFeed, both halves, at one instant. */
  method GetFeed(tracker: Tracker, agg: Aggregators.Aggregator, agency: TripKey -> Option<Verification.TrustedVehicle>, now: Time)
    returns (feed: FeedMessage)
    requires tracker.Valid() && agg.Valid() && DatedRides(agg.Value())
    ensures Carries(feed.entities, tracker.vehicles, tracker.maxAge, agg.Value(), agg.th.pointMaxAge, agency, now)
    ensures Consistent(feed.entities) && HeaderFits(feed.timestamp, feed.entities, Unix(now))
  {
    var active := tracker.ActiveVehicles(now);
    var estimates := agg.Estimates(now, CoveredBy(agency, tracker.vehicles, now, tracker.maxAge));
    FeedIsFit(active, tracker.vehicles, agency, now, tracker.maxAge, agg.Value(), estimates, agg.th.pointMaxAge);
    feed := BuildFeed(active, estimates, now);
  }

  lemma HalvesApart(active: seq<VehicleState>, estimates: seq<Consensus.TripEstimate>)
    ensures forall d | d in DriverEntities(active) :: !d.rider
    ensures forall r | r in RiderEntities(estimates) :: r.rider
  {
    forall r | r in RiderEntities(estimates) ensures r.rider {
      RiderEntitiesFrom(estimates, r);
    }
    DriversAreDrivers(active);
  }

  lemma {:induction false} DriversAreDrivers(active: seq<VehicleState>)
    ensures forall d | d in DriverEntities(active) :: !d.rider
  {
    if |active| > 0 {
      DriversAreDrivers(active[..|active| - 1]);
    }
  }
}
