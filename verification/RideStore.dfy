/** The ride tables of rider_store.go and the statements it runs on them
    (db/query.sql.go). A transaction is its statements in order, undone when one
    fails; RideFiling takes each as one step, and this is why it may. */
module RideStore {
  import opened Prelude
  import Reputation
  import RideFiling
  import RideLaws
  import Batches

  /** ErrRideNotFound, ErrRiderNotFound, ErrActiveRideExists, and any other error. */
  datatype StoreError = RideNotFound | RiderNotFound | ActiveRideExists | Broken

  datatype Result<T> = Ok(value: T) | Err(error: StoreError)

  /** A rider as FinishRide returns it. */
  datatype Scored = Scored(id: string, row: RideFiling.RiderRow)

  /** A row of ride_points. */
  datatype StoredPoint = StoredPoint(rideId: string, point: Batches.AppliedPoint)

  /** The statement of FinishRide that fails, if any does. */
  datatype Fault = NoFault | AtEnd | AtOutcome | AtTier | AtCommit

  /** That of RecordRidePoints; an empty batch has no insert to fail. */
  datatype BatchFault = NoBatchFault | AtInsert | AtProgress | AtTouch | AtBatchCommit

  predicate PointsFail(fault: BatchFault, batch: seq<Batches.AppliedPoint>) {
    fault == AtInsert && |batch| > 0
  }

  function Store(rideId: string, points: seq<Batches.AppliedPoint>): (r: seq<StoredPoint>)
    ensures |r| == |points| && forall i | 0 <= i < |r| :: r[i] == StoredPoint(rideId, points[i])
  {
    seq(|points|, i requires 0 <= i < |points| => StoredPoint(rideId, points[i]))
  }

  class Tables {
    var rides: map<string, RideFiling.RideRow>
    var riders: map<string, RideFiling.RiderRow>
    var points: seq<StoredPoint>
    var lastSeen: map<string, Time>

    constructor ()
      ensures rides == map[] && riders == map[] && points == [] && lastSeen == map[]
    {
      rides, riders, points, lastSeen := map[], map[], [], map[];
    }

    /** EndRide: the rider of the ride it ended, none when the row was not active. */
    method EndRide(id: string, o: RideFiling.RideOutcome) returns (riderId: Option<string>)
      modifies this`rides
      ensures riderId.Some? <==> old(id in rides && rides[id].active)
      ensures riderId.None? ==> rides == old(rides)
      ensures riderId.Some? ==>
                && riderId == Some(old(rides)[id].riderId)
                && rides == old(rides)[id := old(rides)[id].(active := false, progress := o.progress, reason := o.reason)]
    {
      if id !in rides || !rides[id].active {
        return None;
      }
      rides := rides[id := rides[id].(active := false, progress := o.progress, reason := o.reason)];
      return Some(rides[id].riderId);
    }

    /** ApplyRideOutcome: the score moved and clamped, the counters raised, the
        rider seen; the tier is as it was. */
    method ApplyRideOutcome(riderId: string, o: RideFiling.RideOutcome, now: Time) returns (row: Option<RideFiling.RiderRow>)
      modifies this`riders, this`lastSeen
      ensures row.Some? <==> riderId in old(riders)
      ensures row.None? ==> riders == old(riders) && lastSeen == old(lastSeen)
      ensures row.Some? ==>
                && row.value == RideFiling.Rescore(old(riders)[riderId], o).(tier := old(riders)[riderId].tier)
                && riders == old(riders)[riderId := row.value] && lastSeen == old(lastSeen)[riderId := now]
    {
      if riderId !in riders {
        return None;
      }
      var r := riders[riderId];
      var score := r.score + o.delta;
      if score < Reputation.MIN_SCORE {
        score := Reputation.MIN_SCORE;
      }
      if score > Reputation.MAX_SCORE {
        score := Reputation.MAX_SCORE;
      }
      r := r.(score := score, total := r.total + 1,
              corroborated := r.corroborated + (if o.corroborated then 1 else 0),
              rejected := r.rejected + (if o.rejected then 1 else 0));
      riders, lastSeen := riders[riderId := r], lastSeen[riderId := now];
      row := Some(r);
    }

    method SetRiderTier(riderId: string, tier: Reputation.Tier)
      requires riderId in riders
      modifies this`riders
      ensures riders == old(riders)[riderId := old(riders)[riderId].(tier := tier)]
    {
      riders := riders[riderId := riders[riderId].(tier := tier)];
    }

    /** FinishRide: all of it or none, each error exactly when its statement is
        the first to fail. A fault at the commit is one that undid it. */
    method FinishRide(id: string, o: RideFiling.RideOutcome, now: Time, fault: Fault) returns (r: Result<Scored>)
      modifies this
      ensures points == old(points)
      ensures r.Err? ==> rides == old(rides) && riders == old(riders) && lastSeen == old(lastSeen)
      ensures r == Err(RideNotFound) <==> fault != AtEnd && !old(id in rides && rides[id].active)
      ensures r == Err(RiderNotFound) <==>
                fault != AtEnd && fault != AtOutcome && old(id in rides && rides[id].active && rides[id].riderId !in riders)
      ensures r.Ok? <==> fault.NoFault? && old(id in rides && rides[id].active && rides[id].riderId in riders)
      ensures r.Err? ==> r.error != ActiveRideExists
      ensures r.Ok? ==>
                r.value.id in riders && r.value.row == riders[r.value.id] && lastSeen == old(lastSeen)[r.value.id := now]
      ensures r.Ok? ==>
                r.value.id in old(riders) && RideLaws.RescoredBy(old(riders)[r.value.id], o, riders[r.value.id])
                && riders == old(riders)[r.value.id := riders[r.value.id]]
      ensures r.Ok? ==>
                id in old(rides) && r.value.id == old(rides)[id].riderId
                && rides == old(rides)[id := RideFiling.RideRow(r.value.id, old(rides)[id].mine, false, o.progress, o.reason)]
      ensures r.Ok? ==> forall w: RideFiling.World | w.rows == old(rides) && w.riders == old(riders) ::
                RideFiling.Active(w, id) && w.rows[id].riderId == r.value.id && w.rows[id].riderId in w.riders
                && RideFiling.FinishRide(w, id, o).rows == rides && RideFiling.FinishRide(w, id, o).riders == riders
    {
      var ridesBefore, ridersBefore, seenBefore := rides, riders, lastSeen;
      r := RunFinish(id, o, now, fault);
      if r.Err? {
        rides, riders, lastSeen := ridesBefore, ridersBefore, seenBefore;
      }
    }

    /** The statements, before any rollback. */
    method RunFinish(id: string, o: RideFiling.RideOutcome, now: Time, fault: Fault) returns (r: Result<Scored>)
      modifies this`rides, this`riders, this`lastSeen
      ensures r == Err(RideNotFound) <==> fault != AtEnd && !old(id in rides && rides[id].active)
      ensures r == Err(RiderNotFound) <==>
                fault != AtEnd && fault != AtOutcome && old(id in rides && rides[id].active && rides[id].riderId !in riders)
      ensures r.Ok? <==> fault.NoFault? && old(id in rides && rides[id].active && rides[id].riderId in riders)
      ensures r.Err? ==> r.error != ActiveRideExists
      ensures r.Ok? ==>
                && old(id in rides) && r.value.id == old(rides)[id].riderId
                && r.value.id in old(riders) && r.value.row == RideFiling.Rescore(old(riders)[r.value.id], o)
                && rides == old(rides)[id := old(rides)[id].(active := false, progress := o.progress, reason := o.reason)]
                && riders == old(riders)[r.value.id := r.value.row] && lastSeen == old(lastSeen)[r.value.id := now]
    {
      if fault == AtEnd {
        return Err(Broken);
      }
      var riderId := EndRide(id, o);
      if riderId.None? {
        return Err(RideNotFound);
      }
      if fault == AtOutcome {
        return Err(Broken);
      }
      var row := ApplyRideOutcome(riderId.value, o, now);
      if row.None? {
        return Err(RiderNotFound);
      }
      if fault == AtTier {
        return Err(Broken);
      }
      var tier := Reputation.TierFor(row.value.score);
      SetRiderTier(riderId.value, tier);
      if fault == AtCommit {
        return Err(Broken);
      }
      return Ok(Scored(riderId.value, row.value.(tier := tier)));
    }

    /** InsertRidePoint, one point at a time: none while the ride is not active. */
    method InsertPoints(id: string, batch: seq<Batches.AppliedPoint>)
      modifies this`points
      ensures points == old(points) + (if id in rides && rides[id].active then Store(id, batch) else [])
    {
      for i := 0 to |batch|
        invariant points == old(points) + (if id in rides && rides[id].active then Store(id, batch[..i]) else [])
      {
        assert Store(id, batch[..i + 1]) == Store(id, batch[..i]) + [StoredPoint(id, batch[i])];
        if id in rides && rides[id].active {
          points := points + [StoredPoint(id, batch[i])];
        }
      }
      assert batch[..|batch|] == batch;
    }

    /** UpdateRideProgress: how many rows it updated. */
    method UpdateProgress(id: string, p: RideFiling.RideProgress) returns (n: nat)
      modifies this`rides
      ensures n <= 1 && (n == 1 <==> old(id in rides && rides[id].active))
      ensures rides == if n == 1 then old(rides)[id := old(rides)[id].(progress := p)] else old(rides)
    {
      if id !in rides || !rides[id].active {
        return 0;
      }
      rides := rides[id := rides[id].(progress := p)];
      return 1;
    }

    /** RecordRidePoints: the points, the progress and the rider's last sight, or
        nothing: a batch for a ride no longer active leaves no trace. */
    method RecordRidePoints(id: string, riderId: string, batch: seq<Batches.AppliedPoint>, p: RideFiling.RideProgress, now: Time,
                            fault: BatchFault)
      returns (r: Result<()>)
      modifies this
      ensures riders == old(riders)
      ensures r.Err? ==> rides == old(rides) && points == old(points) && lastSeen == old(lastSeen)
      ensures r == Err(RideNotFound) <==>
                !(fault == AtInsert && batch != []) && fault != AtProgress && !old(id in rides && rides[id].active)
      ensures r.Ok? <==> (fault == NoBatchFault || (fault == AtInsert && batch == []))
                         && old(id in rides && rides[id].active)
      ensures r.Err? ==> r.error == RideNotFound || r.error == Broken
      ensures r.Ok? ==> points == old(points) + Store(id, batch)
      ensures r.Ok? ==> lastSeen == if riderId in riders then old(lastSeen)[riderId := now] else old(lastSeen)
      ensures r.Ok? ==> forall w: RideFiling.World | w.rows == old(rides) ::
                RideFiling.Active(w, id) && RideFiling.RecordProgress(w, id, p).rows == rides
    {
      var ridesBefore, pointsBefore, seenBefore := rides, points, lastSeen;
      r := RunRecord(id, riderId, batch, p, now, fault);
      if r.Err? {
        rides, points, lastSeen := ridesBefore, pointsBefore, seenBefore;
      }
    }

    /** The statements, before any rollback. */
    method RunRecord(id: string, riderId: string, batch: seq<Batches.AppliedPoint>, p: RideFiling.RideProgress, now: Time,
                     fault: BatchFault)
      returns (r: Result<()>)
      modifies this`rides, this`points, this`lastSeen
      ensures r == Err(RideNotFound) <==>
                !(fault == AtInsert && batch != []) && fault != AtProgress && !old(id in rides && rides[id].active)
      ensures r.Ok? <==> (fault == NoBatchFault || (fault == AtInsert && batch == []))
                         && old(id in rides && rides[id].active)
      ensures r.Err? ==> r.error == RideNotFound || r.error == Broken
      ensures r.Ok? ==>
                && old(id in rides && rides[id].active) && rides == old(rides)[id := old(rides)[id].(progress := p)]
                && points == old(points) + Store(id, batch)
                && lastSeen == if riderId in riders then old(lastSeen)[riderId := now] else old(lastSeen)
    {
      if PointsFail(fault, batch) {
        return Err(Broken);
      }
      InsertPoints(id, batch);
      if fault == AtProgress {
        return Err(Broken);
      }
      var updated := UpdateProgress(id, p);
      if updated == 0 {
        return Err(RideNotFound);
      }
      if fault == AtTouch {
        return Err(Broken);
      }
      if riderId in riders {
        lastSeen := lastSeen[riderId := now];
      }
      if fault == AtBatchCommit {
        return Err(Broken);
      }
      return Ok(());
    }

    /** StartRide: the partial unique index refuses a rider's second active ride;
        an id already taken and an unknown rider are errors like any other. */
    method StartRide(w: RideFiling.Wish) returns (r: Result<()>)
      modifies this`rides
      ensures r.Err? ==> rides == old(rides)
      ensures r == Err(ActiveRideExists) <==>
                w.id !in old(rides) && old(exists id | id in rides :: rides[id].active && rides[id].riderId == w.riderId)
      ensures r.Ok? <==>
                w.id !in old(rides) && w.riderId in riders
                && !old(exists id | id in rides :: rides[id].active && rides[id].riderId == w.riderId)
      ensures r.Ok? ==> forall s: RideFiling.World | s.rows == old(rides) ::
                !RideFiling.HasActive(s, w.riderId) && RideFiling.InsertRide(s, w, true).rows == rides
    {
      if w.id in rides {
        return Err(Broken);
      }
      if exists id | id in rides :: rides[id].active && rides[id].riderId == w.riderId {
        return Err(ActiveRideExists);
      }
      if w.riderId !in riders {
        return Err(Broken);
      }
      var none := RideFiling.RideProgress(Reputation.Pending, false, Reputation.Counts(0, 0, 0, 0));
      rides := rides[w.id := RideFiling.RideRow(w.riderId, true, true, none, Reputation.NotEnded)];
      return Ok(());
    }
  }
}
