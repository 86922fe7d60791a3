/** What each step of RideFiling does and where it leads, told from the tables
    and the rides themselves: finishing a ride, starting one, and reporting to
    one (finishRide, handleStartRide and handlePositions in rider_handlers.go). */
module RideSteps {
  import opened Prelude
  import Batches
  import Sessions
  import Verification
  import Reputation
  import opened RideFiling
  import opened RideLaws
  import opened RideInvariant

  /** The request goes from one place to another, and what is in memory is
      remembered; who holds a rider's lock is not told here. */
  ghost predicate Goes(s: World, s': World, pid: Pid, pc: Pc) {
    && s'.procs == s.procs[pid := pc] && s'.opening == s.opening
    && s'.past.Keys == s.past.Keys + s'.reg.rides.Keys
    && (forall id | id in s'.past :: s'.past[id] == if id in s'.reg.rides then s'.reg.rides[id] else s.past[id])
  }

  ghost predicate SameMemory(s: World, s': World) {
    s'.reg == s.reg
  }

  ghost predicate SameRecords(s: World, s': World) {
    s'.rows == s.rows && s'.riders == s.riders && s'.filings == s.filings && s'.lost == s.lost
  }

  /** The row can be ended: it is active, and its rider is known. */
  ghost predicate Open(s: World, id: string) {
    id in s.rows && s.rows[id].active
  }

  /** The outcome is the ride's: its counts, state and reason, and what they are
      worth. */
  ghost predicate IsOutcome(o: RideOutcome, r: Sessions.Ride) {
    && o.reason == r.endReason && o.corroborated == r.corroborated && o.rejected == (r.state == Reputation.Rejected)
    && IsProgress(o.progress, r)
    && o.delta == (if r.state == Reputation.Rejected then (if r.endReason == Reputation.EndContradicted then -3 else -1)
                   else if r.corroborated && r.counts.matched >= 2 && r.lastMatchedAt - r.firstMatchedAt >= 5 * MINUTE then 1 else 0)
  }

  ghost predicate IsProgress(p: RideProgress, r: Sessions.Ride) {
    p.state == r.state && p.corroborated == r.corroborated && p.counts == r.counts
  }

  /** Who called finishRide goes on: the reaper with the next ride, whatever came
      of this one; a start with the rider just scored, or as if there had been no
      ride to supersede, unless the store failed it; and a batch's request with
      the ride it still has to retire. */
  ghost predicate GoesOn(t: Then, f: Finish, pc: Pc) {
    match t
    case Stop => pc == Over
    case Sweep(rest) => if rest == [] then pc == Over else pc == Ending(rest[0], Reputation.Idle, Sweep(rest[1..]))
    case Retire(id) => pc == Ending(id, Reputation.Idle, Stop)
    case Begin(w) =>
      && (f.Rescored? ==> pc == Inserting(w, f.tier)) && (f == NotActive ==> pc == Loading(w)) && (f == StoreError ==> pc == Over)
  }

  // ---- Finishing a ride ----------------------------------------------------

  /** The ride ends in memory, unless it had, and what it came to is to be filed;
      one memory does not have is no longer active. */
  lemma EndingStep(s: World, pid: Pid, now: Time)
    requires pid in s.procs && s.procs[pid].Ending?
    ensures var s', id, t := Do(s, Advance(pid, Fine, now)), s.procs[pid].id, s.procs[pid].after;
            && pid in s'.procs && Goes(s, s', pid, s'.procs[pid]) && SameRecords(s, s')
            && s'.reg == s.reg.End(id, s.procs[pid].reason, now)
            && (id !in s.reg.rides ==> GoesOn(t, NotActive, s'.procs[pid]))
            && (id in s.reg.rides ==> s'.procs[pid].Writing? && s'.procs[pid].id == id && s'.procs[pid].after == t
                                      && IsOutcome(s'.procs[pid].outcome, s'.reg.rides[id]))
  {
  }

  /** Writing files the outcome where the row is open and its rider known, with
      the row ended, the rider rescored, and one filing more. A commit reported as
      an error leaves its work done, and is to the caller the failure it was
      reported as. */
  lemma WritingFiles(s: World, pid: Pid, luck: Luck, now: Time)
    requires pid in s.procs && s.procs[pid].Writing? && luck != Error
    requires Open(s, s.procs[pid].id) && s.rows[s.procs[pid].id].riderId in s.riders
    ensures var s', Writing(id, o, t) := Do(s, Advance(pid, luck, now)), s.procs[pid];
            && pid in s'.procs && Goes(s, s', pid, s'.procs[pid]) && SameMemory(s, s') && s'.lost == s.lost && Files(s, s', id, o)
            && (luck == Fine ==> s'.procs[pid] == Filed(id, s.rows[id].riderId, s'.riders[s.rows[id].riderId].tier, t))
            && (luck == CommitLost ==> GoesOn(t, StoreError, s'.procs[pid]))
  {
    var pc := s.procs[pid];
    WritingGoes(s, pc, luck, now, true);
    FilingFiles(s, pc.id, pc.outcome);
    MovedOn(s, FinishRide(s, pc.id, pc.outcome), pid, Next(s, pc, luck, now));
    WritingLeadsOn(s, pc, luck, now);
  }

  /** Otherwise, or with an error, nothing is written: the ride turns out not to be
      open, or the store has failed. */
  lemma WritingRefused(s: World, pid: Pid, luck: Luck, now: Time)
    requires pid in s.procs && s.procs[pid].Writing?
    requires luck == Error || !Open(s, s.procs[pid].id) || s.rows[s.procs[pid].id].riderId !in s.riders
    ensures var s', Writing(id, _, t) := Do(s, Advance(pid, luck, now)), s.procs[pid];
            && pid in s'.procs && Goes(s, s', pid, s'.procs[pid]) && SameMemory(s, s') && SameRecords(s, s')
            && (if luck == Fine && !Open(s, id) then s'.procs[pid] == Dropping(id, t) else GoesOn(t, StoreError, s'.procs[pid]))
  {
    var pc := s.procs[pid];
    WritingGoes(s, pc, luck, now, Active(s, pc.id) && s.rows[pc.id].riderId in s.riders);
    MovedOn(s, s, pid, Next(s, pc, luck, now));
    WritingLeadsOn(s, pc, luck, now);
  }

  lemma WritingLeadsOn(s: World, pc: Pc, luck: Luck, now: Time)
    requires pc.Writing?
    ensures luck == Fine && !Open(s, pc.id) ==> Next(s, pc, luck, now) == Dropping(pc.id, pc.after)
    ensures luck != Fine || (Open(s, pc.id) && s.rows[pc.id].riderId !in s.riders) ==>
              GoesOn(pc.after, StoreError, Next(s, pc, luck, now))
  {
  }

  lemma FilingFiles(s: World, id: string, o: RideOutcome)
    requires Open(s, id) && s.rows[id].riderId in s.riders
    ensures Files(s, FinishRide(s, id, o), id, o)
    ensures FinishRide(s, id, o).riders[s.rows[id].riderId] == Rescore(s.riders[s.rows[id].riderId], o)
  {
  }

  ghost predicate Files(s: World, s': World, id: string, o: RideOutcome)
    requires Open(s, id) && s.rows[id].riderId in s.riders
  {
    var row := s.rows[id];
    && s'.rows == s.rows[id := RideRow(row.riderId, row.mine, false, o.progress, o.reason)]
    && s'.riders.Keys == s.riders.Keys && RescoredBy(s.riders[row.riderId], o, s'.riders[row.riderId])
    && (forall u | u in s.riders && u != row.riderId :: s'.riders[u] == s.riders[u])
    && s'.filings == s.filings + [Filing(id, row.riderId, o)]
  }

  /** Memory forgets the ride once the store has it, or has no open row for it;
      and the rider's ride in flight gets the new tier. */
  lemma RetiringSteps(s: World, pid: Pid, now: Time)
    requires pid in s.procs && (s.procs[pid].Filed? || s.procs[pid].Dropping? || s.procs[pid].Retiering?)
    ensures var s', pc := Do(s, Advance(pid, Fine, now)), s.procs[pid];
            && pid in s'.procs && Goes(s, s', pid, s'.procs[pid]) && SameRecords(s, s')
            && (pc.Filed? ==> s'.reg == s.reg.Remove(pc.id) && s'.procs[pid] == Retiering(pc.riderId, pc.tier, pc.after))
            && (pc.Dropping? ==> s'.reg == s.reg.Remove(pc.id) && GoesOn(pc.after, NotActive, s'.procs[pid]))
            && (pc.Retiering? ==> s'.reg == s.reg.SetTier(pc.riderId, pc.tier) && GoesOn(pc.after, Rescored(pc.tier), s'.procs[pid]))
  {
  }

  // ---- Starting a ride -----------------------------------------------------

  /** A start takes the rider's lock, ends the live ride the rider has, and goes on
      with the rider's tier, unless the rider is unknown or cannot be read. */
  lemma LookingSteps(s: World, pid: Pid, luck: Luck, now: Time)
    requires Enabled(s, Advance(pid, luck, now)) && (s.procs[pid].Waiting? || s.procs[pid].Looking? || s.procs[pid].Loading?)
    ensures var s', pc, w := Do(s, Advance(pid, luck, now)), s.procs[pid], s.procs[pid].wish;
            && pid in s'.procs && Goes(s, s', pid, s'.procs[pid]) && SameMemory(s, s') && SameRecords(s, s')
            && (pc.Waiting? ==> s'.procs[pid] == Looking(w) && s'.locks == s.locks[w.riderId := pid])
            && (pc.Looking? ==>
                  && (s.reg.ActiveRide(w.riderId).None? ==> s'.procs[pid] == Loading(w))
                  && (forall id :: s.reg.ActiveRide(w.riderId) == Some(id) ==>
                        s'.procs[pid] == Ending(id, Reputation.Superseded, Begin(w))))
            && (pc.Loading? ==>
                  s'.procs[pid] == if luck == Error || w.riderId !in s.riders then Over else Inserting(w, s.riders[w.riderId].tier))
  {
  }

  /** The insert opens a row of this process unless the rider has one open, and
      is refused then; an error leaves no ride in memory, whether or not the row
      was written. */
  lemma InsertingStep(s: World, pid: Pid, luck: Luck, now: Time)
    requires Enabled(s, Advance(pid, luck, now)) && s.procs[pid].Inserting?
    ensures var s', w, tier := Do(s, Advance(pid, luck, now)), s.procs[pid].wish, s.procs[pid].tier;
            var busy := exists id | id in s.rows :: s.rows[id].active && s.rows[id].riderId == w.riderId;
            && pid in s'.procs && Goes(s, s', pid, s'.procs[pid]) && SameMemory(s, s')
            && s'.riders == s.riders && s'.filings == s.filings
            && s'.rows == (if luck == Error || busy then s.rows
                           else s.rows[w.id := RideRow(w.riderId, true, true, NoProgress(), Reputation.NotEnded)])
            && s'.lost == (if luck == CommitLost && !busy then s.lost + {w.id} else s.lost)
            && s'.procs[pid] == (if luck == Fine && !busy then Adding(w, tier, now) else Over)
  {
    InsertingGoes(s, s.procs[pid], luck, now, luck != Error && !HasActive(s, s.procs[pid].wish.riderId));
  }

  ghost function NoProgress(): RideProgress {
    RideProgress(Reputation.Pending, false, Reputation.Counts(0, 0, 0, 0))
  }

  /** The ride is registered as it was wished for, in the tier its rider had, from
      the time of the insert, with nothing reported; and the lock is let go. */
  lemma AddingStep(s: World, pid: Pid, now: Time)
    requires pid in s.procs && s.procs[pid].Adding?
    ensures var s', w, pc := Do(s, Advance(pid, Fine, now)), s.procs[pid].wish, s.procs[pid];
            && Goes(s, s', pid, Over) && SameRecords(s, s')
            && s'.reg == s.reg.Add(Fresh(w, pc.tier, pc.startedAt)) && w.riderId !in s'.locks
  {
  }

  ghost function Fresh(w: Wish, tier: Reputation.Tier, at: Time): Sessions.Ride {
    Sessions.Ride(w.id, w.riderId, w.key, w.trip, tier, at, Reputation.Pending, false, None, None, Verification.Unavailable,
      Reputation.Counts(0, 0, 0, 0), 0, 0, [], ZERO_TIME, ZERO_TIME, false, Reputation.NotEnded, ZERO_TIME)
  }

  // ---- Reporting to a ride -------------------------------------------------

  /** A report goes to a live ride, by its trip; nothing a blocked rider's batch
      brings is to be stored. */
  lemma ReportSteps(s: World, pid: Pid, id: string, now: Time)
    ensures Enabled(s, Post(pid, id)) ==>
              id in s.reg.rides && !s.reg.rides[id].ended
              && Goes(s, Do(s, Post(pid, id)), pid, Posting(id, s.reg.rides[id].tier == Reputation.TierBlocked))
              && SameMemory(s, Do(s, Post(pid, id))) && SameRecords(s, Do(s, Post(pid, id)))
    ensures pid in s.procs && s.procs[pid].Posting? ==>
              var s', pc := Do(s, Advance(pid, Fine, now)), s.procs[pid];
              && SameMemory(s, s') && SameRecords(s, s')
              && Goes(s, s', pid, if pc.id in s.reg.rides && !s.reg.rides[pc.id].ended
                                  then Fetching(pc.id, pc.blocked, s.reg.rides[pc.id].key) else Over)
  {
  }

  /** A batch is folded into a ride still live and on the trip looked up. If it
      accepted anything, and its rider was not blocked, what the ride now amounts
      to is recorded; and if the ride has ended itself it is finished, for its own
      reason. */
  lemma ApplyStep(s: World, pid: Pid, points: seq<Verification.Point>, ctx: Batches.Context)
    requires pid in s.procs && s.procs[pid].Fetching?
    ensures var s', id := Do(s, Apply(pid, points, ctx)), s.procs[pid].id;
            && pid in s'.procs && Goes(s, s', pid, s'.procs[pid]) && SameRecords(s, s')
            && if TakesBatches(s, id, s.procs[pid].key) then TakesBatch(s, s', id, s.procs[pid].blocked, points, ctx, s'.procs[pid])
               else SameMemory(s, s') && s'.procs[pid] == Over
  {
    var Fetching(id, blocked, key) := s.procs[pid];
    if TakesBatches(s, id, key) {
      FoldTakes(s, pid, points, ctx);
    } else {
      MovedOn(s, s, pid, Over);
      assert Do(s, Apply(pid, points, ctx)) == Recall(Move(s, pid, Over));
    }
  }

  ghost predicate TakesBatches(s: World, id: string, key: Sessions.TripKey) {
    id in s.reg.rides && !s.reg.rides[id].ended && s.reg.rides[id].key == key
  }

  ghost predicate TakesBatch(s: World, s': World, id: string, blocked: bool, points: seq<Verification.Point>,
                             ctx: Batches.Context, pc: Pc)
    requires id in s.reg.rides
  {
    var done := Batches.ApplyBatch(s.reg.rides[id], points, ctx);
    s'.reg == s.reg.Update(id, done.ride) && Reported(id, blocked, done.ride, |done.applied|, pc)
  }

  lemma FoldTakes(s: World, pid: Pid, points: seq<Verification.Point>, ctx: Batches.Context)
    requires pid in s.procs && s.procs[pid].Fetching? && TakesBatches(s, s.procs[pid].id, s.procs[pid].key)
    ensures var s', id := Do(s, Apply(pid, points, ctx)), s.procs[pid].id;
            && pid in s'.procs && Goes(s, s', pid, s'.procs[pid]) && SameRecords(s, s')
            && TakesBatch(s, s', id, s.procs[pid].blocked, points, ctx, s'.procs[pid])
  {
    var Fetching(id, blocked, key) := s.procs[pid];
    var done := Batches.ApplyBatch(s.reg.rides[id], points, ctx);
    MovedOn(s, s.(reg := s.reg.Update(id, done.ride)), pid, AfterBatch(id, blocked, done));
    BatchReported(id, blocked, done);
    assert Do(s, Apply(pid, points, ctx)) == Recall(Move(s.(reg := s.reg.Update(id, done.ride)), pid, AfterBatch(id, blocked, done)));
  }

  lemma MovedOn(s: World, m: World, pid: Pid, pc: Pc)
    requires m.procs == s.procs && m.opening == s.opening && m.past == s.past
    ensures var s' := Recall(Move(m, pid, pc));
            pid in s'.procs && s'.procs[pid] == pc && Goes(s, s', pid, pc) && SameRecords(m, s') && s'.reg == m.reg
  {
  }

  lemma BatchReported(id: string, blocked: bool, done: Batches.Progress)
    ensures Reported(id, blocked, done.ride, |done.applied|, AfterBatch(id, blocked, done))
  {
  }

  ghost predicate Reported(id: string, blocked: bool, r: Sessions.Ride, accepted: nat, pc: Pc) {
    if !blocked && accepted > 0 then
      && pc.Recording? && pc.id == id && IsProgress(pc.progress, r)
      && pc.ended == (if r.ended then Some(r.endReason) else None)
    else if r.ended then pc == Ending(id, r.endReason, Stop)
    else pc == Over
  }

  /** Progress is written while the row is open. A ride that ended itself is
      finished whether or not it could be; and one the store has ended is retired
      from memory, after that. */
  lemma RecordingStep(s: World, pid: Pid, luck: Luck, now: Time)
    requires pid in s.procs && s.procs[pid].Recording?
    ensures var s', Recording(id, p, ended) := Do(s, Advance(pid, luck, now)), s.procs[pid];
            && pid in s'.procs && Goes(s, s', pid, s'.procs[pid]) && SameMemory(s, s')
            && s'.riders == s.riders && s'.filings == s.filings && s'.lost == s.lost
            && s'.rows == (if luck != Error && Open(s, id) then s.rows[id := s.rows[id].(progress := p)] else s.rows)
            && (ended.Some? ==>
                  s'.procs[pid] == Ending(id, ended.value, if luck == Fine && !Open(s, id) then Retire(id) else Stop))
            && (ended.None? ==> s'.procs[pid] == if luck == Fine && !Open(s, id) then Ending(id, Reputation.Idle, Stop) else Over)
  {
    var pc := s.procs[pid];
    RecordingGoes(s, pc, luck, now);
    MovedOn(s, Effect(s, pc, luck, now), pid, Next(s, pc, luck, now));
    RecordingLeadsOn(s, pc, luck, now);
    AdvanceMoves(s, pid, luck, now);
  }

  lemma RecordingLeadsOn(s: World, pc: Pc, luck: Luck, now: Time)
    requires pc.Recording?
    ensures pc.ended.Some? ==>
              Next(s, pc, luck, now) == Ending(pc.id, pc.ended.value, if luck == Fine && !Open(s, pc.id) then Retire(pc.id) else Stop)
    ensures pc.ended.None? ==>
              Next(s, pc, luck, now) == if luck == Fine && !Open(s, pc.id) then Ending(pc.id, Reputation.Idle, Stop) else Over
  {
  }

  // ---- Sweeps, clients, other instances ------------------------------------

  /** A sweep ends what is out of time and goes through all that has ended. */
  lemma ReapStep(s: World, pid: Pid, order: seq<string>, now: Time)
    requires Enabled(s, Reap(pid, order, now))
    ensures var s' := Do(s, Reap(pid, order, now));
            && pid in s'.procs && Goes(s, s', pid, s'.procs[pid]) && SameRecords(s, s') && s'.reg == s.reg.Reap(now)
            && GoesOn(Sweep(order), NotActive, s'.procs[pid])
    ensures forall ride :: ride in order <==> ride in s.reg.Reap(now).rides && s.reg.Reap(now).rides[ride].ended
  {
    MovedOn(s, s.(reg := s.reg.Reap(now)), pid, Resume(Sweep(order), NotActive));
    assert forall ride :: ride in order <==> ride in s.reg.Reap(now).Ended();
  }

  /** A client ends a live ride for a reason a client may report. */
  lemma EndRequestStep(s: World, pid: Pid, id: string, reason: Reputation.EndReason)
    requires Enabled(s, EndRequest(pid, id, reason))
    ensures var s' := Do(s, EndRequest(pid, id, reason));
            Goes(s, s', pid, Ending(id, reason, Stop)) && SameMemory(s, s') && SameRecords(s, s')
    ensures id in s.reg.rides && !s.reg.rides[id].ended
    ensures reason in {Reputation.UserRequested, Reputation.Arrived, Reputation.Stationary, Reputation.MaxDuration,
                       Reputation.LocationUnavailable, Reputation.AuthorizationDenied, Reputation.NetworkFailure,
                       Reputation.AppTerminated}
  {
    MovedOn(s, s, pid, Ending(id, reason, Stop));
  }

  lemma StartRequestStep(s: World, pid: Pid, w: Wish)
    requires Enabled(s, StartRequest(pid, w))
    ensures var s' := Do(s, StartRequest(pid, w)); Goes(s, s', pid, Waiting(w)) && SameMemory(s, s') && SameRecords(s, s')
  {
    MovedOn(s, s, pid, Waiting(w));
  }

  /** A restart closes every open row, unscored. */
  lemma RestartStep(s: World)
    ensures var s' := Do(s, ForeignSweep);
            && s'.riders == s.riders && s'.filings == s.filings && s'.lost == s.lost && s'.reg == s.reg && s'.procs == s.procs
            && s'.rows.Keys == s.rows.Keys
            && forall id | id in s.rows :: s'.rows[id] ==
                 if s.rows[id].active then s.rows[id].(active := false, reason := Reputation.ServerRestart) else s.rows[id]
  {
  }
}
