/** What RideFiling promises over every interleaving: rides are scored once and
    stay as filed, one is live a rider and none is lost, and matched rides are on
    shapes (rider_handlers.go, rider_store.go). */
module RideLaws {
  import opened Prelude
  import Batches
  import Verification
  import opened Reputation
  import opened Sessions
  import opened Registry
  import opened RideFiling
  import opened RideInvariant

  // ---- Runs ----------------------------------------------------------------

  ghost predicate Reaches(s: World, actions: seq<Action>, s': World)
    decreases |actions|
  {
    if |actions| == 0 then s' == s
    else Enabled(s, actions[0]) && Reaches(Do(s, actions[0]), actions[1..], s')
  }

  lemma {:induction false} RunKeepsInv(s: World, actions: seq<Action>, s': World)
    requires Inv(s) && Reaches(s, actions, s')
    ensures Inv(s')
    decreases |actions|
  {
    if |actions| > 0 {
      DoKeepsInv(s, actions[0]);
      RunKeepsInv(Do(s, actions[0]), actions[1..], s');
    }
  }

  lemma InitInv(s: World)
    requires Init(s)
    ensures Inv(s)
  {
  }

  /** Exactly once: however ends, sweeps, retries and lost commits interleave,
      no ride is filed twice, and each rider stands where the filed outcomes,
      in order and each clamped, have brought them. */
  lemma EachRideIsScoredOnce(init: World, actions: seq<Action>, s: World)
    requires Init(init) && Reaches(init, actions, s)
    ensures forall i, j | 0 <= i < j < |s.filings| :: s.filings[i].id != s.filings[j].id
    ensures forall u | u in s.riders :: u in s.opening && s.riders[u] == Standing(s.opening[u], s.filings, u)
  {
    InitInv(init);
    RunKeepsInv(init, actions, s);
  }

  /** One ride filed: the score moves by what the ride is worth, the tier is the
      new score's, and the ride is counted. */
  ghost predicate RescoredBy(r: RiderRow, o: RideOutcome, r': RiderRow) {
    && Moved(r.score, o.delta, r'.score) && Earned(r'.score, r'.tier)
    && r'.total == r.total + 1
    && r'.corroborated == r.corroborated + (if o.corroborated then 1 else 0)
    && r'.rejected == r.rejected + (if o.rejected then 1 else 0)
  }

  /** A rider who started within bounds keeps within them, in the tier of the
      score, and counts one ride for each that was filed; each filing of theirs
      moves them by what it is worth, and nobody else's does. */
  lemma {:induction false} StandingIsInBounds(opening: RiderRow, filings: seq<Filing>, u: string)
    requires -10 <= opening.score <= 10 && Earned(opening.score, opening.tier)
    ensures var r := Standing(opening, filings, u);
            -10 <= r.score <= 10 && Earned(r.score, r.tier) && r.total == opening.total + |FilingsOf(filings, u)|
    ensures |filings| == 0 ==> Standing(opening, filings, u) == opening
    ensures |filings| > 0 ==>
              var before, last := Standing(opening, filings[..|filings| - 1], u), filings[|filings| - 1];
              if last.riderId == u then RescoredBy(before, last.outcome, Standing(opening, filings, u))
              else Standing(opening, filings, u) == before
  {
    if |filings| > 0 {
      StandingIsInBounds(opening, filings[..|filings| - 1], u);
    }
  }

  ghost function FilingsOf(filings: seq<Filing>, u: string): seq<Filing> {
    if |filings| == 0 then []
    else FilingsOf(filings[..|filings| - 1], u) + (if filings[|filings| - 1].riderId == u then [filings[|filings| - 1]] else [])
  }

  // ---- What is filed is final ----------------------------------------------

  /** An ended ride, in memory and in the table, is what it will stay. */
  ghost predicate Frozen(s: World, s': World) {
    && (forall id | id in s.past && s.past[id].ended :: id in s'.past && s'.past[id] == s.past[id])
    && (forall id | Closed(s, id) :: id in s'.rows && s'.rows[id] == s.rows[id])
    && s.filings <= s'.filings
  }

  lemma MemoryFreezes(s: World, pc: Pc, now: Time)
    requires Inv(s) && PcInv(s, pc) && (pc.Ending? || pc.Filed? || pc.Dropping? || pc.Retiering?)
    ensures Frozen(s, Recall(Effect(s, pc, Fine, now)))
  {
    match pc
    case Ending(id, reason, _) => EndIsAStep(s, id, reason, now);
    case Filed(id, _, _, _) => RemoveIsAStep(s, id);
    case Dropping(id, _) => RemoveIsAStep(s, id);
    case Retiering(u, tier, _) => SetTierIsAStep(s, u, tier);
  }

  lemma WritingFreezes(s: World, pc: Pc, luck: Luck, now: Time)
    requires pc.Writing?
    ensures Frozen(s, Effect(s, pc, luck, now).(past := s.past))
  {
  }

  lemma InsertingFreezes(s: World, pc: Pc, luck: Luck, now: Time)
    requires pc.Inserting? && pc.wish.id !in s.rows
    ensures Frozen(s, Effect(s, pc, luck, now).(past := s.past))
  {
    InsertingGoes(s, pc, luck, now, luck != Error && !HasActive(s, pc.wish.riderId));
  }

  lemma RecordFreezes(s: World, id: string, p: RideProgress)
    requires Active(s, id)
    ensures Frozen(s, RecordProgress(s, id, p))
  {
  }

  lemma RecordingGoes(s: World, pc: Pc, luck: Luck, now: Time)
    requires pc.Recording?
    ensures Effect(s, pc, luck, now) == if luck == Error || !Active(s, pc.id) then s else RecordProgress(s, pc.id, pc.progress)
  {
  }

  lemma RecordingFreezes(s: World, pc: Pc, luck: Luck, now: Time)
    requires pc.Recording?
    ensures Frozen(s, Effect(s, pc, luck, now).(past := s.past))
  {
    RecordingGoes(s, pc, luck, now);
    if Active(s, pc.id) {
      RecordFreezes(s, pc.id, pc.progress);
    }
  }

  lemma TablesLeaveMemory(s: World, pc: Pc, luck: Luck, now: Time)
    requires pc.Writing? || pc.Recording? || pc.Inserting?
    ensures Effect(s, pc, luck, now).reg == s.reg && Effect(s, pc, luck, now).past == s.past
  {
    if pc.Writing? {
      WritingGoes(s, pc, luck, now, Active(s, pc.id) && s.rows[pc.id].riderId in s.riders);
    } else if pc.Recording? {
      RecordingGoes(s, pc, luck, now);
    } else {
      InsertingGoes(s, pc, luck, now, luck != Error && !HasActive(s, pc.wish.riderId));
    }
  }

  lemma TablesFreeze(s: World, pc: Pc, luck: Luck, now: Time)
    requires MemoryInv(s) && (pc.Writing? || pc.Recording? || (pc.Inserting? && pc.wish.id !in s.rows))
    ensures Frozen(s, Recall(Effect(s, pc, luck, now)))
  {
    RecallIsStable(s);
    TablesLeaveMemory(s, pc, luck, now);
    var e := Effect(s, pc, luck, now);
    if pc.Writing? {
      WritingFreezes(s, pc, luck, now);
    } else if pc.Inserting? {
      InsertingFreezes(s, pc, luck, now);
    } else {
      RecordingFreezes(s, pc, luck, now);
    }
    assert e.(past := s.past) == Recall(e);
  }

  lemma AddingFreezes(s: World, pc: Pc, now: Time)
    requires Inv(s) && PcInv(s, pc) && pc.Adding?
    ensures Frozen(s, Recall(Effect(s, pc, Fine, now)))
  {
    var r := NewRide(pc.wish.id, pc.wish.riderId, pc.wish.key, pc.wish.trip, pc.tier, pc.startedAt);
    AddingKeepsTables(s, pc.wish, r, pc.tier, pc.startedAt, Recall(Effect(s, pc, Fine, now)));
  }

  lemma AdvanceFreezes(s: World, pid: Pid, luck: Luck, now: Time)
    requires Inv(s) && Enabled(s, Advance(pid, luck, now))
    ensures Frozen(s, Recall(Effect(s, s.procs[pid], luck, now)))
  {
    var pc := s.procs[pid];
    assert PcInv(s, pc);
    if pc.Ending? || pc.Filed? || pc.Dropping? || pc.Retiering? {
      MemoryFreezes(s, pc, now);
    } else if pc.Writing? || pc.Recording? || pc.Inserting? {
      TablesFreeze(s, pc, luck, now);
    } else if pc.Adding? {
      AddingFreezes(s, pc, now);
    } else {
      RecallIsStable(s);
    }
  }

  lemma UpdateFreezes(s: World, id: string, r: Ride)
    requires MemoryInv(s) && s.reg.Live(id)
    ensures Frozen(s, Recall(s.(reg := s.reg.Update(id, r))))
  {
  }

  lemma FoldFreezes(s: World, pid: Pid, points: seq<Verification.Point>, ctx: Batches.Context)
    requires Inv(s) && pid in s.procs && s.procs[pid].Fetching?
    ensures Frozen(s, Recall(Fold(s, pid, points, ctx)))
  {
    var Fetching(id, blocked, key) := s.procs[pid];
    if !s.reg.Live(id) || s.reg.rides[id].key != key {
      RequestFreezes(s, pid, Over);
    } else {
      var done := Batches.ApplyBatch(s.reg.rides[id], points, ctx);
      UpdateFreezes(s, id, done.ride);
      MovedFreezes(s, s.(reg := s.reg.Update(id, done.ride)), pid, AfterBatch(id, blocked, done));
    }
  }

  lemma MovedFreezes(s: World, m: World, pid: Pid, pc: Pc)
    requires Frozen(s, Recall(m))
    ensures Frozen(s, Recall(Move(m, pid, pc)))
  {
  }

  lemma ReapFreezes(s: World, now: Time)
    requires Inv(s)
    ensures Frozen(s, Recall(s.(reg := s.reg.Reap(now))))
  {
  }

  lemma ForeignFinishFreezes(s: World, id: string, o: RideOutcome)
    requires Active(s, id) && s.rows[id].riderId in s.riders
    ensures Frozen(s, FinishRide(s, id, o))
  {
  }

  lemma ForeignSweepFreezes(s: World)
    ensures Frozen(s, Act(s, ForeignSweep))
  {
  }

  lemma OutsideFreezes(s: World, a: Action)
    requires Inv(s) && Enabled(s, a) && (a.Register? || a.ForeignStart? || a.ForeignFinish? || a.ForeignSweep?)
    ensures Frozen(s, Do(s, a))
  {
    RecallIsStable(s);
    var m := Act(s, a);
    assert m.reg == s.reg && m.past == s.past;
    assert Recall(m) == m;
    if a.ForeignFinish? {
      ForeignFinishFreezes(s, a.id, a.outcome);
    } else if a.ForeignSweep? {
      ForeignSweepFreezes(s);
    }
  }

  lemma RequestFreezes(s: World, pid: Pid, pc: Pc)
    requires MemoryInv(s)
    ensures Frozen(s, Recall(Move(s, pid, pc)))
  {
    RecallIsStable(s);
  }

  lemma DoFreezes(s: World, a: Action)
    requires Inv(s) && Enabled(s, a)
    ensures Frozen(s, Do(s, a))
  {
    match a
    case Apply(pid, points, ctx) => FoldFreezes(s, pid, points, ctx);
    case Advance(pid, luck, now) => AdvanceFreezes(s, pid, luck, now);
    case Reap(_, _, now) => ReapFreezes(s, now);
    case EndRequest(pid, id, reason) => RequestFreezes(s, pid, Ending(id, reason, Stop));
    case StartRequest(pid, w) => RequestFreezes(s, pid, Waiting(w));
    case Post(pid, id) => RequestFreezes(s, pid, Posting(id, s.reg.rides[id].tier == TierBlocked));
    case _ => OutsideFreezes(s, a);
  }

  lemma {:induction false} RunFreezes(s: World, actions: seq<Action>, s': World)
    requires Inv(s) && Reaches(s, actions, s')
    ensures Frozen(s, s')
    decreases |actions|
  {
    if |actions| > 0 {
      DoKeepsInv(s, actions[0]);
      DoFreezes(s, actions[0]);
      RunFreezes(Do(s, actions[0]), actions[1..], s');
      FrozenOn(s, Do(s, actions[0]), s');
    }
  }

  lemma FrozenOn(s: World, m: World, s': World)
    requires Frozen(s, m) && Frozen(m, s')
    ensures Frozen(s, s')
  {
  }

  /** A ride this process files is filed as memory last had it - the counts and
      state it ended with, for the reason it ended first, worth what ScoreDelta
      makes of that - and row, ride and filing stay so, whatever batches,
      ends and sweeps were still under way. */
  lemma FiledIsFinal(init: World, before: seq<Action>, s: World, f: Filing, after: seq<Action>, s': World)
    requires Init(init) && Reaches(init, before, s) && f in s.filings && f.id in s.rows && s.rows[f.id].mine
    requires Reaches(s, after, s')
    ensures f in s'.filings && f.id in s.past && s.past[f.id].ended && f.id in s'.past && s'.past[f.id] == s.past[f.id]
    ensures f.outcome == OutcomeOf(s.past[f.id].Summary())
    ensures f.id in s'.rows && s'.rows[f.id] ==
            RideRow(f.riderId, true, false, ProgressOf(s.past[f.id].Summary()), s.past[f.id].endReason)
  {
    InitInv(init);
    RunKeepsInv(init, before, s);
    RunFreezes(s, after, s');
    assert Closed(s, f.id);
  }

  // ---- One live ride, and none lost ----------------------------------------

  lemma AddingIsNotPast(s: World, id: string)
    requires Inv(s) && IsAdding(s, id)
    ensures id !in s.past && id in s.rows && s.rows[id].mine
  {
    var p :| p in s.procs && s.procs[p].Adding? && s.procs[p].wish.id == id;
    assert PcInv(s, s.procs[p]);
  }

  /** An open row of this process whose ride is not in memory. */
  lemma OutOfMemoryExactlyWhen(s: World, id: string)
    requires Inv(s) && Active(s, id) && s.rows[id].mine
    ensures id !in s.reg.rides <==> IsAdding(s, id) || id in s.lost
  {
    if IsAdding(s, id) {
      AddingIsNotPast(s, id);
    }
  }

  /** A rider has at most one live ride and it is the one their tier and their
      next start look up; and an open row of this process has its ride in memory,
      live or for the next sweep to file, exactly when no start is between its
      insert and its Add for it and none took its insert for failed. */
  lemma OneLiveRideAndNoneLost(init: World, actions: seq<Action>, s: World, now: Time)
    requires Init(init) && Reaches(init, actions, s)
    ensures forall a, b | s.reg.Live(a) && s.reg.Live(b) && s.reg.rides[a].riderId == s.reg.rides[b].riderId :: a == b
    ensures forall id | s.reg.Live(id) :: s.reg.ActiveRide(s.reg.rides[id].riderId) == Some(id)
    ensures forall u | u in s.reg.newest :: s.reg.newest[u] in s.reg.rides
    ensures forall id | Active(s, id) && s.rows[id].mine ::
              (s.reg.Live(id) || id in s.reg.Reap(now).Ended()) <==> !IsAdding(s, id) && id !in s.lost
  {
    InitInv(init);
    RunKeepsInv(init, actions, s);
    forall id | Active(s, id) && s.rows[id].mine
      ensures (s.reg.Live(id) || id in s.reg.Reap(now).Ended()) <==> !IsAdding(s, id) && id !in s.lost
    {
      OutOfMemoryExactlyWhen(s, id);
    }
  }

  // ---- Matched rides are on shapes -----------------------------------------

  lemma EffectKeepsShapes(s: World, pc: Pc, luck: Luck, now: Time)
    requires s.reg.OnShapes()
    ensures Effect(s, pc, luck, now).reg.OnShapes()
  {
    match pc
    case Ending(id, reason, _) => SectionsKeepShapes(s.reg, id, reason, TierNew, now);
    case Filed(id, _, _, _) => SectionsKeepShapes(s.reg, id, Idle, TierNew, now);
    case Dropping(id, _) => SectionsKeepShapes(s.reg, id, Idle, TierNew, now);
    case Retiering(u, tier, _) => SectionsKeepShapes(s.reg, u, Idle, tier, now);
    case Adding(w, tier, at) =>
      ChangesKeepShapes(s.reg, w.id, NewRide(w.id, w.riderId, w.key, w.trip, tier, at));
    case _ =>
      if pc.Writing? || pc.Recording? || pc.Inserting? {
        TablesLeaveMemory(s, pc, luck, now);
      }
  }

  lemma FoldKeepsShapes(s: World, pid: Pid, points: seq<Verification.Point>, ctx: Batches.Context)
    requires s.reg.OnShapes() && pid in s.procs && s.procs[pid].Fetching?
    ensures Fold(s, pid, points, ctx).reg.OnShapes()
  {
    var Fetching(id, _, key) := s.procs[pid];
    if s.reg.Live(id) && s.reg.rides[id].key == key {
      var r := s.reg.rides[id];
      Batches.PointsKeepShape(r, Batches.SortByTime(points), Batches.TrustedAlong(r, ctx), ctx);
      ChangesKeepShapes(s.reg, id, Batches.ApplyBatch(r, points, ctx).ride);
    }
  }

  lemma DoKeepsShapes(s: World, a: Action)
    requires s.reg.OnShapes() && Enabled(s, a)
    ensures Do(s, a).reg.OnShapes()
  {
    match a
    case Advance(pid, luck, now) => EffectKeepsShapes(s, s.procs[pid], luck, now);
    case Apply(pid, points, ctx) => FoldKeepsShapes(s, pid, points, ctx);
    case Reap(_, _, now) => SectionsKeepShapes(s.reg, "", Idle, TierNew, now);
    case _ =>
  }

  lemma {:induction false} RunKeepsShapes(s: World, actions: seq<Action>, s': World)
    requires s.reg.OnShapes() && Reaches(s, actions, s')
    ensures s'.reg.OnShapes()
    decreases |actions|
  {
    if |actions| > 0 {
      DoKeepsShapes(s, actions[0]);
      RunKeepsShapes(Do(s, actions[0]), actions[1..], s');
    }
  }

  /** Over every run: a registered ride that has matched a point is on a trip with
      a shape. */
  lemma MatchedRidesAreOnShapes(init: World, actions: seq<Action>, s: World)
    requires Init(init) && Reaches(init, actions, s)
    ensures s.reg.OnShapes()
  {
    RunKeepsShapes(init, actions, s);
  }
}
