/** Every step of RideFiling keeps its invariant: starts, batches, sweeps, other
    instances, and the dispatch over all of them. */
module RideInvariant {
  import opened Prelude
  import Batches
  import Verification
  import opened Reputation
  import opened Sessions
  import opened Registry
  import opened RideFiling

  // ---- Starting a ride -----------------------------------------------------

  lemma InsertKeepsTables(s: World, w: Wish)
    requires TablesInv(s) && w.id !in s.rows
    ensures TablesStep(s, InsertRide(s, w, true)) && TablesInv(InsertRide(s, w, true))
    ensures w.id !in s.past && w.id !in s.lost
  {
    UnfiledKeepsTables(s, InsertRide(s, w, true));
  }

  lemma InsertOpensRow(s: World, pid: Pid, now: Time)
    requires Inv(s) && pid in s.procs && s.procs[pid].Inserting? && s.procs[pid].wish.id !in s.rows
    ensures var w := s.procs[pid].wish; var m := InsertRide(s, w, true); var pc := Adding(w, s.procs[pid].tier, now);
            TablesStep(s, m) && TablesInv(m) && PcInv(m, pc) && RowsInv(Move(m, pid, pc))
  {
    var w := s.procs[pid].wish;
    assert PcInv(s, s.procs[pid]);
    InsertKeepsTables(s, w);
    InsertKeepsRows(s, pid, Adding(w, s.procs[pid].tier, now));
  }

  lemma InsertKeepsRows(s: World, pid: Pid, pc: Pc)
    requires RowsInv(s) && pid in s.procs && s.procs[pid].Inserting? && pc.Adding? && pc.wish == s.procs[pid].wish
    ensures RowsInv(Move(InsertRide(s, pc.wish, true), pid, pc))
  {
    var w := pc.wish;
    var s' := Move(InsertRide(s, w, true), pid, pc);
    assert s'.procs[pid].wish.id == w.id;
    forall id | Active(s', id) && s'.rows[id].mine && id !in s'.reg.rides && id !in s'.lost ensures IsAdding(s', id) {
      if id != w.id {
        assert Active(s, id) && IsAdding(s, id);
        var p :| p in s.procs && s.procs[p].Adding? && s.procs[p].wish.id == id;
        assert s'.procs[p] == s.procs[p];
      }
    }
  }

  lemma InsertFinishes(s: World, pid: Pid, now: Time)
    requires Inv(s) && pid in s.procs && s.procs[pid].Inserting? && s.procs[pid].wish.id !in s.rows
    ensures Inv(Recall(Move(InsertRide(s, s.procs[pid].wish, true), pid, Adding(s.procs[pid].wish, s.procs[pid].tier, now))))
  {
    var m := InsertRide(s, s.procs[pid].wish, true);
    var pc := Adding(s.procs[pid].wish, s.procs[pid].tier, now);
    InsertOpensRow(s, pid, now);
    TablesKeepOthers(s, m, pid);
    MoveKeepsLocks(m, pid, pc);
    MoveKeepsInv(m, pid, pc);
    RecallIsStable(Move(m, pid, pc));
  }

  lemma InsertLost(s: World, w: Wish)
    requires Inv(s) && w.id !in s.rows
    ensures var m := InsertRide(s, w, true).(lost := s.lost + {w.id});
            TablesStep(s, m) && TablesInv(m) && RowsInv(m)
  {
    var m := InsertRide(s, w, true).(lost := s.lost + {w.id});
    UnfiledKeepsTables(s, m);
    TablesKeepRows(s, m);
  }

  lemma InsertFails(s: World, pid: Pid, lost: bool)
    requires Inv(s) && pid in s.procs && s.procs[pid].Inserting? && s.procs[pid].wish.id !in s.rows
    ensures var w := s.procs[pid].wish;
            var m := if lost then InsertRide(s, w, true).(lost := s.lost + {w.id}) else s;
            Inv(Recall(Move(m, pid, Over)))
  {
    var w := s.procs[pid].wish;
    if lost {
      InsertLost(s, w);
      TablesMove(s, InsertRide(s, w, true).(lost := s.lost + {w.id}), pid, Over);
    } else {
      TablesMove(s, s, pid, Over);
    }
  }

  lemma InsertingGoes(s: World, pc: Pc, luck: Luck, now: Time, opens: bool)
    requires pc.Inserting? && opens == (luck != Error && !HasActive(s, pc.wish.riderId))
    ensures Next(s, pc, luck, now) == if opens && luck == Fine then Adding(pc.wish, pc.tier, now) else Over
    ensures Effect(s, pc, luck, now) ==
            if !opens then s
            else if luck == Fine then InsertRide(s, pc.wish, true)
            else InsertRide(s, pc.wish, true).(lost := s.lost + {pc.wish.id})
  {
  }

  lemma InsertingKeepsInv(s: World, pid: Pid, luck: Luck, now: Time)
    requires Inv(s) && pid in s.procs && s.procs[pid].Inserting? && s.procs[pid].wish.id !in s.rows
    ensures Inv(Recall(Move(Effect(s, s.procs[pid], luck, now), pid, Next(s, s.procs[pid], luck, now))))
  {
    var opens := luck != Error && !HasActive(s, s.procs[pid].wish.riderId);
    InsertingGoes(s, s.procs[pid], luck, now, opens);
    if opens && luck == Fine {
      InsertFinishes(s, pid, now);
    } else {
      InsertFails(s, pid, opens);
    }
  }

  /** The new ride is in nobody's way: its row is new, and its rider had none. */
  lemma AddingKeepsTables(s: World, w: Wish, r: Ride, tier: Tier, at: Time, m: World)
    requires TablesInv(s) && PcInv(s, Adding(w, tier, at))
    requires r == NewRide(w.id, w.riderId, w.key, w.trip, tier, at) && m == Recall(s.(reg := s.reg.Add(r)))
    ensures TablesInv(m) && m.past == s.past[w.id := r]
  {
    AddKeepsOneEach(s.reg, r);
    AddingRecalls(s, r, m);
    AddingKeepsFiled(s, r, m);
  }

  lemma AddingRecalls(s: World, r: Ride, m: World)
    requires MemoryInv(s) && m == Recall(s.(reg := s.reg.Add(r)))
    ensures m.past == s.past[r.id := r]
  {
  }

  lemma AddingKeepsFiled(s: World, r: Ride, m: World)
    requires FiledInv(s) && r.id !in s.past && m.past == s.past[r.id := r] && m.rows == s.rows && m.riders == s.riders
    requires m.filings == s.filings
    ensures FiledInv(m)
  {
  }

  lemma AddingKeepsRows(s: World, r: Ride, m: World)
    requires RowsInv(s) && m == Recall(s.(reg := s.reg.Add(r)))
    ensures RowsInv(m)
  {
    forall id | Active(m, id) && m.rows[id].mine ensures id in m.reg.rides || IsAdding(m, id) || id in m.lost {
      if IsAdding(s, id) {
        assert IsAdding(m, id);
      }
    }
  }

  lemma AddingKeepsPc(s: World, w: Wish, r: Ride, m: World, pc: Pc)
    requires MemoryInv(s) && PcInv(s, pc) && m.past == s.past[w.id := r] && m == Recall(s.(reg := s.reg.Add(r)))
    requires r.id == w.id && r.riderId == w.riderId && w.id !in s.past && Holds(pc) != Some(w.riderId)
    requires w.id in s.rows && s.rows[w.id].riderId == w.riderId
    ensures PcInv(m, pc)
  {
    AddLeavesOthers(s.reg, r);
    if pc.Adding? {
      assert pc.wish.riderId != w.riderId;
    }
  }

  /** Riders but the new ride's have no more live than they had. */
  lemma AddLeavesOthers(g: Registry, r: Ride)
    ensures forall id :: g.Add(r).Live(id) && g.Add(r).rides[id].riderId != r.riderId ==>
              g.Live(id) && g.rides[id] == g.Add(r).rides[id]
    ensures forall u :: u != r.riderId && g.NoneLive(u) ==> g.Add(r).NoneLive(u)
  {
  }

  lemma AddingKeepsOthers(s: World, pid: Pid, r: Ride, m: World)
    requires Inv(s) && pid in s.procs && s.procs[pid].Adding? && m == Recall(s.(reg := s.reg.Add(r)))
    requires var w := s.procs[pid].wish; r.id == w.id && r.riderId == w.riderId && m.past == s.past[w.id := r]
    ensures forall p | p in m.procs && p != pid :: PcInv(m, m.procs[p])
  {
    assert PcInv(s, s.procs[pid]);
    forall p | p in m.procs && p != pid ensures PcInv(m, m.procs[p]) {
      HoldersDiffer(s, pid, p);
      AddingKeepsPc(s, s.procs[pid].wish, r, m, s.procs[p]);
    }
  }

  lemma AddKeepsInv(s: World, pid: Pid, w: Wish, tier: Tier, at: Time, r: Ride)
    requires Inv(s) && pid in s.procs && s.procs[pid] == Adding(w, tier, at)
    requires r == NewRide(w.id, w.riderId, w.key, w.trip, tier, at)
    ensures Inv(Recall(Move(s.(reg := s.reg.Add(r)), pid, Over)))
  {
    var e := s.(reg := s.reg.Add(r));
    var m := Recall(e);
    assert PcInv(s, Adding(w, tier, at));
    AddingKeepsTables(s, w, r, tier, at, m);
    AddingKeepsRows(s, r, m);
    AddingKeepsOthers(s, pid, r, m);
    MoveKeepsLocks(m, pid, Over);
    RecallMove(e, pid, Over);
    StepKeepsInv(m, pid, Over);
  }

  lemma AddingKeepsInv(s: World, pid: Pid, now: Time)
    requires Inv(s) && pid in s.procs && s.procs[pid].Adding?
    ensures Inv(Recall(Move(Effect(s, s.procs[pid], Fine, now), pid, Over)))
  {
    var Adding(w, tier, at) := s.procs[pid];
    var r := NewRide(w.id, w.riderId, w.key, w.trip, tier, at);
    assert Effect(s, s.procs[pid], Fine, now) == s.(reg := s.reg.Add(r));
    AddKeepsInv(s, pid, w, tier, at, r);
  }

  // ---- The steps that only look --------------------------------------------

  lemma LookingIsFit(s: World, pc: Pc, now: Time)
    requires Inv(s) && PcInv(s, pc) && (pc.Waiting? || pc.Looking? || pc.Loading? || pc.Posting?)
    ensures forall luck :: PcInv(s, Next(s, pc, luck, now)) && (pc.Waiting? || KeepsLock(pc, Next(s, pc, luck, now)))
  {
    if pc.Looking? {
      ActiveIsTheLiveRide(s.reg, pc.wish.riderId);
    }
  }

  lemma LookingKeepsInv(s: World, pid: Pid, luck: Luck, now: Time)
    requires Inv(s) && Enabled(s, Advance(pid, luck, now))
    requires var pc := s.procs[pid]; pc.Waiting? || pc.Looking? || pc.Loading? || pc.Posting?
    ensures Inv(Recall(Move(s, pid, Next(s, s.procs[pid], luck, now))))
  {
    var pc := s.procs[pid];
    assert PcInv(s, pc);
    LookingIsFit(s, pc, now);
    MoveKeepsLocks(s, pid, Next(s, pc, luck, now));
    PlainMove(s, pid, Next(s, pc, luck, now));
  }

  lemma MemoryKeepsInv(s: World, pid: Pid, now: Time)
    requires Inv(s) && pid in s.procs
    requires var pc := s.procs[pid]; pc.Ending? || pc.Filed? || pc.Dropping? || pc.Retiering?
    ensures Inv(Do(s, Advance(pid, Fine, now)))
  {
    match s.procs[pid]
    case Ending(_, _, _) => EndingKeepsInv(s, pid, now);
    case Filed(_, _, _, _) => RemovingKeepsInv(s, pid, now);
    case Dropping(_, _) => RemovingKeepsInv(s, pid, now);
    case Retiering(_, _, _) => RetieringKeepsInv(s, pid, now);
  }

  lemma StoringKeepsInv(s: World, pid: Pid, luck: Luck, now: Time)
    requires Inv(s) && Enabled(s, Advance(pid, luck, now))
    requires var pc := s.procs[pid]; pc.Writing? || pc.Recording? || pc.Inserting? || pc.Adding?
    ensures Inv(Recall(Move(Effect(s, s.procs[pid], luck, now), pid, Next(s, s.procs[pid], luck, now))))
  {
    match s.procs[pid]
    case Writing(_, _, _) => WritingKeepsInv(s, pid, luck, now);
    case Recording(_, _, _) => WritingKeepsInv(s, pid, luck, now);
    case Inserting(_, _) => InsertingKeepsInv(s, pid, luck, now);
    case Adding(_, _, _) => AddingKeepsInv(s, pid, now);
  }

  lemma AdvanceMoves(s: World, pid: Pid, luck: Luck, now: Time)
    requires Enabled(s, Advance(pid, luck, now))
    ensures var pc := s.procs[pid];
            Do(s, Advance(pid, luck, now)) == Recall(Move(Effect(s, pc, luck, now), pid, Next(s, pc, luck, now)))
  {
  }

  lemma AdvanceKeepsInv(s: World, pid: Pid, luck: Luck, now: Time)
    requires Inv(s) && Enabled(s, Advance(pid, luck, now))
    ensures Inv(Do(s, Advance(pid, luck, now)))
  {
    var pc := s.procs[pid];
    if pc.Ending? || pc.Filed? || pc.Dropping? || pc.Retiering? {
      MemoryKeepsInv(s, pid, now);
    } else {
      AdvanceMoves(s, pid, luck, now);
      if pc.Writing? || pc.Recording? || pc.Inserting? || pc.Adding? {
        StoringKeepsInv(s, pid, luck, now);
      } else {
        LookingKeepsInv(s, pid, luck, now);
      }
    }
  }

  // ---- Batches, sweeps, other instances ------------------------------------

  lemma PointKeepsIdentity(s: Batches.Progress, p: Verification.Point, along: Option<real>, ctx: Batches.Context)
    ensures var done := Batches.ApplyPoint(s, p, along, ctx).ride; done.id == s.ride.id && done.riderId == s.ride.riderId
  {
    ApplyKeepsIdentity(s.ride, Verification.Verify(Batches.InputFor(s.ride, p, along, ctx)), p);
  }

  ghost predicate SameRide(r: Ride, r': Ride) {
    r'.id == r.id && r'.riderId == r.riderId && r'.key == r.key && r'.trip == r.trip && r'.startedAt == r.startedAt
  }

  lemma MatchedKeepsIdentity(r: Ride, c: Verification.Corroboration, at: Time)
    ensures SameRide(r, r.TallyMatch(at)) && SameRide(r, r.TallyCorroboration(c)) && SameRide(r, r.Judge(at))
  {
  }

  lemma NonMatchedKeepsIdentity(r: Ride, o: Verification.Outcome, at: Time)
    ensures SameRide(r, r.ApplyNonMatched(o, at))
  {
  }

  lemma ApplyKeepsIdentity(r: Ride, v: Verification.Verdict, p: Verification.Point)
    ensures SameRide(r, r.Apply(v, p))
  {
    if !r.ended && v.outcome != Verification.Ignored {
      var t := r.Counted(v, p);
      if v.outcome == Verification.Matched {
        ApplyMatchedKeepsIdentity(t.(latestMatched := t.latest), v.corroboration, p.timestamp);
      } else {
        NonMatchedKeepsIdentity(t, v.outcome, p.timestamp);
      }
    }
  }

  lemma ApplyMatchedKeepsIdentity(r: Ride, c: Verification.Corroboration, at: Time)
    ensures SameRide(r, r.ApplyMatched(c, at))
  {
    MatchedKeepsIdentity(r, c, at);
    MatchedKeepsIdentity(r.TallyMatch(at), c, at);
    MatchedKeepsIdentity(r.TallyMatch(at).TallyCorroboration(c), c, at);
  }

  lemma {:induction false} PointsKeepIdentity(r: Ride, points: seq<Verification.Point>, along: Option<real>, ctx: Batches.Context)
    ensures var done := Batches.ApplyPoints(r, points, along, ctx).ride; done.id == r.id && done.riderId == r.riderId
  {
    if |points| > 0 {
      PointsKeepIdentity(r, points[..|points| - 1], along, ctx);
      PointKeepsIdentity(Batches.ApplyPoints(r, points[..|points| - 1], along, ctx), points[|points| - 1], along, ctx);
    }
  }

  lemma BatchKeepsInv(s: World, pid: Pid, id: string, r: Ride, pc: Pc)
    requires Inv(s) && pid in s.procs && s.procs[pid].Fetching? && s.reg.Live(id)
    requires r.id == id && r.riderId == s.reg.rides[id].riderId && Holds(pc).None? && forall t :: PcInv(t, pc)
    ensures Inv(Recall(Move(s.(reg := s.reg.Update(id, r)), pid, pc)))
  {
    MoveKeepsLocks(s, pid, pc);
    UpdateIsAStep(s, id, r);
    RegistryMove(s, s.reg.Update(id, r), pid, pc);
  }

  lemma AfterBatchFits(id: string, blocked: bool, done: Batches.Progress)
    ensures Holds(AfterBatch(id, blocked, done)).None? && forall t :: PcInv(t, AfterBatch(id, blocked, done))
  {
  }

  lemma ApplyKeepsInv(s: World, pid: Pid, points: seq<Verification.Point>, ctx: Batches.Context)
    requires Inv(s) && pid in s.procs && s.procs[pid].Fetching?
    ensures Inv(Recall(Fold(s, pid, points, ctx)))
  {
    var Fetching(id, blocked, key) := s.procs[pid];
    if !s.reg.Live(id) || s.reg.rides[id].key != key {
      MoveKeepsLocks(s, pid, Over);
      PlainMove(s, pid, Over);
    } else {
      var r := s.reg.rides[id];
      var done := Batches.ApplyBatch(r, points, ctx);
      PointsKeepIdentity(r, Batches.SortByTime(points), Batches.TrustedAlong(r, ctx), ctx);
      AfterBatchFits(id, blocked, done);
      BatchKeepsInv(s, pid, id, done.ride, AfterBatch(id, blocked, done));
    }
  }

  lemma ReapKeepsInv(s: World, pid: Pid, order: seq<string>, now: Time)
    requires Inv(s) && pid !in s.procs
    ensures Inv(Recall(Move(s.(reg := s.reg.Reap(now)), pid, Resume(Sweep(order), NotActive))))
  {
    ReapKeepsOneEach(s.reg, now);
    MoveKeepsLocks(s, pid, Resume(Sweep(order), NotActive));
    RegistryMove(s, s.reg.Reap(now), pid, Resume(Sweep(order), NotActive));
  }

  lemma QuietTablesKeepInv(s: World, m: World)
    requires Inv(s) && TablesStep(s, m) && TablesInv(m) && RowsInv(m)
    ensures Inv(Recall(m))
  {
    RecallIsStable(m);
    forall p | p in m.procs ensures PcInv(m, m.procs[p]) {
      TablesKeepPc(s, m, s.procs[p]);
    }
  }

  lemma RegisterKeepsInv(s: World, u: string)
    requires Inv(s) && u !in s.riders
    ensures Inv(Do(s, Register(u)))
  {
    var m := Act(s, Register(u));
    RegisterKeepsTables(s, u, m);
    TablesKeepRows(s, m);
    QuietTablesKeepInv(s, m);
  }

  lemma ForeignStartKeepsInv(s: World, id: string, u: string)
    requires Inv(s) && Enabled(s, ForeignStart(id, u))
    ensures Inv(Do(s, ForeignStart(id, u)))
  {
    var m := Act(s, ForeignStart(id, u));
    UnfiledKeepsTables(s, m);
    TablesKeepRows(s, m);
    QuietTablesKeepInv(s, m);
  }

  lemma ForeignSweepKeepsInv(s: World)
    requires Inv(s)
    ensures Inv(Do(s, ForeignSweep))
  {
    var m := Act(s, ForeignSweep);
    UnfiledKeepsTables(s, m);
    TablesKeepRows(s, m);
    QuietTablesKeepInv(s, m);
  }

  lemma {:induction false} StrangerStands(opening: RiderRow, filings: seq<Filing>, u: string)
    requires forall f | f in filings :: f.riderId != u
    ensures Standing(opening, filings, u) == opening
  {
    if |filings| > 0 {
      StrangerStands(opening, filings[..|filings| - 1], u);
    }
  }

  lemma RegisterKeepsTables(s: World, u: string, m: World)
    requires TablesInv(s) && u !in s.riders
    requires m == s.(riders := s.riders[u := NEW_RIDER], opening := s.opening[u := NEW_RIDER])
    ensures TablesInv(m)
  {
    StrangerStands(NEW_RIDER, s.filings, u);
  }

  lemma ForeignFinishKeepsInv(s: World, id: string, o: RideOutcome)
    requires Inv(s) && Enabled(s, ForeignFinish(id, o))
    ensures Inv(Do(s, ForeignFinish(id, o)))
  {
    var m := FinishRide(s, id, o);
    FilingKeepsTables(s, id, o);
    TablesKeepRows(s, m);
    QuietTablesKeepInv(s, m);
  }

  lemma RequestKeepsInv(s: World, pid: Pid, pc: Pc)
    requires Inv(s) && pid !in s.procs && Holds(pc).None? && PcInv(s, pc)
    ensures Inv(Recall(Move(s, pid, pc)))
  {
    MoveKeepsLocks(s, pid, pc);
    PlainMove(s, pid, pc);
  }

  predicate IsRequest(a: Action) {
    a.EndRequest? || a.StartRequest? || a.Post?
  }

  lemma RequestMoves(s: World, a: Action) returns (pc: Pc)
    requires Enabled(s, a) && IsRequest(a)
    ensures a.pid !in s.procs && Do(s, a) == Recall(Move(s, a.pid, pc)) && Holds(pc).None? && forall t :: PcInv(t, pc)
  {
    match a
    case EndRequest(_, id, reason) => pc := Ending(id, reason, Stop);
    case StartRequest(_, w) => pc := Waiting(w);
    case Post(_, id) => pc := Posting(id, s.reg.rides[id].tier == TierBlocked);
  }

  lemma RequestsKeepInv(s: World, a: Action)
    requires Inv(s) && Enabled(s, a) && IsRequest(a)
    ensures Inv(Do(s, a))
  {
    var pc := RequestMoves(s, a);
    RequestKeepsInv(s, a.pid, pc);
  }

  lemma DoKeepsInv(s: World, a: Action)
    requires Inv(s) && Enabled(s, a)
    ensures Inv(Do(s, a))
  {
    match a
    case Reap(pid, order, now) => ReapKeepsInv(s, pid, order, now);
    case Apply(pid, points, ctx) => ApplyKeepsInv(s, pid, points, ctx);
    case Advance(pid, luck, now) => AdvanceKeepsInv(s, pid, luck, now);
    case ForeignFinish(id, o) => ForeignFinishKeepsInv(s, id, o);
    case Register(u) => RegisterKeepsInv(s, u);
    case ForeignStart(id, u) => ForeignStartKeepsInv(s, id, u);
    case ForeignSweep => ForeignSweepKeepsInv(s);
    case EndRequest(_, _, _) => RequestsKeepInv(s, a);
    case StartRequest(_, _) => RequestsKeepInv(s, a);
    case Post(_, _) => RequestsKeepInv(s, a);
  }
}
