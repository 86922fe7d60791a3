/** An insert reported as an error that took effect: the row stays open, and no
    start of its rider succeeds, until a restart's sweep (rider_store.go). */
module LostInserts {
  import opened Prelude
  import Batches
  import Verification
  import opened Reputation
  import opened Registry
  import opened RideFiling
  import opened RideInvariant
  import opened RideLaws

  // ---- Lost inserts --------------------------------------------------------

  /** The row is open, and one whose insert was taken for failed. */
  ghost predicate LostOpen(s: World, id: string, riderId: string) {
    id in s.lost && Active(s, id) && s.rows[id].riderId == riderId
  }

  lemma EffectKeepsOpen(s: World, pc: Pc, luck: Luck, now: Time, id: string, riderId: string)
    requires LostOpen(s, id, riderId) && !(pc.Writing? && pc.id == id) && (pc.Inserting? ==> pc.wish.id != id)
    ensures LostOpen(Effect(s, pc, luck, now), id, riderId)
  {
  }

  lemma AdvanceKeepsOpen(s: World, a: Action, id: string, riderId: string)
    requires Inv(s) && LostOpen(s, id, riderId) && Enabled(s, a) && a.Advance?
    ensures LostOpen(Do(s, a), id, riderId)
  {
    assert PcInv(s, s.procs[a.pid]);
    EffectKeepsOpen(s, s.procs[a.pid], a.luck, a.now, id, riderId);
  }

  lemma OthersKeepOpen(s: World, a: Action, id: string, riderId: string)
    requires LostInv(s) && LostOpen(s, id, riderId) && Enabled(s, a) && (a.ForeignStart? || a.ForeignFinish?)
    ensures LostOpen(Do(s, a), id, riderId)
  {
  }

  lemma FoldKeepsTables(s: World, pid: Pid, points: seq<Verification.Point>, ctx: Batches.Context)
    requires pid in s.procs && s.procs[pid].Fetching?
    ensures Fold(s, pid, points, ctx).rows == s.rows && Fold(s, pid, points, ctx).lost == s.lost
  {
  }

  lemma RequestsKeepTables(s: World, a: Action)
    requires Enabled(s, a) && !a.Advance? && !a.ForeignStart? && !a.ForeignFinish? && !a.ForeignSweep?
    ensures Do(s, a).rows == s.rows && Do(s, a).lost == s.lost
  {
    if IsRequest(a) {
      var pc := RequestMoves(s, a);
    } else if a.Apply? {
      FoldKeepsTables(s, a.pid, a.points, a.ctx);
    }
  }

  lemma OnlyTheSweepEndsIt(s: World, a: Action, id: string, riderId: string)
    requires Inv(s) && LostOpen(s, id, riderId) && Enabled(s, a) && a != ForeignSweep
    ensures LostOpen(Do(s, a), id, riderId)
  {
    if a.Advance? {
      AdvanceKeepsOpen(s, a, id, riderId);
    } else if a.ForeignStart? || a.ForeignFinish? {
      OthersKeepOpen(s, a, id, riderId);
    } else {
      RequestsKeepTables(s, a);
    }
  }

  ghost predicate NoRestart(actions: seq<Action>) {
    forall k | 0 <= k < |actions| :: actions[k] != ForeignSweep
  }

  lemma {:induction false} StaysLost(s: World, actions: seq<Action>, s': World, id: string, riderId: string)
    requires Inv(s) && Reaches(s, actions, s') && LostOpen(s, id, riderId) && NoRestart(actions)
    ensures LostOpen(s', id, riderId)
    decreases |actions|
  {
    if |actions| > 0 {
      DoKeepsInv(s, actions[0]);
      OnlyTheSweepEndsIt(s, actions[0], id, riderId);
      StaysLost(Do(s, actions[0]), actions[1..], s', id, riderId);
    }
  }

  lemma BusyRiderIsRefused(s: World, riderId: string, pc: Pc, luck: Luck, now: Time)
    requires HasActive(s, riderId) && pc.Inserting? && pc.wish.riderId == riderId
    ensures Next(s, pc, luck, now) == Over
  {
  }

  lemma OpenRowRefusesStarts(s: World, id: string)
    requires Active(s, id)
    ensures forall pc: Pc, luck, now | pc.Inserting? && pc.wish.riderId == s.rows[id].riderId :: Next(s, pc, luck, now) == Over
  {
    assert HasActive(s, s.rows[id].riderId);
    forall pc: Pc, luck, now | pc.Inserting? && pc.wish.riderId == s.rows[id].riderId
      ensures Next(s, pc, luck, now) == Over
    {
      BusyRiderIsRefused(s, s.rows[id].riderId, pc, luck, now);
    }
  }

  /** An insert that took effect but was taken for failed leaves a row that, in
      every run without a restart's sweep, stays open, its ride never in memory
      for this process to file, and has the rider's every start refused. */
  lemma LostInsertStaysOpen(init: World, before: seq<Action>, s: World, id: string, after: seq<Action>, s': World)
    requires Init(init) && Reaches(init, before, s) && id in s.lost && Active(s, id)
    requires Reaches(s, after, s') && NoRestart(after)
    ensures Active(s', id) && id !in s'.reg.rides
    ensures forall pc: Pc, luck, now | pc.Inserting? && pc.wish.riderId == s.rows[id].riderId :: Next(s', pc, luck, now) == Over
  {
    InitInv(init);
    RunKeepsInv(init, before, s);
    StaysLost(s, after, s', id, s.rows[id].riderId);
    RunKeepsInv(s, after, s');
    OpenRowRefusesStarts(s', id);
  }

  // ---- A run that loses an insert ------------------------------------------

  ghost predicate Ran(s: World) {
    exists init, actions :: Init(init) && Reaches(init, actions, s)
  }

  lemma {:induction false} ReachesOneMore(s: World, actions: seq<Action>, s': World, a: Action)
    requires Reaches(s, actions, s') && Enabled(s', a)
    ensures Reaches(s, actions + [a], Do(s', a))
    decreases |actions|
  {
    if |actions| == 0 {
      assert [a][1..] == [];
      assert Reaches(Do(s, a), [a][1..], Do(s, a));
      assert actions + [a] == [a];
    } else {
      ReachesOneMore(Do(s, actions[0]), actions[1..], s', a);
      assert (actions + [a])[1..] == actions[1..] + [a];
    }
  }

  lemma RunsOn(s: World, a: Action)
    requires Ran(s) && Enabled(s, a)
    ensures Ran(Do(s, a))
  {
    var init, actions :| Init(init) && Reaches(init, actions, s);
    ReachesOneMore(init, actions, s, a);
  }

  /** One rider, u, with one start under way. */
  function Starting(locks: map<string, Pid>, pc: Pc): World {
    World(Registry(map[], map[]), map[], map["u" := NEW_RIDER], [], locks, map[1 := pc], map[], {}, map["u" := NEW_RIDER])
  }

  lemma StartGoesOn(RW: iset<World>, locks: map<string, Pid>, pc: Pc, pc': Pc)
    requires (forall s, a | s in RW && Enabled(s, a) :: Do(s, a) in RW) && Starting(locks, pc) in RW
    requires pc.Waiting? || pc.Looking? || pc.Loading?
    requires Enabled(Starting(locks, pc), Advance(1, Fine, 0)) && Next(Starting(locks, pc), pc, Fine, 0) == pc'
    requires Holds(pc').Some? && (pc.Waiting? || Holds(pc') == Holds(pc))
    ensures Starting(if pc.Waiting? then locks[Holds(pc').value := 1] else locks, pc') in RW
  {
    var s := Starting(locks, pc);
    assert Do(s, Advance(1, Fine, 0)) == Starting(if pc.Waiting? then locks[Holds(pc').value := 1] else locks, pc');
  }

  lemma StartIsInserting(RW: iset<World>, w: Wish)
    requires (forall s, a | s in RW && Enabled(s, a) :: Do(s, a) in RW) && w.riderId == "u"
    requires World(Registry(map[], map[]), map[], map[], [], map[], map[], map[], {}, map[]) in RW
    ensures Starting(map["u" := 1], Inserting(w, TierNew)) in RW
  {
    var empty := World(Registry(map[], map[]), map[], map[], [], map[], map[], map[], {}, map[]);
    var known := empty.(riders := map["u" := NEW_RIDER], opening := map["u" := NEW_RIDER]);
    assert Do(empty, Register("u")) == known;
    assert Do(known, StartRequest(1, w)) == Starting(map[], Waiting(w));
    StartGoesOn(RW, map[], Waiting(w), Looking(w));
    assert map[]["u" := 1] == map["u" := 1];
    StartGoesOn(RW, map["u" := 1], Looking(w), Loading(w));
    StartGoesOn(RW, map["u" := 1], Loading(w), Inserting(w, TierNew));
  }

  /** The worlds runs lead to, with the runs hidden. */
  lemma AllRan() returns (RW: iset<World>)
    ensures forall s, a | s in RW && Enabled(s, a) :: Do(s, a) in RW
    ensures World(Registry(map[], map[]), map[], map[], [], map[], map[], map[], {}, map[]) in RW
    ensures forall s | s in RW :: Ran(s)
  {
    var empty := World(Registry(map[], map[]), map[], map[], [], map[], map[], map[], {}, map[]);
    RW := iset t | Ran(t);
    assert Init(empty) && Reaches(empty, [], empty);
    forall t, a | t in RW && Enabled(t, a) ensures Do(t, a) in RW {
      RunsOn(t, a);
    }
  }

  /** It happens: a rider's first start, its insert reported as an error. */
  lemma LosesAnInsert(w: Wish) returns (s: World)
    requires w.riderId == "u"
    ensures Ran(s) && w.id in s.lost && Active(s, w.id) && s.procs == map[1 := Over]
  {
    var RW := AllRan();
    StartIsInserting(RW, w);
    var before := Starting(map["u" := 1], Inserting(w, TierNew));
    InsertIsLost(w, before);
    s := Do(before, Advance(1, CommitLost, 0));
  }

  lemma InsertIsLost(w: Wish, before: World)
    requires w.riderId == "u" && before == Starting(map["u" := 1], Inserting(w, TierNew))
    ensures Enabled(before, Advance(1, CommitLost, 0))
    ensures var s := Do(before, Advance(1, CommitLost, 0)); w.id in s.lost && Active(s, w.id) && s.procs == map[1 := Over]
  {
    InsertingGoes(before, Inserting(w, TierNew), CommitLost, 0, true);
  }
}
