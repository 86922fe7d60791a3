/** Every request of RideFiling comes to an end: in a bounded number of its own
    steps, and with none ever stuck (rider_handlers.go, rider_wiring.go). */
module RideCompletion {
  import opened Prelude
  import Sessions
  import Batches
  import Verification
  import opened RideFiling
  import opened RideLaws
  import opened RideInvariant
  import RideSweeps

  // ---- In how many steps ---------------------------------------------------

  /** Finishing a ride is four steps, and so is each that a sweep has yet to do. */
  function StepsAfter(t: Then): nat {
    match t
    case Stop => 0
    case Sweep(rest) => 4 * |rest|
    case Begin(_) => 3
    case Retire(_) => 4
  }

  /** The steps a request may yet take. */
  function StepsLeft(pc: Pc): nat {
    match pc
    case Ending(_, _, t) => 4 + StepsAfter(t)
    case Writing(_, _, t) => 3 + StepsAfter(t)
    case Filed(_, _, _, t) => 2 + StepsAfter(t)
    case Dropping(_, t) => 1 + StepsAfter(t)
    case Retiering(_, _, t) => 1 + StepsAfter(t)
    case Waiting(_) => 9
    case Looking(_) => 8
    case Loading(_) => 3
    case Inserting(_, _) => 2
    case Adding(_, _, _) => 1
    case Posting(_, _) => 11
    case Fetching(_, _, _) => 10
    case Recording(_, _, _) => 9
    case Over => 0
  }

  /** The action is a step of the request, past its first. */
  predicate Takes(a: Action, pid: Pid) {
    (a.Advance? || a.Apply?) && a.pid == pid
  }

  function OwnSteps(actions: seq<Action>, pid: Pid): nat {
    if |actions| == 0 then 0 else (if Takes(actions[0], pid) then 1 else 0) + OwnSteps(actions[1..], pid)
  }

  lemma ResumeSpends(t: Then, f: Finish)
    ensures StepsLeft(Resume(t, f)) <= StepsAfter(t)
  {
  }

  lemma NextSpends(s: World, pc: Pc, luck: Luck, now: Time)
    requires !pc.Over? && !pc.Fetching?
    ensures StepsLeft(Next(s, pc, luck, now)) < StepsLeft(pc)
  {
    if pc.Ending? || pc.Writing? || pc.Dropping? || pc.Retiering? {
      ResumeSpends(pc.after, NotActive);
      ResumeSpends(pc.after, StoreError);
      if pc.Retiering? {
        ResumeSpends(pc.after, Rescored(pc.tier));
      }
    }
  }

  /** Where a batch, once folded in, leads. */
  predicate BatchLeadsTo(pc: Pc) {
    pc.Over? || pc.Recording? || (pc.Ending? && pc.after.Stop?)
  }

  lemma BatchLeads(id: string, blocked: bool, done: Batches.Progress)
    ensures BatchLeadsTo(AfterBatch(id, blocked, done))
  {
  }

  lemma FoldLeads(s: World, pid: Pid, points: seq<Verification.Point>, ctx: Batches.Context)
    requires pid in s.procs && s.procs[pid].Fetching?
    ensures pid in Fold(s, pid, points, ctx).procs && BatchLeadsTo(Fold(s, pid, points, ctx).procs[pid])
  {
    var Fetching(id, blocked, key) := s.procs[pid];
    if s.reg.Live(id) && s.reg.rides[id].key == key {
      BatchLeads(id, blocked, Batches.ApplyBatch(s.reg.rides[id], points, ctx));
    }
  }

  lemma StepSpends(s: World, pid: Pid, a: Action)
    requires Enabled(s, a) && Takes(a, pid)
    ensures pid in Do(s, a).procs && StepsLeft(Do(s, a).procs[pid]) < StepsLeft(s.procs[pid])
  {
    match a
    case Advance(_, luck, now) => AdvanceSpends(s, pid, luck, now);
    case Apply(_, points, ctx) => ApplySpends(s, pid, points, ctx);
  }

  lemma ApplySpends(s: World, pid: Pid, points: seq<Verification.Point>, ctx: Batches.Context)
    requires Enabled(s, Apply(pid, points, ctx))
    ensures var s' := Do(s, Apply(pid, points, ctx)); pid in s'.procs && StepsLeft(s'.procs[pid]) < 10
  {
    var pc := Fold(s, pid, points, ctx).procs[pid];
    FoldLeads(s, pid, points, ctx);
    BatchIsShort(pc);
    assert Do(s, Apply(pid, points, ctx)).procs[pid] == pc;
  }

  lemma BatchIsShort(pc: Pc)
    requires BatchLeadsTo(pc)
    ensures StepsLeft(pc) < 10
  {
  }

  lemma AdvanceSpends(s: World, pid: Pid, luck: Luck, now: Time)
    requires Enabled(s, Advance(pid, luck, now))
    ensures var s' := Do(s, Advance(pid, luck, now)); pid in s'.procs && StepsLeft(s'.procs[pid]) < StepsLeft(s.procs[pid])
  {
    NextSpends(s, s.procs[pid], luck, now);
    AdvanceMoves(s, pid, luck, now);
  }

  /** Whatever else goes on a request takes no more steps of its own than it has
      left, and is over when it has none. */
  lemma {:induction false} OverInItsSteps(s: World, actions: seq<Action>, s': World, pid: Pid)
    requires Reaches(s, actions, s') && pid in s.procs
    ensures pid in s'.procs && StepsLeft(s'.procs[pid]) + OwnSteps(actions, pid) <= StepsLeft(s.procs[pid])
    ensures StepsLeft(s'.procs[pid]) == 0 <==> s'.procs[pid].Over?
    decreases |actions|
  {
    if |actions| > 0 {
      if Takes(actions[0], pid) {
        StepSpends(s, pid, actions[0]);
      } else {
        RideSweeps.OthersStay(s, actions[0], pid);
      }
      OverInItsSteps(Do(s, actions[0]), actions[1..], s', pid);
    }
  }

  /** An end has four, a start nine, a batch eleven, and a sweep four for each ride
      of its list. */
  lemma SetsOutWith(s: World, a: Action)
    requires Enabled(s, a) && (a.EndRequest? || a.StartRequest? || a.Post? || a.Reap?)
    ensures a.pid in Do(s, a).procs
    ensures StepsLeft(Do(s, a).procs[a.pid])
         == if a.EndRequest? then 4 else if a.StartRequest? then 9 else if a.Post? then 11 else 4 * |a.order|
  {
  }

  // ---- None is stuck -------------------------------------------------------

  /** A start that supersedes a ride supersedes one of its own rider, and so knows
      the rider when it comes to the insert. */
  ghost predicate KnowsRider(s: World, pc: Pc) {
    match pc
    case Ending(id, _, Begin(w)) => id in s.past && s.past[id].riderId == w.riderId
    case Writing(id, _, Begin(w)) => id in s.past && s.past[id].riderId == w.riderId
    case Filed(id, _, _, Begin(w)) => id in s.past && s.past[id].riderId == w.riderId
    case Retiering(_, _, Begin(w)) => w.riderId in s.riders
    case Inserting(w, _) => w.riderId in s.riders
    case _ => true
  }

  ghost predicate RidersInv(s: World) {
    Inv(s) && KnownRiders(s) && forall p | p in s.procs :: KnowsRider(s, s.procs[p])
  }

  /** Rows keep their riders, and riders and rides are remembered. */
  ghost predicate SameRiders(s: World, s': World) {
    && (forall id | id in s.rows :: id in s'.rows && s'.rows[id].riderId == s.rows[id].riderId)
    && s.riders.Keys <= s'.riders.Keys && s.past.Keys <= s'.past.Keys
  }

  lemma OneRowKeepsRiders(s: World, s': World, id: string, row: RideRow)
    requires KnownRiders(s) && s'.rows == s.rows[id := row] && s.riders.Keys <= s'.riders.Keys && s'.past == s.past
    requires row.riderId in s.riders && (id in s.rows ==> row.riderId == s.rows[id].riderId)
    ensures SameRiders(s, s') && KnownRiders(s')
  {
  }

  lemma EffectKeepsRiders(s: World, pc: Pc, luck: Luck, now: Time)
    requires KnownRiders(s) && (pc.Inserting? ==> pc.wish.id !in s.rows && pc.wish.riderId in s.riders)
    ensures SameRiders(s, Effect(s, pc, luck, now)) && KnownRiders(Effect(s, pc, luck, now))
  {
    if pc.Writing? || pc.Recording? {
      WritingKeepsRiders(s, pc, luck, now);
    } else if pc.Inserting? {
      InsertKeepsRiders(s, pc.wish, true);
    }
  }

  lemma WritingKeepsRiders(s: World, pc: Pc, luck: Luck, now: Time)
    requires KnownRiders(s) && (pc.Writing? || pc.Recording?)
    ensures SameRiders(s, Effect(s, pc, luck, now)) && KnownRiders(Effect(s, pc, luck, now))
  {
    match pc
    case Writing(id, o, _) => FilingKeepsRiders(s, id, o);
    case Recording(id, p, _) => ProgressKeepsRiders(s, id, p);
  }

  lemma ProgressKeepsRiders(s: World, id: string, p: RideProgress)
    requires KnownRiders(s)
    ensures Active(s, id) ==> SameRiders(s, RecordProgress(s, id, p)) && KnownRiders(RecordProgress(s, id, p))
  {
    if Active(s, id) {
      OneRowKeepsRiders(s, RecordProgress(s, id, p), id, s.rows[id].(progress := p));
    }
  }

  lemma InsertKeepsRiders(s: World, w: Wish, mine: bool)
    requires KnownRiders(s) && w.id !in s.rows && w.riderId in s.riders
    ensures SameRiders(s, InsertRide(s, w, mine)) && KnownRiders(InsertRide(s, w, mine))
  {
    OneRowKeepsRiders(s, InsertRide(s, w, mine), w.id, InsertRide(s, w, mine).rows[w.id]);
  }

  lemma FilingKeepsRiders(s: World, id: string, o: RideOutcome)
    requires KnownRiders(s)
    ensures Active(s, id) ==> SameRiders(s, FinishRide(s, id, o)) && KnownRiders(FinishRide(s, id, o))
  {
    if Active(s, id) {
      OneRowKeepsRiders(s, FinishRide(s, id, o), id, FinishRide(s, id, o).rows[id]);
    }
  }

  lemma AdvanceKeepsRiders(s: World, pid: Pid, luck: Luck, now: Time)
    requires Enabled(s, Advance(pid, luck, now)) && KnownRiders(s)
    ensures SameRiders(s, Do(s, Advance(pid, luck, now))) && KnownRiders(Do(s, Advance(pid, luck, now)))
  {
    EffectKeepsRiders(s, s.procs[pid], luck, now);
    AdvanceMoves(s, pid, luck, now);
    MoveKeepsRiders(s, Effect(s, s.procs[pid], luck, now), pid, Next(s, s.procs[pid], luck, now));
  }

  lemma StepKeepsRiders(s: World, a: Action)
    requires Enabled(s, a) && KnownRiders(s)
    ensures SameRiders(s, Do(s, a)) && KnownRiders(Do(s, a))
  {
    match a
    case Advance(pid, luck, now) => AdvanceKeepsRiders(s, pid, luck, now);
    case ForeignStart(id, u) => InsertKeepsRiders(s, Wish(id, u, Sessions.TripKey("", ""), None), false);
    case ForeignFinish(id, o) => FilingKeepsRiders(s, id, o);
    case Apply(pid, points, ctx) => ApplyKeepsRiders(s, pid, points, ctx);
    case _ =>
  }

  lemma ApplyKeepsRiders(s: World, pid: Pid, points: seq<Verification.Point>, ctx: Batches.Context)
    requires Enabled(s, Apply(pid, points, ctx)) && KnownRiders(s)
    ensures SameRiders(s, Do(s, Apply(pid, points, ctx))) && KnownRiders(Do(s, Apply(pid, points, ctx)))
  {
  }

  lemma MoveKeepsRiders(s: World, m: World, pid: Pid, pc: Pc)
    requires SameRiders(s, m) && KnownRiders(m)
    ensures SameRiders(s, Recall(Move(m, pid, pc))) && KnownRiders(Recall(Move(m, pid, pc)))
  {
  }

  lemma StillKnows(s: World, s': World, pc: Pc)
    requires Inv(s) && Inv(s') && SameRiders(s, s') && KnowsRider(s, pc)
    ensures KnowsRider(s', pc)
  {
  }

  lemma NextKnows(s: World, pc: Pc, luck: Luck, now: Time)
    requires MemoryInv(s) && KnownRiders(s) && KnowsRider(s, pc)
    ensures KnowsRider(s, Next(s, pc, luck, now))
  {
  }

  lemma AdvanceKnows(s: World, p: Pid, luck: Luck, now: Time)
    requires MemoryInv(s) && KnownRiders(s) && Enabled(s, Advance(p, luck, now)) && KnowsRider(s, s.procs[p])
    ensures KnowsRider(s, Do(s, Advance(p, luck, now)).procs[p])
  {
    NextKnows(s, s.procs[p], luck, now);
    AdvanceMoves(s, p, luck, now);
  }

  lemma ApplyKnows(s: World, p: Pid, points: seq<Verification.Point>, ctx: Batches.Context)
    requires Enabled(s, Apply(p, points, ctx))
    ensures p in Do(s, Apply(p, points, ctx)).procs && KnowsRider(s, Do(s, Apply(p, points, ctx)).procs[p])
  {
    FoldLeads(s, p, points, ctx);
    ArrivalsKnow(s, Fold(s, p, points, ctx).procs[p]);
  }

  lemma NewcomerKnows(s: World, a: Action, p: Pid)
    requires Enabled(s, a) && !Takes(a, p) && p !in s.procs && p in Do(s, a).procs
    ensures KnowsRider(s, Do(s, a).procs[p])
  {
    NewcomersSetOut(s, a, p);
    ArrivalsKnow(s, Do(s, a).procs[p]);
  }

  lemma StepKnows(s: World, a: Action, p: Pid)
    requires MemoryInv(s) && KnownRiders(s) && (p in s.procs ==> KnowsRider(s, s.procs[p]))
    requires Enabled(s, a) && p in Do(s, a).procs
    ensures KnowsRider(s, Do(s, a).procs[p])
  {
    if Takes(a, p) {
      match a
      case Advance(_, luck, now) => AdvanceKnows(s, p, luck, now);
      case Apply(_, points, ctx) => ApplyKnows(s, p, points, ctx);
    } else if p in s.procs {
      RideSweeps.OthersStay(s, a, p);
    } else {
      NewcomerKnows(s, a, p);
    }
  }

  /** Where a request sets out from. */
  predicate SetsOut(pc: Pc) {
    pc.Over? || pc.Waiting? || pc.Posting? || (pc.Ending? && (pc.after.Stop? || pc.after.Sweep?))
  }

  lemma ArrivalsKnow(s: World, pc: Pc)
    requires BatchLeadsTo(pc) || SetsOut(pc)
    ensures KnowsRider(s, pc)
  {
  }

  lemma AdvanceBringsNobody(s: World, pid: Pid, luck: Luck, now: Time)
    requires Enabled(s, Advance(pid, luck, now))
    ensures Do(s, Advance(pid, luck, now)).procs.Keys == s.procs.Keys
  {
    RideSweeps.EffectMovesNobody(s, s.procs[pid], luck, now);
    AdvanceMoves(s, pid, luck, now);
  }

  lemma ApplyBringsNobody(s: World, pid: Pid, points: seq<Verification.Point>, ctx: Batches.Context)
    requires Enabled(s, Apply(pid, points, ctx))
    ensures Do(s, Apply(pid, points, ctx)).procs.Keys == s.procs.Keys
  {
    assert Fold(s, pid, points, ctx).procs.Keys == s.procs.Keys;
  }

  lemma RequestSetsOut(s: World, a: Action)
    requires Enabled(s, a) && (IsRequest(a) || a.Reap?)
    ensures Do(s, a).procs.Keys == s.procs.Keys + {a.pid} && SetsOut(Do(s, a).procs[a.pid])
  {
  }

  lemma NewcomersSetOut(s: World, a: Action, p: Pid)
    requires Enabled(s, a) && !Takes(a, p) && p !in s.procs && p in Do(s, a).procs
    ensures SetsOut(Do(s, a).procs[p])
  {
    match a
    case Advance(pid, luck, now) => AdvanceBringsNobody(s, pid, luck, now);
    case Apply(pid, points, ctx) => ApplyBringsNobody(s, pid, points, ctx);
    case Register(_) =>
    case ForeignStart(_, _) =>
    case ForeignFinish(_, _) =>
    case ForeignSweep =>
    case _ => RequestSetsOut(s, a);
  }

  lemma StepKeepsRidersInv(s: World, a: Action)
    requires RidersInv(s) && Enabled(s, a)
    ensures RidersInv(Do(s, a))
  {
    DoKeepsInv(s, a);
    StepKeepsRiders(s, a);
    forall p | p in Do(s, a).procs ensures KnowsRider(Do(s, a), Do(s, a).procs[p]) {
      StepKnows(s, a, p);
      StillKnows(s, Do(s, a), Do(s, a).procs[p]);
    }
  }

  lemma {:induction false} RunKeepsRidersInv(s: World, actions: seq<Action>, s': World)
    requires RidersInv(s) && Reaches(s, actions, s')
    ensures RidersInv(s')
    decreases |actions|
  {
    if |actions| > 0 {
      StepKeepsRidersInv(s, actions[0]);
      RunKeepsRidersInv(Do(s, actions[0]), actions[1..], s');
    }
  }

  /** The request's next step can be taken and go well, whatever the time and the
      batch; and an error is met only where the store is called. The id of an
      insert has to be new, as random ids are. */
  ghost predicate CanGoOn(s: World, pid: Pid) {
    && pid in s.procs && !s.procs[pid].Over?
    && forall a | Takes(a, pid) :: Enabled(s, a) <==>
         if a.Apply? then s.procs[pid].Fetching?
         else !s.procs[pid].Fetching? && (s.procs[pid].Inserting? ==> s.procs[pid].wish.id !in s.rows)
              && (a.luck == Fine || s.procs[pid].Writing? || s.procs[pid].Recording? || s.procs[pid].Inserting?
                  || (s.procs[pid].Loading? && a.luck == Error))
  }

  lemma GoesOnUnlessWaiting(s: World, pid: Pid)
    requires pid in s.procs && !s.procs[pid].Over? && KnowsRider(s, s.procs[pid])
    requires s.procs[pid].Waiting? ==> s.procs[pid].wish.riderId !in s.locks
    ensures CanGoOn(s, pid)
  {
  }

  /** No request is stuck: over every interleaving one that is not over can take
      its next step, unless it is a start that waits for its rider's lock, and then
      the start that has the lock can. */
  lemma NoRequestIsStuck(init: World, actions: seq<Action>, s: World, pid: Pid)
    requires Init(init) && Reaches(init, actions, s) && pid in s.procs && !s.procs[pid].Over?
    ensures CanGoOn(s, pid) || (s.procs[pid].Waiting? && exists holder ::
              holder in s.procs && Holds(s.procs[holder]) == Some(s.procs[pid].wish.riderId) && CanGoOn(s, holder))
  {
    InitInv(init);
    RunKeepsRidersInv(init, actions, s);
    NoneIsStuckIn(s, pid);
  }

  lemma NoneIsStuckIn(s: World, pid: Pid)
    requires LocksInv(s) && (forall p | p in s.procs :: KnowsRider(s, s.procs[p])) && pid in s.procs && !s.procs[pid].Over?
    ensures CanGoOn(s, pid) || (s.procs[pid].Waiting? && exists holder ::
              holder in s.procs && Holds(s.procs[holder]) == Some(s.procs[pid].wish.riderId) && CanGoOn(s, holder))
  {
    if s.procs[pid].Waiting? && s.procs[pid].wish.riderId in s.locks {
      var holder := s.locks[s.procs[pid].wish.riderId];
      assert Holds(s.procs[holder]) == Some(s.procs[pid].wish.riderId);
      GoesOnUnlessWaiting(s, holder);
    } else {
      GoesOnUnlessWaiting(s, pid);
    }
  }
}
