/** The reaper's sweep (rider_wiring.go) among everything else of RideFiling: it
    comes to every ride it found over, whatever becomes of the others, and a
    write that goes as meant leaves the ride filed. */
module RideSweeps {
  import opened Prelude
  import Reputation
  import opened RideFiling
  import opened RideLaws
  import opened RideInvariant

  // ---- Runs ----------------------------------------------------------------

  ghost predicate Trace(states: seq<World>, actions: seq<Action>) {
    |states| == |actions| + 1 && Init(states[0]) && forall k | 0 <= k < |actions| :: StepAt(states, actions, k)
  }

  ghost predicate StepAt(states: seq<World>, actions: seq<Action>, k: nat)
    requires |states| == |actions| + 1 && k < |actions|
  {
    Enabled(states[k], actions[k]) && states[k + 1] == Do(states[k], actions[k])
  }

  lemma {:induction false} InvAt(states: seq<World>, actions: seq<Action>, n: nat)
    requires Trace(states, actions) && n <= |actions|
    ensures Inv(states[n]) && KnownRiders(states[n])
    decreases n
  {
    if n == 0 {
      InitInv(states[0]);
    } else {
      InvAt(states, actions, n - 1);
      assert StepAt(states, actions, n - 1);
      DoKeepsInv(states[n - 1], actions[n - 1]);
      DoKeepsRiders(states[n - 1], actions[n - 1]);
    }
  }

  lemma EffectKeepsRiders(s: World, pc: Pc, luck: Luck, now: Time)
    requires KnownRiders(s) && (pc.Inserting? ==> pc.wish.riderId in s.riders)
    ensures KnownRiders(Effect(s, pc, luck, now))
  {
  }

  lemma DoKeepsRiders(s: World, a: Action)
    requires KnownRiders(s) && Enabled(s, a)
    ensures KnownRiders(Do(s, a))
  {
    if a.Advance? {
      EffectKeepsRiders(s, s.procs[a.pid], a.luck, a.now);
    }
  }

  // ---- Where a sweep stands ------------------------------------------------

  /** What the caller of finishRide does next, if the request is in it. */
  function AfterOf(pc: Pc): Option<Then> {
    if pc.Ending? || pc.Writing? || pc.Filed? || pc.Dropping? || pc.Retiering? then Some(pc.after) else None
  }

  /** finishRide is at work on the i-th ride of the sweep. */
  ghost predicate At(pc: Pc, order: seq<string>, i: nat) {
    && i < |order| && AfterOf(pc) == Some(Sweep(order[i + 1..]))
    && (pc.Ending? ==> pc.id == order[i] && pc.reason == Reputation.Idle)
    && (pc.Writing? || pc.Filed? || pc.Dropping? ==> pc.id == order[i])
  }

  /** The sweep has come to its i-th ride, or is over. */
  ghost predicate Comes(pc: Pc, order: seq<string>, i: nat) {
    if i < |order| then pc == Ending(order[i], Reputation.Idle, Sweep(order[i + 1..])) else i == |order| && pc == Over
  }

  ghost predicate Stands(pc: Pc, order: seq<string>, i: nat) {
    At(pc, order, i) || Comes(pc, order, i)
  }

  /** How many steps of finishRide are left. */
  function StepsLeft(pc: Pc): nat {
    match pc
    case Ending(_, _, _) => 4
    case Writing(_, _, _) => 3
    case Filed(_, _, _, _) => 2
    case Dropping(_, _) => 1
    case Retiering(_, _, _) => 1
    case _ => 0
  }

  lemma SweepResumes(order: seq<string>, i: nat, f: Finish)
    requires i <= |order|
    ensures Comes(Resume(Sweep(order[i..]), f), order, i)
  {
  }

  /** Its own step takes a sweep on, or to the next ride, however it goes. */
  lemma SweepAdvances(s: World, pc: Pc, luck: Luck, now: Time, order: seq<string>, i: nat)
    requires At(pc, order, i)
    ensures var pc' := Next(s, pc, luck, now);
            || (At(pc', order, i) && !pc'.Ending? && StepsLeft(pc') < StepsLeft(pc))
            || Comes(pc', order, i + 1)
  {
    SweepResumes(order, i + 1, NotActive);
    SweepResumes(order, i + 1, StoreError);
    if pc.Retiering? {
      SweepResumes(order, i + 1, Rescored(pc.tier));
    }
  }

  predicate OwnStep(a: Action, pid: Pid) {
    a.Advance? && a.pid == pid
  }

  /** The request the action moves. */
  function Mover(a: Action): Option<Pid> {
    match a
    case EndRequest(pid, _, _) => Some(pid)
    case StartRequest(pid, _) => Some(pid)
    case Post(pid, _) => Some(pid)
    case Reap(pid, _, _) => Some(pid)
    case Apply(pid, _, _) => Some(pid)
    case Advance(pid, _, _) => Some(pid)
    case _ => None
  }

  lemma EffectMovesNobody(s: World, pc: Pc, luck: Luck, now: Time)
    ensures Effect(s, pc, luck, now).procs == s.procs
  {
    if pc.Writing? {
      WritingGoes(s, pc, luck, now, Active(s, pc.id) && s.rows[pc.id].riderId in s.riders);
    } else if pc.Recording? {
      RecordingGoes(s, pc, luck, now);
    } else if pc.Inserting? {
      InsertingGoes(s, pc, luck, now, luck != Error && !HasActive(s, pc.wish.riderId));
    }
  }

  lemma MovesOne(s: World, mover: Pid, pc: Pc, pid: Pid)
    requires pid in s.procs && mover != pid
    ensures pid in Move(s, mover, pc).procs && Move(s, mover, pc).procs[pid] == s.procs[pid]
  {
  }

  lemma AdvanceMovesOne(s: World, a: Action, pid: Pid)
    requires Enabled(s, a) && a.Advance? && pid in s.procs && a.pid != pid
    ensures pid in Do(s, a).procs && Do(s, a).procs[pid] == s.procs[pid]
  {
    var m := Effect(s, s.procs[a.pid], a.luck, a.now);
    EffectMovesNobody(s, s.procs[a.pid], a.luck, a.now);
    MovesOne(m, a.pid, Next(s, s.procs[a.pid], a.luck, a.now), pid);
  }

  lemma OthersStay(s: World, a: Action, pid: Pid)
    requires Enabled(s, a) && pid in s.procs && Mover(a) != Some(pid)
    ensures pid in Do(s, a).procs && Do(s, a).procs[pid] == s.procs[pid]
  {
    if a.Advance? {
      AdvanceMovesOne(s, a, pid);
    } else if IsRequest(a) {
      var pc := RequestMoves(s, a);
      MovesOne(s, a.pid, pc, pid);
    }
  }

  /** Nobody else moves the sweep, and its own next step is never held up. */
  lemma OthersLeaveIt(s: World, a: Action, pid: Pid)
    requires Enabled(s, a) && pid in s.procs && (AfterOf(s.procs[pid]).Some? || s.procs[pid].Over?)
    requires !OwnStep(a, pid) || s.procs[pid].Over?
    ensures pid in Do(s, a).procs && Do(s, a).procs[pid] == s.procs[pid] && !OwnStep(a, pid)
  {
    OthersStay(s, a, pid);
  }

  lemma SweepNeverWaits(s: World, pid: Pid, now: Time)
    requires pid in s.procs && AfterOf(s.procs[pid]).Some?
    ensures Enabled(s, Advance(pid, Fine, now))
    ensures s.procs[pid].Writing? ==> forall luck :: Enabled(s, Advance(pid, luck, now))
  {
  }

  lemma OwnStepAdvances(s: World, a: Action, pid: Pid)
    requires Enabled(s, a) && OwnStep(a, pid)
    ensures pid in Do(s, a).procs && Do(s, a).procs[pid] == Next(s, s.procs[pid], a.luck, a.now)
  {
  }

  // ---- A sweep comes to every ride -----------------------------------------

  function OwnSteps(actions: seq<Action>, pid: Pid, m: nat, n: nat): nat
    requires m <= n <= |actions|
    decreases n
  {
    if m == n then 0 else OwnSteps(actions, pid, m, n - 1) + (if OwnStep(actions[n - 1], pid) then 1 else 0)
  }

  /** The most steps the sweep can still take. */
  function MostLeft(pc: Pc, order: seq<string>, i: nat): nat
    requires i <= |order|
  {
    if i == |order| then 0 else 4 * (|order| - i - 1) + StepsLeft(pc)
  }

  ghost predicate Sweeps(states: seq<World>, actions: seq<Action>, r: nat, pid: Pid, order: seq<string>) {
    Trace(states, actions) && r < |actions| && actions[r].Reap? && actions[r].pid == pid && actions[r].order == order
  }

  /** At n the sweep is at its i-th ride, has come to every one up to it, and has
      spent no more steps than its rides could take. */
  ghost predicate SweptTo(states: seq<World>, actions: seq<Action>, r: nat, pid: Pid, order: seq<string>, n: nat, i: nat)
    requires Sweeps(states, actions, r, pid, order) && r < n <= |actions|
  {
    && i <= |order| && pid in states[n].procs && Stands(states[n].procs[pid], order, i)
    && (forall j: nat | j <= i && j < |order| :: CameTo(states, actions, r, pid, order, n, j))
    && OwnSteps(actions, pid, r + 1, n) + MostLeft(states[n].procs[pid], order, i) <= 4 * |order|
  }

  ghost predicate CameTo(states: seq<World>, actions: seq<Action>, r: nat, pid: Pid, order: seq<string>, n: nat, j: nat)
    requires Sweeps(states, actions, r, pid, order) && r < n <= |actions| && j < |order|
  {
    exists k | r < k <= n :: pid in states[k].procs && Comes(states[k].procs[pid], order, j)
  }

  lemma ReapComes(s: World, pid: Pid, order: seq<string>, now: Time)
    requires Enabled(s, Reap(pid, order, now))
    ensures pid in Do(s, Reap(pid, order, now)).procs && Comes(Do(s, Reap(pid, order, now)).procs[pid], order, 0)
  {
    assert order[0..] == order;
    SweepResumes(order, 0, NotActive);
  }

  /** One step of anyone's: the sweep stays, goes on, or comes to its next ride. */
  lemma SweepStep(s: World, a: Action, pid: Pid, order: seq<string>, i: nat) returns (i': nat)
    requires Enabled(s, a) && i <= |order| && pid in s.procs && Stands(s.procs[pid], order, i)
    ensures i <= i' <= i + 1 && i' <= |order| && pid in Do(s, a).procs && Stands(Do(s, a).procs[pid], order, i')
    ensures i' == i + 1 ==> Comes(Do(s, a).procs[pid], order, i')
    ensures MostLeft(Do(s, a).procs[pid], order, i') + (if OwnStep(a, pid) then 1 else 0) <= MostLeft(s.procs[pid], order, i)
  {
    var pc := s.procs[pid];
    i' := i;
    if i < |order| {
      if OwnStep(a, pid) {
        OwnStepAdvances(s, a, pid);
        SweepAdvances(s, pc, a.luck, a.now, order, i);
        if !At(Next(s, pc, a.luck, a.now), order, i) || Next(s, pc, a.luck, a.now).Ending? {
          i' := i + 1;
        }
      } else {
        OthersLeaveIt(s, a, pid);
      }
    } else {
      OthersLeaveIt(s, a, pid);
    }
  }

  /** The k-th step of a run, as far as the sweep goes. */
  ghost predicate SweepGoes(states: seq<World>, actions: seq<Action>, pid: Pid, order: seq<string>, k: nat, i: nat, i': nat)
    requires |states| == |actions| + 1 && k < |actions| && i <= |order|
  {
    && i <= i' <= i + 1 && i' <= |order|
    && pid in states[k].procs && Stands(states[k].procs[pid], order, i)
    && pid in states[k + 1].procs && Stands(states[k + 1].procs[pid], order, i')
    && (i' == i + 1 ==> Comes(states[k + 1].procs[pid], order, i'))
    && MostLeft(states[k + 1].procs[pid], order, i') + (if OwnStep(actions[k], pid) then 1 else 0) <= MostLeft(states[k].procs[pid], order, i)
  }

  lemma SweepStepAt(states: seq<World>, actions: seq<Action>, pid: Pid, order: seq<string>, k: nat, i: nat) returns (i': nat)
    requires Trace(states, actions) && k < |actions| && i <= |order|
    requires pid in states[k].procs && Stands(states[k].procs[pid], order, i)
    ensures SweepGoes(states, actions, pid, order, k, i, i')
  {
    assert StepAt(states, actions, k);
    i' := SweepStep(states[k], actions[k], pid, order, i);
  }

  lemma SweepBegins(states: seq<World>, actions: seq<Action>, r: nat, pid: Pid, order: seq<string>)
    requires Sweeps(states, actions, r, pid, order)
    ensures pid in states[r + 1].procs && Comes(states[r + 1].procs[pid], order, 0)
  {
    assert StepAt(states, actions, r);
    ReapComes(states[r], pid, order, actions[r].now);
  }

  lemma SweptOneMore(states: seq<World>, actions: seq<Action>, r: nat, pid: Pid, order: seq<string>, n: nat, i: nat, i': nat)
    requires Sweeps(states, actions, r, pid, order) && r + 1 < n <= |actions| && SweptTo(states, actions, r, pid, order, n - 1, i)
    requires SweepGoes(states, actions, pid, order, n - 1, i, i')
    ensures SweptTo(states, actions, r, pid, order, n, i')
  {
    forall j: nat | j <= i' && j < |order| ensures CameTo(states, actions, r, pid, order, n, j) {
      if j <= i {
        assert CameTo(states, actions, r, pid, order, n - 1, j);
      }
    }
  }

  lemma {:induction false} SweepGoesOn(states: seq<World>, actions: seq<Action>, r: nat, pid: Pid, order: seq<string>, n: nat)
    returns (i: nat)
    requires Sweeps(states, actions, r, pid, order) && r < n <= |actions|
    ensures SweptTo(states, actions, r, pid, order, n, i)
    decreases n
  {
    if n == r + 1 {
      SweepBegins(states, actions, r, pid, order);
      i := 0;
    } else {
      var before := SweepGoesOn(states, actions, r, pid, order, n - 1);
      i := SweepStepAt(states, actions, pid, order, n - 1, before);
      SweptOneMore(states, actions, r, pid, order, n, before, i);
    }
  }

  /** However everything interleaves and whatever fails, a sweep comes to every
      ride it found over, in its order, and is through with them all after four
      of its own steps a ride. */
  lemma SweepComesToEveryRide(states: seq<World>, actions: seq<Action>, r: nat, pid: Pid, order: seq<string>, n: nat)
    returns (i: nat)
    requires Sweeps(states, actions, r, pid, order) && r < n <= |actions|
    ensures SweptTo(states, actions, r, pid, order, n, i)
    ensures OwnSteps(actions, pid, r + 1, n) >= 4 * |order| ==> states[n].procs[pid] == Over
    ensures states[n].procs[pid] == Over ==> forall j: nat | j < |order| :: CameTo(states, actions, r, pid, order, n, j)
  {
    i := SweepGoesOn(states, actions, r, pid, order, n);
  }

  // ---- And files it --------------------------------------------------------

  lemma WriteEffect(s: World, pc: Pc, now: Time)
    requires KnownRiders(s) && AfterOf(pc).Some?
    ensures pc.Writing? ==> !Active(Effect(s, pc, Fine, now), pc.id)
    ensures !pc.Writing? ==> Effect(s, pc, Fine, now).rows == s.rows
  {
  }

  lemma OwnStepRows(s: World, a: Action, pid: Pid)
    requires Enabled(s, a) && OwnStep(a, pid)
    ensures Do(s, a).rows == Effect(s, s.procs[pid], a.luck, a.now).rows
  {
  }

  lemma LetGoIsClosed(s: World, id: string)
    requires Inv(s) && id in s.past && id !in s.reg.rides
    ensures !Active(s, id)
  {
    if Active(s, id) {
      OutOfMemoryExactlyWhen(s, id);
      if IsAdding(s, id) {
        AddingIsNotPast(s, id);
      }
    }
  }

  /** The ride finishRide is at work on has ended in the table, once its write
      went as meant; and one memory has let go of had ended there before. */
  lemma WriteCloses(s: World, a: Action, pid: Pid, order: seq<string>, i: nat)
    requires Inv(s) && KnownRiders(s) && Enabled(s, a) && OwnStep(a, pid) && At(s.procs[pid], order, i) && order[i] in s.past
    requires s.procs[pid].Writing? ==> a.luck == Fine
    requires s.procs[pid].Filed? || s.procs[pid].Dropping? || s.procs[pid].Retiering? ==> !Active(s, order[i])
    ensures Active(Do(s, a), order[i]) ==> s.procs[pid].Ending? && Do(s, a).procs[pid].Writing? && At(Do(s, a).procs[pid], order, i)
  {
    var pc := s.procs[pid];
    OwnStepAdvances(s, a, pid);
    OwnStepRows(s, a, pid);
    assert a.luck == Fine;
    WriteEffect(s, pc, a.now);
    if pc.Ending? && pc.id !in s.reg.rides {
      LetGoIsClosed(s, pc.id);
    }
  }

  lemma ClosedStays(s: World, a: Action, id: string)
    requires Inv(s) && Enabled(s, a) && id in s.rows && !Active(s, id)
    ensures !Active(Do(s, a), id)
  {
    DoFreezes(s, a);
    assert Closed(s, id);
  }

  /** The sweep's own writes of the ride go as meant. */
  ghost predicate WritesGoWell(states: seq<World>, actions: seq<Action>, r: nat, pid: Pid, order: seq<string>, n: nat, j: nat)
    requires Sweeps(states, actions, r, pid, order) && n <= |actions| && j < |order|
  {
    forall k | r < k < n && OwnStep(actions[k], pid) && pid in states[k].procs
               && At(states[k].procs[pid], order, j) && states[k].procs[pid].Writing? ::
      actions[k].luck == Fine
  }

  predicate PastWrite(pc: Pc) {
    pc.Filed? || pc.Dropping? || pc.Retiering?
  }

  /** At its ride the sweep has closed it, when it is past the write; and for
      good once it is past the ride. */
  ghost predicate ClosedBy(s: World, pid: Pid, order: seq<string>, i: nat, j: nat)
    requires j < |order| && pid in s.procs
  {
    j < i || (j == i && PastWrite(s.procs[pid])) ==> !Active(s, order[j])
  }

  lemma OwnStepCloses(s: World, a: Action, pid: Pid, order: seq<string>, i: nat, i': nat, s': World)
    requires Inv(s) && KnownRiders(s) && Enabled(s, a) && s' == Do(s, a)
    requires OwnStep(a, pid) && At(s.procs[pid], order, i) && order[i] in s.past && ClosedBy(s, pid, order, i, i)
    requires s.procs[pid].Writing? ==> a.luck == Fine
    requires pid in s'.procs && Stands(s'.procs[pid], order, i')
    ensures ClosedBy(s', pid, order, i', i)
  {
    WriteCloses(s, a, pid, order, i);
    OpenBeforeTheWrite(s', pid, order, i, i');
  }

  lemma OpenBeforeTheWrite(s: World, pid: Pid, order: seq<string>, i: nat, i': nat)
    requires i < |order| && pid in s.procs && Stands(s.procs[pid], order, i')
    requires Active(s, order[i]) ==> s.procs[pid].Writing? && At(s.procs[pid], order, i)
    ensures ClosedBy(s, pid, order, i', i)
  {
    if Active(s, order[i]) {
      StandsOnce(s.procs[pid], order, i, i');
    }
  }

  lemma OthersKeepClosed(s: World, a: Action, pid: Pid, order: seq<string>, i: nat, i': nat, j: nat, s': World)
    requires Inv(s) && Enabled(s, a) && s' == Do(s, a) && j < |order| && order[j] in s.past
    requires pid in s.procs && pid in s'.procs && ClosedBy(s, pid, order, i, j)
    requires j == i ==> s'.procs[pid] == s.procs[pid]
    requires i <= i' <= i + 1 && (j == i ==> i' == i) && (i' == i + 1 ==> !PastWrite(s'.procs[pid]))
    ensures ClosedBy(s', pid, order, i', j)
  {
    if !Active(s, order[j]) {
      ClosedStays(s, a, order[j]);
    }
  }

  lemma ComesBeforeTheWrite(pc: Pc, order: seq<string>, i: nat)
    requires Comes(pc, order, i)
    ensures !PastWrite(pc)
  {
  }

  lemma StepCloses(s: World, a: Action, pid: Pid, order: seq<string>, i: nat, i': nat, j: nat, s': World)
    requires Inv(s) && KnownRiders(s) && Enabled(s, a) && s' == Do(s, a) && j < |order| && order[j] in s.past
    requires pid in s.procs && Stands(s.procs[pid], order, i) && ClosedBy(s, pid, order, i, j)
    requires i <= i' <= i + 1 && pid in s'.procs && Stands(s'.procs[pid], order, i')
    requires i' == i + 1 ==> Comes(s'.procs[pid], order, i')
    requires OwnStep(a, pid) && i == j && s.procs[pid].Writing? ==> a.luck == Fine
    ensures ClosedBy(s', pid, order, i', j)
  {
    if j == i && OwnStep(a, pid) {
      OwnStepCloses(s, a, pid, order, i, i', s');
    } else {
      if j == i {
        OthersLeaveIt(s, a, pid);
        StandsOnce(s'.procs[pid], order, i, i');
      }
      if i' == i + 1 {
        ComesBeforeTheWrite(s'.procs[pid], order, i');
      }
      OthersKeepClosed(s, a, pid, order, i, i', j, s');
    }
  }

  lemma StepClosesAt(states: seq<World>, actions: seq<Action>, pid: Pid, order: seq<string>, k: nat, i: nat, i': nat, j: nat)
    requires Trace(states, actions) && k < |actions| && i <= |order| && SweepGoes(states, actions, pid, order, k, i, i')
    requires j < |order| && order[j] in states[k].past && ClosedBy(states[k], pid, order, i, j)
    requires OwnStep(actions[k], pid) && i == j && states[k].procs[pid].Writing? ==> actions[k].luck == Fine
    ensures ClosedBy(states[k + 1], pid, order, i', j) && order[j] in states[k + 1].past
  {
    assert StepAt(states, actions, k);
    InvAt(states, actions, k);
    StepCloses(states[k], actions[k], pid, order, i, i', j, states[k + 1]);
  }

  lemma SweepKnows(states: seq<World>, actions: seq<Action>, r: nat, pid: Pid, order: seq<string>, j: nat)
    requires Sweeps(states, actions, r, pid, order) && j < |order|
    ensures order[j] in states[r + 1].past
  {
    assert StepAt(states, actions, r);
    ReapKnows(states[r], pid, order, actions[r].now, j);
  }

  lemma {:induction false} SweepClosesSoFar(states: seq<World>, actions: seq<Action>, r: nat, pid: Pid, order: seq<string>, n: nat, j: nat)
    returns (i: nat)
    requires Sweeps(states, actions, r, pid, order) && r < n <= |actions| && j < |order|
    requires WritesGoWell(states, actions, r, pid, order, n, j)
    ensures i <= |order| && pid in states[n].procs && Stands(states[n].procs[pid], order, i)
    ensures ClosedBy(states[n], pid, order, i, j) && order[j] in states[n].past
    decreases n
  {
    if n == r + 1 {
      SweepBegins(states, actions, r, pid, order);
      SweepKnows(states, actions, r, pid, order, j);
      i := 0;
    } else {
      var before := SweepClosesSoFar(states, actions, r, pid, order, n - 1, j);
      i := SweepStepAt(states, actions, pid, order, n - 1, before);
      StepClosesAt(states, actions, pid, order, n - 1, before, i, j);
    }
  }

  /** What a sweep lists, memory has. */
  lemma ReapKnows(s: World, pid: Pid, order: seq<string>, now: Time, j: nat)
    requires Enabled(s, Reap(pid, order, now)) && j < |order|
    ensures order[j] in s.reg.rides && order[j] in Do(s, Reap(pid, order, now)).past
  {
    assert order[j] in (set id | id in order);
    assert order[j] in s.reg.Reap(now).Ended();
  }

  lemma StandsOnce(pc: Pc, order: seq<string>, i: nat, j: nat)
    requires Stands(pc, order, i) && Stands(pc, order, j)
    ensures i == j
  {
    assert i < |order| ==> |order[i + 1..]| == |order| - i - 1;
    assert j < |order| ==> |order[j + 1..]| == |order| - j - 1;
  }

  // ---- Filed, not merely closed --------------------------------------------

  ghost predicate IsFiled(s: World, id: string) {
    exists f :: f in s.filings && f.id == id
  }

  lemma EffectFiles(s: World, pc: Pc, luck: Luck, now: Time, id: string)
    requires Active(s, id) && !Active(Effect(s, pc, luck, now), id) && (pc.Inserting? ==> pc.wish.id !in s.rows)
    ensures pc.Writing? && pc.id == id && Effect(s, pc, luck, now).filings == s.filings + [Filing(id, s.rows[id].riderId, pc.outcome)]
  {
  }

  /** A row ends by being filed, or by a restart's sweep. */
  lemma ClosedByFiling(s: World, a: Action, id: string)
    requires Enabled(s, a) && Active(s, id) && !Active(Do(s, a), id) && !a.ForeignSweep?
    ensures IsFiled(Do(s, a), id)
  {
    if a.Advance? {
      var pc := s.procs[a.pid];
      EffectFiles(s, pc, a.luck, a.now, id);
      assert Do(s, a).filings[|s.filings|].id == id;
    } else if a.ForeignFinish? {
      assert Do(s, a).filings[|s.filings|].id == id;
    }
  }

  lemma {:induction false} FiledSince(states: seq<World>, actions: seq<Action>, m: nat, n: nat, id: string)
    requires Trace(states, actions) && m <= n <= |actions| && Active(states[m], id) && !Active(states[n], id)
    requires forall k | m <= k < n :: !actions[k].ForeignSweep?
    ensures IsFiled(states[n], id)
    decreases n
  {
    assert StepAt(states, actions, n - 1);
    InvAt(states, actions, n - 1);
    if Active(states[n - 1], id) {
      ClosedByFiling(states[n - 1], actions[n - 1], id);
    } else {
      FiledSince(states, actions, m, n - 1, id);
      FilingStays(states[n - 1], actions[n - 1], id);
    }
  }

  lemma FilingsStay(s: World, s': World, id: string)
    requires s.filings <= s'.filings && IsFiled(s, id)
    ensures IsFiled(s', id)
  {
    var f :| f in s.filings && f.id == id;
    assert f in s'.filings;
  }

  lemma FilingStays(s: World, a: Action, id: string)
    requires Inv(s) && Enabled(s, a) && IsFiled(s, id)
    ensures IsFiled(Do(s, a), id)
  {
    DoFreezes(s, a);
    FilingsStay(s, Do(s, a), id);
  }

  /** The sweep files every ride it found over. Whatever becomes of the rides
      listed before it and whoever else is at work, once the sweep is past the
      j-th ride, its own writes of that one having gone as meant, the row has
      ended; and if it was open when the sweep began and no restart closed it,
      it has been filed, with what memory last had of it. */
  lemma SweepFilesEveryRide(states: seq<World>, actions: seq<Action>, r: nat, pid: Pid, order: seq<string>, n: nat, i: nat, j: nat)
    requires Sweeps(states, actions, r, pid, order) && r < n <= |actions| && j < i
    requires pid in states[n].procs && Stands(states[n].procs[pid], order, i) && j < |order|
    requires WritesGoWell(states, actions, r, pid, order, n, j)
    ensures order[j] in states[n].past && order[j] in states[n].rows && !states[n].rows[order[j]].active
    ensures Active(states[r], order[j]) && (forall k | r <= k < n :: !actions[k].ForeignSweep?) ==>
              exists f :: f in states[n].filings && f.id == order[j] && f.outcome == OutcomeOf(states[n].past[order[j]].Summary())
  {
    var i' := SweepClosesSoFar(states, actions, r, pid, order, n, j);
    StandsOnce(states[n].procs[pid], order, i, i');
    InvAt(states, actions, n);
    if Active(states[r], order[j]) && forall k | r <= k < n :: !actions[k].ForeignSweep? {
      FiledSince(states, actions, r, n, order[j]);
      var f :| f in states[n].filings && f.id == order[j];
      assert states[n].rows[f.id].mine;
    }
  }
}
