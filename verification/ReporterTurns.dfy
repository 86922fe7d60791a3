/** Every turn of RideReporting keeps its invariant: the slot's, the tasks', and
    that starts run one after the other. */
module ReporterTurns {
  import opened Prelude
  import opened Reputation
  import opened RideReporting

  // ---- Starts --------------------------------------------------------------

  /** A start, from being made to its caller returning. */
  ghost predicate IsStart(pc: Pc) {
    pc.Queued? || pc.Returned? || Asks(pc)
  }

  /** Starts run one after the other, in the order they were made. */
  ghost predicate StartsInv(s: Reporter) {
    StartsKnown(s) && StartsOrdered(s) && StartsQueued(s) && StartTaskIsLast(s)
  }

  ghost predicate StartsKnown(s: Reporter) {
    && (forall i, j | 0 <= i < j < |s.starts| :: s.starts[i] != s.starts[j])
    && (forall p | p in s.procs && IsStart(s.procs[p]) :: p in s.starts)
    && (forall i | 0 <= i < |s.starts| :: s.starts[i] in s.procs && (IsStart(s.procs[s.starts[i]]) || s.procs[s.starts[i]].Over?))
  }

  ghost predicate StartsOrdered(s: Reporter) {
    forall i, j | 0 <= i < j < |s.starts| && s.starts[j] in s.procs && !s.procs[s.starts[j]].Queued? :: Done(s, s.starts[i])
  }

  ghost predicate StartsQueued(s: Reporter) {
    forall i {:trigger BehindOf(s, i)} | 0 <= i < |s.starts| && s.starts[i] in s.procs && s.procs[s.starts[i]].Queued? ::
      BehindOf(s, i)
  }

  ghost predicate StartTaskIsLast(s: Reporter) {
    match s.startTask
    case None => forall i | 0 <= i < |s.starts| :: Done(s, s.starts[i])
    case Some(p) => |s.starts| > 0 && p == s.starts[|s.starts| - 1]
  }

  ghost predicate BehindOf(s: Reporter, i: nat)
    requires i < |s.starts| && s.starts[i] in s.procs && s.procs[s.starts[i]].Queued?
  {
    match s.procs[s.starts[i]].behind
    case None => forall j | 0 <= j < i :: Done(s, s.starts[j])
    case Some(p) => i > 0 && p == s.starts[i - 1]
  }

  /** At most one start is under way. */
  lemma OneAsks(s: Reporter, p: Pid, q: Pid)
    requires StartsInv(s) && p in s.procs && q in s.procs && Asks(s.procs[p]) && Asks(s.procs[q])
    ensures p == q
  {
    var i :| 0 <= i < |s.starts| && s.starts[i] == p;
    var j :| 0 <= j < |s.starts| && s.starts[j] == q;
    assert !(i < j) by {
      assert !Done(s, s.starts[i]);
    }
  }

  /** A start whose turn it is has only finished ones before it. */
  lemma RunsAlone(s: Reporter, i: nat)
    requires StartsInv(s) && i < |s.starts| && s.procs[s.starts[i]].Queued?
    requires s.procs[s.starts[i]].behind.None? || Done(s, s.procs[s.starts[i]].behind.value)
    ensures forall j | 0 <= j < i :: Done(s, s.starts[j])
  {
    assert BehindOf(s, i);
  }

  ghost predicate OnlyMoved(s: Reporter, s': Reporter, pid: Pid) {
    && s'.starts == s.starts && s'.startTask == s.startTask
    && pid in s'.procs && s'.procs == s.procs[pid := s'.procs[pid]]
  }

  /** A task that is no start keeps the order of starts. */
  lemma OtherKeepsStarts(s: Reporter, s': Reporter, pid: Pid)
    requires StartsInv(s) && OnlyMoved(s, s', pid) && !IsStart(s'.procs[pid])
    requires pid in s.procs ==> !IsStart(s.procs[pid]) && !s.procs[pid].Over?
    ensures StartsInv(s')
  {
    assert pid !in s.starts;
    assert forall i | 0 <= i < |s.starts| :: s'.procs[s.starts[i]] == s.procs[s.starts[i]];
    assert forall i | 0 <= i < |s.starts| :: Done(s', s.starts[i]) == Done(s, s.starts[i]);
    forall i | 0 <= i < |s'.starts| && s'.procs[s'.starts[i]].Queued? ensures BehindOf(s', i) {
      assert BehindOf(s, i);
    }
  }

  /** A start whose turn it is, or is under way. */
  ghost predicate HasTurn(s: Reporter, pid: Pid, i: nat) {
    i < |s.starts| && s.starts[i] == pid && !Done(s, pid) && forall j | 0 <= j < i :: Done(s, s.starts[j])
  }

  lemma StartStaysOrdered(s: Reporter, s': Reporter, pid: Pid, i: nat)
    requires StartsInv(s) && OnlyMoved(s, s', pid) && HasTurn(s, pid, i)
    ensures StartsOrdered(s')
  {
    forall j, k | 0 <= j < k < |s.starts| && s.starts[k] in s'.procs && !s'.procs[s.starts[k]].Queued?
      ensures Done(s', s.starts[j])
    {
      assert Done(s, s.starts[j]);
    }
  }

  lemma StartStaysBehind(s: Reporter, s': Reporter, pid: Pid, i: nat)
    requires StartsInv(s) && OnlyMoved(s, s', pid) && HasTurn(s, pid, i) && !s'.procs[pid].Queued?
    ensures StartsQueued(s')
  {
    forall k | 0 <= k < |s'.starts| && s'.starts[k] in s'.procs && s'.procs[s'.starts[k]].Queued? ensures BehindOf(s', k) {
      assert BehindOf(s, k);
      forall j | 0 <= j < k && s.procs[s.starts[k]].behind.None? ensures Done(s', s.starts[j]) {
        assert Done(s, s.starts[j]);
      }
    }
  }

  lemma StartKeepsStarts(s: Reporter, s': Reporter, pid: Pid, i: nat)
    requires StartsInv(s) && OnlyMoved(s, s', pid) && HasTurn(s, pid, i)
    requires IsStart(s'.procs[pid]) && !s'.procs[pid].Queued?
    ensures StartsInv(s')
  {
    StartStaysOrdered(s, s', pid, i);
    StartStaysBehind(s, s', pid, i);
  }

  // ---- Every turn ----------------------------------------------------------

  ghost predicate Inv(s: Reporter) {
    TurnsInv(s) && StartsInv(s)
  }

  /** Every turn is where it was. */
  ghost predicate SameTasks(s: Reporter, m: Reporter) {
    m.procs == s.procs && m.starts == s.starts && m.startTask == s.startTask
  }

  lemma MovedFrom(s: Reporter, m: Reporter, s': Reporter, pid: Pid)
    requires SameTasks(s, m) && OnlyMoved(m, s', pid)
    ensures OnlyMoved(s, s', pid)
  {
  }

  /** end and what follows it move one task, a start only for a start. */
  ghost predicate Moves(s: Reporter, s': Reporter, pid: Pid, after: After) {
    OnlyMoved(s, s', pid) && (if after.Ask? then Asks(s'.procs[pid]) else !IsStart(s'.procs[pid]))
  }

  lemma ContinueMoves(s: Reporter, pid: Pid, after: After)
    ensures Moves(s, Continue(s, pid, after), pid, after)
  {
  }

  lemma FinishMoves(s: Reporter, pid: Pid, ride: RideId, after: After)
    ensures Moves(s, FinishEnd(s, pid, ride, after), pid, after)
  {
    var m := s.(ended := s.ended + [ride], active := if s.active.Some? && s.active.value.id == ride then None else s.active);
    ContinueMoves(m, pid, after);
    MovedFrom(s, m, Continue(m, pid, after), pid);
  }

  lemma EndMoves(s: Reporter, pid: Pid, reason: EndReason, after: After, now: Time)
    ensures Moves(s, BeginEnd(s, pid, reason, after, now), pid, after)
  {
    ContinueMoves(s, pid, after);
    if s.active.Some? && !s.active.value.ending {
      var m := Ending(s, reason, now);
      FinishMoves(m, pid, s.active.value.id, after);
      MovedFrom(s, m, FinishEnd(m, pid, s.active.value.id, after), pid);
    }
  }

  lemma EndMovesFrom(s: Reporter, m: Reporter, pid: Pid, reason: EndReason, after: After, now: Time)
    requires SameTasks(s, m)
    ensures Moves(s, BeginEnd(m, pid, reason, after, now), pid, after)
    ensures Moves(s, Continue(m, pid, after), pid, after)
  {
    EndMoves(m, pid, reason, after, now);
    MovedFrom(s, m, BeginEnd(m, pid, reason, after, now), pid);
    ContinueMoves(m, pid, after);
    MovedFrom(s, m, Continue(m, pid, after), pid);
  }

  lemma AnswerMoves(s: Reporter, pid: Pid, ride: RideId, batch: seq<Fix>, upload: Upload, now: Time)
    ensures Moves(s, Answered(s, pid, ride, batch, upload, now), pid, Unwind(ride))
  {
    var m := AnsweredTo(s, ride, batch, upload, now);
    match EndsFor(s, ride, upload, now)
    case Some(reason) => EndMovesFrom(s, m, pid, reason, Unwind(ride), now);
    case None => EndMovesFrom(s, m, pid, Idle, Unwind(ride), now);
  }

  lemma IndexOf(s: Reporter, pid: Pid) returns (i: nat)
    requires StartsInv(s) && pid in s.procs && IsStart(s.procs[pid])
    ensures i < |s.starts| && s.starts[i] == pid
  {
    i :| 0 <= i < |s.starts| && s.starts[i] == pid;
  }

  lemma TurnsIgnoreStarts(s: Reporter, startTask: Option<Pid>, starts: seq<Pid>)
    requires TurnsInv(s)
    ensures TurnsInv(s.(startTask := startTask, starts := starts))
  {
    var m := s.(startTask := startTask, starts := starts);
    forall p | p in m.procs ensures PcInv(m, m.procs[p]) {
      assert PcInv(s, s.procs[p]);
    }
    if s.active.Some? && s.active.value.ending {
      assert IsClosing(m, s.active.value.id, None);
    }
  }

  /** The starts so far stand as they did. */
  ghost predicate StartsStand(s: Reporter, s': Reporter) {
    && |s.starts| <= |s'.starts|
    && (forall i | 0 <= i < |s.starts| :: s'.starts[i] == s.starts[i])
    && (forall i | 0 <= i < |s.starts| :: s.starts[i] in s'.procs && Done(s', s.starts[i]) == Done(s, s.starts[i]))
    && (forall i | 0 <= i < |s.starts| && s.starts[i] in s.procs && s'.procs[s.starts[i]].Queued? ::
          s'.procs[s.starts[i]] == s.procs[s.starts[i]])
  }

  lemma StandBehind(s: Reporter, s': Reporter, k: nat)
    requires StartsInv(s) && StartsStand(s, s') && k < |s.starts| && s.starts[k] in s.procs && s'.procs[s.starts[k]].Queued?
    ensures BehindOf(s', k)
  {
    assert BehindOf(s, k);
  }

  lemma NewStartKeepsStarts(s: Reporter, pid: Pid)
    requires StartsInv(s) && pid !in s.procs
    ensures StartsInv(Do(s, Start(pid)))
  {
    var s' := Do(s, Start(pid));
    var n := |s.starts|;
    assert forall i | 0 <= i < n :: s'.starts[i] == s.starts[i] && s.starts[i] != pid;
    assert s'.starts[n] == pid;
    assert StartsStand(s, s');
    forall k | 0 <= k < |s'.starts| && s'.starts[k] in s'.procs && s'.procs[s'.starts[k]].Queued? ensures BehindOf(s', k) {
      if k < n {
        StandBehind(s, s', k);
      }
    }
    NewStartIsLast(s, s', pid);
  }

  lemma NewStartIsLast(s: Reporter, s': Reporter, pid: Pid)
    requires StartsInv(s) && StartsStand(s, s') && s'.starts == s.starts + [pid]
    requires pid in s'.procs && s'.procs[pid].Queued? && forall p | p in s.procs :: p in s'.procs && s'.procs[p] == s.procs[p]
    ensures StartsOrdered(s')
  {
    forall j, k | 0 <= j < k < |s'.starts| && s'.starts[k] in s'.procs && !s'.procs[s'.starts[k]].Queued?
      ensures Done(s', s'.starts[j])
    {
      assert k < |s.starts|;
      assert Done(s, s.starts[j]);
    }
  }

  lemma NewStartKeeps(s: Reporter, pid: Pid)
    requires Inv(s) && pid !in s.procs
    ensures Inv(Do(s, Start(pid)))
  {
    InHand(s, pid);
    Placed(s, pid, Queued(s.startTask));
    TurnsIgnoreStarts(Goto(s, pid, Queued(s.startTask)), Some(pid), s.starts + [pid]);
    NewStartKeepsStarts(s, pid);
  }

  lemma UnderWay(s: Reporter, pid: Pid) returns (i: nat)
    requires StartsInv(s) && pid in s.procs && Asks(s.procs[pid])
    ensures HasTurn(s, pid, i)
  {
    i := IndexOf(s, pid);
    assert forall j | 0 <= j < i :: Done(s, s.starts[j]);
  }

  lemma RunKeeps(s: Reporter, pid: Pid, cancelled: bool, now: Time)
    requires Inv(s) && Enabled(s, Run(pid, cancelled, now))
    ensures Inv(Do(s, Run(pid, cancelled, now)))
  {
    var s' := Do(s, Run(pid, cancelled, now));
    InHand(s, pid);
    if cancelled {
      Placed(s, pid, Returned);
    } else if s.active.Some? {
      BeginEndKeeps(s, pid, Superseded, Ask, now);
      EndMoves(s, pid, Superseded, Ask, now);
    } else {
      Placed(s, pid, Asking);
    }
    var i := IndexOf(s, pid);
    RunsAlone(s, i);
    StartKeepsStarts(s, s', pid, i);
  }

  /** The new ride displaces nothing but a ride already ending. */
  lemma InstallKeeps(s: Reporter, pid: Pid, ride: RideId, maxBatch: nat)
    requires Inv(s) && Enabled(s, Asked(pid, Created(ride, maxBatch, false)))
    ensures SlotFree(s) && TurnsInv(Do(s, Asked(pid, Created(ride, maxBatch, false))))
  {
    InHand(s, pid);
    assert PcInv(s, s.procs[pid]);
    var m := s.(active := Some(ActiveRide(ride, maxBatch, [], [], 0, None, false, false)), installed := s.installed + {ride});
    forall p | p in s.procs && p != pid ensures PcInv(m, s.procs[p]) {
      assert PcInv(s, s.procs[p]);
      assert !Asks(s.procs[p]) by {
        if Asks(s.procs[p]) {
          OneAsks(s, p, pid);
        }
      }
    }
    Placed(m, pid, Returned);
  }

  lemma AskedKeeps(s: Reporter, pid: Pid, answer: Answer)
    requires Inv(s) && Enabled(s, Asked(pid, answer))
    ensures Inv(Do(s, Asked(pid, answer)))
  {
    if answer.Failed? || answer.cancelled {
      InHand(s, pid);
      Placed(s, pid, Returned);
    } else {
      InstallKeeps(s, pid, answer.ride, answer.maxBatch);
    }
    var i := UnderWay(s, pid);
    StartKeepsStarts(s, Do(s, Asked(pid, answer)), pid, i);
  }

  lemma StandOrdered(s: Reporter, s': Reporter)
    requires StartsInv(s) && StartsStand(s, s') && s'.starts == s.starts
    requires forall p | p in s.procs && s.procs[p].Queued? :: p in s'.procs && s'.procs[p].Queued?
    ensures StartsOrdered(s')
  {
    forall j, k | 0 <= j < k < |s'.starts| && s'.starts[k] in s'.procs && !s'.procs[s'.starts[k]].Queued?
      ensures Done(s', s'.starts[j])
    {
      assert Done(s, s.starts[j]);
    }
  }

  lemma StandQueued(s: Reporter, s': Reporter)
    requires StartsInv(s) && StartsStand(s, s') && s'.starts == s.starts
    ensures StartsQueued(s')
  {
    forall k | 0 <= k < |s'.starts| && s'.starts[k] in s'.procs && s'.procs[s'.starts[k]].Queued? ensures BehindOf(s', k) {
      StandBehind(s, s', k);
    }
  }

  lemma ReturnStands(s: Reporter, pid: Pid)
    requires StartsInv(s) && Enabled(s, StartReturns(pid))
    ensures StartsStand(s, Do(s, StartReturns(pid)))
  {
  }

  lemma ReturnIsKnown(s: Reporter, pid: Pid)
    requires StartsInv(s) && Enabled(s, StartReturns(pid))
    ensures StartsKnown(Do(s, StartReturns(pid)))
  {
  }

  lemma ReturnLeavesLast(s: Reporter, pid: Pid)
    requires StartsInv(s) && Enabled(s, StartReturns(pid))
    ensures StartTaskIsLast(Do(s, StartReturns(pid)))
  {
    ReturnStands(s, pid);
    var i := IndexOf(s, pid);
    AllBeforeAreDone(s, i);
  }

  lemma ReturnKeepsStarts(s: Reporter, pid: Pid)
    requires StartsInv(s) && Enabled(s, StartReturns(pid))
    ensures StartsInv(Do(s, StartReturns(pid)))
  {
    ReturnStands(s, pid);
    ReturnIsKnown(s, pid);
    ReturnLeavesLast(s, pid);
    StandQueued(s, Do(s, StartReturns(pid)));
    StandOrdered(s, Do(s, StartReturns(pid)));
  }

  lemma AllBeforeAreDone(s: Reporter, i: nat)
    requires StartsInv(s) && i < |s.starts| && !s.procs[s.starts[i]].Queued?
    ensures forall j | 0 <= j < i :: Done(s, s.starts[j])
  {
  }

  lemma ReturnKeeps(s: Reporter, pid: Pid)
    requires Inv(s) && Enabled(s, StartReturns(pid))
    ensures Inv(Do(s, StartReturns(pid)))
  {
    InHand(s, pid);
    Placed(s, pid, Over);
    var s' := Do(s, StartReturns(pid));
    TurnsIgnoreStarts(Goto(s, pid, Over), s'.startTask, s.starts);
    assert s' == Goto(s, pid, Over).(startTask := s'.startTask, starts := s.starts);
    ReturnKeepsStarts(s, pid);
  }

  lemma NewTurnKeeps(s: Reporter, a: Action)
    requires Inv(s) && Enabled(s, a) && (a.End? || a.Sample? || a.Tick?)
    ensures Inv(Do(s, a))
  {
    match a
    case End(pid, reason, now) =>
      InHand(s, pid);
      BeginEndKeeps(s, pid, reason, Nothing, now);
      EndMoves(s, pid, reason, Nothing, now);
      OtherKeepsStarts(s, Do(s, a), pid);
    case Sample(pid, ride, fix, over, now) =>
      ConsumeKeeps(s, pid, ride, fix, over, now);
      ConsumeMoves(s, pid, ride, fix, over, now);
      OtherKeepsStarts(s, Do(s, a), pid);
    case Tick(pid, ride, over, now) =>
      TickKeeps(s, pid, ride, over, now);
      OtherKeepsStarts(s, Do(s, a), pid);
  }

  lemma FlushMoves(s: Reporter, pid: Pid)
    ensures Moves(s, BeginFlush(s, pid), pid, Nothing)
  {
  }

  lemma GotoMoves(s: Reporter, pid: Pid)
    ensures Moves(s, Goto(s, pid, Over), pid, Nothing)
  {
  }

  lemma JudgeMoves(s: Reporter, pid: Pid, over: Option<EndReason>, now: Time)
    requires s.active.Some?
    ensures Moves(s, Judge(s, pid, over, now), pid, Nothing)
  {
    var s' := Judge(s, pid, over, now);
    if over.Some? {
      EndMoves(s, pid, over.value, Nothing, now);
      assert s' == BeginEnd(s, pid, over.value, Nothing, now);
    } else if s' == Goto(s, pid, Over) {
      GotoMoves(s, pid);
    } else {
      FlushMoves(s, pid);
      assert s' == BeginFlush(s, pid);
    }
  }

  lemma ConsumeMoves(s: Reporter, pid: Pid, ride: RideId, fix: Option<Time>, over: Option<EndReason>, now: Time)
    ensures Moves(s, Consume(s, pid, ride, fix, over, now), pid, Nothing)
  {
    if Running(s, ride) {
      var m := Buffered(s, fix, now);
      JudgeMoves(m, pid, over, now);
      MovedFrom(s, m, Judge(m, pid, over, now), pid);
    }
  }

  lemma TickKeeps(s: Reporter, pid: Pid, ride: RideId, over: Option<EndReason>, now: Time)
    requires TurnsInv(s) && pid !in s.procs
    ensures var s' := Do(s, Tick(pid, ride, over, now));
            TurnsInv(s') && OnlyMoved(s, s', pid) && !IsStart(s'.procs[pid])
  {
    InHand(s, pid);
    if !Running(s, ride) {
      Placed(s, pid, Over);
    } else if over.Some? {
      BeginEndKeeps(s, pid, over.value, Nothing, now);
      EndMoves(s, pid, over.value, Nothing, now);
    } else {
      BeginFlushKeeps(s, pid);
    }
  }

  lemma UploadedKeeps(s: Reporter, pid: Pid, upload: Upload, now: Time)
    requires Inv(s) && Enabled(s, Uploaded(pid, upload, now))
    ensures Inv(Do(s, Uploaded(pid, upload, now)))
  {
    var Uploading(ride, batch) := s.procs[pid];
    AnsweredKeeps(s, pid, ride, batch, upload, now);
    AnswerMoves(s, pid, ride, batch, upload, now);
    OtherKeepsStarts(s, Do(s, Uploaded(pid, upload, now)), pid);
  }

  lemma ClosedKeeps(s: Reporter, pid: Pid)
    requires Inv(s) && Enabled(s, Closed(pid))
    ensures Inv(Do(s, Closed(pid)))
  {
    var Closing(ride, _, after) := s.procs[pid];
    assert PcInv(s, s.procs[pid]);
    ClosingInHand(s, pid);
    FinishKeeps(s, pid, ride, after);
    FinishMoves(s, pid, ride, after);
    if after.Ask? {
      var i := UnderWay(s, pid);
      StartKeepsStarts(s, Do(s, Closed(pid)), pid, i);
    } else {
      OtherKeepsStarts(s, Do(s, Closed(pid)), pid);
    }
  }

  lemma ClosingInHand(s: Reporter, pid: Pid)
    requires TurnsInv(s) && pid in s.procs && s.procs[pid].Closing?
    ensures OthersInv(s, pid) && Holding(s, pid, s.procs[pid].after)
    ensures forall p | p in s.procs && p != pid :: ClosingOf(s.procs[p]) != Some(s.procs[pid].ride)
    ensures s.active.Some? && s.active.value.ending && s.active.value.id != s.procs[pid].ride ==>
              IsClosing(s, s.active.value.id, Some(pid))
  {
    assert PcInv(s, s.procs[pid]);
    assert forall p | p in s.procs && p != pid :: Apart(s.procs[pid], s.procs[p]);
    if s.active.Some? && s.active.value.ending && s.active.value.id != s.procs[pid].ride {
      var p :| p in s.procs && ClosingOf(s.procs[p]) == Some(s.active.value.id);
      assert p != pid;
    }
  }

  lemma DoKeepsInv(s: Reporter, a: Action)
    requires Inv(s) && Enabled(s, a)
    ensures Inv(Do(s, a))
  {
    match a
    case Start(pid) => NewStartKeeps(s, pid);
    case Run(pid, cancelled, now) => RunKeeps(s, pid, cancelled, now);
    case Asked(pid, answer) => AskedKeeps(s, pid, answer);
    case StartReturns(pid) => ReturnKeeps(s, pid);
    case Uploaded(pid, upload, now) => UploadedKeeps(s, pid, upload, now);
    case Closed(pid) => ClosedKeeps(s, pid);
    case End(_, _, _) => NewTurnKeeps(s, a);
    case Sample(_, _, _, _, _) => NewTurnKeeps(s, a);
    case Tick(_, _, _, _) => NewTurnKeeps(s, a);
  }

  ghost predicate Reaches(s: Reporter, actions: seq<Action>, s': Reporter)
    decreases |actions|
  {
    if |actions| == 0 then s' == s
    else Enabled(s, actions[0]) && Reaches(Do(s, actions[0]), actions[1..], s')
  }

  lemma {:induction false} RunKeepsInv(s: Reporter, actions: seq<Action>, s': Reporter)
    requires Inv(s) && Reaches(s, actions, s')
    ensures Inv(s')
    decreases |actions|
  {
    if |actions| > 0 {
      DoKeepsInv(s, actions[0]);
      RunKeepsInv(Do(s, actions[0]), actions[1..], s');
    }
  }

  lemma InitInv(s: Reporter)
    requires Init(s)
    ensures Inv(s)
  {
  }
}
