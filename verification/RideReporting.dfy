/** The rider app's reporter (RideReporter.swift): an actor that runs one ride at
    a time. Its turns do not overlap, but at every await it takes the next: a
    start, an end, a sample, an upload's answer. A step here is one turn, from
    resuming to the next suspension. */
module RideReporting {
  import opened Prelude
  import opened Reputation

  type Pid = nat
  type RideId = nat

  /** Fixes are numbered as they are buffered. */
  datatype Fix = Fix(number: nat, at: Time)

  /** ActiveRide, as far as its slot and its fixes go. */
  datatype ActiveRide = ActiveRide(
    id: RideId, maxBatch: nat, buffer: seq<Fix>, inFlight: seq<Fix>,
    failures: nat, failingSince: Option<Time>, throttled: bool, ending: bool)

  /** What the caller of end does once it returns: nothing, ask the server for the
      new ride, or unwind the flush that called it. */
  datatype After = Nothing | Ask | Unwind(ride: RideId)

  /** A task of the actor: a start behind its predecessor, asking the server, or
      finished with its caller yet to return; an end in its teardown, with the
      fixes it sends last; a flush waiting for its upload. */
  datatype Pc =
    | Queued(behind: Option<Pid>)
    | Asking
    | Returned
    | Closing(ride: RideId, flush: seq<Fix>, after: After)
    | Uploading(ride: RideId, batch: seq<Fix>)
    | Over

  /** starts lists the starts in the order they were made, ended the rides whose
      ended event has been sent, installed those that ever held the slot. */
  datatype Reporter = Reporter(
    active: Option<ActiveRide>, uploading: Option<RideId>, startTask: Option<Pid>,
    procs: map<Pid, Pc>, starts: seq<Pid>, ended: seq<RideId>, installed: set<RideId>, fixes: nat,
    retention: int, timeout: int)

  datatype Answer = Created(ride: RideId, maxBatch: nat, cancelled: bool) | Failed

  datatype Upload =
    | Accepted(over: Option<EndReason>)
    | Cancelled
    | Gone
    | Throttled
    | Dropped
    | Broken

  datatype Action =
    | Start(pid: Pid)
    | Run(pid: Pid, cancelled: bool, now: Time)
    | Asked(pid: Pid, answer: Answer)
    | StartReturns(pid: Pid)
    | End(pid: Pid, reason: EndReason, now: Time)
    | Sample(pid: Pid, ride: RideId, fix: Option<Time>, over: Option<EndReason>, now: Time)
    | Tick(pid: Pid, ride: RideId, over: Option<EndReason>, now: Time)
    | Uploaded(pid: Pid, upload: Upload, now: Time)
    | Closed(pid: Pid)

  const END_FLUSH_BATCHES: nat := 2

  // ---- The sample buffer ---------------------------------------------------

  /** Everything before the first fix young enough goes. */
  function Prune(fixes: seq<Fix>, cutoff: Time): (r: seq<Fix>)
    ensures |r| <= |fixes|
  {
    if |fixes| == 0 || fixes[0].at >= cutoff then fixes else Prune(fixes[1..], cutoff)
  }

  lemma {:induction false} PruneIsTail(fixes: seq<Fix>, cutoff: Time)
    ensures Prune(fixes, cutoff) == fixes[|fixes| - |Prune(fixes, cutoff)|..]
  {
    if |fixes| > 0 && fixes[0].at < cutoff {
      PruneIsTail(fixes[1..], cutoff);
    }
  }

  function Least(a: nat, b: nat): nat {
    if a < b then a else b
  }

  // ---- Turns ---------------------------------------------------------------

  function Goto(s: Reporter, pid: Pid, pc: Pc): Reporter {
    s.(procs := s.procs[pid := pc])
  }

  predicate Reportable(reason: EndReason) {
    ClientReason(reason)
  }

  predicate Silent(reason: EndReason) {
    !ClientReason(reason) && reason != Superseded
  }

  /** What a ride has left to send: the batch an upload was carrying goes first. */
  function Reclaimed(s: Reporter, reason: EndReason, now: Time): seq<Fix>
    requires s.active.Some?
  {
    var a := s.active.value;
    if Silent(reason) || a.inFlight == [] then a.buffer else Prune(a.inFlight + a.buffer, now - s.retention)
  }

  /** How many of those the final flush takes. */
  function FinalFlush(s: Reporter, reason: EndReason, now: Time): (n: nat)
    requires s.active.Some?
    ensures n <= |Reclaimed(s, reason, now)|
  {
    if Silent(reason) then 0 else Least(|Reclaimed(s, reason, now)|, END_FLUSH_BATCHES * s.active.value.maxBatch)
  }

  function Ending(s: Reporter, reason: EndReason, now: Time): Reporter
    requires s.active.Some?
  {
    var a := s.active.value;
    s.(active := Some(a.(ending := true, buffer := Reclaimed(s, reason, now)[FinalFlush(s, reason, now)..],
                         inFlight := if Silent(reason) then a.inFlight else [])))
  }

  /** end, up to its teardown: the first to end a ride closes it. */
  function BeginEnd(s: Reporter, pid: Pid, reason: EndReason, after: After, now: Time): Reporter {
    if s.active.None? || s.active.value.ending then Continue(s, pid, after)
    else if FinalFlush(s, reason, now) > 0 || Reportable(reason) then
      Goto(Ending(s, reason, now), pid,
           Closing(s.active.value.id, Reclaimed(s, reason, now)[..FinalFlush(s, reason, now)], after))
    else FinishEnd(Ending(s, reason, now), pid, s.active.value.id, after)
  }

  /** The rest of end: the ended event, and the slot, if it is still the ride's. */
  function FinishEnd(s: Reporter, pid: Pid, ride: RideId, after: After): Reporter {
    Continue(s.(ended := s.ended + [ride], active := if s.active.Some? && s.active.value.id == ride then None else s.active),
      pid, after)
  }

  function Continue(s: Reporter, pid: Pid, after: After): Reporter {
    match after
    case Nothing => Goto(s, pid, Over)
    case Ask => Goto(s, pid, Asking)
    case Unwind(ride) => Goto(Unwound(s, ride), pid, Over)
  }

  /** flush's deferred clean-up. */
  function Unwound(s: Reporter, ride: RideId): Reporter {
    s.(uploading := if s.uploading == Some(ride) then None else s.uploading,
       active := if s.active.Some? && s.active.value.id == ride then Some(s.active.value.(inFlight := [])) else s.active)
  }

  /** flush, up to its upload. */
  function BeginFlush(s: Reporter, pid: Pid): Reporter {
    if s.active.None? || s.active.value.ending || s.uploading == Some(s.active.value.id) || s.active.value.buffer == [] then
      Goto(s, pid, Over)
    else
      var a := s.active.value;
      var n := Least(|a.buffer|, a.maxBatch);
      Goto(s.(uploading := Some(a.id), active := Some(a.(inFlight := a.buffer[..n], buffer := a.buffer[n..]))),
        pid, Uploading(a.id, a.buffer[..n]))
  }

  predicate Running(s: Reporter, ride: RideId) {
    s.active.Some? && s.active.value.id == ride && !s.active.value.ending
  }

  function Restored(s: Reporter, batch: seq<Fix>, now: Time): ActiveRide
    requires s.active.Some?
  {
    s.active.value.(buffer := Prune(batch + s.active.value.buffer, now - s.retention))
  }

  /** What the answer to an upload leaves of the ride. */
  function AnsweredTo(s: Reporter, ride: RideId, batch: seq<Fix>, upload: Upload, now: Time): Reporter {
    if !Running(s, ride) then s
    else
      match upload
      case Accepted(_) => s.(active := Some(s.active.value.(failures := 0, failingSince := None, throttled := false)))
      case Cancelled => s.(active := Some(Restored(s, batch, now)))
      case Throttled => s.(active := Some(Restored(s, batch, now).(throttled := true)))
      case Broken =>
        s.(active := Some(Restored(s, batch, now).(inFlight := [], failures := s.active.value.failures + 1,
                                                   failingSince := Some(FailingSince(s.active.value, now)))))
      case _ => s
  }

  function FailingSince(a: ActiveRide, now: Time): Time {
    if a.failingSince.Some? then a.failingSince.value else now
  }

  /** Why the answer ends the ride, if it does. */
  function EndsFor(s: Reporter, ride: RideId, upload: Upload, now: Time): Option<EndReason> {
    if !Running(s, ride) then None
    else
      match upload
      case Accepted(over) => over
      case Gone => Some(ServerRestart)
      case Broken => if now - FailingSince(s.active.value, now) >= s.timeout then Some(NetworkFailure) else None
      case _ => None
  }

  /** The answer to an upload. */
  function Answered(s: Reporter, pid: Pid, ride: RideId, batch: seq<Fix>, upload: Upload, now: Time): Reporter {
    var s' := AnsweredTo(s, ride, batch, upload, now);
    match EndsFor(s, ride, upload, now)
    case Some(reason) => BeginEnd(s', pid, reason, Unwind(ride), now)
    case None => Continue(s', pid, Unwind(ride))
  }

  function Appended(buffer: seq<Fix>, number: nat, fix: Option<Time>, cutoff: Time): seq<Fix> {
    if fix.None? then buffer else Prune(buffer + [Fix(number, fix.value)], cutoff)
  }

  function Buffered(s: Reporter, fix: Option<Time>, now: Time): Reporter
    requires s.active.Some?
  {
    var a := s.active.value;
    s.(active := Some(a.(buffer := Appended(a.buffer, s.fixes, fix, now - s.retention))), fixes := s.fixes + 1)
  }

  /** A sample is buffered before it is judged. */
  function Consume(s: Reporter, pid: Pid, ride: RideId, fix: Option<Time>, over: Option<EndReason>, now: Time): Reporter {
    if Running(s, ride) then Judge(Buffered(s, fix, now), pid, over, now) else Goto(s, pid, Over)
  }

  /** A full batch goes at once, unless uploads are failing or paced. */
  function Judge(s: Reporter, pid: Pid, over: Option<EndReason>, now: Time): Reporter
    requires s.active.Some?
  {
    var a := s.active.value;
    if over.Some? then BeginEnd(s, pid, over.value, Nothing, now)
    else if |a.buffer| >= a.maxBatch && a.failures == 0 && !a.throttled then BeginFlush(s, pid)
    else Goto(s, pid, Over)
  }

  predicate Done(s: Reporter, pid: Pid) {
    pid in s.procs && (s.procs[pid].Returned? || s.procs[pid].Over?)
  }

  predicate Enabled(s: Reporter, a: Action) {
    match a
    case Start(pid) => pid !in s.procs
    case Run(pid, _, _) =>
      pid in s.procs && s.procs[pid].Queued? && (s.procs[pid].behind.None? || Done(s, s.procs[pid].behind.value))
    // The server never gives out a ride id twice.
    case Asked(pid, answer) =>
      pid in s.procs && s.procs[pid].Asking? && (answer.Created? ==> answer.ride !in s.installed && answer.maxBatch > 0)
    case StartReturns(pid) => pid in s.procs && s.procs[pid].Returned?
    case End(pid, _, _) => pid !in s.procs
    case Sample(pid, _, _, _, _) => pid !in s.procs
    case Tick(pid, _, _, _) => pid !in s.procs
    case Uploaded(pid, _, _) => pid in s.procs && s.procs[pid].Uploading?
    case Closed(pid) => pid in s.procs && s.procs[pid].Closing?
  }

  function Do(s: Reporter, a: Action): Reporter
    requires Enabled(s, a)
  {
    match a
    case Start(pid) =>
      Goto(s, pid, Queued(s.startTask)).(startTask := Some(pid), starts := s.starts + [pid])
    case Run(pid, cancelled, now) =>
      if cancelled then Goto(s, pid, Returned)
      else if s.active.Some? then BeginEnd(s, pid, Superseded, Ask, now) else Goto(s, pid, Asking)
    // A start cancelled meanwhile installs nothing.
    case Asked(pid, answer) =>
      if answer.Failed? || answer.cancelled then Goto(s, pid, Returned)
      else
        Goto(s.(active := Some(ActiveRide(answer.ride, answer.maxBatch, [], [], 0, None, false, false)),
                installed := s.installed + {answer.ride}), pid, Returned)
    case StartReturns(pid) =>
      Goto(s.(startTask := if s.startTask == Some(pid) then None else s.startTask), pid, Over)
    case End(pid, reason, now) => BeginEnd(s, pid, reason, Nothing, now)
    case Sample(pid, ride, fix, over, now) => Consume(s, pid, ride, fix, over, now)
    case Tick(pid, ride, over, now) =>
      if !Running(s, ride) then Goto(s, pid, Over)
      else if over.Some? then BeginEnd(s, pid, over.value, Nothing, now) else BeginFlush(s, pid)
    case Uploaded(pid, upload, now) => Answered(s, pid, s.procs[pid].ride, s.procs[pid].batch, upload, now)
    case Closed(pid) => FinishEnd(s, pid, s.procs[pid].ride, s.procs[pid].after)
  }

  ghost predicate Init(s: Reporter) {
    s.active.None? && s.uploading.None? && s.startTask.None? && s.procs == map[] && s.starts == [] && s.ended == []
    && s.installed == {}
  }

  // ---- What always holds ---------------------------------------------------

  /** In the order they were buffered, none twice. */
  ghost predicate Ordered(fixes: seq<Fix>) {
    forall i, j | 0 <= i < j < |fixes| :: fixes[i].number < fixes[j].number
  }

  /** The same, and all numbered below the limit. */
  ghost predicate Numbered(fixes: seq<Fix>, limit: nat) {
    |fixes| == 0 || (fixes[|fixes| - 1].number < limit && Numbered(fixes[..|fixes| - 1], fixes[|fixes| - 1].number))
  }

  /** What is in flight is older than what is buffered, and neither repeats. */
  ghost predicate RideFits(a: ActiveRide, installed: set<RideId>, limit: nat) {
    a.id in installed && a.maxBatch > 0 && Numbered(a.inFlight + a.buffer, limit)
  }

  ghost predicate SlotInv(s: Reporter) {
    s.active.Some? ==> RideFits(s.active.value, s.installed, s.fixes)
  }

  ghost predicate EndedInv(s: Reporter) {
    && (forall i, j | 0 <= i < j < |s.ended| :: s.ended[i] != s.ended[j])
    && (forall r | r in s.ended :: r in s.installed && (s.active.Some? ==> s.active.value.id != r))
  }

  /** Nothing a new ride would displace but one already ending. */
  ghost predicate SlotFree(s: Reporter) {
    s.active.None? || s.active.value.ending
  }

  ghost predicate IsActive(s: Reporter, ride: RideId) {
    s.active.Some? && s.active.value.id == ride
  }

  ghost predicate FlushFits(s: Reporter, ride: RideId) {
    ride in s.installed && (IsActive(s, ride) ==> s.uploading == Some(ride))
  }

  ghost predicate ClosingFits(s: Reporter, ride: RideId) {
    ride in s.installed && ride !in s.ended && (IsActive(s, ride) ==> s.active.value.ending)
  }

  ghost predicate AfterFits(s: Reporter, after: After) {
    (after.Ask? ==> SlotFree(s)) && (after.Unwind? ==> FlushFits(s, after.ride))
  }

  ghost predicate PcInv(s: Reporter, pc: Pc) {
    match pc
    case Asking => SlotFree(s)
    case Closing(ride, _, after) => ClosingFits(s, ride) && AfterFits(s, after)
    case Uploading(ride, batch) => FlushFits(s, ride) && (Running(s, ride) ==> s.active.value.inFlight == batch)
    case _ => true
  }

  /** The ride whose flush has yet to unwind. */
  function FlushOf(pc: Pc): Option<RideId> {
    match pc
    case Uploading(ride, _) => Some(ride)
    case Closing(_, _, Unwind(ride)) => Some(ride)
    case _ => None
  }

  function ClosingOf(pc: Pc): Option<RideId> {
    if pc.Closing? then Some(pc.ride) else None
  }

  ghost predicate Asks(pc: Pc) {
    pc.Asking? || (pc.Closing? && pc.after.Ask?)
  }

  /** No two tasks flush, or close, one ride. */
  ghost predicate Apart(pc: Pc, other: Pc) {
    && (FlushOf(pc).Some? ==> FlushOf(pc) != FlushOf(other))
    && (ClosingOf(pc).Some? ==> ClosingOf(pc) != ClosingOf(other))
  }

  ghost predicate IsClosing(s: Reporter, ride: RideId, but: Option<Pid>) {
    exists p | p in s.procs && Some(p) != but :: ClosingOf(s.procs[p]) == Some(ride)
  }

  ghost predicate OthersInv(s: Reporter, pid: Pid) {
    && SlotInv(s) && EndedInv(s)
    && (forall p | p in s.procs && p != pid :: PcInv(s, s.procs[p]))
    && (forall p, q | p in s.procs && q in s.procs && p != pid && q != pid && p != q :: Apart(s.procs[p], s.procs[q]))
  }

  ghost predicate TurnsInv(s: Reporter) {
    && SlotInv(s) && EndedInv(s)
    && (forall p | p in s.procs :: PcInv(s, s.procs[p]))
    && (forall p, q | p in s.procs && q in s.procs && p != q :: Apart(s.procs[p], s.procs[q]))
    && (s.active.Some? && s.active.value.ending ==> IsClosing(s, s.active.value.id, None))
  }

  // ---- Turns keep it -------------------------------------------------------

  ghost predicate ApartFromOthers(s: Reporter, pid: Pid, pc: Pc) {
    forall p | p in s.procs && p != pid :: Apart(pc, s.procs[p]) && Apart(s.procs[p], pc)
  }

  lemma Placed(s: Reporter, pid: Pid, pc: Pc)
    requires OthersInv(s, pid) && PcInv(s, pc) && ApartFromOthers(s, pid, pc)
    requires s.active.Some? && s.active.value.ending ==>
               ClosingOf(pc) == Some(s.active.value.id) || IsClosing(s, s.active.value.id, Some(pid))
    ensures TurnsInv(Goto(s, pid, pc))
  {
    var s' := Goto(s, pid, pc);
    forall p | p in s'.procs ensures PcInv(s', s'.procs[p]) {
      assert PcInv(s, s'.procs[p]);
    }
    if s.active.Some? && s.active.value.ending {
      if ClosingOf(pc) == Some(s.active.value.id) {
        assert ClosingOf(s'.procs[pid]) == Some(s.active.value.id);
      } else {
        var p :| p in s.procs && Some(p) != Some(pid) && ClosingOf(s.procs[p]) == Some(s.active.value.id);
        assert ClosingOf(s'.procs[p]) == Some(s.active.value.id);
      }
    }
  }

  /** The turn holds what end will do next: it alone flushes what is to unwind. */
  ghost predicate Holding(s: Reporter, pid: Pid, after: After) {
    after.Unwind? ==> FlushFits(s, after.ride) && forall p | p in s.procs && p != pid :: FlushOf(s.procs[p]) != Some(after.ride)
  }

  lemma UnwoundKeeps(s: Reporter, pid: Pid, ride: RideId)
    requires OthersInv(s, pid) && forall p | p in s.procs && p != pid :: FlushOf(s.procs[p]) != Some(ride)
    ensures OthersInv(Unwound(s, ride), pid)
  {
    var s' := Unwound(s, ride);
    if s.active.Some? {
      NumberedTail(s.active.value.inFlight, s.active.value.buffer, s.fixes);
    }
    forall p | p in s'.procs && p != pid ensures PcInv(s', s'.procs[p]) {
      assert PcInv(s, s.procs[p]);
    }
  }

  lemma ContinueKeeps(s: Reporter, pid: Pid, after: After)
    requires OthersInv(s, pid) && Holding(s, pid, after) && (after.Ask? ==> SlotFree(s))
    requires s.active.Some? && s.active.value.ending ==> IsClosing(s, s.active.value.id, Some(pid))
    ensures TurnsInv(Continue(s, pid, after))
  {
    match after
    case Nothing => Placed(s, pid, Over);
    case Ask => Placed(s, pid, Asking);
    case Unwind(ride) =>
      UnwoundKeeps(s, pid, ride);
      Placed(Unwound(s, ride), pid, Over);
  }

  lemma FinishKeeps(s: Reporter, pid: Pid, ride: RideId, after: After)
    requires OthersInv(s, pid) && Holding(s, pid, after) && (after.Ask? ==> SlotFree(s)) && ClosingFits(s, ride)
    requires forall p | p in s.procs && p != pid :: ClosingOf(s.procs[p]) != Some(ride)
    requires s.active.Some? && s.active.value.ending && s.active.value.id != ride ==> IsClosing(s, s.active.value.id, Some(pid))
    ensures TurnsInv(FinishEnd(s, pid, ride, after))
  {
    var s' := s.(ended := s.ended + [ride], active := if s.active.Some? && s.active.value.id == ride then None else s.active);
    forall p | p in s'.procs && p != pid ensures PcInv(s', s'.procs[p]) {
      assert PcInv(s, s.procs[p]);
    }
    if s'.active.Some? && s'.active.value.ending {
      assert IsClosing(s', s'.active.value.id, Some(pid));
    }
    ContinueKeeps(s', pid, after);
  }

  lemma {:induction false} NumberedSuffix(s: seq<Fix>, n: nat, limit: nat)
    requires Numbered(s, limit) && n <= |s|
    ensures Numbered(s[n..], limit)
  {
    if n < |s| {
      assert s[n..][..|s| - n - 1] == s[..|s| - 1][n..];
      NumberedSuffix(s[..|s| - 1], n, s[|s| - 1].number);
    }
  }

  lemma AfterNothing(fixes: seq<Fix>, limit: nat)
    requires Numbered(fixes, limit)
    ensures Numbered([] + fixes, limit)
  {
    assert [] + fixes == fixes;
  }

  lemma NumberedTail(a: seq<Fix>, b: seq<Fix>, limit: nat)
    requires Numbered(a + b, limit)
    ensures Numbered(b, limit) && Numbered([] + b, limit)
  {
    assert b == (a + b)[|a|..];
    NumberedSuffix(a + b, |a|, limit);
    AfterNothing(b, limit);
  }

  lemma {:induction false} PrunedFits(all: seq<Fix>, cutoff: Time, limit: nat)
    requires Numbered(all, limit)
    ensures Numbered(Prune(all, cutoff), limit)
  {
    if |all| > 0 && all[0].at < cutoff {
      NumberedSuffix(all, 1, limit);
      PrunedFits(all[1..], cutoff, limit);
    }
  }

  lemma ReclaimedFits(s: Reporter, reason: EndReason, now: Time)
    requires SlotInv(s) && s.active.Some?
    ensures Numbered(Reclaimed(s, reason, now), s.fixes)
  {
    var a := s.active.value;
    NumberedTail(a.inFlight, a.buffer, s.fixes);
    PrunedFits(a.inFlight + a.buffer, now - s.retention, s.fixes);
  }

  lemma FlushedFits(left: seq<Fix>, n: nat, limit: nat)
    requires Numbered(left, limit) && n <= |left|
    ensures Numbered([] + left[n..], limit)
  {
    NumberedSuffix(left, n, limit);
    AfterNothing(left[n..], limit);
  }

  lemma EndingSlot(s: Reporter, reason: EndReason, now: Time)
    requires SlotInv(s) && s.active.Some?
    ensures SlotInv(Ending(s, reason, now))
  {
    var left, n := Reclaimed(s, reason, now), FinalFlush(s, reason, now);
    if Silent(reason) {
      assert left[0..] == s.active.value.buffer;
    } else {
      ReclaimedFits(s, reason, now);
      FlushedFits(left, n, s.fixes);
    }
  }

  /** A ride starts to end: its teardown is this turn's. */
  lemma EndingKeeps(s: Reporter, pid: Pid, reason: EndReason, now: Time)
    requires OthersInv(s, pid) && s.active.Some? && !s.active.value.ending
    ensures OthersInv(Ending(s, reason, now), pid) && ClosingFits(Ending(s, reason, now), s.active.value.id)
    ensures forall p | p in s.procs && p != pid :: ClosingOf(s.procs[p]) != Some(s.active.value.id)
  {
    EndingSlot(s, reason, now);
    forall p | p in s.procs && p != pid
      ensures ClosingOf(s.procs[p]) != Some(s.active.value.id) && PcInv(Ending(s, reason, now), s.procs[p])
    {
      assert PcInv(s, s.procs[p]);
    }
  }

  lemma CloseKeeps(s: Reporter, pid: Pid, ride: RideId, flush: seq<Fix>, after: After, suspends: bool)
    requires OthersInv(s, pid) && Holding(s, pid, after) && ClosingFits(s, ride)
    requires s.active.Some? && s.active.value.ending && s.active.value.id == ride
    requires forall p | p in s.procs && p != pid :: ClosingOf(s.procs[p]) != Some(ride)
    ensures TurnsInv(if suspends then Goto(s, pid, Closing(ride, flush, after)) else FinishEnd(s, pid, ride, after))
  {
    if suspends {
      Placed(s, pid, Closing(ride, flush, after));
    } else {
      FinishKeeps(s, pid, ride, after);
    }
  }

  lemma BeginEndKeeps(s: Reporter, pid: Pid, reason: EndReason, after: After, now: Time)
    requires OthersInv(s, pid) && Holding(s, pid, after)
    requires s.active.Some? && s.active.value.ending ==> IsClosing(s, s.active.value.id, Some(pid))
    ensures TurnsInv(BeginEnd(s, pid, reason, after, now))
  {
    if s.active.None? || s.active.value.ending {
      ContinueKeeps(s, pid, after);
    } else {
      EndingKeeps(s, pid, reason, now);
      CloseKeeps(Ending(s, reason, now), pid, s.active.value.id, Reclaimed(s, reason, now)[..FinalFlush(s, reason, now)], after,
        FinalFlush(s, reason, now) > 0 || Reportable(reason));
    }
  }

  lemma BatchTaken(a: ActiveRide, n: nat, installed: set<RideId>, limit: nat)
    requires RideFits(a, installed, limit) && n <= |a.buffer|
    ensures RideFits(a.(inFlight := a.buffer[..n], buffer := a.buffer[n..]), installed, limit)
  {
    NumberedTail(a.inFlight, a.buffer, limit);
    NumberedSplit(a.buffer, n, limit);
  }

  lemma NumberedSplit(fixes: seq<Fix>, n: nat, limit: nat)
    requires n <= |fixes| && Numbered(fixes, limit)
    ensures Numbered(fixes[..n] + fixes[n..], limit)
  {
    assert fixes[..n] + fixes[n..] == fixes;
  }

  /** A flush that takes a batch: nobody else's is of this ride. */
  lemma TakingKeeps(s: Reporter, pid: Pid, a: ActiveRide)
    requires OthersInv(s, pid) && s.active.Some? && !s.active.value.ending && s.uploading != Some(s.active.value.id)
    requires RideFits(a, s.installed, s.fixes) && a.id == s.active.value.id && !a.ending
    ensures TurnsInv(Goto(s.(uploading := Some(a.id), active := Some(a)), pid, Uploading(a.id, a.inFlight)))
  {
    var s' := s.(uploading := Some(a.id), active := Some(a));
    forall p | p in s.procs && p != pid ensures FlushOf(s.procs[p]) != Some(a.id) && PcInv(s', s.procs[p]) {
      assert PcInv(s, s.procs[p]);
    }
    Placed(s', pid, Uploading(a.id, a.inFlight));
  }

  lemma BeginFlushKeeps(s: Reporter, pid: Pid)
    requires OthersInv(s, pid)
    requires s.active.Some? && s.active.value.ending ==> IsClosing(s, s.active.value.id, Some(pid))
    ensures TurnsInv(BeginFlush(s, pid))
  {
    if s.active.None? || s.active.value.ending || s.uploading == Some(s.active.value.id) || s.active.value.buffer == [] {
      Placed(s, pid, Over);
    } else {
      var a := s.active.value;
      var n := Least(|a.buffer|, a.maxBatch);
      BatchTaken(a, n, s.installed, s.fixes);
      TakingKeeps(s, pid, a.(inFlight := a.buffer[..n], buffer := a.buffer[n..]));
    }
  }

  // ---- Folding answers and samples in --------------------------------------

  /** Between turns: everything holds of everyone else. */
  lemma InHand(s: Reporter, pid: Pid)
    requires TurnsInv(s) && (pid in s.procs ==> ClosingOf(s.procs[pid]).None?)
    ensures OthersInv(s, pid)
    ensures s.active.Some? && s.active.value.ending ==> IsClosing(s, s.active.value.id, Some(pid))
  {
    if s.active.Some? && s.active.value.ending {
      var p :| p in s.procs && ClosingOf(s.procs[p]) == Some(s.active.value.id);
      assert p != pid;
    }
  }

  /** The ride's fixes change, in order, and nobody's upload is of this ride. */
  lemma FixesChange(s: Reporter, s': Reporter, pid: Pid)
    requires OthersInv(s, pid) && SlotInv(s') && s' == s.(active := s'.active, fixes := s'.fixes)
    requires s.active.Some? && !s.active.value.ending && s'.active.Some? && !s'.active.value.ending
    requires s'.active.value.id == s.active.value.id
    requires s'.active.value.inFlight == s.active.value.inFlight
          || forall p | p in s.procs && p != pid :: FlushOf(s.procs[p]) != Some(s.active.value.id)
    ensures OthersInv(s', pid)
  {
    forall p | p in s.procs && p != pid ensures PcInv(s', s.procs[p]) {
      assert PcInv(s, s.procs[p]);
    }
  }

  /** The batch goes back in front of what was buffered since. */
  lemma RestoredFits(s: Reporter, batch: seq<Fix>, now: Time)
    requires SlotInv(s) && s.active.Some? && s.active.value.inFlight == batch
    ensures Numbered([] + Restored(s, batch, now).buffer, s.fixes)
  {
    PrunedFits(batch + s.active.value.buffer, now - s.retention, s.fixes);
    AfterNothing(Restored(s, batch, now).buffer, s.fixes);
  }

  lemma RunningIsNotEnding(s: Reporter, pid: Pid, ride: RideId, batch: seq<Fix>)
    requires TurnsInv(s) && pid in s.procs && s.procs[pid] == Uploading(ride, batch)
    ensures OthersInv(s, pid) && Holding(s, pid, Unwind(ride))
    ensures s.active.Some? && s.active.value.ending ==> IsClosing(s, s.active.value.id, Some(pid))
    ensures Running(s, ride) ==> s.active.value.inFlight == batch
  {
    InHand(s, pid);
    assert PcInv(s, s.procs[pid]);
    forall p | p in s.procs && p != pid ensures FlushOf(s.procs[p]) != Some(ride) {
      assert Apart(s.procs[pid], s.procs[p]);
    }
  }

  /** A failed upload's batch goes back; nothing of it is left in flight. */
  lemma RestoreKeeps(s: Reporter, pid: Pid, ride: RideId, batch: seq<Fix>, a: ActiveRide, now: Time)
    requires OthersInv(s, pid) && Holding(s, pid, Unwind(ride)) && Running(s, ride) && s.active.value.inFlight == batch
    requires a == s.active.value.(inFlight := [], buffer := Restored(s, batch, now).buffer, failures := a.failures,
                                  failingSince := a.failingSince, throttled := a.throttled)
    ensures OthersInv(s.(active := Some(a)), pid) && Holding(s.(active := Some(a)), pid, Unwind(ride))
  {
    RestoredFits(s, batch, now);
    FixesChange(s, s.(active := Some(a)), pid);
  }

  lemma PutBackKeeps(s: Reporter, pid: Pid, ride: RideId, batch: seq<Fix>, a: ActiveRide, now: Time)
    requires OthersInv(s, pid) && Holding(s, pid, Unwind(ride)) && Running(s, ride) && s.active.value.inFlight == batch
    requires a == Restored(s, batch, now) || a == Restored(s, batch, now).(throttled := true)
    ensures TurnsInv(Continue(s.(active := Some(a)), pid, Unwind(ride)))
  {
    var cleared := s.(active := Some(a.(inFlight := [])));
    RestoreKeeps(s, pid, ride, batch, a.(inFlight := []), now);
    ContinueKeeps(cleared, pid, Unwind(ride));
    assert Continue(cleared, pid, Unwind(ride)) == Continue(s.(active := Some(a)), pid, Unwind(ride));
  }

  lemma AnsweredToKeeps(s: Reporter, pid: Pid, ride: RideId, batch: seq<Fix>, upload: Upload, now: Time)
    requires OthersInv(s, pid) && Holding(s, pid, Unwind(ride)) && Running(s, ride) && s.active.value.inFlight == batch
    requires !upload.Cancelled? && !upload.Throttled?
    ensures OthersInv(AnsweredTo(s, ride, batch, upload, now), pid) && Holding(AnsweredTo(s, ride, batch, upload, now), pid, Unwind(ride))
    ensures !AnsweredTo(s, ride, batch, upload, now).active.value.ending
  {
    var s' := AnsweredTo(s, ride, batch, upload, now);
    if upload.Broken? {
      RestoreKeeps(s, pid, ride, batch, s'.active.value, now);
    } else if upload.Accepted? {
      FixesChange(s, s', pid);
    }
  }

  lemma AnsweredKeeps(s: Reporter, pid: Pid, ride: RideId, batch: seq<Fix>, upload: Upload, now: Time)
    requires TurnsInv(s) && pid in s.procs && s.procs[pid] == Uploading(ride, batch)
    ensures TurnsInv(Answered(s, pid, ride, batch, upload, now))
  {
    RunningIsNotEnding(s, pid, ride, batch);
    if !Running(s, ride) {
      ContinueKeeps(s, pid, Unwind(ride));
    } else if upload.Cancelled? || upload.Throttled? {
      PutBackKeeps(s, pid, ride, batch, AnsweredTo(s, ride, batch, upload, now).active.value, now);
    } else {
      AnsweredToKeeps(s, pid, ride, batch, upload, now);
      var s' := AnsweredTo(s, ride, batch, upload, now);
      match EndsFor(s, ride, upload, now)
      case Some(reason) => BeginEndKeeps(s', pid, reason, Unwind(ride), now);
      case None => ContinueKeeps(s', pid, Unwind(ride));
    }
  }

  lemma AppendNumbered(fixes: seq<Fix>, f: Fix)
    requires Numbered(fixes, f.number)
    ensures Numbered(fixes + [f], f.number + 1)
  {
    assert (fixes + [f])[..|fixes|] == fixes;
  }

  lemma {:induction false} NumberedPrefix(s: seq<Fix>, n: nat, limit: nat)
    requires Numbered(s, limit) && n <= |s|
    ensures Numbered(s[..n], limit)
  {
    if n == |s| {
      assert s[..n] == s;
    } else {
      assert s[..n] == s[..|s| - 1][..n];
      LaterLimit(s[..|s| - 1], s[|s| - 1].number, limit);
      NumberedPrefix(s[..|s| - 1], n, limit);
    }
  }

  lemma {:induction false} DropFromMiddle(a: seq<Fix>, b: seq<Fix>, n: nat, limit: nat)
    requires Numbered(a + b, limit) && n <= |b|
    ensures Numbered(a + b[n..], limit)
  {
    if n == |b| {
      assert a + b[n..] == (a + b)[..|a|];
      NumberedPrefix(a + b, |a|, limit);
    } else {
      var b' := b[..|b| - 1];
      assert (a + b)[..|a + b| - 1] == a + b';
      assert (a + b[n..])[..|a| + |b| - n - 1] == a + b'[n..];
      DropFromMiddle(a, b', n, b[|b| - 1].number);
    }
  }

  lemma AppendFits(a: seq<Fix>, b: seq<Fix>, f: Fix, cutoff: Time)
    requires Numbered(a + b, f.number)
    ensures Numbered(a + Prune(b + [f], cutoff), f.number + 1)
  {
    AppendNumbered(a + b, f);
    assert a + b + [f] == a + (b + [f]);
    PruneIsTail(b + [f], cutoff);
    DropFromMiddle(a, b + [f], |b| + 1 - |Prune(b + [f], cutoff)|, f.number + 1);
  }

  lemma AppendedFits(inFlight: seq<Fix>, buffer: seq<Fix>, number: nat, fix: Option<Time>, cutoff: Time)
    requires Numbered(inFlight + buffer, number)
    ensures Numbered(inFlight + Appended(buffer, number, fix, cutoff), number + 1)
  {
    if fix.Some? {
      AppendFits(inFlight, buffer, Fix(number, fix.value), cutoff);
    } else {
      LaterLimit(inFlight + buffer, number, number + 1);
    }
  }

  lemma LaterLimit(fixes: seq<Fix>, limit: nat, later: nat)
    requires Numbered(fixes, limit) && limit <= later
    ensures Numbered(fixes, later)
  {
  }

  lemma BufferedRide(a: ActiveRide, installed: set<RideId>, number: nat, fix: Option<Time>, cutoff: Time, buffer: seq<Fix>)
    requires RideFits(a, installed, number) && buffer == Appended(a.buffer, number, fix, cutoff)
    ensures RideFits(a.(buffer := buffer), installed, number + 1)
  {
    AppendedFits(a.inFlight, a.buffer, number, fix, cutoff);
  }

  lemma BufferedFits(s: Reporter, a: ActiveRide, fix: Option<Time>, now: Time)
    requires RideFits(a, s.installed, s.fixes) && s.active == Some(a)
    ensures SlotInv(Buffered(s, fix, now))
  {
    var buffer := Appended(a.buffer, s.fixes, fix, now - s.retention);
    BufferedRide(a, s.installed, s.fixes, fix, now - s.retention, buffer);
    BufferInSlot(s, a, buffer, s.fixes + 1);
    assert Buffered(s, fix, now) == s.(active := Some(a.(buffer := buffer)), fixes := s.fixes + 1);
  }

  lemma BufferInSlot(s: Reporter, a: ActiveRide, buffer: seq<Fix>, fixes: nat)
    requires RideFits(a.(buffer := buffer), s.installed, fixes)
    ensures SlotInv(s.(active := Some(a.(buffer := buffer)), fixes := fixes))
  {
  }

  lemma BufferedKeeps(s: Reporter, pid: Pid, fix: Option<Time>, now: Time)
    requires OthersInv(s, pid) && s.active.Some? && !s.active.value.ending
    ensures OthersInv(Buffered(s, fix, now), pid)
  {
    BufferedFits(s, s.active.value, fix, now);
    FixesChange(s, Buffered(s, fix, now), pid);
  }

  lemma JudgeKeeps(s: Reporter, pid: Pid, over: Option<EndReason>, now: Time)
    requires OthersInv(s, pid) && s.active.Some? && !s.active.value.ending
    ensures TurnsInv(Judge(s, pid, over, now))
  {
    var a := s.active.value;
    if over.Some? {
      BeginEndKeeps(s, pid, over.value, Nothing, now);
    } else if |a.buffer| >= a.maxBatch && a.failures == 0 && !a.throttled {
      BeginFlushKeeps(s, pid);
    } else {
      Placed(s, pid, Over);
    }
  }

  lemma ConsumeKeeps(s: Reporter, pid: Pid, ride: RideId, fix: Option<Time>, over: Option<EndReason>, now: Time)
    requires TurnsInv(s) && pid !in s.procs
    ensures TurnsInv(Consume(s, pid, ride, fix, over, now))
  {
    InHand(s, pid);
    if Running(s, ride) {
      BufferedKeeps(s, pid, fix, now);
      JudgeKeeps(Buffered(s, fix, now), pid, over, now);
    } else {
      Placed(s, pid, Over);
    }
  }
}
