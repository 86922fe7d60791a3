/** What becomes of the fixes a ride buffers (RideReporter.swift,
    SampleBuffer.swift), over whole runs of RideReporting: while the ride runs
    none is lost but to an upload the server has answered for, or to age. */
module ReportedFixes {
  import opened Prelude
  import opened Reputation
  import opened RideReporting
  import opened ReporterTurns

  // ---- The buffer ----------------------------------------------------------

  /** kept is what is left of the fixes from the first one young enough. */
  ghost predicate CutAt(fixes: seq<Fix>, cutoff: Time, kept: seq<Fix>) {
    && |kept| <= |fixes| && kept == fixes[|fixes| - |kept|..]
    && (forall i | 0 <= i < |fixes| - |kept| :: fixes[i].at < cutoff)
    && (|kept| > 0 ==> kept[0].at >= cutoff)
  }

  lemma {:induction false} PruneCuts(fixes: seq<Fix>, cutoff: Time)
    ensures CutAt(fixes, cutoff, Prune(fixes, cutoff))
  {
    if |fixes| > 0 && fixes[0].at < cutoff {
      PruneCuts(fixes[1..], cutoff);
    }
  }

  lemma CutKeepsTheYoung(fixes: seq<Fix>, cutoff: Time, kept: seq<Fix>, f: Fix)
    requires CutAt(fixes, cutoff, kept)
    ensures f in kept ==> f in fixes
    ensures f in fixes && f !in kept ==> f.at < cutoff
  {
    if f in fixes && f !in kept {
      var i :| 0 <= i < |fixes| && fixes[i] == f;
      if i >= |fixes| - |kept| {
        assert kept[i - (|fixes| - |kept|)] == f;
      }
    }
  }

  lemma InEither(a: seq<Fix>, b: seq<Fix>, f: Fix)
    ensures f in a + b <==> f in a || f in b
  {
  }

  lemma InSplit(fixes: seq<Fix>, n: nat, f: Fix)
    requires n <= |fixes|
    ensures f in fixes <==> f in fixes[..n] || f in fixes[n..]
  {
    assert fixes == fixes[..n] + fixes[n..];
    InEither(fixes[..n], fixes[n..], f);
  }

  // ---- What a ride holds ---------------------------------------------------

  /** The ride in the slot has the fix buffered or in flight. */
  predicate Holds(s: Reporter, f: Fix) {
    s.active.Some? && (f in s.active.value.inFlight || f in s.active.value.buffer)
  }

  /** The upload's answer accounts for the fix: it was taken in, or refused for
      good. */
  predicate AnsweredFor(s: Reporter, a: Action, ride: RideId, f: Fix) {
    && a.Uploaded? && (a.upload.Accepted? || a.upload.Dropped?)
    && a.pid in s.procs && s.procs[a.pid].Uploading? && s.procs[a.pid].ride == ride && f in s.procs[a.pid].batch
  }

  /** The fix was past its retention. */
  predicate Stale(s: Reporter, a: Action, f: Fix) {
    (a.Sample? || a.Uploaded?) && f.at < a.now - s.retention
  }

  /** A sample of the running ride brings the fix. */
  predicate Brings(s: Reporter, a: Action, ride: RideId, f: Fix) {
    a.Sample? && a.ride == ride && Running(s, ride) && a.fix.Some? && f == Fix(s.fixes, a.fix.value)
  }

  /** A running ride with no upload of its own out has nothing in flight; and a
      teardown that a flush waits for is of the flush's own ride. */
  ghost predicate FlightInv(s: Reporter) {
    && (s.active.Some? && !s.active.value.ending && s.uploading != Some(s.active.value.id) ==> s.active.value.inFlight == [])
    && (forall p | p in s.procs && s.procs[p].Closing? && s.procs[p].after.Unwind? :: s.procs[p].after.ride == s.procs[p].ride)
  }

  /** The fix is still held, or accounted for. */
  ghost predicate Accounted(s: Reporter, a: Action, ride: RideId, s': Reporter, f: Fix) {
    Holds(s', f) || AnsweredFor(s, a, ride, f) || Stale(s, a, f)
  }

  /** The fixes held are those held before but for the ones accounted for, and
      one a sample brought. */
  ghost predicate Keeps(s: Reporter, a: Action, ride: RideId, s': Reporter) {
    && (forall f | Holds(s, f) || Brings(s, a, ride, f) :: Accounted(s, a, ride, s', f))
    && (forall f | Holds(s', f) :: Holds(s, f) || Brings(s, a, ride, f))
  }

  ghost predicate SameFixes(s: Reporter, s': Reporter) {
    forall f :: Holds(s', f) <==> Holds(s, f)
  }

  // ---- Turn by turn --------------------------------------------------------

  /** end leaves no ride running. */
  lemma EndStops(s: Reporter, pid: Pid, reason: EndReason, after: After, now: Time, ride: RideId)
    ensures !Running(BeginEnd(s, pid, reason, after, now), ride)
  {
  }

  lemma FlushTakes(a: ActiveRide, n: nat, f: Fix)
    requires n <= |a.buffer| && a.inFlight == []
    ensures f in a.buffer[..n] || f in a.buffer[n..] <==> f in a.inFlight || f in a.buffer
  {
    InSplit(a.buffer, n, f);
  }

  lemma FlushHolds(s: Reporter, pid: Pid)
    requires s.active.Some? && (s.uploading != Some(s.active.value.id) && !s.active.value.ending ==> s.active.value.inFlight == [])
    ensures SameFixes(s, BeginFlush(s, pid))
  {
    var a := s.active.value;
    if !(a.ending || s.uploading == Some(a.id) || a.buffer == []) {
      var n := Least(|a.buffer|, a.maxBatch);
      forall f ensures Holds(BeginFlush(s, pid), f) <==> Holds(s, f) {
        FlushTakes(a, n, f);
      }
    }
  }

  lemma AppendedFixes(buffer: seq<Fix>, number: nat, at: Time, cutoff: Time, f: Fix)
    ensures var kept := Appended(buffer, number, Some(at), cutoff);
            && (f in kept ==> f in buffer || f == Fix(number, at))
            && (f in buffer || f == Fix(number, at) ==> f in kept || f.at < cutoff)
  {
    var all := buffer + [Fix(number, at)];
    InEither(buffer, [Fix(number, at)], f);
    PruneCuts(all, cutoff);
    CutKeepsTheYoung(all, cutoff, Prune(all, cutoff), f);
  }

  lemma SampleBuffers(s: Reporter, fix: Option<Time>, now: Time, f: Fix)
    requires s.active.Some?
    ensures Holds(s, f) || (fix.Some? && f == Fix(s.fixes, fix.value)) ==>
              Holds(Buffered(s, fix, now), f) || f.at < now - s.retention
    ensures Holds(Buffered(s, fix, now), f) ==> Holds(s, f) || (fix.Some? && f == Fix(s.fixes, fix.value))
  {
    if fix.Some? {
      AppendedFixes(s.active.value.buffer, s.fixes, fix.value, now - s.retention, f);
    }
  }

  lemma JudgeHolds(s: Reporter, pid: Pid, over: Option<EndReason>, now: Time, ride: RideId)
    requires s.active.Some? && (s.uploading != Some(s.active.value.id) && !s.active.value.ending ==> s.active.value.inFlight == [])
    requires Running(Judge(s, pid, over, now), ride)
    ensures SameFixes(s, Judge(s, pid, over, now))
  {
    if over.Some? {
      EndStops(s, pid, over.value, Nothing, now, ride);
    } else {
      FlushHolds(s, pid);
    }
  }

  lemma SampleKeeps(s: Reporter, a: Action, ride: RideId)
    requires Enabled(s, a) && a.Sample? && FlightInv(s) && Running(s, ride) && Running(Do(s, a), ride)
    ensures Keeps(s, a, ride, Do(s, a))
  {
    if Running(s, a.ride) {
      var m := Buffered(s, a.fix, a.now);
      JudgeHolds(m, a.pid, a.over, a.now, ride);
      forall f ensures Holds(s, f) || Brings(s, a, ride, f) ==> Holds(m, f) || Stale(s, a, f)
               ensures Holds(m, f) ==> Holds(s, f) || Brings(s, a, ride, f) {
        SampleBuffers(s, a.fix, a.now, f);
      }
    }
  }

  /** What every answer leaves of a ride that runs on: the buffer as it is, or
      with the batch back in front and pruned. */
  lemma AnswerPrunes(s: Reporter, pid: Pid, ride: RideId, batch: seq<Fix>, upload: Upload, now: Time)
    requires Running(s, ride) && Running(Answered(s, pid, ride, batch, upload, now), ride)
    ensures var a := Answered(s, pid, ride, batch, upload, now).active.value;
            && a.inFlight == [] && !upload.Gone?
            && (upload.Accepted? || upload.Dropped? ==> a.buffer == s.active.value.buffer)
            && (upload.Cancelled? || upload.Throttled? || upload.Broken? ==>
                  a.buffer == Prune(batch + s.active.value.buffer, now - s.retention))
  {
    var m := AnsweredTo(s, ride, batch, upload, now);
    if EndsFor(s, ride, upload, now).Some? {
      EndStops(m, pid, EndsFor(s, ride, upload, now).value, Unwind(ride), now, ride);
    }
  }

  lemma PruneCutsTo(fixes: seq<Fix>, cutoff: Time, kept: seq<Fix>)
    requires kept == Prune(fixes, cutoff)
    ensures CutAt(fixes, cutoff, kept)
  {
    PruneCuts(fixes, cutoff);
  }

  lemma AnswerCuts(s: Reporter, pid: Pid, ride: RideId, batch: seq<Fix>, upload: Upload, now: Time)
    requires Running(s, ride) && Running(Answered(s, pid, ride, batch, upload, now), ride)
    requires upload.Broken? || upload.Cancelled? || upload.Throttled?
    ensures var a := Answered(s, pid, ride, batch, upload, now).active.value;
            a.inFlight == [] && CutAt(batch + s.active.value.buffer, now - s.retention, a.buffer)
  {
    AnswerPrunes(s, pid, ride, batch, upload, now);
    PruneCutsTo(batch + s.active.value.buffer, now - s.retention, Answered(s, pid, ride, batch, upload, now).active.value.buffer);
  }

  lemma RestoredFixes(batch: seq<Fix>, buffer: seq<Fix>, cutoff: Time, kept: seq<Fix>, f: Fix)
    requires kept == Prune(batch + buffer, cutoff)
    ensures f in kept ==> f in batch || f in buffer
    ensures f in batch || f in buffer ==> f in kept || f.at < cutoff
  {
    InEither(batch, buffer, f);
    PruneCutsTo(batch + buffer, cutoff, kept);
    CutKeepsTheYoung(batch + buffer, cutoff, kept, f);
  }

  lemma OwnUploadKeeps(s: Reporter, a: Action, ride: RideId)
    requires Enabled(s, a) && a.Uploaded? && s.procs[a.pid].ride == ride && Running(s, ride) && Running(Do(s, a), ride)
    requires s.active.value.inFlight == s.procs[a.pid].batch
    ensures Keeps(s, a, ride, Do(s, a))
  {
    var batch, buffer := s.procs[a.pid].batch, s.active.value.buffer;
    AnswerPrunes(s, a.pid, ride, batch, a.upload, a.now);
    var kept := Answered(s, a.pid, ride, batch, a.upload, a.now).active.value.buffer;
    forall f ensures Holds(s, f) ==> f in kept || AnsweredFor(s, a, ride, f) || Stale(s, a, f)
             ensures f in kept ==> Holds(s, f) {
      if a.upload.Cancelled? || a.upload.Throttled? || a.upload.Broken? {
        RestoredFixes(batch, buffer, a.now - s.retention, kept, f);
      }
    }
  }

  lemma UploadKeeps(s: Reporter, a: Action, ride: RideId)
    requires Inv(s) && Enabled(s, a) && a.Uploaded? && Running(s, ride) && Running(Do(s, a), ride)
    ensures Keeps(s, a, ride, Do(s, a))
  {
    assert PcInv(s, s.procs[a.pid]);
    if s.procs[a.pid].ride == ride {
      OwnUploadKeeps(s, a, ride);
    }
  }

  lemma TickKeeps(s: Reporter, a: Action, ride: RideId)
    requires Enabled(s, a) && a.Tick? && FlightInv(s) && Running(s, ride) && Running(Do(s, a), ride)
    ensures Keeps(s, a, ride, Do(s, a))
  {
    if Running(s, a.ride) {
      if a.over.Some? {
        EndStops(s, a.pid, a.over.value, Nothing, a.now, ride);
      } else {
        FlushHolds(s, a.pid);
      }
    }
  }

  lemma PcFits(s: Reporter, pid: Pid)
    ensures Inv(s) && pid in s.procs ==> PcInv(s, s.procs[pid])
  {
  }

  /** The ride runs on through a turn that is none of its own. */
  lemma OthersKeep(s: Reporter, a: Action, ride: RideId)
    requires Inv(s) && Enabled(s, a) && FlightInv(s) && Running(s, ride) && Running(Do(s, a), ride)
    requires !a.Sample? && !a.Tick? && !a.Uploaded?
    ensures SameFixes(s, Do(s, a))
  {
    match a
    case Run(pid, cancelled, now) =>
      if !cancelled {
        EndStops(s, pid, Superseded, Ask, now, ride);
      }
    case End(pid, reason, now) => EndStops(s, pid, reason, Nothing, now, ride);
    case Asked(pid, _) => PcFits(s, pid);
    case Closed(pid) => PcFits(s, pid);
    case Start(_) =>
    case StartReturns(_) =>
  }

  lemma TurnKeeps(s: Reporter, a: Action, ride: RideId)
    requires Inv(s) && Enabled(s, a) && FlightInv(s) && Running(s, ride) && Running(Do(s, a), ride)
    ensures Keeps(s, a, ride, Do(s, a))
  {
    if a.Sample? {
      SampleKeeps(s, a, ride);
    } else if a.Tick? {
      TickKeeps(s, a, ride);
    } else if a.Uploaded? {
      UploadKeeps(s, a, ride);
    } else {
      OthersKeep(s, a, ride);
    }
  }

  // ---- Nothing in flight but what is uploading -----------------------------

  ghost predicate InFlightFits(s: Reporter) {
    s.active.Some? && !s.active.value.ending && s.uploading != Some(s.active.value.id) ==> s.active.value.inFlight == []
  }

  lemma EndFits(s: Reporter, pid: Pid, reason: EndReason, after: After, now: Time)
    ensures InFlightFits(BeginEnd(s, pid, reason, after, now))
  {
    var s' := BeginEnd(s, pid, reason, after, now);
    if s'.active.Some? && !s'.active.value.ending {
      EndStops(s, pid, reason, after, now, s'.active.value.id);
    }
  }

  lemma ContinueFits(s: Reporter, pid: Pid, after: After)
    requires InFlightFits(s)
    ensures InFlightFits(Continue(s, pid, after))
  {
  }

  lemma AnswerFits(s: Reporter, a: Action)
    requires Enabled(s, a) && a.Uploaded? && InFlightFits(s)
    ensures InFlightFits(Do(s, a))
  {
    var Uploading(ride, batch) := s.procs[a.pid];
    var m := AnsweredTo(s, ride, batch, a.upload, a.now);
    match EndsFor(s, ride, a.upload, a.now)
    case Some(reason) => EndFits(m, a.pid, reason, Unwind(ride), a.now);
    case None => ContinueFits(m, a.pid, Unwind(ride));
  }

  lemma JudgeFits(s: Reporter, pid: Pid, over: Option<EndReason>, now: Time)
    requires s.active.Some? && InFlightFits(s)
    ensures InFlightFits(Judge(s, pid, over, now))
  {
    if over.Some? {
      EndFits(s, pid, over.value, Nothing, now);
    }
  }

  lemma TurnFits(s: Reporter, a: Action)
    requires Enabled(s, a) && InFlightFits(s)
    ensures InFlightFits(Do(s, a))
  {
    match a
    case Run(pid, cancelled, now) => EndFits(s, pid, Superseded, Ask, now);
    case End(pid, reason, now) => EndFits(s, pid, reason, Nothing, now);
    case Sample(pid, ride, fix, over, now) =>
      if Running(s, ride) {
        JudgeFits(Buffered(s, fix, now), pid, over, now);
      }
    case Tick(pid, ride, over, now) =>
      if over.Some? {
        EndFits(s, pid, over.value, Nothing, now);
      }
    case Uploaded(_, _, _) => AnswerFits(s, a);
    case Closed(pid) =>
      var ride := s.procs[pid].ride;
      ContinueFits(s.(ended := s.ended + [ride], active := if s.active.Some? && s.active.value.id == ride then None else s.active),
        pid, s.procs[pid].after);
    case Asked(_, _) =>
    case Start(_) =>
    case StartReturns(_) =>
  }

  ghost predicate OwnUnwind(pc: Pc) {
    pc.Closing? && pc.after.Unwind? ==> pc.after.ride == pc.ride
  }

  /** One task moves, and not to another ride's teardown. */
  lemma TurnUnwinds(s: Reporter, a: Action)
    requires Enabled(s, a)
    ensures forall p | p in Do(s, a).procs :: OwnUnwind(Do(s, a).procs[p]) || (p in s.procs && Do(s, a).procs[p] == s.procs[p])
  {
    match a
    case Run(pid, cancelled, now) => EndUnwinds(s, pid, Superseded, Ask, now);
    case End(pid, reason, now) => EndUnwinds(s, pid, reason, Nothing, now);
    case Sample(pid, ride, fix, over, now) =>
      if over.Some? && Running(s, ride) {
        EndUnwinds(Buffered(s, fix, now), pid, over.value, Nothing, now);
      }
    case Tick(pid, ride, over, now) =>
      if over.Some? {
        EndUnwinds(s, pid, over.value, Nothing, now);
      }
    case Uploaded(pid, upload, now) => AnswerUnwinds(s, pid, s.procs[pid].ride, s.procs[pid].batch, upload, now);
    case Closed(_) =>
    case Asked(_, _) =>
    case Start(_) =>
    case StartReturns(_) =>
  }

  lemma EndUnwinds(s: Reporter, pid: Pid, reason: EndReason, after: After, now: Time)
    requires after.Unwind? ==> s.active.None? || s.active.value.ending || s.active.value.id == after.ride
    ensures var s' := BeginEnd(s, pid, reason, after, now);
            pid in s'.procs && OwnUnwind(s'.procs[pid]) && s'.procs == s.procs[pid := s'.procs[pid]]
  {
  }

  lemma AnswerUnwinds(s: Reporter, pid: Pid, ride: RideId, batch: seq<Fix>, upload: Upload, now: Time)
    ensures var s' := Answered(s, pid, ride, batch, upload, now);
            pid in s'.procs && OwnUnwind(s'.procs[pid]) && s'.procs == s.procs[pid := s'.procs[pid]]
  {
    var m := AnsweredTo(s, ride, batch, upload, now);
    assert m.procs == s.procs && (m.active.Some? && Running(s, ride) ==> m.active.value.id == ride);
    match EndsFor(s, ride, upload, now)
    case Some(reason) => EndUnwinds(m, pid, reason, Unwind(ride), now);
    case None =>
  }

  lemma TurnKeepsFlight(s: Reporter, a: Action)
    requires Enabled(s, a) && FlightInv(s)
    ensures FlightInv(Do(s, a))
  {
    TurnFits(s, a);
    TurnUnwinds(s, a);
    var s' := Do(s, a);
    forall p | p in s'.procs ensures OwnUnwind(s'.procs[p]) {
      if p in s.procs && s'.procs[p] == s.procs[p] {
        assert OwnUnwind(s.procs[p]);
      }
    }
  }

  // ---- Over runs -----------------------------------------------------------

  ghost predicate Trace(states: seq<Reporter>, actions: seq<Action>) {
    |states| == |actions| + 1 && Init(states[0]) && forall k | 0 <= k < |actions| :: StepAt(states, actions, k)
  }

  ghost predicate StepAt(states: seq<Reporter>, actions: seq<Action>, k: nat)
    requires |states| == |actions| + 1 && k < |actions|
  {
    Enabled(states[k], actions[k]) && states[k + 1] == Do(states[k], actions[k])
  }

  lemma {:induction false} InvAt(states: seq<Reporter>, actions: seq<Action>, n: nat)
    requires Trace(states, actions) && n <= |actions|
    ensures Inv(states[n]) && FlightInv(states[n])
    decreases n
  {
    if n == 0 {
      InitInv(states[0]);
    } else {
      InvAt(states, actions, n - 1);
      assert StepAt(states, actions, n - 1);
      DoKeepsInv(states[n - 1], actions[n - 1]);
      TurnKeepsFlight(states[n - 1], actions[n - 1]);
    }
  }

  /** The ride runs from k to n. */
  ghost predicate RunsThrough(states: seq<Reporter>, k: nat, n: nat, ride: RideId)
    requires n < |states|
  {
    forall m | k <= m <= n :: Running(states[m], ride)
  }

  /** Between k and n an answer accounted for the fix. */
  ghost predicate WasAnswered(states: seq<Reporter>, actions: seq<Action>, k: nat, n: nat, ride: RideId, f: Fix)
    requires n <= |actions| < |states|
  {
    exists m | k <= m < n :: AnsweredFor(states[m], actions[m], ride, f)
  }

  ghost predicate WentStale(states: seq<Reporter>, actions: seq<Action>, k: nat, n: nat, f: Fix)
    requires n <= |actions| < |states|
  {
    exists m | k <= m < n :: Stale(states[m], actions[m], f)
  }

  ghost predicate WasBrought(states: seq<Reporter>, actions: seq<Action>, k: nat, n: nat, ride: RideId, f: Fix)
    requires n <= |actions| < |states|
  {
    exists m | k <= m < n :: Brings(states[m], actions[m], ride, f)
  }

  lemma KeepsAt(states: seq<Reporter>, actions: seq<Action>, n: nat, ride: RideId)
    requires Trace(states, actions) && n < |actions| && Running(states[n], ride) && Running(states[n + 1], ride)
    ensures Keeps(states[n], actions[n], ride, states[n + 1])
  {
    InvAt(states, actions, n);
    assert StepAt(states, actions, n);
    TurnKeeps(states[n], actions[n], ride);
  }

  /** Conservation, over every interleaving: a fix a running ride takes in is,
      for as long as the ride runs, buffered or in flight, or else it was in an
      upload of the ride that the server took in or refused for good, or was past
      its retention. */
  lemma {:induction false} FixesAreKept(states: seq<Reporter>, actions: seq<Action>, k: nat, n: nat, ride: RideId, f: Fix)
    requires Trace(states, actions) && k < n <= |actions| && RunsThrough(states, k, n, ride)
    requires Brings(states[k], actions[k], ride, f)
    ensures Holds(states[n], f) || WasAnswered(states, actions, k, n, ride, f) || WentStale(states, actions, k, n, f)
    decreases n
  {
    KeepsAt(states, actions, n - 1, ride);
    if k < n - 1 {
      FixesAreKept(states, actions, k, n - 1, ride, f);
    }
    if Holds(states[n - 1], f) || k == n - 1 {
      assert Accounted(states[n - 1], actions[n - 1], ride, states[n], f);
    }
  }

  /** And it holds nothing else: each fix was brought by a sample of the ride
      since it held none. */
  lemma {:induction false} FixesAreOwn(states: seq<Reporter>, actions: seq<Action>, k: nat, n: nat, ride: RideId, f: Fix)
    requires Trace(states, actions) && k <= n <= |actions| && RunsThrough(states, k, n, ride)
    requires !Holds(states[k], f) && Holds(states[n], f)
    ensures WasBrought(states, actions, k, n, ride, f)
    decreases n
  {
    if k < n {
      KeepsAt(states, actions, n - 1, ride);
      if Holds(states[n - 1], f) {
        FixesAreOwn(states, actions, k, n - 1, ride, f);
      }
    }
  }

  ghost predicate IsUpload(s: Reporter, a: Action, ride: RideId) {
    a.Uploaded? && a.pid in s.procs && s.procs[a.pid].Uploading? && s.procs[a.pid].ride == ride
  }

  /** What a failed upload leaves of a ride that goes on: the batch that was in
      flight and all that was buffered, in order, cut at the first fix young
      enough, and waiting again. */
  lemma FailuresLoseNothing(states: seq<Reporter>, actions: seq<Action>, n: nat, ride: RideId)
    requires Trace(states, actions) && n < |actions| && Running(states[n], ride) && Running(states[n + 1], ride)
    requires IsUpload(states[n], actions[n], ride)
    requires actions[n].upload.Broken? || actions[n].upload.Cancelled? || actions[n].upload.Throttled?
    ensures states[n + 1].active.value.inFlight == []
    ensures CutAt(states[n].procs[actions[n].pid].batch + states[n].active.value.buffer,
                  actions[n].now - states[n].retention, states[n + 1].active.value.buffer)
  {
    InvAt(states, actions, n);
    assert StepAt(states, actions, n);
    var pc := states[n].procs[actions[n].pid];
    assert PcInv(states[n], pc);
    AnswerCuts(states[n], actions[n].pid, ride, pc.batch, actions[n].upload, actions[n].now);
  }

  // ---- The final flush -----------------------------------------------------

  /** The reasons the server reaches on its own. */
  predicate GivenByServer(reason: EndReason) {
    reason in {NotEnded, EndOffRoute, EndContradicted, EndImplausible, EndOffSchedule, ServerRestart, Idle}
  }

  /** left is what a ride has left when it ends: what was in flight and buffered,
      cut if anything was in flight. */
  ghost predicate LeftOf(a: ActiveRide, cutoff: Time, left: seq<Fix>) {
    if a.inFlight == [] then left == a.buffer else CutAt(a.inFlight + a.buffer, cutoff, left)
  }

  lemma ReclaimsWhatIsLeft(s: Reporter, reason: EndReason, now: Time)
    requires s.active.Some? && !GivenByServer(reason)
    ensures LeftOf(s.active.value, now - s.retention, Reclaimed(s, reason, now))
    ensures FinalFlush(s, reason, now) == Least(|Reclaimed(s, reason, now)|, 2 * s.active.value.maxBatch)
  {
    PruneCuts(s.active.value.inFlight + s.active.value.buffer, now - s.retention);
  }

  /** The ride's end sends what is left of it, oldest first, up to two batches,
      and nothing for a reason the server gave. */
  lemma EndFlushes(s: Reporter, pid: Pid, reason: EndReason, after: After, now: Time) returns (left: seq<Fix>, flush: seq<Fix>)
    requires s.active.Some? && !s.active.value.ending
    ensures if GivenByServer(reason) then flush == []
            else LeftOf(s.active.value, now - s.retention, left) && flush == left[..Least(|left|, 2 * s.active.value.maxBatch)]
    ensures TornDown(s, pid, reason, after, flush, BeginEnd(s, pid, reason, after, now))
  {
    left := Reclaimed(s, reason, now);
    flush := left[..FinalFlush(s, reason, now)];
    if !GivenByServer(reason) {
      ReclaimsWhatIsLeft(s, reason, now);
    }
    TearsDown(s, pid, reason, after, now, left, FinalFlush(s, reason, now));
  }

  lemma TearsDown(s: Reporter, pid: Pid, reason: EndReason, after: After, now: Time, left: seq<Fix>, n: nat)
    requires s.active.Some? && !s.active.value.ending && left == Reclaimed(s, reason, now) && n == FinalFlush(s, reason, now)
    ensures TornDown(s, pid, reason, after, left[..n], BeginEnd(s, pid, reason, after, now))
  {
    assert left[..n] == [] <==> n == 0;
    if n == 0 && !ClientReason(reason) {
      FinishesAtOnce(Ending(s, reason, now), pid, s.active.value.id, after);
    }
  }

  /** The teardown waits for the flush, and for the end to be reported if a client
      may report it; with neither to do, the ride's ended event is sent at once. */
  ghost predicate TornDown(s: Reporter, pid: Pid, reason: EndReason, after: After, flush: seq<Fix>, s': Reporter)
    requires s.active.Some?
  {
    var ride := s.active.value.id;
    if flush != [] || ClientReason(reason) then
      && pid in s'.procs && s'.procs[pid] == Closing(ride, flush, after) && s'.ended == s.ended
      && s'.active.Some? && s'.active.value.id == ride && s'.active.value.ending
    else s'.active.None? && s'.ended == s.ended + [ride]
  }

  lemma FinishesAtOnce(s: Reporter, pid: Pid, ride: RideId, after: After)
    requires s.active.Some? && s.active.value.id == ride
    ensures FinishEnd(s, pid, ride, after).active.None? && FinishEnd(s, pid, ride, after).ended == s.ended + [ride]
  {
  }

  // ---- When uploads go out, and what their answers do ----------------------

  /** A flush takes the oldest fixes, up to a batch, unless the ride is over,
      already uploading, or has none. */
  lemma FlushExactlyWhen(s: Reporter, pid: Pid)
    ensures var s' := BeginFlush(s, pid);
            if s.active.Some? && !s.active.value.ending && s.uploading != Some(s.active.value.id) && s.active.value.buffer != []
            then
              var a, batch := s.active.value, s.active.value.buffer[..Least(|s.active.value.buffer|, s.active.value.maxBatch)];
              && s'.procs == s.procs[pid := Uploading(a.id, batch)] && s'.uploading == Some(a.id)
              && s'.active == Some(a.(inFlight := batch, buffer := a.buffer[|batch|..])) && s'.ended == s.ended
            else s' == s.(procs := s.procs[pid := Over])
  {
  }

  /** A sample is buffered first; then the ride ends if the sample ends it, or a
      full batch goes at once, but not while uploads fail or are paced. */
  lemma SampleStep(s: Reporter, pid: Pid, ride: RideId, fix: Option<Time>, over: Option<EndReason>, now: Time)
    returns (m: Reporter)
    requires pid !in s.procs
    ensures var s' := Do(s, Sample(pid, ride, fix, over, now));
            if s.active.Some? && s.active.value.id == ride && !s.active.value.ending then
              && m.active.Some?
              && m == s.(active := Some(s.active.value.(buffer := m.active.value.buffer)), fixes := s.fixes + 1)
              && (fix.None? ==> m.active.value.buffer == s.active.value.buffer)
              && (fix.Some? ==> CutAt(s.active.value.buffer + [Fix(s.fixes, fix.value)], now - s.retention, m.active.value.buffer))
              && (over.Some? ==> s' == BeginEnd(m, pid, over.value, Nothing, now))
              && (over.None? ==>
                    var a := m.active.value;
                    if |a.buffer| >= a.maxBatch && a.failures == 0 && !a.throttled then s' == BeginFlush(m, pid)
                    else s' == m.(procs := s.procs[pid := Over]))
            else s' == s.(procs := s.procs[pid := Over])
  {
    m := s;
    if Running(s, ride) {
      m := Buffered(s, fix, now);
      if fix.Some? {
        PruneCutsTo(s.active.value.buffer + [Fix(s.fixes, fix.value)], now - s.retention, m.active.value.buffer);
      }
    }
  }

  /** The upload loop's turn ends a ride that has gone on or been still too long,
      and otherwise flushes. */
  lemma TickStep(s: Reporter, pid: Pid, ride: RideId, over: Option<EndReason>, now: Time)
    requires pid !in s.procs
    ensures var s' := Do(s, Tick(pid, ride, over, now));
            if s.active.Some? && s.active.value.id == ride && !s.active.value.ending
            then (if over.Some? then s' == BeginEnd(s, pid, over.value, Nothing, now) else s' == BeginFlush(s, pid))
            else s' == s.(procs := s.procs[pid := Over])
  {
  }

  /** Why an answer ends the ride: the server says it is over, knows no such ride,
      or has been out of reach for the timeout. */
  lemma EndsForExactlyWhen(s: Reporter, ride: RideId, upload: Upload, now: Time)
    ensures EndsFor(s, ride, upload, now) ==
            if !(s.active.Some? && s.active.value.id == ride && !s.active.value.ending) then None
            else if upload.Accepted? then upload.over
            else if upload.Gone? then Some(ServerRestart)
            else if upload.Broken? && now - (if s.active.value.failingSince.Some? then s.active.value.failingSince.value else now)
                                      >= s.timeout
            then Some(NetworkFailure) else None
  {
  }

  /** What an answer does to a running ride: success clears its failures, pacing
      holds its full batches back, and a failure counts, from the first of its
      run. Only the fixes of FailuresLoseNothing come back. */
  lemma AnswerStep(s: Reporter, pid: Pid, now: Time, upload: Upload) returns (m: Reporter)
    requires pid in s.procs && s.procs[pid].Uploading?
    ensures var s', ride := Do(s, Uploaded(pid, upload, now)), s.procs[pid].ride;
            && (EndsFor(s, ride, upload, now).Some? ==>
                  s' == BeginEnd(m, pid, EndsFor(s, ride, upload, now).value, Unwind(ride), now))
            && (EndsFor(s, ride, upload, now).None? ==> Unwound(m, pid, ride, s'))
    ensures if s.active.Some? && s.active.value.id == s.procs[pid].ride && !s.active.value.ending then
              && m.active.Some? && m == s.(active := m.active)
              && Answers(s.active.value, upload, now, m.active.value)
            else m == s
  {
    m := AnsweredTo(s, s.procs[pid].ride, s.procs[pid].batch, upload, now);
    AnsweredToTells(s, s.procs[pid].ride, s.procs[pid].batch, upload, now);
    AnsweredGoes(s, pid, s.procs[pid].ride, s.procs[pid].batch, upload, now);
  }

  lemma AnsweredToTells(s: Reporter, ride: RideId, batch: seq<Fix>, upload: Upload, now: Time)
    ensures var m := AnsweredTo(s, ride, batch, upload, now);
            if s.active.Some? && s.active.value.id == ride && !s.active.value.ending then
              m.active.Some? && m == s.(active := m.active) && Answers(s.active.value, upload, now, m.active.value)
            else m == s
  {
  }

  lemma AnsweredGoes(s: Reporter, pid: Pid, ride: RideId, batch: seq<Fix>, upload: Upload, now: Time)
    ensures var s', m := Answered(s, pid, ride, batch, upload, now), AnsweredTo(s, ride, batch, upload, now);
            && (EndsFor(s, ride, upload, now).Some? ==>
                  s' == BeginEnd(m, pid, EndsFor(s, ride, upload, now).value, Unwind(ride), now))
            && (EndsFor(s, ride, upload, now).None? ==> Unwound(m, pid, ride, s'))
  {
  }

  /** The flush is over, and no fix of its ride is in flight. */
  ghost predicate Unwound(m: Reporter, pid: Pid, ride: RideId, s': Reporter) {
    && s' == m.(procs := m.procs[pid := Over], active := s'.active, uploading := s'.uploading)
    && s'.uploading == (if m.uploading == Some(ride) then None else m.uploading)
    && s'.active == (if m.active.Some? && m.active.value.id == ride then Some(m.active.value.(inFlight := []))
                     else m.active)
  }

  ghost predicate Answers(a: ActiveRide, upload: Upload, now: Time, a': ActiveRide) {
    && a'.id == a.id && a'.maxBatch == a.maxBatch && !a'.ending
    && a'.failures == (if upload.Accepted? then 0 else if upload.Broken? then a.failures + 1 else a.failures)
    && a'.failingSince == (if upload.Accepted? then None
                           else if upload.Broken? && a.failingSince.None? then Some(now) else a.failingSince)
    && a'.throttled == (if upload.Accepted? then false else upload.Throttled? || a.throttled)
    && (upload.Broken? ==> a'.inFlight == [])
  }

  // ---- Starts --------------------------------------------------------------

  /** A start waits for the one before, ends the ride in the slot and asks for the
      new one, and installs it with nothing to send, unless it was cancelled or
      refused. */
  lemma StartSteps(s: Reporter, a: Action)
    requires Enabled(s, a)
    ensures a.Start? ==>
              Do(s, a) == s.(procs := s.procs[a.pid := Queued(s.startTask)], startTask := Some(a.pid), starts := s.starts + [a.pid])
    ensures a.Run? && a.cancelled ==> Do(s, a) == s.(procs := s.procs[a.pid := Returned])
    ensures a.Run? && !a.cancelled ==>
              Do(s, a) == if s.active.Some? then BeginEnd(s, a.pid, Superseded, Ask, a.now) else s.(procs := s.procs[a.pid := Asking])
    ensures a.Asked? && (a.answer.Failed? || a.answer.cancelled) ==> Do(s, a) == s.(procs := s.procs[a.pid := Returned])
    ensures a.Asked? && a.answer.Created? && !a.answer.cancelled ==>
              Do(s, a) == s.(procs := s.procs[a.pid := Returned], installed := s.installed + {a.answer.ride},
                             active := Some(ActiveRide(a.answer.ride, a.answer.maxBatch, [], [], 0, None, false, false)))
    ensures a.StartReturns? ==>
              Do(s, a) == s.(procs := s.procs[a.pid := Over], startTask := if s.startTask == Some(a.pid) then None else s.startTask)
  {
  }

  /** A start runs once the one it queued behind is done. */
  lemma QueuedRunsExactlyWhen(s: Reporter, pid: Pid, behind: Option<Pid>, now: Time)
    requires pid in s.procs && s.procs[pid] == Queued(behind)
    ensures Enabled(s, Run(pid, false, now)) <==>
            behind.None? || (behind.value in s.procs && (s.procs[behind.value].Returned? || s.procs[behind.value].Over?))
  {
  }

  /** The end of a teardown: the ended event, and the slot cleared if the ride still
      holds it; then whoever called end goes on. */
  lemma ClosedStep(s: Reporter, pid: Pid)
    requires pid in s.procs && s.procs[pid].Closing?
    ensures var s', ride, after := Do(s, Closed(pid)), s.procs[pid].ride, s.procs[pid].after;
            && s'.ended == s.ended + [ride] && s'.installed == s.installed && s'.fixes == s.fixes
            && s'.procs == s.procs[pid := if after.Ask? then Asking else Over]
            && (s.active.Some? && s.active.value.id == ride ==> s'.active.None?)
            && (s.active.Some? && s.active.value.id != ride && !(after.Unwind? && after.ride == s.active.value.id) ==>
                  s'.active == s.active)
            && s'.uploading == (if after.Unwind? && s.uploading == Some(after.ride) then None else s.uploading)
  {
  }
}
