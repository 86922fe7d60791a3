/** What the reporter promises over every interleaving of its turns
    (RideReporter.swift): the slot, one end a ride, batches apart, starts in
    order, and nobody stuck. */
module ReporterLaws {
  import opened Prelude
  import opened Reputation
  import opened RideReporting
  import opened ReporterTurns

  // ---- The slot ------------------------------------------------------------

  /** A ride leaves the slot by its own ended event, or, once ending, to the
      next ride. */
  ghost predicate SlotGoes(s: Reporter, s': Reporter) {
    s.active.Some? ==>
      var ride := s.active.value.id;
      || (IsActive(s', ride) && (s.active.value.ending ==> s'.active.value.ending) && s.ended <= s'.ended)
      || (s'.active.None? && s'.ended == s.ended + [ride])
      || (s.active.value.ending && s'.active.Some? && s'.active.value.id !in s.installed && s'.ended == s.ended)
  }

  lemma ContinueSlot(s: Reporter, pid: Pid, after: After)
    ensures SlotGoes(s, Continue(s, pid, after)) && Continue(s, pid, after).ended == s.ended
    ensures s.active.None? ==> Continue(s, pid, after).active.None?
  {
  }

  lemma FinishSlot(s: Reporter, pid: Pid, ride: RideId, after: After)
    ensures SlotGoes(s, FinishEnd(s, pid, ride, after))
    ensures IsActive(s, ride) ==> FinishEnd(s, pid, ride, after).active.None? && FinishEnd(s, pid, ride, after).ended == s.ended + [ride]
  {
    var m := s.(ended := s.ended + [ride], active := if s.active.Some? && s.active.value.id == ride then None else s.active);
    ContinueSlot(m, pid, after);
  }

  lemma EndSlot(s: Reporter, pid: Pid, reason: EndReason, after: After, now: Time)
    ensures SlotGoes(s, BeginEnd(s, pid, reason, after, now))
  {
    ContinueSlot(s, pid, after);
    if s.active.Some? && !s.active.value.ending {
      FinishSlot(Ending(s, reason, now), pid, s.active.value.id, after);
    }
  }

  /** The same ride, before its fixes or failures were brought up to date. */
  lemma SlotFrom(s: Reporter, m: Reporter, s': Reporter)
    requires SlotGoes(m, s') && m.ended == s.ended && m.installed == s.installed
    requires s.active.Some? ==> IsActive(m, s.active.value.id) && m.active.value.ending == s.active.value.ending
    ensures SlotGoes(s, s')
  {
  }

  lemma AnswerSlot(s: Reporter, pid: Pid, ride: RideId, batch: seq<Fix>, upload: Upload, now: Time)
    ensures SlotGoes(s, Answered(s, pid, ride, batch, upload, now))
  {
    var m := AnsweredTo(s, ride, batch, upload, now);
    match EndsFor(s, ride, upload, now)
    case Some(reason) =>
      EndSlot(m, pid, reason, Unwind(ride), now);
      SlotFrom(s, m, BeginEnd(m, pid, reason, Unwind(ride), now));
    case None =>
      ContinueSlot(m, pid, Unwind(ride));
      SlotFrom(s, m, Continue(m, pid, Unwind(ride)));
  }

  lemma JudgeSlot(s: Reporter, pid: Pid, over: Option<EndReason>, now: Time)
    requires s.active.Some?
    ensures SlotGoes(s, Judge(s, pid, over, now))
  {
    EndSlot(s, pid, if over.Some? then over.value else Idle, Nothing, now);
  }

  lemma ConsumeSlot(s: Reporter, pid: Pid, ride: RideId, fix: Option<Time>, over: Option<EndReason>, now: Time)
    ensures SlotGoes(s, Consume(s, pid, ride, fix, over, now))
  {
    if Running(s, ride) {
      var m := Buffered(s, fix, now);
      JudgeSlot(m, pid, over, now);
      SlotFrom(s, m, Judge(m, pid, over, now));
    }
  }

  /** Over every interleaving of turns: a ride is displaced only once it is
      ending, a teardown clears no slot but its own ride's, and a ride being torn
      down stays so until its ended event. */
  lemma SlotIsSafe(init: Reporter, actions: seq<Action>, s: Reporter, a: Action)
    requires Init(init) && Reaches(init, actions, s) && Enabled(s, a)
    ensures SlotGoes(s, Do(s, a))
    ensures a.Asked? && a.answer.Created? && !a.answer.cancelled ==> SlotFree(s)
  {
    InitInv(init);
    RunKeepsInv(init, actions, s);
    match a
    case Run(pid, cancelled, now) => EndSlot(s, pid, Superseded, Ask, now);
    case Asked(pid, answer) => assert PcInv(s, s.procs[pid]);
    case End(pid, reason, now) => EndSlot(s, pid, reason, Nothing, now);
    case Sample(pid, ride, fix, over, now) => ConsumeSlot(s, pid, ride, fix, over, now);
    case Tick(pid, ride, over, now) => EndSlot(s, pid, if over.Some? then over.value else Idle, Nothing, now);
    case Uploaded(pid, upload, now) => AnswerSlot(s, pid, s.procs[pid].ride, s.procs[pid].batch, upload, now);
    case Closed(pid) => FinishSlot(s, pid, s.procs[pid].ride, s.procs[pid].after);
    case _ =>
  }

  /** A ride sends one ended event at most, none while it holds the slot, and an
      ending ride has one teardown at work on it. */
  lemma EachRideEndsOnce(init: Reporter, actions: seq<Action>, s: Reporter)
    requires Init(init) && Reaches(init, actions, s)
    ensures forall i, j | 0 <= i < j < |s.ended| :: s.ended[i] != s.ended[j]
    ensures s.active.Some? ==> s.active.value.id !in s.ended
    ensures s.active.Some? && s.active.value.ending ==> IsClosing(s, s.active.value.id, None)
    ensures forall p, q | p in s.procs && q in s.procs && s.procs[p].Closing? && s.procs[q].Closing?
                          && s.procs[p].ride == s.procs[q].ride :: p == q
  {
    InitInv(init);
    RunKeepsInv(init, actions, s);
    forall p, q | p in s.procs && q in s.procs && s.procs[p].Closing? && s.procs[q].Closing? && s.procs[p].ride == s.procs[q].ride
      ensures p == q
    {
      assert ClosingOf(s.procs[p]) == ClosingOf(s.procs[q]);
    }
  }

  /** A ride has one upload out at most, which while the ride runs carries just
      what is in flight; and what is in flight was buffered before all that waits,
      so that no fix is in both and none goes out of order. */
  lemma BatchesAreApart(init: Reporter, actions: seq<Action>, s: Reporter)
    requires Init(init) && Reaches(init, actions, s)
    ensures forall p, q | p in s.procs && q in s.procs && s.procs[p].Uploading? && s.procs[q].Uploading?
                          && s.procs[p].ride == s.procs[q].ride :: p == q
    ensures forall p | p in s.procs && s.procs[p].Uploading? && Running(s, s.procs[p].ride) ::
              s.active.value.inFlight == s.procs[p].batch
    ensures s.active.Some? ==> Ordered(s.active.value.inFlight + s.active.value.buffer)
    ensures s.active.Some? ==> forall f | f in s.active.value.inFlight :: f !in s.active.value.buffer
  {
    InitInv(init);
    RunKeepsInv(init, actions, s);
    forall p, q | p in s.procs && q in s.procs && s.procs[p].Uploading? && s.procs[q].Uploading? && s.procs[p].ride == s.procs[q].ride
      ensures p == q
    {
      assert FlushOf(s.procs[p]) == FlushOf(s.procs[q]);
    }
    if s.active.Some? {
      NumberedOrdered(s.active.value.inFlight + s.active.value.buffer, s.fixes);
      OrderedApart(s.active.value.inFlight, s.active.value.buffer);
    }
  }

  lemma {:induction false} NumberedOrdered(fixes: seq<Fix>, limit: nat)
    requires Numbered(fixes, limit)
    ensures Ordered(fixes) && forall i | 0 <= i < |fixes| :: fixes[i].number < limit
  {
    if |fixes| > 0 {
      var first := fixes[..|fixes| - 1];
      NumberedOrdered(first, fixes[|fixes| - 1].number);
      assert forall i | 0 <= i < |first| :: fixes[i] == first[i];
    }
  }

  lemma OrderedApart(a: seq<Fix>, b: seq<Fix>)
    requires Ordered(a + b)
    ensures forall f | f in a :: f !in b
  {
    forall i, j | 0 <= i < |a| && 0 <= j < |b| ensures a[i] != b[j] {
      assert (a + b)[i] == a[i] && (a + b)[|a| + j] == b[j];
    }
  }

  /** Over every interleaving starts run one at a time, in the order they were
      made: while one is at work those made before it are done, and those made
      after it have yet to run. */
  lemma OneStartAtATime(init: Reporter, actions: seq<Action>, s: Reporter, i: nat)
    requires Init(init) && Reaches(init, actions, s)
    requires i < |s.starts| && s.starts[i] in s.procs && Asks(s.procs[s.starts[i]])
    ensures forall p | p in s.procs && Asks(s.procs[p]) :: p == s.starts[i]
    ensures forall j | 0 <= j < i :: Done(s, s.starts[j])
    ensures forall j | i < j < |s.starts| :: s.starts[j] in s.procs && s.procs[s.starts[j]].Queued?
  {
    InitInv(init);
    RunKeepsInv(init, actions, s);
    forall p | p in s.procs && Asks(s.procs[p]) ensures p == s.starts[i] {
      OneAsks(s, p, s.starts[i]);
    }
    forall j | i < j < |s.starts| ensures s.starts[j] in s.procs && s.procs[s.starts[j]].Queued? {
      assert !Done(s, s.starts[i]);
    }
  }

  /** The task can take its next turn, whatever it brings: the answer to a start is
      a ride of its own, or a failure. */
  ghost predicate CanGoOn(s: Reporter, pid: Pid) {
    && pid in s.procs
    && match s.procs[pid]
       case Queued(_) => forall cancelled, now :: Enabled(s, Run(pid, cancelled, now))
       case Asking => forall answer: Answer | answer.Created? ==> answer.ride !in s.installed && answer.maxBatch > 0 ::
                        Enabled(s, Asked(pid, answer))
       case Returned => Enabled(s, StartReturns(pid))
       case Closing(_, _, _) => Enabled(s, Closed(pid))
       case Uploading(_, _) => forall upload, now :: Enabled(s, Uploaded(pid, upload, now))
       case Over => false
  }

  lemma {:induction false} SomeStartGoesOn(s: Reporter, i: nat) returns (j: nat)
    requires StartsInv(s) && i < |s.starts| && !Done(s, s.starts[i])
    ensures j <= i && CanGoOn(s, s.starts[j])
    decreases i
  {
    var pc := s.procs[s.starts[i]];
    if pc.Queued? && pc.behind.Some? && !Done(s, pc.behind.value) {
      assert BehindOf(s, i);
      j := SomeStartGoesOn(s, i - 1);
    } else {
      j := i;
    }
  }

  /** No task is stuck: over every interleaving one that is not over can take its
      next turn, unless it is a start behind another, and then a start made before
      it can. */
  lemma NoTaskIsStuck(init: Reporter, actions: seq<Action>, s: Reporter, pid: Pid)
    requires Init(init) && Reaches(init, actions, s) && pid in s.procs && !s.procs[pid].Over?
    ensures CanGoOn(s, pid) || (s.procs[pid].Queued? && exists i, j ::
              0 <= j < i < |s.starts| && s.starts[i] == pid && CanGoOn(s, s.starts[j]))
  {
    InitInv(init);
    RunKeepsInv(init, actions, s);
    if s.procs[pid].Queued? && !CanGoOn(s, pid) {
      var i :| 0 <= i < |s.starts| && s.starts[i] == pid;
      var j := SomeStartGoesOn(s, i);
    }
  }
}
