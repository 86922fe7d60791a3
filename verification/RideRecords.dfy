/** What a filed ride says of the rider: the rows and scores of RideFiling read
    with RideHistory, over a whole run. */
module RideRecords {
  import opened Prelude
  import Batches
  import Sessions
  import Reputation
  import Verification
  import opened Registry
  import opened RideFiling
  import opened RideLaws
  import opened RideInvariant
  import RideHistory
  import Aggregators

  type Events = seq<RideHistory.Event>

  // ---- What a ride is told -------------------------------------------------

  /** A batch, as the ride hears it: point by point, each with its verdict. */
  ghost function Reports(r: Sessions.Ride, points: seq<Verification.Point>, along: Option<real>, ctx: Batches.Context): Events {
    if |points| == 0 then []
    else
      var init, last := points[..|points| - 1], points[|points| - 1];
      var before := Batches.ApplyPoints(r, init, along, ctx).ride;
      Reports(r, init, along, ctx) + [RideHistory.Report(Verification.Verify(Batches.InputFor(before, last, along, ctx)), last)]
  }

  /** What a step tells the ride, if it is registered. */
  ghost function ToldBy(s: World, a: Action, id: string): Events
    requires Enabled(s, a)
  {
    if id !in s.reg.rides then []
    else
      match a
      case Apply(pid, points, ctx) => ToldByBatch(s, pid, points, ctx, id)
      case Reap(_, _, now) =>
        if s.reg.rides[id].ended || Expiry(s.reg.rides[id], now).None? then []
        else [RideHistory.Finish(Expiry(s.reg.rides[id], now).value, now)]
      case Advance(pid, _, now) => ToldByRequest(s, s.procs[pid], now, id)
      case _ => []
  }

  ghost function ToldByRequest(s: World, pc: Pc, now: Time, id: string): Events {
    match pc
    case Ending(ride, reason, _) => if ride == id then [RideHistory.Finish(reason, now)] else []
    case Retiering(u, tier, _) => if s.reg.ActiveRide(u) == Some(id) then [RideHistory.Retier(tier)] else []
    case _ => []
  }

  ghost function ToldByBatch(s: World, pid: Pid, points: seq<Verification.Point>, ctx: Batches.Context, id: string): Events
    requires pid in s.procs && s.procs[pid].Fetching? && id in s.reg.rides
  {
    var Fetching(ride, _, key) := s.procs[pid];
    var r := s.reg.rides[id];
    if ride != id || r.ended || r.key != key then []
    else Reports(r, Batches.SortByTime(points), Batches.TrustedAlong(r, ctx), ctx)
  }

  /** Everything a run tells the ride, in order. */
  ghost function Told(s: World, actions: seq<Action>, id: string): Events
    decreases |actions|
  {
    if |actions| == 0 || !Enabled(s, actions[0]) then []
    else ToldBy(s, actions[0], id) + Told(Do(s, actions[0]), actions[1..], id)
  }

  // ---- What becomes of it --------------------------------------------------

  lemma {:induction false} RunAppends(r: Sessions.Ride, events: Events, more: Events)
    ensures RideHistory.Run(r, events + more) == RideHistory.Run(RideHistory.Run(r, events), more)
    decreases |more|
  {
    if |more| == 0 {
      assert events + more == events;
    } else {
      assert (events + more)[..|events + more| - 1] == events + more[..|more| - 1];
      RunAppends(r, events, more[..|more| - 1]);
    }
  }

  lemma RunOne(r: Sessions.Ride, event: RideHistory.Event)
    ensures RideHistory.Run(r, [event]) == RideHistory.Step(r, event)
  {
    assert [event][..0] == [];
  }

  /** Folding a batch in is hearing its reports. */
  lemma {:induction false} BatchIsReports(r: Sessions.Ride, points: seq<Verification.Point>, along: Option<real>,
                                          ctx: Batches.Context)
    ensures Batches.ApplyPoints(r, points, along, ctx).ride == RideHistory.Run(r, Reports(r, points, along, ctx))
  {
    if |points| > 0 {
      var init, last := points[..|points| - 1], points[|points| - 1];
      BatchIsReports(r, init, along, ctx);
      PointIsReport(Batches.ApplyPoints(r, init, along, ctx), last, along, ctx);
      var before := Batches.ApplyPoints(r, init, along, ctx).ride;
      var report := RideHistory.Report(Verification.Verify(Batches.InputFor(before, last, along, ctx)), last);
      assert Reports(r, points, along, ctx)[..|Reports(r, init, along, ctx)|] == Reports(r, init, along, ctx);
    }
  }

  lemma PointIsReport(s: Batches.Progress, p: Verification.Point, along: Option<real>, ctx: Batches.Context)
    ensures Batches.ApplyPoint(s, p, along, ctx).ride ==
            RideHistory.Step(s.ride, RideHistory.Report(Verification.Verify(Batches.InputFor(s.ride, p, along, ctx)), p))
  {
  }

  /** Memory's last view of a ride, step by step. */
  ghost predicate Tells(s: World, s': World, id: string, events: Events) {
    id in s.past && id in s'.past && s'.past[id] == RideHistory.Run(s.past[id], events)
  }

  lemma RegistryTells(s: World, g: Registry, id: string, events: Events)
    requires MemoryInv(s) && id in s.past
    requires if id in s.reg.rides then id in g.rides ==> g.rides[id] == RideHistory.Run(s.reg.rides[id], events)
             else events == [] && id !in g.rides
    requires id in s.reg.rides && id !in g.rides ==> events == []
    ensures Tells(s, Recall(s.(reg := g)), id, events)
  {
  }

  lemma EndTells(s: World, ride: string, reason: Reputation.EndReason, now: Time, id: string)
    requires MemoryInv(s) && id in s.past
    ensures Tells(s, Recall(s.(reg := s.reg.End(ride, reason, now))), id,
              if id in s.reg.rides && ride == id then [RideHistory.Finish(reason, now)] else [])
  {
    RunOne(s.past[id], RideHistory.Finish(reason, now));
    RegistryTells(s, s.reg.End(ride, reason, now), id,
      if id in s.reg.rides && ride == id then [RideHistory.Finish(reason, now)] else []);
  }

  lemma RetierTells(s: World, u: string, tier: Reputation.Tier, id: string)
    requires MemoryInv(s) && id in s.past
    ensures Tells(s, Recall(s.(reg := s.reg.SetTier(u, tier))), id,
              if s.reg.ActiveRide(u) == Some(id) then [RideHistory.Retier(tier)] else [])
  {
    RunOne(s.past[id], RideHistory.Retier(tier));
    RegistryTells(s, s.reg.SetTier(u, tier), id, if s.reg.ActiveRide(u) == Some(id) then [RideHistory.Retier(tier)] else []);
  }

  lemma AddTells(s: World, r: Sessions.Ride, id: string)
    requires MemoryInv(s) && id in s.past && r.id !in s.past
    ensures Tells(s, Recall(s.(reg := s.reg.Add(r))), id, [])
  {
  }

  /** The steps that change the ride registry. */
  predicate TouchesMemory(pc: Pc) {
    pc.Ending? || pc.Retiering? || pc.Adding? || pc.Filed? || pc.Dropping?
  }

  lemma MemoryTells(s: World, pc: Pc, luck: Luck, now: Time, id: string)
    requires MemoryInv(s) && PcInv(s, pc) && id in s.past && TouchesMemory(pc)
    ensures Tells(s, Recall(Effect(s, pc, luck, now)), id, if id in s.reg.rides then ToldByRequest(s, pc, now, id) else [])
  {
    match pc
    case Ending(ride, reason, _) => EndTells(s, ride, reason, now, id);
    case Retiering(u, tier, _) => RetierTells(s, u, tier, id);
    case Adding(w, tier, at) => AddTells(s, Sessions.NewRide(w.id, w.riderId, w.key, w.trip, tier, at), id);
    case Filed(ride, _, _, _) => RegistryTells(s, s.reg.Remove(ride), id, []);
    case Dropping(ride, _) => RegistryTells(s, s.reg.Remove(ride), id, []);
  }

  lemma TablesTell(s: World, pc: Pc, luck: Luck, now: Time, id: string)
    requires MemoryInv(s) && id in s.past && !TouchesMemory(pc)
    ensures Tells(s, Recall(Effect(s, pc, luck, now)), id, [])
  {
    RecallIsStable(s);
    if pc.Writing? || pc.Recording? || pc.Inserting? {
      TablesLeaveMemory(s, pc, luck, now);
    }
  }

  lemma EffectTells(s: World, pc: Pc, luck: Luck, now: Time, id: string)
    requires MemoryInv(s) && PcInv(s, pc) && id in s.past
    ensures Tells(s, Recall(Effect(s, pc, luck, now)), id, if id in s.reg.rides then ToldByRequest(s, pc, now, id) else [])
  {
    if TouchesMemory(pc) {
      MemoryTells(s, pc, luck, now, id);
    } else {
      TablesTell(s, pc, luck, now, id);
    }
  }

  lemma RequestTells(s: World, pid: Pid, luck: Luck, now: Time, id: string)
    requires Inv(s) && Enabled(s, Advance(pid, luck, now)) && id in s.past
    ensures Tells(s, Recall(Effect(s, s.procs[pid], luck, now)), id, ToldBy(s, Advance(pid, luck, now), id))
  {
    assert PcInv(s, s.procs[pid]);
    EffectTells(s, s.procs[pid], luck, now, id);
  }

  lemma AdvanceTells(s: World, pid: Pid, luck: Luck, now: Time, id: string)
    requires Inv(s) && Enabled(s, Advance(pid, luck, now)) && id in s.past
    ensures Tells(s, Do(s, Advance(pid, luck, now)), id, ToldBy(s, Advance(pid, luck, now), id))
  {
    var m := Effect(s, s.procs[pid], luck, now);
    RequestTells(s, pid, luck, now, id);
    AdvanceMoves(s, pid, luck, now);
    MoveKeepsMemory(m, pid, Next(s, s.procs[pid], luck, now));
  }

  lemma FoldUpdates(s: World, pid: Pid, points: seq<Verification.Point>, ctx: Batches.Context)
    requires pid in s.procs && s.procs[pid].Fetching?
    ensures var Fetching(ride, _, key) := s.procs[pid];
            Fold(s, pid, points, ctx).past == s.past
            && Fold(s, pid, points, ctx).reg ==
               if s.reg.Live(ride) && s.reg.rides[ride].key == key
               then s.reg.Update(ride, Batches.ApplyBatch(s.reg.rides[ride], points, ctx).ride) else s.reg
  {
    var Fetching(ride, blocked, key) := s.procs[pid];
    if s.reg.Live(ride) && s.reg.rides[ride].key == key {
      var done := Batches.ApplyBatch(s.reg.rides[ride], points, ctx);
      MoveKeepsMemory(s.(reg := s.reg.Update(ride, done.ride)), pid, AfterBatch(ride, blocked, done));
    } else {
      MoveKeepsMemory(s, pid, Over);
    }
  }

  lemma MoveKeepsMemory(s: World, pid: Pid, pc: Pc)
    ensures Move(s, pid, pc).past == s.past && Move(s, pid, pc).reg == s.reg
  {
  }

  lemma BatchTells(s: World, pid: Pid, points: seq<Verification.Point>, ctx: Batches.Context, id: string)
    requires MemoryInv(s) && pid in s.procs && s.procs[pid].Fetching? && id in s.past
    ensures Tells(s, Recall(Fold(s, pid, points, ctx)), id, ToldBy(s, Apply(pid, points, ctx), id))
  {
    var Fetching(ride, _, key) := s.procs[pid];
    FoldUpdates(s, pid, points, ctx);
    RecallIsStable(s);
    if s.reg.Live(ride) && s.reg.rides[ride].key == key {
      var r := s.reg.rides[ride];
      var along := Batches.TrustedAlong(r, ctx);
      BatchIsReports(r, Batches.SortByTime(points), along, ctx);
      UpdateTells(s, ride, Batches.ApplyBatch(r, points, ctx).ride, Reports(r, Batches.SortByTime(points), along, ctx), id);
    }
  }

  lemma UpdateTells(s: World, ride: string, r: Sessions.Ride, events: Events, id: string)
    requires MemoryInv(s) && id in s.past && ride in s.reg.rides && r == RideHistory.Run(s.reg.rides[ride], events)
    ensures Tells(s, Recall(s.(reg := s.reg.Update(ride, r))), id, if ride == id then events else [])
  {
    RegistryTells(s, s.reg.Update(ride, r), id, if ride == id then events else []);
  }

  lemma SweepTells(s: World, now: Time, id: string, events: Events)
    requires Inv(s) && id in s.past
    requires events == if id !in s.reg.rides || s.reg.rides[id].ended || Expiry(s.reg.rides[id], now).None? then []
                       else [RideHistory.Finish(Expiry(s.reg.rides[id], now).value, now)]
    ensures Tells(s, Recall(s.(reg := s.reg.Reap(now))), id, events)
  {
    if |events| == 1 {
      RunOne(s.past[id], events[0]);
    }
    RegistryTells(s, s.reg.Reap(now), id, events);
  }

  lemma StepTells(s: World, a: Action, id: string)
    requires Inv(s) && Enabled(s, a) && id in s.past
    ensures Tells(s, Do(s, a), id, ToldBy(s, a, id))
  {
    match a
    case Apply(pid, points, ctx) => BatchTells(s, pid, points, ctx, id);
    case Advance(pid, luck, now) => AdvanceTells(s, pid, luck, now, id);
    case Reap(_, _, now) => SweepTells(s, now, id, ToldBy(s, a, id));
    case _ => QuietTells(s, a, id);
  }

  lemma QuietTells(s: World, a: Action, id: string)
    requires MemoryInv(s) && Enabled(s, a) && id in s.past && !a.Apply? && !a.Advance? && !a.Reap?
    ensures Tells(s, Do(s, a), id, [])
  {
    RecallIsStable(s);
    if IsRequest(a) {
      var pc := RequestMoves(s, a);
      MoveKeepsMemory(s, a.pid, pc);
    }
  }

  ghost predicate IsNew(r: Sessions.Ride) {
    r == Sessions.NewRide(r.id, r.riderId, r.key, r.trip, r.tier, r.startedAt)
  }

  lemma OnlyAddingAdds(s: World, pc: Pc, luck: Luck, now: Time)
    requires !pc.Adding?
    ensures Effect(s, pc, luck, now).reg.rides.Keys <= s.reg.rides.Keys && Effect(s, pc, luck, now).past == s.past
  {
  }

  lemma OthersAddNone(s: World, a: Action, id: string)
    requires MemoryInv(s) && Enabled(s, a) && id !in s.past && (a.Advance? ==> !s.procs[a.pid].Adding?)
    ensures id !in Do(s, a).past
  {
    if a.Advance? {
      OnlyAddingAdds(s, s.procs[a.pid], a.luck, a.now);
    } else if a.Apply? {
      FoldUpdates(s, a.pid, a.points, a.ctx);
    }
  }

  /** A ride enters memory new. */
  lemma EntersNew(s: World, a: Action, id: string)
    requires MemoryInv(s) && Enabled(s, a) && id !in s.past && id in Do(s, a).past
    ensures IsNew(Do(s, a).past[id]) && ToldBy(s, a, id) == []
  {
    assert a.Advance? && s.procs[a.pid].Adding? by {
      if a.Advance? ==> !s.procs[a.pid].Adding? {
        OthersAddNone(s, a, id);
      }
    }
  }

  /** What a ride comes to is what it was told. */
  ghost predicate CameFrom(r: Sessions.Ride, events: Events) {
    exists start :: IsNew(start) && r == RideHistory.Run(start, events)
  }

  lemma {:induction false} RunTells(s: World, actions: seq<Action>, s': World, id: string)
    requires Inv(s) && Reaches(s, actions, s') && id in s'.past
    ensures if id in s.past then Tells(s, s', id, Told(s, actions, id)) else CameFrom(s'.past[id], Told(s, actions, id))
    decreases |actions|
  {
    if |actions| > 0 {
      var m := Do(s, actions[0]);
      var first, rest := ToldBy(s, actions[0], id), Told(m, actions[1..], id);
      DoKeepsInv(s, actions[0]);
      RunTells(m, actions[1..], s', id);
      assert Told(s, actions, id) == first + rest;
      if id in s.past {
        StepTells(s, actions[0], id);
        RunAppends(s.past[id], first, rest);
      } else if id in m.past {
        EntersNew(s, actions[0], id);
        assert first + rest == rest;
      } else {
        assert first == [] && first + rest == rest;
      }
    }
  }

  // ---- What is filed -------------------------------------------------------

  /** The first and the last matched point of the history are as far apart as a
      ride must last to earn anything. */
  ghost predicate LastedLongEnough(h: RideHistory.History) {
    exists k, l :: RideHistory.FirstMatchAt(h, k) && RideHistory.LastMatchAt(h, l)
                   && h[l].point.timestamp - h[k].point.timestamp >= 5 * MINUTE
  }

  /** The outcome is what the history reads: its state and counts, for the reason
      the history blames if it rejects the ride, and otherwise for the first one
      the ride was ended for. */
  ghost predicate Records(o: RideOutcome, events: Events, h: RideHistory.History) {
    && o.progress.state == (if RideHistory.Rejects(h) then Reputation.Rejected
                            else if RideHistory.VerifiedBy(h) then Reputation.Verified else Reputation.Pending)
    && o.progress.counts == Reputation.Counts(|h|, RideHistory.Tally(h, RideHistory.Matches),
                                              RideHistory.Tally(h, RideHistory.Corroborates),
                                   RideHistory.Tally(h, RideHistory.Contradicts))
    && o.progress.corroborated == o.corroborated == (RideHistory.Tally(h, RideHistory.Corroborates) >= 12)
    && o.rejected == RideHistory.Rejects(h)
    && (if RideHistory.Rejects(h) then RideHistory.Blames(h, o.reason)
        else exists at :: RideHistory.FirstFinish(events) == Some(RideHistory.Finish(o.reason, at)))
  }

  /** What the history is worth to the rider: three off if it was contradicted,
      one if it was rejected otherwise, and one more for a ride not rejected,
      corroborated twelve times, that lasted. */
  ghost predicate Scores(o: RideOutcome, h: RideHistory.History) {
    o.delta == if RideHistory.Rejects(h) then (if o.reason == Reputation.EndContradicted then -3 else -1)
               else if RideHistory.Tally(h, RideHistory.Corroborates) >= 12 && LastedLongEnough(h) then 1 else 0
  }

  lemma StandingRecords(r: Sessions.Ride, events: Events, h: RideHistory.History)
    requires RideHistory.StandsAt(r, events, h) && r.ended
    ensures Records(OutcomeOf(r.Summary()), events, h)
  {
  }

  /** A history with a match has a first and a last; with one match they are one. */
  lemma {:induction false} MatchesHaveEnds(h: RideHistory.History)
    ensures RideHistory.Tally(h, RideHistory.Matches) > 0 ==>
              (exists k :: RideHistory.FirstMatchAt(h, k)) && (exists l :: RideHistory.LastMatchAt(h, l))
    ensures RideHistory.Tally(h, RideHistory.Matches) == 0 ==> forall e | e in h :: !RideHistory.Matches(e)
    ensures RideHistory.Tally(h, RideHistory.Matches) == 1 ==>
              forall k, l | RideHistory.FirstMatchAt(h, k) && RideHistory.LastMatchAt(h, l) :: k == l
  {
    if |h| > 0 {
      var init, last := h[..|h| - 1], h[|h| - 1];
      assert h == init + [last];
      MatchesHaveEnds(init);
      forall k | RideHistory.FirstMatchAt(init, k) ensures RideHistory.FirstMatchAt(h, k) {
      }
      if RideHistory.Matches(last) {
        assert RideHistory.LastMatchAt(h, |init|);
        if RideHistory.Tally(init, RideHistory.Matches) == 0 {
          assert forall i | 0 <= i < |init| :: init[i] in init;
          assert RideHistory.FirstMatchAt(h, |init|);
        }
      } else {
        forall l | RideHistory.LastMatchAt(init, l) ensures RideHistory.LastMatchAt(h, l) {
        }
      }
    }
  }

  lemma DurationIsLasting(r: Sessions.Ride, h: RideHistory.History)
    requires RideHistory.Reads(r, h)
    ensures r.Summary().matchedDuration >= Reputation.MIN_SCORED_RIDE <==> LastedLongEnough(h)
  {
    MatchesHaveEnds(h);
    if RideHistory.Tally(h, RideHistory.Matches) > 0 {
      var k :| RideHistory.FirstMatchAt(h, k);
      var l :| RideHistory.LastMatchAt(h, l);
      if RideHistory.Tally(h, RideHistory.Matches) == 1 {
        assert k == l;
      }
    }
  }

  // ---- What a batch's answer says ------------------------------------------

  /** From the first match to the last; nothing without two of them. */
  ghost predicate MatchedFor(h: RideHistory.History, d: int) {
    if RideHistory.Tally(h, RideHistory.Matches) < 2 then d == 0
    else exists k, l :: RideHistory.FirstMatchAt(h, k) && RideHistory.LastMatchAt(h, l)
                        && d == h[l].point.timestamp - h[k].point.timestamp
  }

  /** The rider is told they are on the map alone: live and verified, matched no
      longer ago than maxAge, not blocked, and trusted or corroborated twelve times. */
  ghost predicate ShownAlone(r: Sessions.Ride, h: RideHistory.History, now: Time, maxAge: int) {
    && !r.ended && RideHistory.VerifiedBy(h) && !RideHistory.Rejects(h)
    && (exists l :: RideHistory.LastMatchAt(h, l) && now - h[l].point.timestamp <= maxAge)
    && r.tier != Reputation.TierBlocked
    && (r.tier == Reputation.TierTrusted || RideHistory.Tally(h, RideHistory.Corroborates) >= 12)
  }

  lemma ShownReads(r: Sessions.Ride, h: RideHistory.History, now: Time, maxAge: int)
    requires RideHistory.Reads(r, h)
    ensures r.Publishable(now, maxAge) <==> ShownAlone(r, h, now, maxAge)
  {
    MatchesHaveEnds(h);
  }

  lemma MatchedForReads(r: Sessions.Ride, h: RideHistory.History)
    requires RideHistory.Reads(r, h)
    ensures MatchedFor(h, r.Summary().matchedDuration)
  {
    MatchesHaveEnds(h);
  }

  lemma SummaryReads(r: Sessions.Ride, h: RideHistory.History)
    requires RideHistory.Reads(r, h)
    ensures SummarizedBy(r.Summary(), r, h)
  {
    MatchedForReads(r, h);
  }

  ghost predicate SummarizedBy(s: Reputation.RideSummary, r: Sessions.Ride, h: RideHistory.History) {
    && s.state == (if RideHistory.Rejects(h) then Reputation.Rejected
                   else if RideHistory.VerifiedBy(h) then Reputation.Verified else Reputation.Pending)
    && s.corroborated == (RideHistory.Tally(h, RideHistory.Corroborates) >= 12)
    && s.counts == Reputation.Counts(|h|, RideHistory.Tally(h, RideHistory.Matches),
                                     RideHistory.Tally(h, RideHistory.Corroborates),
                                     RideHistory.Tally(h, RideHistory.Contradicts))
    && s.endReason == r.endReason && MatchedFor(h, s.matchedDuration)
    && s.duration == (if r.ended then r.endedAt - r.startedAt else 0)
  }

  /** What a batch answers is read off the ride's history: the latest point's
      corroboration, the points since its last match, and its tallies. */
  lemma AnswerReads(done: Batches.Progress, events: Events, h: RideHistory.History, now: Time, maxAge: int)
    requires RideHistory.StandsAt(done.ride, events, h)
    ensures var res := Aggregators.ResultOf(done, now, maxAge);
            && (res.published <==> ShownAlone(done.ride, h, now, maxAge))
            && res.corroboration == (if |h| == 0 then Verification.Unavailable else h[|h| - 1].verdict.corroboration)
            && res.accepted == |done.applied| && res.ignored == done.ignored && res.points == done.applied
            && RideHistory.NonMatchRun(h, res.offRouteStreak)
            && SummarizedBy(res.summary, done.ride, h)
  {
    ShownReads(done.ride, h, now, maxAge);
    SummaryReads(done.ride, h);
  }

  lemma StandingScores(r: Sessions.Ride, events: Events, h: RideHistory.History)
    requires RideHistory.StandsAt(r, events, h)
    ensures Scores(OutcomeOf(r.Summary()), h)
  {
    DurationIsLasting(r, h);
  }

  /** Whatever interleaves, a ride of this process is filed for just what the run
      told it - every point it accepted, from the first to its end - and the
      score moves by what that history is worth. */
  lemma FiledAsItsHistoryReads(init: World, actions: seq<Action>, s: World, f: Filing)
    requires Init(init) && Reaches(init, actions, s) && f in s.filings && f.id in s.rows && s.rows[f.id].mine
    ensures exists h :: RideHistory.IsHistory(Told(init, actions, f.id), h)
    ensures forall h | RideHistory.IsHistory(Told(init, actions, f.id), h) ::
              Records(f.outcome, Told(init, actions, f.id), h) && Scores(f.outcome, h)
  {
    var events := Told(init, actions, f.id);
    InitInv(init);
    RunKeepsInv(init, actions, s);
    RunTells(init, actions, s, f.id);
    FilingRecords(s, f, events);
  }

  lemma FilingRecords(s: World, f: Filing, events: Events)
    requires FiledInv(s) && f in s.filings && s.rows[f.id].mine && CameFrom(s.past[f.id], events)
    ensures exists h :: RideHistory.IsHistory(events, h)
    ensures forall h | RideHistory.IsHistory(events, h) :: Records(f.outcome, events, h) && Scores(f.outcome, h)
  {
    var r := s.past[f.id];
    var start :| IsNew(start) && r == RideHistory.Run(start, events);
    RideHistory.SessionEqualsItsHistory(start, events);
    forall h | RideHistory.IsHistory(events, h) ensures Records(f.outcome, events, h) && Scores(f.outcome, h) {
      StandingRecords(r, events, h);
      StandingScores(r, events, h);
    }
  }
}
