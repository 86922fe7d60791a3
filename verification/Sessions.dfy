/** rider/session.go: the state machine folding verdicts into a belief about a
    ride. Session is the machine; Ride is its state as a value; an independent
    reading of the accepted points says what that state means. */
module Sessions {
  import opened Prelude
  import Schedule
  import opened Verification
  import opened Reputation

  const VERIFY_STREAK: nat := 3
  const REJECT_STREAK: nat := 5
  const CONTRADICT_STREAK: nat := 3
  const CORROBORATE_COUNT: nat := 12

  datatype TripKey = TripKey(tripId: string, startDate: string)

  datatype Transition = Transition(stateChanged: bool, ended: bool, endReason: EndReason)

  const NO_TRANSITION := Transition(false, false, NotEnded)

  /** Everything a Session holds. */
  datatype Ride = Ride(
    id: string, riderId: string, key: TripKey, trip: Option<Schedule.TripInfo>, tier: Tier, startedAt: Time,
    state: State, corroborated: bool,
    latest: Option<AcceptedPoint>, latestMatched: Option<AcceptedPoint>, latestCorroboration: Corroboration,
    counts: Counts,
    matchStreak: nat, contradictions: nat, nonMatchedStreak: seq<Outcome>,
    firstMatchedAt: Time, lastMatchedAt: Time,
    ended: bool, endReason: EndReason, endedAt: Time)
  {
    function LastAcceptedAt(): Time {
      if latest.None? then ZERO_TIME else latest.value.point.timestamp
    }

    /** Judged on the latest match, not the latest accepted point. */
    predicate Fresh(now: Time, maxAge: int) {
      latestMatched.Some? && now - latestMatched.value.point.timestamp <= maxAge
    }

    predicate Publishable(now: Time, maxAge: int) {
      && state == Verified && !ended && Fresh(now, maxAge)
      && tier != TierBlocked && (tier == TierTrusted || corroborated)
    }

    function Summary(): RideSummary {
      RideSummary(state, endReason, corroborated,
        if counts.matched >= 2 then lastMatchedAt - firstMatchedAt else 0,
        counts,
        if ended then endedAt - startedAt else 0)
    }

    /** End: the first end wins. */
    function End(reason: EndReason, at: Time): Ride {
      if ended then this else this.(ended := true, endReason := reason, endedAt := at)
    }

    function Reject(reason: EndReason, at: Time): Ride {
      this.(state := Rejected).End(reason, at)
    }

    function Counted(v: Verdict, p: Point): Ride {
      this.(
        counts := counts.(total := counts.total + 1),
        latest := Some(AcceptedPoint(p, v.alongShape)),
        latestCorroboration := v.corroboration)
    }

    function Apply(v: Verdict, p: Point): Ride {
      if ended || v.outcome == Ignored then this
      else
        var ap := AcceptedPoint(p, v.alongShape);
        var r := Counted(v, p);
        if v.outcome == Matched
        then r.(latestMatched := Some(ap)).ApplyMatched(v.corroboration, p.timestamp)
        else r.ApplyNonMatched(v.outcome, p.timestamp)
    }

    function ApplyMatched(c: Corroboration, at: Time): Ride {
      TallyMatch(at).TallyCorroboration(c).Judge(at)
    }

    function TallyMatch(at: Time): Ride {
      this.(
        counts := counts.(matched := counts.matched + 1),
        firstMatchedAt := if counts.matched == 0 then at else firstMatchedAt,
        lastMatchedAt := at,
        nonMatchedStreak := [],
        matchStreak := matchStreak + 1)
    }

    /** Only a Corroborated point clears the run of contradictions. */
    function TallyCorroboration(c: Corroboration): Ride {
      match c
      case Corroborated =>
        this.(counts := counts.(corroborated := counts.corroborated + 1),
              contradictions := 0,
              corroborated := corroborated || counts.corroborated + 1 >= CORROBORATE_COUNT)
      case Contradicted =>
        this.(counts := counts.(contradicted := counts.contradicted + 1), contradictions := contradictions + 1)
      case _ => this
    }

    function Judge(at: Time): Ride {
      var r := if state == Pending && matchStreak >= VERIFY_STREAK then this.(state := Verified) else this;
      if r.contradictions >= CONTRADICT_STREAK then r.Reject(EndContradicted, at) else r
    }

    function ApplyNonMatched(o: Outcome, at: Time): Ride {
      var r := this.(matchStreak := 0, nonMatchedStreak := nonMatchedStreak + [o]);
      if |r.nonMatchedStreak| < REJECT_STREAK then r
      else r.Reject(EndReasonFor(DominantOutcome(r.nonMatchedStreak)), at)
    }
  }

  function NewRide(id: string, riderId: string, key: TripKey, trip: Option<Schedule.TripInfo>, tier: Tier, startedAt: Time): Ride {
    Ride(id, riderId, key, trip, tier, startedAt, Pending, false, None, None, Unavailable, Counts(0, 0, 0, 0),
      0, 0, [], ZERO_TIME, ZERO_TIME, false, NotEnded, ZERO_TIME)
  }

  function EndReasonFor(o: Outcome): EndReason {
    match o
    case Implausible => EndImplausible
    case OffSchedule => EndOffSchedule
    case _ => EndOffRoute
  }

  // ---- dominantOutcome -----------------------------------------------------

  /** The most frequent outcome of a streak, the most recent of those tied. */
  ghost predicate IsDominant(streak: seq<Outcome>, o: Outcome) {
    exists k :: IsDominantAt(streak, o, k)
  }

  ghost predicate IsDominantAt(streak: seq<Outcome>, o: Outcome, k: int) {
    && 0 <= k < |streak| && streak[k] == o
    && (forall j | 0 <= j < |streak| :: multiset(streak)[streak[j]] <= multiset(streak)[o])
    && (forall j | k < j < |streak| :: multiset(streak)[streak[j]] < multiset(streak)[o])
  }

  /** The scan from position i back to the front, best so far in hand. */
  function DominantFrom(streak: seq<Outcome>, i: int, best: Outcome): Outcome
    requires -1 <= i < |streak|
    decreases i + 1
  {
    if i < 0 then best
    else if multiset(streak)[streak[i]] > multiset(streak)[best] then DominantFrom(streak, i - 1, streak[i])
    else DominantFrom(streak, i - 1, best)
  }

  function DominantOutcome(streak: seq<Outcome>): Outcome
    requires |streak| > 0
  {
    DominantFrom(streak, |streak| - 1, streak[|streak| - 1])
  }

  lemma {:induction false} DominantFromIsDominant(streak: seq<Outcome>, i: int, best: Outcome, k: int)
    requires -1 <= i < |streak| && 0 <= k < |streak| && streak[k] == best
    requires i < k || i == k == |streak| - 1
    requires forall j | i < j < |streak| :: multiset(streak)[streak[j]] <= multiset(streak)[best]
    requires forall j | k < j < |streak| :: multiset(streak)[streak[j]] < multiset(streak)[best]
    ensures IsDominant(streak, DominantFrom(streak, i, best))
    decreases i + 1
  {
    if i < 0 {
      assert IsDominantAt(streak, best, k);
    } else if multiset(streak)[streak[i]] > multiset(streak)[best] {
      DominantFromIsDominant(streak, i - 1, streak[i], i);
    } else {
      DominantFromIsDominant(streak, i - 1, best, k);
    }
  }

  lemma DominantOutcomeIsDominant(streak: seq<Outcome>)
    requires |streak| > 0
    ensures IsDominant(streak, DominantOutcome(streak))
  {
    DominantFromIsDominant(streak, |streak| - 1, streak[|streak| - 1], |streak| - 1);
  }

  lemma DominantIsUnique(streak: seq<Outcome>, o: Outcome, o': Outcome)
    requires IsDominant(streak, o) && IsDominant(streak, o')
    ensures o == o'
  {
    var k :| IsDominantAt(streak, o, k);
    var k' :| IsDominantAt(streak, o', k');
  }

  method FindDominantOutcome(streak: seq<Outcome>) returns (best: Outcome)
    requires |streak| > 0
    ensures best == DominantOutcome(streak) && IsDominant(streak, best)
  {
    var counts: map<Outcome, nat> := map[];
    for i := 0 to |streak|
      invariant forall o :: o in counts <==> o in multiset(streak[..i])
      invariant forall o | o in counts :: counts[o] == multiset(streak[..i])[o]
    {
      assert streak[..i + 1] == streak[..i] + [streak[i]];
      counts := counts[streak[i] := (if streak[i] in counts then counts[streak[i]] else 0) + 1];
    }
    assert streak[..|streak|] == streak;
    assert forall j | 0 <= j < |streak| :: streak[j] in multiset(streak);
    best := streak[|streak| - 1];
    var i := |streak| - 1;
    while i >= 0
      invariant -1 <= i < |streak| && best in counts
      invariant DominantFrom(streak, i, best) == DominantOutcome(streak)
    {
      if counts[streak[i]] > counts[best] {
        best := streak[i];
      }
      i := i - 1;
    }
    DominantOutcomeIsDominant(streak);
  }

  /** A ride that has matched is on a trip with a shape. */
  predicate OnShape(r: Ride) {
    r.latestMatched.Some? ==> r.trip.Some? && r.trip.value.shape.Some?
  }

  // ---- The machine ---------------------------------------------------------

  class Session {
    const id: string
    const riderId: string
    const key: TripKey
    const trip: Option<Schedule.TripInfo>
    const startedAt: Time
    var tier: Tier
    var state: State
    var corroborated: bool
    var latest: Option<AcceptedPoint>
    var latestMatched: Option<AcceptedPoint>
    var latestCorroboration: Corroboration
    var counts: Counts
    var matchStreak: nat
    var contradictions: nat
    var nonMatchedStreak: seq<Outcome>
    var firstMatchedAt: Time
    var lastMatchedAt: Time
    var ended: bool
    var endReason: EndReason
    var endedAt: Time

    function Value(): Ride
      reads this
    {
      Ride(id, riderId, key, trip, tier, startedAt, state, corroborated, latest, latestMatched, latestCorroboration,
        counts, matchStreak, contradictions, nonMatchedStreak, firstMatchedAt, lastMatchedAt, ended, endReason, endedAt)
    }

    constructor (id: string, riderId: string, key: TripKey, trip: Option<Schedule.TripInfo>, tier: Tier, startedAt: Time)
      ensures Value() == NewRide(id, riderId, key, trip, tier, startedAt)
    {
      this.id, this.riderId, this.key, this.trip, this.tier, this.startedAt := id, riderId, key, trip, tier, startedAt;
      state, corroborated := Pending, false;
      latest, latestMatched, latestCorroboration := None, None, Unavailable;
      counts := Counts(0, 0, 0, 0);
      matchStreak, contradictions, nonMatchedStreak := 0, 0, [];
      firstMatchedAt, lastMatchedAt := ZERO_TIME, ZERO_TIME;
      ended, endReason, endedAt := false, NotEnded, ZERO_TIME;
    }

    method SetTier(t: Tier)
      modifies this
      ensures Value() == old(Value()).(tier := t)
    {
      tier := t;
    }

    method End(reason: EndReason, at: Time)
      modifies this
      ensures Value() == old(Value()).End(reason, at)
    {
      if ended {
        return;
      }
      ended, endReason, endedAt := true, reason, at;
    }

    method Reject(reason: EndReason, at: Time)
      modifies this
      ensures Value() == old(Value()).Reject(reason, at)
    {
      state := Rejected;
      End(reason, at);
    }

    /** A rejected ride is over. */
    ghost predicate Valid()
      reads this
    {
      state == Rejected ==> ended
    }

    method Apply(v: Verdict, p: Point) returns (tr: Transition)
      requires Valid()
      modifies this
      ensures Valid()
      ensures Value() == old(Value()).Apply(v, p)
      ensures tr == Transition(state != old(state), ended, if ended then endReason else NotEnded)
    {
      if ended {
        return Transition(false, true, endReason);
      }
      if v.outcome == Ignored {
        return NO_TRANSITION;
      }
      counts := counts.(total := counts.total + 1);
      latest := Some(AcceptedPoint(p, v.alongShape));
      latestCorroboration := v.corroboration;
      assert Value() == old(Value()).Counted(v, p);
      if v.outcome != Matched {
        tr := ApplyNonMatched(v.outcome, p.timestamp);
        return;
      }
      latestMatched := latest;
      tr := ApplyMatched(v.corroboration, p.timestamp);
    }

    method ApplyMatched(c: Corroboration, at: Time) returns (tr: Transition)
      requires Valid() && !ended
      modifies this
      ensures Value() == old(Value()).ApplyMatched(c, at)
      ensures Valid()
      ensures tr == Transition(state != old(state), ended, if ended then endReason else NotEnded)
    {
      TallyMatch(at);
      TallyCorroboration(c);
      tr := Judge(at);
    }

    method TallyMatch(at: Time)
      modifies this
      ensures Value() == old(Value()).TallyMatch(at)
      ensures ended == old(ended) && state == old(state)
    {
      counts := counts.(matched := counts.matched + 1);
      if counts.matched == 1 {
        firstMatchedAt := at;
      }
      lastMatchedAt := at;
      nonMatchedStreak := [];
      matchStreak := matchStreak + 1;
    }

    method TallyCorroboration(c: Corroboration)
      modifies this
      ensures Value() == old(Value()).TallyCorroboration(c)
      ensures ended == old(ended) && state == old(state)
    {
      if c == Corroborated {
        counts := counts.(corroborated := counts.corroborated + 1);
        contradictions := 0;
        if counts.corroborated >= CORROBORATE_COUNT {
          corroborated := true;
        }
      } else if c == Contradicted {
        counts := counts.(contradicted := counts.contradicted + 1);
        contradictions := contradictions + 1;
      }
    }

    method Judge(at: Time) returns (tr: Transition)
      requires Valid() && !ended
      modifies this
      ensures Value() == old(Value()).Judge(at)
      ensures Valid()
      ensures tr == Transition(state != old(state), ended, if ended then endReason else NotEnded)
    {
      tr := NO_TRANSITION;
      if state == Pending && matchStreak >= VERIFY_STREAK {
        state := Verified;
        tr := tr.(stateChanged := true);
      }
      if contradictions >= CONTRADICT_STREAK {
        Reject(EndContradicted, at);
        tr := Transition(true, true, endReason);
      }
    }

    method ApplyNonMatched(o: Outcome, at: Time) returns (tr: Transition)
      requires Valid() && !ended
      modifies this
      ensures Value() == old(Value()).ApplyNonMatched(o, at)
      ensures Valid()
      ensures tr == Transition(state != old(state), ended, if ended then endReason else NotEnded)
    {
      matchStreak := 0;
      nonMatchedStreak := nonMatchedStreak + [o];
      if |nonMatchedStreak| < REJECT_STREAK {
        return NO_TRANSITION;
      }
      var dominant := FindDominantOutcome(nonMatchedStreak);
      Reject(EndReasonFor(dominant), at);
      return Transition(true, true, endReason);
    }
  }
}
