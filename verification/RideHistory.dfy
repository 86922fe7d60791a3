/** What a session's state means, read off the points it accepted: an account
    of rider/session.go that mentions none of its streaks and counters. */
module RideHistory {
  import opened Prelude
  import Verification
  import Reputation
  import opened Sessions

  /** An accepted point with the verdict it earned. */
  datatype Entry = Entry(verdict: Verification.Verdict, point: Verification.Point)

  type History = seq<Entry>

  predicate Matches(e: Entry) {
    e.verdict.outcome == Verification.Matched
  }

  predicate Corroborates(e: Entry) {
    Matches(e) && e.verdict.corroboration == Verification.Corroborated
  }

  predicate Contradicts(e: Entry) {
    Matches(e) && e.verdict.corroboration == Verification.Contradicted
  }

  /** How many entries satisfy f. */
  function Tally(h: seq<Entry>, f: Entry -> bool): nat {
    if |h| == 0 then 0 else Tally(h[..|h| - 1], f) + (if f(h[|h| - 1]) then 1 else 0)
  }

  function Accepted(e: Entry): Verification.AcceptedPoint {
    Verification.AcceptedPoint(e.point, e.verdict.alongShape)
  }

  // ---- What the session should conclude ------------------------------------

  /** Three matched points in a row, anywhere in the history. */
  ghost predicate VerifiedBy(h: History) {
    exists i :: ThreeMatchesAt(h, i)
  }

  ghost predicate ThreeMatchesAt(h: History, i: int) {
    0 <= i && i + 3 <= |h| && Matches(h[i]) && Matches(h[i + 1]) && Matches(h[i + 2])
  }

  ghost predicate FifthNonMatch(h: History) {
    |h| >= 5 && forall j | |h| - 5 <= j < |h| :: !Matches(h[j])
  }

  /** Nothing from entry k on corroborates. */
  ghost predicate Uncorroborated(h: History, k: int)
    requires 0 <= k <= |h|
  {
    forall j | k <= j < |h| :: !Corroborates(h[j])
  }

  ghost predicate ThirdContradiction(h: History) {
    && |h| > 0 && Contradicts(h[|h| - 1])
    && exists k | 0 <= k <= |h| :: Uncorroborated(h, k) && Tally(h[k..], Contradicts) >= 3
  }

  /** The last point is the one that rejects the ride. */
  ghost predicate Rejects(h: History) {
    FifthNonMatch(h) || ThirdContradiction(h)
  }

  function Outcomes(h: seq<Entry>): (s: seq<Verification.Outcome>)
    ensures |s| == |h|
  {
    seq(|h|, i requires 0 <= i < |h| => h[i].verdict.outcome)
  }

  ghost predicate BlamedFor(o: Verification.Outcome, reason: Reputation.EndReason) {
    match o
    case Implausible => reason == Reputation.EndImplausible
    case OffSchedule => reason == Reputation.EndOffSchedule
    case _ => reason == Reputation.EndOffRoute
  }

  /** What a rejected ride is blamed on. */
  ghost predicate Blames(h: History, reason: Reputation.EndReason)
    requires Rejects(h)
  {
    if FifthNonMatch(h) then exists o :: IsDominant(Outcomes(h[|h| - 5..]), o) && BlamedFor(o, reason)
    else reason == Reputation.EndContradicted
  }

  ghost predicate LastMatchAt(h: History, k: int) {
    0 <= k < |h| && Matches(h[k]) && forall j | k < j < |h| :: !Matches(h[j])
  }

  ghost predicate FirstMatchAt(h: History, k: int) {
    0 <= k < |h| && Matches(h[k]) && forall j | 0 <= j < k :: !Matches(h[j])
  }

  /** The session's public state, read off its history. */
  ghost predicate Reads(r: Ride, h: History) {
    && (forall n | 0 <= n < |h| :: !Rejects(h[..n]))
    && r.state == (if Rejects(h) then Reputation.Rejected else if VerifiedBy(h) then Reputation.Verified else Reputation.Pending)
    && (Rejects(h) ==> r.ended && Blames(h, r.endReason) && r.endedAt == h[|h| - 1].point.timestamp)
    && r.counts == Reputation.Counts(|h|, Tally(h, Matches), Tally(h, Corroborates), Tally(h, Contradicts))
    && r.corroborated == (Tally(h, Corroborates) >= 12)
    && r.latest == (if |h| == 0 then None else Some(Accepted(h[|h| - 1])))
    && r.latestCorroboration == (if |h| == 0 then Verification.Unavailable else h[|h| - 1].verdict.corroboration)
    && (forall k | LastMatchAt(h, k) :: r.latestMatched == Some(Accepted(h[k])) && r.lastMatchedAt == h[k].point.timestamp)
    && (forall k | FirstMatchAt(h, k) :: r.firstMatchedAt == h[k].point.timestamp)
    && ((forall e | e in h :: !Matches(e)) ==> r.latestMatched == None)
  }

  // ---- What its counters hold ----------------------------------------------

  ghost predicate MatchRun(h: History, k: int) {
    && 0 <= k <= |h|
    && (forall j | |h| - k <= j < |h| :: Matches(h[j]))
    && (k < |h| ==> !Matches(h[|h| - k - 1]))
  }

  ghost predicate NonMatchRun(h: History, k: int) {
    && 0 <= k <= |h|
    && (forall j | |h| - k <= j < |h| :: !Matches(h[j]))
    && (k < |h| ==> Matches(h[|h| - k - 1]))
  }

  /** The contradictions since the last corroboration, which is entry k - 1. */
  ghost predicate ContradictionsSince(h: History, k: int, n: nat) {
    && 0 <= k <= |h|
    && Uncorroborated(h, k)
    && (k > 0 ==> Corroborates(h[k - 1]))
    && n == Tally(h[k..], Contradicts)
  }

  ghost predicate Counters(r: Ride, h: History) {
    && MatchRun(h, r.matchStreak)
    && NonMatchRun(h, |r.nonMatchedStreak|)
    && r.nonMatchedStreak == Outcomes(h[|h| - |r.nonMatchedStreak|..])
    && (exists k :: ContradictionsSince(h, k, r.contradictions))
  }

  /** Counters of a ride still going are below their limits. */
  ghost predicate Going(r: Ride) {
    !r.ended && r.contradictions < 3 && |r.nonMatchedStreak| < 5
  }

  lemma TallySnoc(h: seq<Entry>, e: Entry, f: Entry -> bool)
    ensures Tally(h + [e], f) == Tally(h, f) + (if f(e) then 1 else 0)
  {
    assert (h + [e])[..|h|] == h;
  }

  lemma {:induction false} TallySuffix(h: seq<Entry>, j: int, k: int, f: Entry -> bool)
    requires 0 <= j <= k <= |h|
    ensures Tally(h[k..], f) <= Tally(h[j..], f)
    decreases |h|
  {
    if k < |h| {
      var init := h[..|h| - 1];
      assert h[k..][..|h| - k - 1] == init[k..] && h[j..][..|h| - j - 1] == init[j..];
      TallySuffix(init, j, k, f);
    }
  }

  /** Counting from after the last corroboration is the most one can count
      without crossing a corroboration. */
  lemma ContradictionsSinceIsMost(h: History, k: int, n: nat)
    requires ContradictionsSince(h, k, n)
    ensures (exists j | 0 <= j <= |h| :: Uncorroborated(h, j) && Tally(h[j..], Contradicts) >= 3) <==> n >= 3
  {
    forall j | 0 <= j <= |h| && Uncorroborated(h, j)
      ensures Tally(h[j..], Contradicts) <= n
    {
      assert k <= j;
      TallySuffix(h, k, j, Contradicts);
    }
  }

  lemma VerifiedBySnoc(h: History, e: Entry, k: nat)
    requires MatchRun(h, k)
    ensures VerifiedBy(h + [e]) <==> VerifiedBy(h) || (Matches(e) && k + 1 >= 3)
  {
    var g: History := h + [e];
    if VerifiedBy(h) {
      var i :| ThreeMatchesAt(h, i);
      assert ThreeMatchesAt(g, i);
    }
    if Matches(e) && k >= 2 {
      assert Matches(h[|h| - 1]) && Matches(h[|h| - 2]);
      assert ThreeMatchesAt(g, |h| - 2);
    }
    if VerifiedBy(g) {
      var i :| ThreeMatchesAt(g, i);
      if i + 3 <= |h| {
        assert ThreeMatchesAt(h, i);
      } else {
        assert Matches(h[|h| - 1]) && Matches(h[|h| - 2]);
      }
    }
  }

  // ---- Every accepted point keeps the reading ------------------------------

  /** What one accepted point does to each field, side by side. */
  ghost predicate Follows(r: Ride, e: Entry, r': Ride) {
    FollowsPoints(r, e, r') && FollowsCounts(r, e, r') && FollowsStreaks(r, e, r') && FollowsVerdict(r, e, r')
  }

  ghost predicate FollowsPoints(r: Ride, e: Entry, r': Ride) {
    var hit := Matches(e);
    && r'.latest == Some(Accepted(e)) && r'.latestCorroboration == e.verdict.corroboration
    && r'.latestMatched == (if hit then Some(Accepted(e)) else r.latestMatched)
    && r'.lastMatchedAt == (if hit then e.point.timestamp else r.lastMatchedAt)
    && r'.firstMatchedAt == (if hit && r.counts.matched == 0 then e.point.timestamp else r.firstMatchedAt)
  }

  ghost predicate FollowsCounts(r: Ride, e: Entry, r': Ride) {
    && r'.counts.total == r.counts.total + 1
    && r'.counts.matched == r.counts.matched + (if Matches(e) then 1 else 0)
    && r'.counts.corroborated == r.counts.corroborated + (if Corroborates(e) then 1 else 0)
    && r'.counts.contradicted == r.counts.contradicted + (if Contradicts(e) then 1 else 0)
    && r'.corroborated == (r.corroborated || (Corroborates(e) && r'.counts.corroborated >= 12))
  }

  ghost predicate FollowsStreaks(r: Ride, e: Entry, r': Ride) {
    && r'.matchStreak == (if Matches(e) then r.matchStreak + 1 else 0)
    && r'.nonMatchedStreak == (if Matches(e) then [] else r.nonMatchedStreak + [e.verdict.outcome])
    && r'.contradictions == (if Corroborates(e) then 0 else if Contradicts(e) then r.contradictions + 1 else r.contradictions)
  }

  ghost predicate FollowsVerdict(r: Ride, e: Entry, r': Ride) {
    && r'.ended == (if Matches(e) then r'.contradictions >= 3 else |r'.nonMatchedStreak| >= 5)
    && r'.state == (if r'.ended then Reputation.Rejected
                    else if r.state == Reputation.Pending && r'.matchStreak >= 3 then Reputation.Verified
                    else r.state)
    && (r'.ended ==> r'.endedAt == e.point.timestamp)
    && (r'.ended ==>
          r'.endReason == (if Matches(e) then Reputation.EndContradicted else EndReasonFor(DominantOutcome(r'.nonMatchedStreak))))
  }

  lemma ApplyFollows(r: Ride, e: Entry)
    requires !r.ended && e.verdict.outcome != Verification.Ignored
    ensures Follows(r, e, r.Apply(e.verdict, e.point))
  {
    if Matches(e) {
      var s := r.(counts := r.counts.(total := r.counts.total + 1), latest := Some(Accepted(e)),
                  latestCorroboration := e.verdict.corroboration, latestMatched := Some(Accepted(e)));
      var t := s.TallyMatch(e.point.timestamp);
      assert r.Apply(e.verdict, e.point) == t.TallyCorroboration(e.verdict.corroboration).Judge(e.point.timestamp);
      CorroborationFollows(r, e, t);
      JudgeFollows(r, e, t.TallyCorroboration(e.verdict.corroboration));
    } else {
      UnmatchedFollows(r, e);
    }
  }

  lemma UnmatchedFollows(r: Ride, e: Entry)
    requires !r.ended && e.verdict.outcome != Verification.Ignored && !Matches(e)
    ensures Follows(r, e, r.Apply(e.verdict, e.point))
  {
  }

  lemma CorroborationFollows(r: Ride, e: Entry, t: Ride)
    requires Matches(e) && FollowsPoints(r, e, t) && t.ended == r.ended && t.state == r.state
    requires t.corroborated == r.corroborated
    requires t.counts == r.counts.(total := r.counts.total + 1, matched := r.counts.matched + 1)
    requires t.matchStreak == r.matchStreak + 1 && t.nonMatchedStreak == [] && t.contradictions == r.contradictions
    ensures var u := t.TallyCorroboration(e.verdict.corroboration);
            && FollowsPoints(r, e, u) && FollowsCounts(r, e, u) && FollowsStreaks(r, e, u)
            && u.ended == r.ended && u.state == r.state
  {
  }

  lemma JudgeFollows(r: Ride, e: Entry, u: Ride)
    requires Matches(e) && FollowsPoints(r, e, u) && FollowsCounts(r, e, u) && FollowsStreaks(r, e, u)
    requires !r.ended && !u.ended && u.state == r.state
    ensures Follows(r, e, u.Judge(e.point.timestamp))
  {
  }

  lemma CountsSnoc(r: Ride, h: History, e: Entry, r': Ride)
    requires Follows(r, e, r')
    requires r.counts == Reputation.Counts(|h|, Tally(h, Matches), Tally(h, Corroborates), Tally(h, Contradicts))
    requires r.corroborated == (Tally(h, Corroborates) >= 12)
    ensures var g := h + [e];
            && r'.counts == Reputation.Counts(|g|, Tally(g, Matches), Tally(g, Corroborates), Tally(g, Contradicts))
            && r'.corroborated == (Tally(g, Corroborates) >= 12)
  {
    TallySnoc(h, e, Matches);
    TallySnoc(h, e, Corroborates);
    TallySnoc(h, e, Contradicts);
  }

  lemma ContradictionsSnoc(h: History, e: Entry, k: int, n: nat) returns (k': int)
    requires ContradictionsSince(h, k, n)
    ensures ContradictionsSince(h + [e], k', if Corroborates(e) then 0 else if Contradicts(e) then n + 1 else n)
  {
    var g: History := h + [e];
    if Corroborates(e) {
      assert g[|g|..] == [];
      k' := |g|;
    } else {
      assert g[k..] == h[k..] + [e];
      TallySnoc(h[k..], e, Contradicts);
      k' := k;
    }
  }

  lemma MatchRunSnoc(h: History, e: Entry, k: nat)
    requires MatchRun(h, k)
    ensures MatchRun(h + [e], if Matches(e) then k + 1 else 0)
  {
    var g := h + [e];
    assert forall j | 0 <= j < |h| :: g[j] == h[j];
  }

  lemma NonMatchRunSnoc(h: History, e: Entry, k: nat)
    requires NonMatchRun(h, k)
    ensures NonMatchRun(h + [e], if Matches(e) then 0 else k + 1)
    ensures Outcomes((h + [e])[|h| - k..]) == Outcomes(h[|h| - k..]) + [e.verdict.outcome]
  {
    var g := h + [e];
    assert forall j | 0 <= j < |h| :: g[j] == h[j];
    assert g[|h| - k..] == h[|h| - k..] + [e];
  }

  lemma StreaksSnoc(r: Ride, h: History, e: Entry, r': Ride)
    requires Counters(r, h) && Follows(r, e, r')
    ensures Counters(r', h + [e])
  {
    var since :| ContradictionsSince(h, since, r.contradictions);
    var since' := ContradictionsSnoc(h, e, since, r.contradictions);
    MatchRunSnoc(h, e, r.matchStreak);
    NonMatchesSnoc(r, h, e, r');
  }

  lemma NonMatchesSnoc(r: Ride, h: History, e: Entry, r': Ride)
    requires FollowsStreaks(r, e, r') && NonMatchRun(h, |r.nonMatchedStreak|)
    requires r.nonMatchedStreak == Outcomes(h[|h| - |r.nonMatchedStreak|..])
    ensures NonMatchRun(h + [e], |r'.nonMatchedStreak|)
    ensures r'.nonMatchedStreak == Outcomes((h + [e])[|h| + 1 - |r'.nonMatchedStreak|..])
  {
    var g, k := h + [e], |r.nonMatchedStreak|;
    NonMatchRunSnoc(h, e, k);
    if Matches(e) {
      assert Outcomes(g[|g|..]) == [];
    } else {
      assert |g| - (k + 1) == |h| - k;
    }
  }

  /** The run of non-matches reaches five exactly when the fifth arrives. */
  lemma FifthNonMatchIsRun(h: History, k: nat)
    requires NonMatchRun(h, k)
    ensures FifthNonMatch(h) <==> k >= 5
  {
    if k < |h| {
      assert Matches(h[|h| - k - 1]);
    }
  }

  lemma ThirdContradictionIsCount(h: History, e: Entry, n: nat)
    requires |h| > 0 && h[|h| - 1] == e && exists k :: ContradictionsSince(h, k, n)
    ensures ThirdContradiction(h) <==> Contradicts(e) && n >= 3
  {
    var k :| ContradictionsSince(h, k, n);
    ContradictionsSinceIsMost(h, k, n);
  }

  /** The counters end the ride exactly when the history rejects it, on the
      blame the history gives. */
  lemma RejectsExactlyWhen(r: Ride, e: Entry, r': Ride, g: History)
    requires Follows(r, e, r') && Going(r) && Counters(r', g)
    requires |g| > 0 && g[|g| - 1] == e
    ensures Rejects(g) <==> r'.ended
    ensures r'.ended ==> Blames(g, r'.endReason)
  {
    ThirdContradictionIsCount(g, e, r'.contradictions);
    FifthNonMatchIsRun(g, |r'.nonMatchedStreak|);
    if r'.ended && !Matches(e) {
      assert |r'.nonMatchedStreak| == 5;
      DominantOutcomeIsDominant(r'.nonMatchedStreak);
      assert BlamedFor(DominantOutcome(r'.nonMatchedStreak), r'.endReason);
    }
  }

  lemma MatchesSnoc(r: Ride, h: History, e: Entry, r': Ride)
    requires Reads(r, h) && Follows(r, e, r')
    ensures var g := h + [e];
            && (forall k | LastMatchAt(g, k) :: r'.latestMatched == Some(Accepted(g[k])) && r'.lastMatchedAt == g[k].point.timestamp)
            && (forall k | FirstMatchAt(g, k) :: r'.firstMatchedAt == g[k].point.timestamp)
            && ((forall x | x in g :: !Matches(x)) ==> r'.latestMatched == None)
  {
    var g: History := h + [e];
    assert g[|h|] == e && forall j | 0 <= j < |h| :: g[j] == h[j];
    NoMatchMeansZero(h);
    forall k | LastMatchAt(g, k)
      ensures r'.latestMatched == Some(Accepted(g[k])) && r'.lastMatchedAt == g[k].point.timestamp
    {
      if !Matches(e) {
        assert LastMatchAt(h, k);
      } else {
        assert k == |h|;
      }
    }
    forall k | FirstMatchAt(g, k)
      ensures r'.firstMatchedAt == g[k].point.timestamp
    {
      if k < |h| {
        assert FirstMatchAt(h, k);
      }
    }
    if forall x | x in g :: !Matches(x) {
      assert e in g;
      assert forall x | x in h :: x in g;
    }
  }

  lemma {:induction false} NoMatchMeansZero(h: History)
    ensures Tally(h, Matches) == 0 <==> forall j | 0 <= j < |h| :: !Matches(h[j])
    ensures Tally(h, Matches) > 0 ==> exists k :: FirstMatchAt(h, k)
  {
    if |h| > 0 {
      var init: History := h[..|h| - 1];
      NoMatchMeansZero(init);
      if Tally(init, Matches) > 0 {
        var k :| FirstMatchAt(init, k);
        assert FirstMatchAt(h, k);
      } else if Matches(h[|h| - 1]) {
        assert FirstMatchAt(h, |h| - 1);
      }
    }
  }

  lemma NewRideReadsEmpty(r: Ride)
    requires r == NewRide(r.id, r.riderId, r.key, r.trip, r.tier, r.startedAt)
    ensures Reads(r, []) && Counters(r, []) && Going(r)
  {
    var h: History := [];
    assert ContradictionsSince(h, 0, 0);
    assert Outcomes(h) == [] && h[0..] == h;
    assert !VerifiedBy(h) && !Rejects(h);
    assert Tally(h, Matches) == Tally(h, Corroborates) == Tally(h, Contradicts) == 0;
  }

  /** An accepted point carries the reading over to the longer history, and
      ends the ride exactly when that history rejects it. */
  lemma ApplyKeepsReading(r: Ride, h: History, e: Entry)
    requires Reads(r, h) && Counters(r, h) && Going(r) && e.verdict.outcome != Verification.Ignored
    ensures var r' := r.Apply(e.verdict, e.point);
            && Reads(r', h + [e]) && Counters(r', h + [e])
            && (r'.ended <==> Rejects(h + [e])) && (!r'.ended ==> Going(r'))
  {
    var r' := r.Apply(e.verdict, e.point);
    ApplyFollows(r, e);
    ReadingFollows(r, h, e, r');
  }

  lemma NoPrefixRejects(h: History, e: Entry)
    requires !Rejects(h) && forall n | 0 <= n < |h| :: !Rejects(h[..n])
    ensures forall n | 0 <= n < |h + [e]| :: !Rejects((h + [e])[..n])
  {
    forall n | 0 <= n < |h + [e]|
      ensures !Rejects((h + [e])[..n])
    {
      assert (h + [e])[..n] == h[..n] && h[..|h|] == h;
    }
  }

  lemma ReadingFollows(r: Ride, h: History, e: Entry, r': Ride)
    requires Reads(r, h) && Counters(r, h) && Going(r) && Follows(r, e, r')
    ensures Reads(r', h + [e]) && Counters(r', h + [e])
    ensures r'.ended <==> Rejects(h + [e])
    ensures !r'.ended ==> Going(r')
  {
    var g := h + [e];
    CountsSnoc(r, h, e, r');
    StreaksSnoc(r, h, e, r');
    MatchesSnoc(r, h, e, r');
    RejectsExactlyWhen(r, e, r', g);
    VerifiedBySnoc(h, e, r.matchStreak);
    NoPrefixRejects(h, e);
  }

  // ---- Whole rides ---------------------------------------------------------

  datatype Event =
    | Report(verdict: Verification.Verdict, point: Verification.Point)
    | Finish(reason: Reputation.EndReason, at: Time)
    | Retier(tier: Reputation.Tier)

  function Step(r: Ride, event: Event): Ride {
    match event
    case Report(v, p) => r.Apply(v, p)
    case Finish(reason, at) => r.End(reason, at)
    case Retier(t) => r.(tier := t)
  }

  function Run(r: Ride, events: seq<Event>): Ride {
    if |events| == 0 then r else Step(Run(r, events[..|events| - 1]), events[|events| - 1])
  }

  /** The first end asked for from outside. */
  function FirstFinish(events: seq<Event>): Option<Event> {
    if |events| == 0 then None
    else
      var earlier, last := FirstFinish(events[..|events| - 1]), events[|events| - 1];
      if earlier.Some? then earlier else if last.Finish? then Some(last) else None
  }

  /** The usable points reported before the ride was finished from outside. */
  function Heard(events: seq<Event>): History {
    if |events| == 0 then []
    else
      var init, last := events[..|events| - 1], events[|events| - 1];
      if last.Report? && last.verdict.outcome != Verification.Ignored && FirstFinish(init).None?
      then Heard(init) + [Entry(last.verdict, last.point)]
      else Heard(init)
  }

  /** The points the ride accepts: all it heard, or those up to the first that
      rejects it. */
  ghost predicate IsHistory(events: seq<Event>, h: History) {
    && h <= Heard(events)
    && (forall n | 0 <= n < |h| :: !Rejects(h[..n]))
    && (h == Heard(events) || Rejects(h))
  }

  lemma HistoryIsUnique(events: seq<Event>, h: History, h': History)
    requires IsHistory(events, h) && IsHistory(events, h')
    ensures h == h'
  {
    var all := Heard(events);
    PrefixOfPrefix(all, h, h');
    PrefixOfPrefix(all, h', h);
  }

  lemma PrefixOfPrefix(all: History, h: History, h': History)
    requires h <= all && h' <= all
    ensures |h| < |h'| ==> h == h'[..|h|]
  {
    assert h == all[..|h|] && h' == all[..|h'|];
  }

  /** How a ride stands at the end of a run with history h. */
  ghost predicate StandsAt(r: Ride, events: seq<Event>, h: History) {
    && Reads(r, h) && NonMatchRun(h, |r.nonMatchedStreak|)
    && (r.ended <==> Rejects(h) || FirstFinish(events).Some?)
    && (r.ended && !Rejects(h) ==> FirstFinish(events) == Some(Finish(r.endReason, r.endedAt)))
  }

  /** What holds of a ride s after the events, with history h. */
  ghost predicate Tracks(s: Ride, events: seq<Event>, h: History) {
    && IsHistory(events, h) && StandsAt(s, events, h)
    && (!s.ended ==> h == Heard(events) && Counters(s, h) && Going(s))
  }

  lemma StepTracks(s: Ride, init: seq<Event>, last: Event, h: History) returns (h': History)
    requires Tracks(s, init, h)
    ensures Tracks(Step(s, last), init + [last], h')
  {
    if !s.ended && last.Report? && last.verdict.outcome != Verification.Ignored {
      AcceptStep(s, init, last, h);
      h' := h + [Entry(last.verdict, last.point)];
    } else {
      OtherStep(s, init, last, h);
      h' := h;
    }
  }

  lemma HeardSnoc(init: seq<Event>, last: Event)
    ensures Heard(init + [last])
         == if last.Report? && last.verdict.outcome != Verification.Ignored && FirstFinish(init).None?
            then Heard(init) + [Entry(last.verdict, last.point)] else Heard(init)
    ensures FirstFinish(init + [last])
         == if FirstFinish(init).Some? then FirstFinish(init) else if last.Finish? then Some(last) else None
  {
    assert (init + [last])[..|init|] == init;
  }

  lemma AcceptStep(s: Ride, init: seq<Event>, last: Event, before: History)
    requires Tracks(s, init, before)
    requires !s.ended && last.Report? && last.verdict.outcome != Verification.Ignored
    ensures Tracks(Step(s, last), init + [last], before + [Entry(last.verdict, last.point)])
  {
    var e := Entry(last.verdict, last.point);
    HeardSnoc(init, last);
    ApplyKeepsReading(s, before, e);
    NoPrefixRejects(before, e);
  }

  /** The rides differ at most in tier and in how they ended. */
  ghost predicate SameBelief(s: Ride, s': Ride) {
    s' == s.(tier := s'.tier, ended := s'.ended, endReason := s'.endReason, endedAt := s'.endedAt)
  }

  lemma BeliefKept(s: Ride, s': Ride, h: History)
    requires Reads(s, h) && SameBelief(s, s')
    requires Rejects(h) ==> s'.ended && s'.endReason == s.endReason && s'.endedAt == s.endedAt
    ensures Reads(s', h)
    ensures Counters(s, h) ==> Counters(s', h)
  {
  }

  lemma OtherStep(s: Ride, init: seq<Event>, last: Event, h: History)
    requires Tracks(s, init, h)
    requires s.ended || !last.Report? || last.verdict.outcome == Verification.Ignored
    ensures Tracks(Step(s, last), init + [last], h)
  {
    HeardSnoc(init, last);
    BeliefKept(s, Step(s, last), h);
    assert Heard(init) <= Heard(init + [last]);
  }

  lemma StartTracks(r: Ride)
    requires r == NewRide(r.id, r.riderId, r.key, r.trip, r.tier, r.startedAt)
    ensures Tracks(r, [], [])
  {
    NewRideReadsEmpty(r);
    assert Heard([]) == [] && FirstFinish([]) == None;
  }

  lemma {:induction false} RunTracks(r: Ride, events: seq<Event>) returns (h: History)
    requires r == NewRide(r.id, r.riderId, r.key, r.trip, r.tier, r.startedAt)
    ensures Tracks(Run(r, events), events, h)
  {
    if |events| == 0 {
      h := [];
      StartTracks(r);
    } else {
      var init, last := events[..|events| - 1], events[|events| - 1];
      assert events == init + [last] && Run(r, events) == Step(Run(r, init), last);
      h := RunTracks(r, init);
      h := StepTracks(Run(r, init), init, last, h);
    }
  }

  /** The incremental machine equals the reading of its history, over every run
      of reports, outside ends and tier changes: what a ride accepts is exactly
      one history, and the state it is left in is the one that history reads. */
  lemma SessionEqualsItsHistory(r: Ride, events: seq<Event>)
    requires r == NewRide(r.id, r.riderId, r.key, r.trip, r.tier, r.startedAt)
    ensures exists h :: IsHistory(events, h)
    ensures forall h | IsHistory(events, h) :: StandsAt(Run(r, events), events, h)
  {
    var h := RunTracks(r, events);
    forall g | IsHistory(events, g)
      ensures g == h
    {
      HistoryIsUnique(events, g, h);
    }
  }
}
