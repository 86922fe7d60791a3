/** rider/reputation.go: what a finished ride is worth to its rider. */
module Reputation {
  import opened Prelude

  datatype Tier = TierNew | TierTrusted | TierBlocked

  datatype State = Pending | Verified | Rejected

  /** The reasons a client may report, then the server's own; NotEnded is the
      empty reason. */
  datatype EndReason =
    | NotEnded
    | UserRequested | Arrived | Stationary | MaxDuration
    | LocationUnavailable | AuthorizationDenied | NetworkFailure | AppTerminated
    | EndOffRoute | EndContradicted | EndImplausible | EndOffSchedule
    | Superseded | ServerRestart | Idle

  predicate ClientReason(r: EndReason) {
    r in {UserRequested, Arrived, Stationary, MaxDuration, LocationUnavailable, AuthorizationDenied, NetworkFailure,
          AppTerminated}
  }

  datatype Counts = Counts(total: nat, matched: nat, corroborated: nat, contradicted: nat)

  datatype RideSummary = RideSummary(
    state: State,
    endReason: EndReason,
    corroborated: bool,
    matchedDuration: int,
    counts: Counts,
    duration: int)

  const MIN_SCORED_RIDE: int := 5 * MINUTE
  const MAX_SCORE: int := 10
  const MIN_SCORE: int := -10

  function ScoreDelta(s: RideSummary): int {
    if s.state == Rejected then (if s.endReason == EndContradicted then -3 else -1)
    else if s.corroborated && s.matchedDuration >= MIN_SCORED_RIDE then 1
    else 0
  }

  function TierFor(score: int): Tier {
    if score <= -3 then TierBlocked
    else if score >= 3 then TierTrusted
    else TierNew
  }

  /** The tier a score earns, in numbers. */
  ghost predicate Earned(score: int, tier: Tier) {
    && (tier == TierBlocked <==> score <= -3)
    && (tier == TierTrusted <==> score >= 3)
    && (tier == TierNew <==> -3 < score < 3)
  }

  /** The score moved by delta, and kept between -10 and 10. */
  ghost predicate Moved(score: int, delta: int, score': int) {
    && -10 <= score' <= 10
    && (-10 <= score + delta <= 10 ==> score' == score + delta)
    && (score + delta < -10 ==> score' == -10)
    && (score + delta > 10 ==> score' == 10)
  }

  function Clamp(score: int): int {
    if score < MIN_SCORE then MIN_SCORE else if score > MAX_SCORE then MAX_SCORE else score
  }
}
