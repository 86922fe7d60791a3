# Vehicle positions: a verified model

A Dafny model of the parts of the vehicle-positions server and its iOS apps that
hold state or decide something, with proofs of what they promise.

- **Geometry and timetable.** `Shape` is polyline projection with and without a hint
  and its inverse, told in degrees by `Projections`; `Schedule` is time interpolation
  along the stops and the recovery of the unit a feed publishes distances in.
- **The rider engine.** `Verification` judges one position; `Sessions` folds verdicts
  into a ride (as the class it is, and as a value); `RideHistory` says what a ride's
  history means and that the fold agrees; `Batches` sorts, judges and folds batches;
  `Consensus` turns many riders into one position; `Registry`, `Publication` and
  `Aggregators` are the registry of live rides, as a value and as the object that owns
  the sessions; `Entries` tells what is published from the rides themselves.
- **Filing rides.** `RideFiling` interleaves client ends, supersedes, batches, the
  reaper, other instances and failing or ambiguously failing database writes;
  `RideInvariant` is that every step keeps its invariant, `RideLaws` and `LostInserts`
  are what it promises over whole runs and where it falls short; `RideSweeps` follows
  a sweep through such runs; `RideRecords` reads what is filed with `RideHistory`;
  `RideStore` runs the store's statements in place and ties each transaction to the
  step `RideFiling` takes for it; `RideSteps` says what each step does and where it
  leads; `RideCompletion` that every request comes to an end.
- **Refresh tokens.** `RefreshTokens` is the server, its transactions below
  whole-transaction granularity, and `TokenLineage` what it promises; `TokenClient`
  composes it with the app's single-flight refresher, whose answers `TokenAnswers`
  tells; `TokenSteps` says what each of the server's steps does, `TokenCompletion`
  that every request is answered and nobody waits in vain; `TokenRuns`,
  `TokenSpending`, `TokenDrops` and `TokenSaves` are about runs of the two in which
  anything may go wrong; `TokenStore` is the uninterrupted handler on its tables.
- **The app's reporter and the feed.** `RideReporting` is the actor that runs one ride
  at a time, `ReporterTurns` and `ReporterLaws` what its turns keep and what it
  promises, and `ReportedFixes` follows every fix it takes; `Feed` is the drivers'
  tracker, the trusted sources and the merged feed.

Protocols are state machines: one step is a critical section, a statement or
commit, or one turn of an actor, and theorems speak of every reachable state.
Classes mirror the source's objects; their methods are proved against functions on
values, and the laws are proved about those functions. Distances are reals; the
great-circle distance, the square root and the cosine are parameters.

## What the proofs found

- `TokenLineage.FailureSpendsExactlyWhen`: store_refresh_tokens.go:110-112 says a
  refresh never burns the old token without handing back a new one; it does when the
  commit takes effect unacknowledged, or when signing the access token fails after it.
- `TokenSpending.SpentIsStoredExactlyWhen`, `TokenSpending.GivenUpIsReplayed`: the app keeps
  the spent token after such an answer, and also when it gives a request up that the
  server goes on to commit; it presents the token again, and the server takes that
  for theft.
- `TokenLineage.LostRaceWithoutReuse`: auth_refresh.go:195-202 takes a lost race for
  reuse; the row may instead have been deleted by a logout, and a login made meanwhile
  then loses its token.
- `TokenDrops.DropsAnotherExactlyWhen`: a refused request can take a refresh token out
  of the store that is not the one its trade presented, alive and never presented, in
  two ways, both of which happen though every answer arrives. It had joined a trade
  older than the session it read (TokenRefresher.swift:80-84,
  `TokenDrops.NewSessionIsDropped`); or the driver signed in between the read and the
  write of the drop itself (TokenRefresher.swift:151-156,
  `TokenDrops.NewSessionIsOverwritten`).
- `TokenSaves.SaveReplacesNewerExactlyWhen`: TokenRefresher.swift:138-140 says a newer
  sign-in or sign-out is kept from a trade's answer; one made between that read and the
  write is not (`TokenSaves.SignOutIsUndone`, `TokenSaves.NewerSessionIsReplaced`).
- `LostInserts.LostInsertStaysOpen`, `LostInserts.LosesAnInsert`: an insert that took
  effect but was reported as an error leaves a row only a restart's sweep ends, and
  until then every start of that rider is refused.
- `Registry.SectionsNeverDangle`: an Add under an id that is another rider's newest
  ride leaves that rider's newest pointing at a ride not theirs; ids never repeat.
- `Schedule.UnitLostAtTheBound`: the unit of a feed whose last stop lies at exactly
  1.05/1.609344 of the shape, published in kilometres, is taken for miles.

## Model

| member | source | states |
|---|---|---|
| Shape.UnhintedIsNearest | rider/shape.go:127-140 | without a hint, no point of any segment is nearer in the local plane than the projection |
| Shape.SegmentAtInverts | rider/shape.go:202-220 | for every distance within the shape the segment and fraction found reproduce it; the zero-length and fall-through branches are not taken there |
| Shape.PointAtIsOnShape | rider/shape.go:185-193 | projecting the point at any distance gives distance zero |
| Shape.HintChoosesClosestPass | rider/shape.go:142-168 | the candidate set is never empty, the choice is within the band of the best and minimises the weighted gap to the hint |
| Shape.HintedProjection | rider/shape.go:127-168 | the same of the hinted projection itself: its distance is at most the larger of twice the best plus one and the band, its gap least |
| Shape.SelectIsStable | rider/shape.go:142-168 | choosing again with the chosen distance as hint chooses the same distance along |
| Shape.HintedIsStable | rider/shape.go:127-168 | projecting a point again with its own answer as hint gives the same distance along |
| Shape.ProjectionWithinShape | rider/shape.go:127-181 | every projection lies between 0 and the length |
| Projections.ProjectsExactly | rider/shape.go:127-181 | the answer is the first of the segments nearest, or with a hint the first of the passes nearest to the hint, its distance and place told in degrees from the segment's ends |
| Projections.PointAtExactly | rider/shape.go:185-220 | the point at a distance is the part of a segment where that distance is reached, the bearing that segment's, and off the ends the first or last point's |
| Shape.NewShapeGeom | rider/shape.go:89-115 | the geometry built is well formed, its cumulative distances those of the points, its plane scaled by the cosine of their mean latitude |
| Shape.ChooseCandidate | rider/shape.go:142-168 | the loop picks what the independent definition of the choice picks |
| Shape.FindSegment | rider/shape.go:202-220 | the search returns the segment and fraction of the specification |
| Schedule.FindScheduledOffset | rider/index.go:321-347 | the loop computes the interpolated offset, for any stop list |
| Schedule.BetweenStopsInterpolates | rider/index.go:321-347 | between two stops the offset is the first one's departure plus the part of the time to the next arrival that the place is of the way there, cut towards zero |
| Schedule.OffTheEnds | rider/index.go:321-347 | off the ends the first arrival and the last, and zero without stops |
| Schedule.OffsetWithinTimetable | rider/index.go:321-347 | with ordered stops the offset stays between first and last arrival |
| Schedule.ScheduledOffsetMonotone | rider/index.go:321-347 | with ordered stops the offset never decreases along the shape |
| Schedule.FindShapeDistScale | rider/index.go:471-510 | the loop finds the unit that puts the last stop furthest along without running off |
| Schedule.ScaleExactlyWhen | rider/index.go:471-510 | the whole rule: the longest unit that fits, none if not even feet do, metres on a shape without length, none without a distance at every stop |
| Schedule.UnitRecoveredExactlyWhen | rider/index.go:471-510 | the unit a feed was published in is returned if and only if the last stop's fraction of the shape is positive, at most 1.05, and no longer unit fits |
| Schedule.UnitRecovered | rider/index.go:32-37 | it is returned whenever that fraction exceeds 1.05/1.609344 and is at most 1.05 |
| Schedule.UnitLostAtTheBound | rider/index.go:471-510 | at exactly 1.05/1.609344 a feed in kilometres is read as miles |
| Schedule.ScaleStaysOnShape | rider/index.go:471-510 | whatever unit is returned never places the last stop beyond 1.05 of the length |
| Verification.MovementExactlyWhen | rider/verify.go:185-198 | a movement passes exactly when it neither regresses too far nor outruns MaxSpeed, stated as reach in the time elapsed |
| Verification.MatchedExactlyWhen | rider/verify.go:162-217 | a point is Matched if and only if it is usable, within the distance of the shape, a plausible movement, and within the schedule's window, each told in numbers |
| Verification.OutcomeExactlyWhen | rider/verify.go:162-217 | each outcome told from the point: ignored if and only if unusable, and otherwise the first of the distance, reach and schedule tests it fails, or matched; with its place, distance and deviation |
| Verification.CorroborationExactlyWhen | rider/verify.go:249-262 | a matched point is corroborated if and only if it lies within the base and a vehicle's reach over the time between the two fixes of the trusted vehicle, contradicted if and only if more than the extra beyond that, and unavailable if and only if there is no such place or no match |
| Verification.VerifiedPointFollows | rider/verify.go:220-244 | a point that is not ignored is later than the last accepted one, and no further behind or ahead of now than the windows allow |
| Verification.IgnoredStaysIgnored | rider/verify.go:220-244 | an ignored point stays ignored as the ride moves on |
| Sessions.DominantOutcomeIsDominant | rider/session.go:339-351 | the outcome blamed is the most frequent of the streak, the most recent of those tied |
| Sessions.DominantIsUnique | rider/session.go:339-351 | no two outcomes are dominant, so the rule decides the blame |
| Sessions.FindDominantOutcome | rider/session.go:339-351 | the counting loops compute it |
| Sessions.Session.Apply | rider/session.go:201-217 | the session after a verdict is the specified ride, and the transition reported is the one that happened |
| Sessions.Session.End | rider/session.go:281-287 | the first end wins |
| RideHistory.SessionEqualsItsHistory | rider/session.go:201-286 | over every run of verdicts, ends and tier changes the ride accepts exactly one history and stands where that history reads: verified after three matches running, rejected at the first fifth non-match running or third contradiction since the last corroboration, blamed on the dominant outcome |
| RideHistory.ApplyKeepsReading | rider/session.go:223-272 | one verdict more keeps the fold and the reading together |
| RideHistory.HistoryIsUnique | rider/session.go:201-217 | what a ride accepted is determined by what it was told |
| Batches.SortByTimeSorts | rider/aggregator.go:228-229 | the batch sort orders by time, keeps every point, and is stable |
| Batches.EveryPointAccountedFor | rider/aggregator.go:257-292 | accepted plus ignored is the size of the batch |
| Batches.BatchIsJudged | rider/aggregator.go:211-299 | the batch sorted by time, each point judged against those accepted before it and the trusted vehicle's place, projected once near the last match, until the ride ends |
| Batches.SendOrderIsIrrelevant | rider/aggregator.go:211-299 | points with distinct times give one result in whatever order they are sent |
| Batches.RedeliveryIsHarmless | rider/aggregator.go:211-299 | a batch delivered again at the same instant, in part, in any order, any number of times, accepts nothing and changes nothing, unless the ride ended |
| Batches.WholeRideSpeedBound | rider/verify.go:185-198 | over a whole ride accepted times strictly increase, and any two matched points are no further apart than MaxSpeed allows for the time between them |
| Consensus.ComputeEstimate | rider/aggregator.go:512-558 | the estimate computed is the specified one |
| Consensus.IsPublishable | rider/aggregator.go:563-577 | the pairwise loop decides credibility: one trusted rider, or two who vouch for each other |
| Consensus.MajorityIsPublished | rider/aggregator.go:512-597 | if more than half the riders lie in an interval no wider than the outlier distance, the published place lies in it whatever the others report, and with two or more riders one is published |
| Consensus.MajorityEstimate | rider/aggregator.go:512-550 | the same of the estimate's position on the shape |
| Consensus.TrimKeepsNobodyExactlyWhen | rider/aggregator.go:528-540 | the trim keeps nobody if and only if the group is even and its middle two are more than twice the outlier distance apart |
| Consensus.SurvivorsAreCredible | rider/aggregator.go:528-545 | what is published comes from everyone near the median, credible on their own |
| Consensus.EstimateTimeIsFresh | rider/aggregator.go:617-629 | the published time is neither in the future nor older than a contributing point may be |
| Consensus.EstimateOfPermutation | rider/aggregator.go:512-550 | the estimate does not depend on the order members are gathered in |
| Registry.AddKeepsOneEach | rider/aggregator.go:92-97 | adding a ride for a rider with none live keeps one live ride a rider, and it the newest |
| Registry.ActiveIsTheLiveRide | rider/aggregator.go:380-390 | the rider's active ride is the one live ride they have, if any |
| Registry.ReapEndsExactlyWhen | rider/aggregator.go:311-328 | a live ride ends in a sweep if and only if it started over three hours ago, or its latest accepted point, or its start if it has none, is over fifteen minutes old; at the sweep's time, for the first reason that holds; every other ride is as it was |
| Registry.AddRegisters | rider/aggregator.go:92-97 | the ride under its id and newest of its rider, all else as it was |
| Registry.EndChangesOnly | rider/aggregator.go:147-164 | only the ride ended changes, and only if it was live |
| Registry.SetTierChangesOnly | rider/aggregator.go:179-185 | only the tier of the rider's newest ride, if live |
| Registry.RemoveForgetsOnly | rider/aggregator.go:392-404 | only the ride goes, and its rider's newest if it was that |
| Registry.SectionsNeverDangle | rider/aggregator.go:92-97 | an Add keeps every rider's newest theirs if and only if its id is nobody else's newest; Remove and updates always do |
| Registry.AddingTwiceOrphans | rider_handlers.go:130-140 | two starts without the rider lock leave a live ride nobody's newest |
| Publication.RidersContributeOnce | rider/aggregator.go:483-508 | a rider contributes to a trip through one ride |
| Publication.GatheredInAnyOrder | rider/aggregator.go:460-479 | in whatever order the map is walked a trip's estimate is the same |
| Publication.SharedScheduleOneEstimate | rider/aggregator.go:460-479 | where rides of a trip share its schedule the estimate does not depend on which ride's the group took |
| Publication.PublishesOneList | rider/aggregator.go:333-350 | what is published is then a function of the set of rides |
| Publication.MajorityPlacesPublished | rider/aggregator.go:512-550 | if more than half of a trip's riders lie in an interval no wider than the outlier distance, their trip has a shape, the entry published for it is placed in that interval of the shape, and with two riders or more there is one unless the trip is covered |
| Publication.PublishedIsFresh | rider/aggregator.go:333-350 | every published time is within the freshness window |
| Publication.PublishedCountsRiders | rider/aggregator.go:631-638 | each rider left by the trim is counted, once |
| Publication.ReportedIsPublished | rider/aggregator.go:366-377 | a trip is reported exactly when its estimate is published |
| Publication.BeforeExactlyWhen | rider/aggregator.go:344-349 | the order of trips: by trip id as in a dictionary, and the dates of one trip by date |
| Publication.SortEstimatesSorts | rider/aggregator.go:344-349 | the sort puts trips strictly in order of trip id, then date |
| Entries.ContributesExactlyWhen | rider/aggregator.go:483-508 | a ride contributes to its trip if and only if it is live, verified, its rider's newest and not blocked, and its latest match no older than the age allowed; what it brings is that match, able to stand alone if and only if trusted or corroborated |
| Entries.EstimatedExactlyWhen | rider/aggregator.go:512-577 | a group has an estimate if and only if its trip has a shape, its members are credible, and those within 100 m of their median are |
| Entries.EstimateShows | rider/aggregator.go:512-660 | an estimate shows the median place of those members on the shape, the median of the speeds they reported, the latest of their times up to now, the first stop at or beyond the place, and their riders |
| Entries.PublishedExactlyWhen | rider/aggregator.go:333-350 | a trip is listed if and only if it is not covered and the rides that count towards it have an estimate, told from the rides |
| Entries.PublishedShows | rider/aggregator.go:333-350 | and what its entry shows is what those rides bring |
| Entries.AnswersExactlyWhen | rider/aggregator.go:366-377 | a trip's status counts the rides that count towards it, and reports the trip exactly when it would be listed on the schedule taken |
| Entries.StrangersMustAgree | rider/aggregator.go:563-577 | where nobody counting towards a trip is trusted or corroborated it is listed only if two different riders are within 100 m of each other |
| Entries.LoneRiderPublishedExactlyWhen | rider/aggregator.go:483-577 | one rider alone on a trip with a shape, not covered, is listed if and only if trusted or corroborated |
| Aggregators.Aggregator.Add | rider/aggregator.go:92-97 | the registry with the session added, as its rider's newest, whatever was registered under its id |
| Aggregators.Aggregator.End | rider/aggregator.go:147-164 | the ride ended in place, first end winning, and its snapshot |
| Aggregators.Aggregator.SetTier | rider/aggregator.go:179-185 | only the rider's active ride changes tier |
| Aggregators.Aggregator.Remove | rider/aggregator.go:392-404 | the ride gone, and the rider's newest only if it was that ride |
| Aggregators.Aggregator.LiveKey | rider/aggregator.go:408-417 | the trip of a live ride, none otherwise |
| Aggregators.Aggregator.ApplyFetched | rider/aggregator.go:211-299 | a ride still live and on the trip looked up takes the batch as specified and the result says what happened; otherwise nothing changes |
| Aggregators.Aggregator.ApplyBatch | rider/aggregator.go:211-299 | both sections together: any live ride takes the batch with its own trip's trusted position |
| Aggregators.Aggregator.Reap | rider/aggregator.go:311-328 | every ride out of time ends, told in hours and minutes for each ride, and all ended rides are listed in order |
| Aggregators.Aggregator.Estimates | rider/aggregator.go:333-350 | in order, one estimate for each trip that has one and is not covered, each on a schedule of one of the trip's rides |
| Aggregators.Aggregator.TripStatus | rider/aggregator.go:366-377 | reported exactly when an estimate is published on the schedule taken; riders are the contributors before the trim |
| RideLaws.EachRideIsScoredOnce | rider_handlers.go:877-908 | over every interleaving with retries and lost commits no ride is filed twice, and every rider stands where the filed outcomes, each clamped, brought them |
| RideLaws.StandingIsInBounds | db/query.sql.go:14-23 | scores stay within -10 and 10 and move by the filing's worth or to the bound, the tier is blocked at -3 and below, trusted at 3 and above and new between, and one ride is counted for each filed |
| RideLaws.FiledIsFinal | rider_store.go:286-336 | a filed row holds the session's final counts and state and its first end reason, is scored for just that, and never changes again |
| RideLaws.OneLiveRideAndNoneLost | rider_handlers.go:398-463 | one live ride a rider, which is the one looked up; an open row of this process is in memory to be filed if and only if no start is between its insert and its Add and its insert was not taken for failed |
| RideRecords.FiledAsItsHistoryReads | rider/aggregator.go:147-164 | over every interleaving what is filed for a ride is what its history reads, the history being exactly the points the run gave it up to its end: state, counts, the reason blamed or the first it was ended for, and the score: down when rejected, up exactly with enough corroboration over a long enough ride |
| RideRecords.AnswerReads | rider/aggregator.go:294-298 | what a batch answers is read off the ride's history: shown alone or not, the latest point's corroboration, the points since the last match, the tallies, and the time from first match to last |
| RideRecords.BatchIsReports | rider/aggregator.go:257-292 | folding a batch in is hearing its points one by one, each with its verdict |
| RideSweeps.SweepComesToEveryRide | rider_wiring.go:213-226 | however requests interleave and whatever fails, a sweep comes to every ride it found over, in order, in four of its own steps a ride |
| RideSweeps.SweepFilesEveryRide | rider_wiring.go:213-226 | once past any ride of its list, its own write of that ride having gone well, the ride's row has ended, and unless a restart closed it, it is filed with the outcome memory last had |
| RideSweeps.SweepNeverWaits | rider_wiring.go:213-226 | the sweep's next step is possible in every state, and its write with every luck, so nothing another request does holds it up |
| RideLaws.OutOfMemoryExactlyWhen | rider_handlers.go:398-463 | in every state that keeps the invariant an open row's ride is out of memory if and only if a start is about to add it or its insert was taken for failed |
| LostInserts.LostInsertStaysOpen | rider_store.go:181-205 | an insert taken for failed that took effect leaves a row that stays open, never in memory and refusing the rider's starts, over every run without a restart's sweep |
| LostInserts.LosesAnInsert | rider_store.go:181-205 | a run that leads to such a row |
| RideLaws.MatchedRidesAreOnShapes | rider/aggregator.go:257-292 | over every run a registered ride that has matched a point is on a trip with a shape |
| RideInvariant.DoKeepsInv | rider_handlers.go:498-684 | every step of every request, sweep and instance keeps the invariant |
| RideSteps.EndingStep | rider_handlers.go:877-908 | finishing a ride ends it in memory, unless it had ended, and goes on to file what it came to; with no such ride it ends as no longer active |
| RideSteps.WritingFiles | rider_handlers.go:877-908 | the write files the outcome where the row is open and its rider known, commit acknowledged or not: row ended, rider rescored, one filing more |
| RideSteps.WritingRefused | rider_handlers.go:877-908 | otherwise nothing is written, and the caller learns that the ride is not active or that the store failed |
| RideSteps.RetiringSteps | rider_handlers.go:877-908 | memory forgets the ride once the store has it, and the rider's ride in flight gets the new tier |
| RideSteps.LookingSteps | rider_handlers.go:398-463 | a start ends the live ride the rider has and goes on with the rider's tier, unless the rider is unknown or cannot be read |
| RideSteps.InsertingStep | rider_handlers.go:398-463 | the insert opens a row unless the rider has one open; an error leaves no ride in memory, written or not |
| RideSteps.AddingStep | rider_handlers.go:398-463 | the ride is registered as asked for, from the time of the insert, with nothing reported |
| RideSteps.ApplyStep | rider_handlers.go:560-684 | a batch is folded into a ride still live and on the trip looked up, recorded if it accepted anything and the rider was not blocked, and the ride finished for its own reason if it ended itself |
| RideSteps.RecordingStep | rider_handlers.go:560-684 | progress is written while the row is open; a ride the store has ended is retired from memory, after it was finished if it ended itself |
| RideSteps.RestartStep | rider_store.go:337-360 | a restart closes every open row of the store, unscored |
| RideCompletion.OverInItsSteps | rider_handlers.go:335-908 | whatever else goes on a request takes no more steps of its own than it has left, and is over when it has none |
| RideCompletion.SetsOutWith | rider_handlers.go:335-908 | an end sets out with four, a start with nine, a batch with eleven, a sweep with four for each ride of its list |
| RideCompletion.NoRequestIsStuck | rider_handlers.go:398-463 | over every interleaving a request not over can take its next step, or is a start waiting for its rider's lock, and then the start that has the lock can; a start that comes to its insert knows its rider |
| RideStore.Tables.FinishRide | rider_store.go:286-336 | the three statements take effect together, as the one step does and with the row ended, the ride counted and the rider rescored as told in numbers, or not at all; ride not found, or rider not found, exactly when that statement is reached and finds nothing |
| RideStore.Tables.RecordRidePoints | rider_store.go:208-281 | the points, the progress and the rider's last sight written together or not at all; not found exactly when the update is reached and finds the row not active |
| RideStore.Tables.StartRide | rider_store.go:181-205 | a new id is refused for an active ride exactly when the rider has one; an id taken and an unknown rider are errors, and nothing changes |
| TokenLineage.ReuseKillsLineage | auth_refresh.go:130-211 | a request whose token was found spent and that answers 401 leaves nothing of the token's lineage, then or later, in every interleaving |
| TokenLineage.SpottedExactlyWhen | auth_refresh.go:130-211 | taken for spent at the read: exactly tokens with a successor; under the lock: those and the ones whose row is gone; with no user to lock: exactly when the user is gone, and the row with them |
| TokenLineage.OneLiveTokenPerLogin | store_refresh_tokens.go:127-171 | no token has two successors, a row is used exactly when it has one, each login has at most one unused token |
| TokenLineage.RevocationIsComplete | store_refresh_tokens.go:178-294 | after a logout, password change or deactivation commits, acknowledged or not, the user holds nothing, and later only what descends from logins committed later, even when a rotation was open |
| TokenLineage.FailureSpendsExactlyWhen | store_refresh_tokens.go:110-112 | a failed rotation has spent the token if and only if its commit was lost or the failure came after it |
| TokenLineage.LostRaceWithoutReuse | auth_refresh.go:194-211 | a run in which no token was ever exchanged and the lost-race branch deletes a fresh login's token |
| RefreshTokens.StepKeepsInv | store_refresh_tokens.go:127-294 | every statement, commit, abort, login and prune keeps the invariant that the user lock protects |
| TokenSteps.CheckingSteps | auth_refresh.go:112-170 | the checks before the rotation in order: a row there, unused, unexpired, its user there and active, and the refusal of each |
| TokenSteps.RotationSteps | store_refresh_tokens.go:127-171 | under the user's lock the row is marked if there and unused, and the token taken for spent otherwise; then a successor is inserted |
| TokenSteps.RotationCommits | store_refresh_tokens.go:127-171 | the commit adds the successor and marks the old row used, and touches no other |
| TokenSteps.RevocationSteps | store_refresh_tokens.go:178-294 | under the lock every row of the user's goes and nobody else's; deactivation also takes the user's standing; a user that is gone fails only a password change or a deactivation |
| TokenSteps.WaitsExactlyWhen | store_refresh_tokens.go:127-294 | a rotation or revocation waits if and only if another transaction has its user's row |
| TokenCompletion.AnsweredInEightSteps | auth_refresh.go:112-226 | a refresh or revocation is answered within eight steps of its own, whatever else goes on |
| TokenCompletion.NoRequestIsStuck | store_refresh_tokens.go:127-294 | in every reachable state one not answered can take its next step, or waits for its user's row, and then the one that has it can |
| TokenClient.NeverReplays | ios/VehicleTracker/Model/TokenRefresher.swift:59-147 | while replies arrive and the store can be cleared the app has one refresh out at most and presents only unspent tokens, in every interleaving of 401s, early refreshes, sign-ins, sign-outs and other clients |
| TokenAnswers.UnauthorizedExactlyWhen | ios/VehicleTracker/Model/TokenRefresher.swift:59-88 | a 401 is answered at once or waits, exactly when: retried with the token stored since, denied with nothing to refresh, waiting for the trade that is out or a new one |
| TokenAnswers.EarlyExactlyWhen | ios/VehicleTracker/Model/TokenRefresher.swift:90-115 | a request before expiry goes out with the token observed or the newer one stored, unless a trade is out or due, and it drops nothing |
| TokenAnswers.HearExactlyWhen | ios/VehicleTracker/Model/TokenRefresher.swift:118-160 | a token handed out waits to be saved if and only if the trade's session is read and still stored; otherwise the requests waiting are told at once, and the store is cleared only when it could not be read; a refusal and a failure tell them so and change nothing else |
| TokenAnswers.SaveExactlyWhen | ios/VehicleTracker/Model/TokenRefresher.swift:135-149 | what was handed out is stored, or else nothing is if it can be cleared, and the requests waiting get it either way |
| TokenCompletion.NobodyWaitsInVain | ios/VehicleTracker/Model/TokenRefresher.swift:59-147 | over whole runs in which anything may go wrong a request that waits does so for the trade that is out or one that is over, and it can be told, or the store written, or the trade can go on, through the server and back |
| TokenSpending.SpentIsStoredExactlyWhen | ios/VehicleTracker/Model/TokenRefresher.swift:118-147 | over whole runs in which answers, commits, trades and the token store may fail, a spent token is stored if and only if the app's request went out with the stored token, the server committed it, before the trade ended or after, and the store was not written since |
| TokenSpending.StoredSpentIsReplayed | ios/VehicleTracker/Model/TokenRefresher.swift:59-81 | in every state a run leads to, a spent token stored with its row is presented at the next 401 and taken for theft |
| TokenSpending.GivenUpIsReplayed | ios/VehicleTracker/Model/TokenRefresher.swift:118-147 | a run from the start in which the app gives a request up, the server commits it, and the next 401 replays the token |
| TokenRuns.EventKeepsRun | ios/VehicleTracker/Model/TokenRefresher.swift:59-147 | every event, faithful or not, keeps the invariant: no token enters the store twice, and the app's requests spend only what they presented |
| TokenDrops.DropsAnotherExactlyWhen | ios/VehicleTracker/Model/TokenRefresher.swift:80-160 | over whole runs every drop was begun by one request's resuming and writes the session read then without its refresh token; the refresh token it takes out of the store is not the one that request's trade presented if and only if nothing was written since and the request had joined a trade, refused, older than the session it read, or a sign-in was stored since and is the stored session; no trade up to the request's own had the token, and none at all in the second case |
| TokenDrops.SetsOutExactlyWhen | ios/VehicleTracker/Model/TokenRefresher.swift:80-86 | the decision: a request that resumes sets out to drop a token not its trade's if and only if it joined a trade older than the session it read, that trade was refused, and the session is still the stored one |
| TokenDrops.NewSessionIsDropped | ios/VehicleTracker/Model/TokenRefresher.swift:80-86 | a faithful run from the start in which a joiner drops a token that is unspent, never presented, and alive on the server |
| TokenDrops.NewSessionIsOverwritten | ios/VehicleTracker/Model/TokenRefresher.swift:151-160 | a faithful run from the start, with one request and one trade in all, whose drop replaces a session signed in meanwhile, its token alive and never presented, by the old one's access token |
| TokenSaves.SaveReplacesNewerExactlyWhen | ios/VehicleTracker/Model/TokenRefresher.swift:135-146 | over whole runs every save comes after one delivery that found the trade's session stored, and replaces something newer if and only if the store was written since that read and the save writes it or clears what is there; what was written is no session, or one whose token no trade has had |
| TokenSaves.SignOutIsUndone | ios/VehicleTracker/Model/TokenRefresher.swift:135-146 | a faithful run from the start in which a sign-out is followed by the save of the older session |
| TokenSaves.NewerSessionIsReplaced | ios/VehicleTracker/Model/TokenRefresher.swift:135-146 | a faithful run from the start in which the older session is saved over a newer one never presented |
| TokenStore.TokenTables.Refresh | auth_refresh.go:112-226 | uninterrupted, each refusal exactly when its check fails first, the user's rows gone exactly on reuse, and a rotation otherwise |
| TokenStore.TokenTables.Rotate | store_refresh_tokens.go:127-171 | the old token spent and the new one stored, or neither |
| TokenStore.TokenTables.SetUserActive | store_refresh_tokens.go:258-294 | the flag set, and the user's tokens deleted only on deactivation |
| TokenStore.TokenTables.Prune | store_refresh_tokens.go:298-305 | every token expired before the cutoff goes, and their number |
| ReporterLaws.SlotIsSafe | ios/VehiclePositionsKit/Sources/VehiclePositionsKit/RideReporter.swift:101-281 | at every turn of every interleaving a ride leaves the slot by its own ended event, or to the next ride once it is ending |
| ReporterLaws.EachRideEndsOnce | ios/VehiclePositionsKit/Sources/VehiclePositionsKit/RideReporter.swift:208-281 | one ended event a ride at most, and one teardown at work on an ending one |
| ReporterLaws.BatchesAreApart | ios/VehiclePositionsKit/Sources/VehiclePositionsKit/RideReporter.swift:504-612 | one upload out a ride at most; in flight and buffered share no fix and stay in order |
| ReportedFixes.FixesAreKept | ios/VehiclePositionsKit/Sources/VehiclePositionsKit/RideReporter.swift:504-612 | over every interleaving a fix a running ride takes in is, as long as it runs, buffered or in flight, or was in an upload the server took in or refused for good, or was past its retention at a turn that prunes |
| ReportedFixes.FixesAreOwn | ios/VehiclePositionsKit/Sources/VehiclePositionsKit/RideReporter.swift:409-468 | and a running ride holds no fix its own samples did not bring |
| ReportedFixes.FailuresLoseNothing | ios/VehiclePositionsKit/Sources/VehiclePositionsKit/RideReporter.swift:577-612 | after a broken, cancelled or throttled upload of a ride that runs on, its batch and buffer are buffered in order, cut only at the first fix within retention |
| ReportedFixes.EndFlushes | ios/VehiclePositionsKit/Sources/VehiclePositionsKit/RideReporter.swift:211-308 | end sends what is in flight and buffered within the retention, oldest first, up to two batches, and nothing for a reason the server gave; the ended event waits for that and for a report that is owed |
| ReportedFixes.FlushExactlyWhen | ios/VehiclePositionsKit/Sources/VehiclePositionsKit/RideReporter.swift:504-530 | a flush takes the oldest fixes up to a batch, unless the ride is over, uploading already, or has none |
| ReportedFixes.SampleStep | ios/VehiclePositionsKit/Sources/VehiclePositionsKit/RideReporter.swift:433-468 | a sample is buffered and the ride judged; a full batch goes at once unless uploads fail or are paced |
| ReportedFixes.AnswerStep | ios/VehiclePositionsKit/Sources/VehiclePositionsKit/RideReporter.swift:504-612 | an answer to a running ride ends it for its reason or else leaves nothing in flight: success clears its failures, a failure counts from the first of its run, pacing holds its full batches back; a ride that is not running is untouched |
| ReportedFixes.EndsForExactlyWhen | ios/VehiclePositionsKit/Sources/VehiclePositionsKit/RideReporter.swift:540-612 | an answer ends the ride if and only if it says so, the ride is gone, or uploads have failed for the timeout |
| ReportedFixes.StartSteps | ios/VehiclePositionsKit/Sources/VehiclePositionsKit/RideReporter.swift:101-200 | a start waits for the one before, ends the ride in the slot, and installs the new one with nothing to send |
| ReporterLaws.OneStartAtATime | ios/VehiclePositionsKit/Sources/VehiclePositionsKit/RideReporter.swift:101-126 | over every interleaving one start is at work at a time: those made before it are done, those made after have yet to run |
| ReporterLaws.NoTaskIsStuck | ios/VehiclePositionsKit/Sources/VehiclePositionsKit/RideReporter.swift:101-281 | over every interleaving a task not over can take its next turn, or is a start behind another, and then a start made before it can |
| Feed.Tracker.ActiveVehicles | tracker.go:108-132 | every vehicle heard from lately, once |
| Feed.Tracker.VehicleOnTrip | tracker.go:137-159 | found exactly when one is on the trip, and none fresher |
| Feed.CleanupIsUnseen | tracker.go:191-200 | cleaning up changes no answer |
| Feed.CoversExactlyWhen | rider_wiring.go:282-285 | a trip is covered if and only if the agency feed has a vehicle for it or a driver heard from lately is on it |
| Feed.Lookup | rider_wiring.go:264-285 | the agency feed's vehicle, else a freshest driver on the trip, else none; found exactly when the trip is covered |
| Feed.BuildFeed | handlers.go:236-314 | the entities in order, and a header time that is the least not before any of them or now |
| Feed.DriverEntitiesExactly | handlers.go:236-300 | one entity for each driver's report with a time, in order, with its id, where and when it is, and its trip; the date only with a trip or a route |
| Feed.RiderEntitiesExactly | handlers.go:300-366 | one for each estimate with a time, in order, named for its trip and date, with its place, speed and next stop, its time in whole seconds |
| Feed.RiderIdsDiffer | handlers.go:364-366 | trip and date can be read back from a rider entity's id |
| Feed.FeedIsConsistent | handlers.go:186-230 | drivers listed at one moment, estimates made at another: all entity ids differ, and a trip is in both halves only if no driver is on it when the estimates are made |
| Feed.FeedAtOneInstant | handlers.go:186-230 | at one moment no trip is in both halves, as a listed driver covers the trip |
| Feed.GetFeed | handlers.go:186-230 | the handler's feed, from the tracker and the registry: ids differ, no trip twice, and a header time no earlier than any entity |

## Left out

- HTTP decoding, status texts, rate limiters, CSV, templates, the admin pages and the map screens: plumbing that carries none of the state above.
- JWTs, bcrypt, SHA-256 and random values: secrets and ids are numbers or strings that never repeat.
- Postgres: row locks, atomic commit and read-committed visibility are assumed; the partial unique index is a guard on the insert.
- Trigonometry, time zones and GTFS parsing: the distance, bearing, square root, cosine, service day start and the parsed trips are parameters.
- Floating-point rounding: arithmetic is over reals.
- `RideFiling`, `RefreshTokens`, `TokenClient` and `RideReporting`, and the modules about their runs, are on values, one step at a time, because what matters is what happens between steps; updating in place is in `Sessions`, `Aggregators`, `RideStore`, `TokenStore` and `Feed`.
- Batches.RedeliveryIsHarmless: for points dated after the zero time, which upload validation guarantees.
- TokenLineage.RevocationIsComplete: exempts logins that commit after the revocation, as the login takes no user lock.
- RideLaws.FiledIsFinal: about rides filed by this process; a ride another instance's restart ends is closed unscored, as in the source.
- Feed.GetFeed: the whole feed, at one instant; the handler can be asked for one half only, and it lists the drivers before it makes the estimates, across which `Feed.FeedIsConsistent` says what holds.
- Publication.PublishesOneList: when a reload put two schedules under one trip the group takes the first met, so there is one list only where rides of a trip share its schedule; `Publication.Published` allows each choice of theirs.
- The uploads of a ride's final flush, tried within the budget `end` has: the model has the fixes that are to be sent, not which of them arrive.
- Pruning of ride points, the end-condition evaluator, background tasks and the token and ride rate limiters of the app are not part of this model.
