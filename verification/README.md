# DisasterWatch: the notification pipeline and the location matcher, verified

This project models two parts of the DisasterWatch backend and proves properties of the model with Dafny 4.11.

**The notification pipeline.** A report becomes a job; the job is verified, turned into one delivery per affected user,
and every delivery is sent, retried with exponential backoff, and in the end succeeds or becomes a dead letter. Jobs,
deliveries and dead letters are rows in PostgreSQL and survive a crash; channels, worker pools and the startup recovery
do not. `Pipeline.dfy` is the step system: one action is one database statement (each with its `WHERE` guard), one
channel operation or one call of the mail provider, so every interleaving of the workers, any number of database errors,
abandoned waits, shutdowns and crashes is a run of it. The properties hold in every reachable state of every such run
(`Guarantees.dfy`); each is an invariant with its own file:

- `Frames.dfy`: what each step leaves alone.
- `Deliveries.dfy`: how rows may change; messages and workers only ever refer to rows and jobs that exist.
- `SendRecords.dfy`: attempts, claims and provider calls agree; `success`, `failed` and dead letters mean what they say.
- `NoLostDelivery.dfy`: every unfinished delivery has a carrier.
- `NoLostJob.dfy`: every open job that has no deliveries yet is on its way, or was let go of for a reason.
- `DeliverySets.dfy`, `IdempotencyKey.dfy`: a job's deliveries appear at once and never change; keys never clash.
- `Interference.dfy`: what the record fields of the state mean.
- `Verdicts.dfy`, `Finalisation.dfy`, `Completion.dfy`, `LateResets.dfy`: when a job's status is right, stays right, is
  always reached, and is never reached.
- `Wakeups.dfy`: single wake-ups, the exact past of an undisturbed delivery, and its backoff.
- `ShutdownSafety.dfy`: no channel is misused, and a shutdown that is not cut short leaves nothing behind.
- `Costs.dfy`, `ShutdownWork.dfy`, `Drain.dfy`, `DrainHangs.dfy`: the graceful shutdown ends, from the first signal on,
  and exactly when it can hang.
- `Counterexamples.dfy`: concrete runs in which a job is never closed and in which the shutdown hangs.

`Process.dfy` and the files after it (`MailWorker`, `RetryWorker`, `NotificationWorker`, `Extraction`, `Verification`,
`StartupRecovery`, `ReportIntake`, `GracefulShutdown`) are the same system in the form of the source: a server object
whose fields the workers change in place, one statement at a time, with every other goroutine running in between. Every
statement is proved to be a step of the step system, so all the properties above hold of what the methods do, and each
whole operation has a contract of its own.

**The location matcher.** `EditDistance`, `Similarity`, `Normalisation`, `Matching` and `Geocoding` model
`getLATLONGfromUserLocation`: the faults of the exchange with the provider, then the choice. The edit distance over two
array rows is proved to be the minimum cost over all edit scripts and a metric, the normalising scanner to be canonical,
and the choice of a location to be independent of the order of the provider's results. Scores are real numbers.

Where code and documentation disagree the model follows the code:

- `README.md:108` of the repository says that jobs stuck in `processing` for more than ten minutes are recovered. There
  is no such rule: recovery takes every job in `pending` or `processing` without deliveries, whatever its age.
- `README.md:26` says that no job is ever lost to a crash. No delivery is (`NoDeliveryIsLost`); an open job without
  deliveries is taken up by the recovery of the next process (`CrashTakesJobsUp`, `NoJobIsLost`); and a job with an
  unfinished delivery at the crash is closed by the next process (`QuietJobsAreClosed`). But a job whose deliveries are
  all finished and whose closing is not written when the process dies stays in `processing` for ever
  (`CrashLeavesJobOpenForEver`).
- Comments speak of a job going from pending to processing at extraction; `CreateReport` already stores it in processing.

Statements that are false of the code without a condition are proved with the exact condition:

- A job with deliveries is closed in the end exactly if no step strands it (`ClosedExactlyUnlessStranded`).
  `StrandingIsExact` lists the four kinds of step that do: a crash between the last delivery and the closing, the last
  closing worker giving up, its update missing because the job is back in pending, and a verdict being taken back.
- A verdict stays, unless a failed lookup during a repeated verification takes it back (`VerdictStaysUnlessFault`); that
  this happens to a finished job of a process without any earlier fault is `LookupTakesVerdictBackForEver`.
- The backoff does not overflow up to 33 attempts, and does beyond (`RetryDelayFits`).
- The graceful shutdown ends if there is room for every dead letter that can still come (`DrainTerminates`). Once no
  report and no request is on its way any more it can hang exactly if there is not (`HangsExactlyWithoutRoom`); a run
  in which it does is `ShutdownHangsForEver`.

Four fields of the state only record the past. `dropped` holds the deliveries that this process has given up: those
whose own holder has given up after an error, an abandoned wait or a forced shutdown, and, when the second pass of
recovery fails, those it had listed and not woken yet or, before there is a list, the unfinished ones among `touched`.
`touched` holds the deliveries whose holder has given up or that a crash or recovery has taken over; every other one
still has its wake-up, so a failing recovery never gives it up. `disturbed` holds the jobs whose closing was cut off or
that were put back to pending in spite of their deliveries. `dismissed` holds the jobs that this process has let go of
before they had deliveries: because their report is not to be published, because a channel had no room for them, because
of an error or a forced shutdown, or because the first pass of recovery failed before they were published; it starts
empty in every process. `FlagsOfStep` says which step adds what; `TouchedMeansInterference`,
`DisturbedMeansInterference` and `DismissedMeansLetGo` say so of whole runs.

A report request begins only before the first signal. A request that is in flight then runs to its end, as
`server.Shutdown` waits for it: it may still store its report and publish it while the shutdown is under way. Everything
said about the shutdown from the first signal on includes such requests, and every step that fails with a database error
or an abandoned wait, unless it says otherwise.

`dafny verify dfyconfig.toml` checks everything.

## Model

| member | source | states |
|---|---|---|
| EditDistance.DistanceIsMinimumScriptCost | backend/internal/utils/geocoding.go:211-233 | the distance is the cost of some edit script from the first text to the second, and no script that leads from one to the other costs less |
| EditDistance.ComposeScripts | backend/internal/utils/geocoding.go:211-233 | two scripts, one after the other, can be replaced by one that costs no more than both |
| EditDistance.TriangleInequality | backend/internal/utils/geocoding.go:211-233 | the detour over a third text is never shorter |
| EditDistance.DistanceIsSymmetric | backend/internal/utils/geocoding.go:211-233 | the distance does not depend on which text comes first |
| EditDistance.DistanceBounds | backend/internal/utils/geocoding.go:211-239 | the distance lies between the difference of the lengths and the longer length |
| EditDistance.DistanceIsZeroIffEqual | backend/internal/utils/geocoding.go:211-233 | distance zero means equal texts, and only that |
| Similarity.NextRow | backend/internal/utils/geocoding.go:216-229 | a new array row computed from the previous one holds the distances of all prefixes of the second text to the next longer prefix of the first |
| Similarity.StringSimilarity | backend/internal/utils/geocoding.go:201-239 | the array computation with its two early returns: 1 minus the result is the share of the longer length that the cheapest edit script costs, whichever minimum script is taken; 1 for two empty texts, 0 if exactly one is empty |
| Similarity.SimilarityRange | backend/internal/utils/geocoding.go:201-239 | similarity lies in [0,1], is symmetric, and is 1 exactly for equal texts |
| Similarity.MinInt | backend/internal/utils/geocoding.go:241-249 | the result is one of the values and none is smaller |
| Normalisation.NormalizeLocation | backend/internal/utils/geocoding.go:156-174 | the scanner with its pending-space flag computes the specification of normalisation |
| Normalisation.WordsAreMaximalRuns | backend/internal/utils/geocoding.go:160-171 | the words are the maximal runs of letters and digits, with gaps between them that hold none |
| Normalisation.MaximalRunsAreUnique | backend/internal/utils/geocoding.go:160-171 | a text has only one decomposition into maximal runs |
| Normalisation.NormalisationIsCanonical | backend/internal/utils/geocoding.go:156-187 | the result is the runs of the lowered text joined by single spaces, trimming first changes nothing, splitting gives back exactly the runs, normalising twice equals once, the result is empty only if nothing is kept, it holds only kept characters with single spaces between them, and all of it is in lower case |
| Normalisation.CaseDoesNotMatter | backend/internal/utils/geocoding.go:156-187 | locations that differ in case only have the same normal form |
| Matching.LocationMatchScore | backend/internal/utils/geocoding.go:176-199 | the nested token loops and the early returns: 0 if a normal form is empty, 1 if they are equal, otherwise the larger of the similarity of the whole normal forms and the average, over the words of the query, of their best similarity to a word of the candidate, the best being attained by some word and exceeded by none |
| Matching.ScoreMeaning | backend/internal/utils/geocoding.go:176-199 | the score lies in [0,1] and is 1 exactly if both texts have tokens and every token of the query occurs in the candidate |
| Matching.ScoreOfNormalizedQuery | backend/internal/utils/geocoding.go:36-37 | scoring the query that was normalised before gives the same score |
| Geocoding.BestTwo | backend/internal/utils/geocoding.go:115-126 | the one-pass scan finds a maximum and the second-largest score counted with multiplicity |
| Geocoding.Choose | backend/internal/utils/geocoding.go:111-135 | the outcome is the one that the bag of candidates calls for: location, ambiguous, not similar or no valid result |
| Geocoding.ScoreResult | backend/internal/utils/geocoding.go:95-100 | the score of a result is the best over its non-empty labels, zero if it has none |
| Geocoding.CoordinatesMeaning | backend/internal/utils/geocoding.go:138-153 | a result is left out for its coordinates exactly if one is missing or out of range, and otherwise gives its latitude as latitude and its longitude as longitude |
| Geocoding.ReadReply | backend/internal/utils/geocoding.go:41-78 | the checks on the reply, in their order: results come out exactly of an answer with status 200, read without an error, of at most 1 MiB, that decodes; otherwise the first fault met is named |
| Geocoding.OneFault | backend/internal/utils/geocoding.go:41-78 | a reply has exactly one fault, or none and is usable |
| Geocoding.Resolve | backend/internal/utils/geocoding.go:35-136 | the whole function answers as specified, with every error of the request, the reply and the choice; an accepted location has the latitude and the longitude of one of the decoded results, both in range |
| Geocoding.AnswerMeaning | backend/internal/utils/geocoding.go:88-135 | what each answer says of the decoded results: a location belongs to a valid result that no other exceeds, with score 0.80 or more and every other below 0.80 or 0.10 behind; no valid result, or none with 0.80, or a best one that another with 0.80 comes closer to than 0.10; validity is having coordinates in range and a best label score above zero |
| Geocoding.JudgementIsUnique | backend/internal/utils/geocoding.go:111-135 | a bag of candidates calls for one outcome only |
| Geocoding.OrderDoesNotMatter | backend/internal/utils/geocoding.go:88-135 | any permutation of the provider's results leads to the same outcome |
| Geocoding.AcceptedLocationIsClear | backend/internal/utils/geocoding.go:128-135 | an accepted location scores at least 0.80 and every other valid result is below 0.80 or at least 0.10 behind |
| Geocoding.TwoFullMatchesAreAmbiguous | backend/internal/utils/geocoding.go:115-133 | with two valid results that each contain all query tokens the ambiguity error is the answer, and no other is |
| IdempotencyKey.KeyIsInjective | backend/internal/utils/nearbyUsers.go:79-82 | two keys are equal exactly if job and user are, for all signed numbers |
| IdempotencyKey.KeyLayout | backend/internal/utils/nearbyUsers.go:79-82 | the key is the fixed prefix, the job in decimal, a slash and the user in decimal |
| DeliverySets.KeysNeverClash | backend/internal/models/notificationDelivery.go:18-20 | the two unique indexes say the same |
| DeliverySets.ExtractionOutcome | backend/internal/utils/nearbyUsers.go:69-113 | extracting a live job stores exactly its affected users, or nothing at all if it has deliveries already |
| DeliverySets.SecondExtractionCollides | backend/internal/utils/nearbyUsers.go:102-113 | a second extraction of a job in one process always violates the unique index |
| DeliverySets.SetsAppearAtOnceAndStay | backend/internal/utils/nearbyUsers.go:100-113 | a step that gives a job its first delivery gives it all of them; no step adds one later |
| DeliverySets.NextKeepsSets | backend/internal/utils/recoverStalledJobs.go:16-25 | the invariant behind this holds after every step, restarts included: a job with deliveries that is still on its way would be extracted to the same set |
| Deliveries.NextKeepsBase | backend/internal/worker/retryFailedNotification.go:55-121 | every step keeps all references valid and lets rows only evolve: attempts never fall and never exceed maxRetries + 1, finished rows never change |
| SendRecords.NextKeepsSends | backend/internal/worker/retryFailedNotification.go:64-121 | every step keeps claims equal to attempts, calls within claims, success backed by an accepted call, and one dead letter exactly for the failed |
| NoLostDelivery.NextKeepsCarried | backend/internal/utils/recoverNotificationDeliveries.go:17-53 | every step leaves every unfinished delivery with a carrier, unless this process has given it up: a message, a publisher, an up-to-date holder, or recovery before its snapshot; a failure of recovery gives up only deliveries that it had listed or that were touched before |
| NoLostJob.StalledJobsAre | backend/internal/utils/recoverStalledJobs.go:16-28 | the scan lists exactly the jobs that are not final and have no deliveries, each with the flag whether it is in processing |
| NoLostJob.CrashTakesJobsUp | backend/main.go:93-100 | after every crash an open job without deliveries is stored as it was, belongs to the first pass of recovery, which has yet to scan, and a scan right then lists it with its status |
| NoLostJob.NextKeepsJobs | backend/internal/utils/recoverStalledJobs.go:14-51 | every step, crashes and faults included, leaves every open job without deliveries on its way: with its handler, in a queue, with a worker of the intake, or awaited by recovery, unless this process has let go of it |
| Interference.FlagsOfStep | backend/internal/worker/emailNotification.go:53-127 | which deliveries a step adds to the given-up and to the touched ones, and which jobs it disturbs or lets go of: those that the worker of the step held or was closing; at a failure of recovery those that it still had to wake or to publish or, before its list, the touched deliveries and the open jobs without any; at a crash, a reset or a listing those it finds; a job is let go of by a verification exactly if its report is not to be published |
| Verdicts.CountMeaning | backend/internal/worker/finalizeNotificationJob.go:18-29 | the aggregate counts say whether the job has deliveries, whether all are finished, all successful, all failed |
| Verdicts.TallyMeaning | backend/internal/worker/finalizeNotificationJob.go:47-58 | a status is computed exactly if there are deliveries and all are finished, and it is the right one |
| Verdicts.VerdictStands | backend/internal/worker/finalizeNotificationJob.go:18-45 | a verdict that was right when counted is right when written, whatever ran in between |
| Finalisation.StatusStep | backend/internal/worker/finalizeNotificationJob.go:36-45 | the complete list of ways in which the status of a job with deliveries can change in one step |
| Finalisation.NextKeepsVerdicts | backend/internal/worker/finalizeNotificationJob.go:18-45 | every step keeps all final statuses and all statuses that workers hold right |
| Finalisation.VerdictStaysUnlessFault | backend/internal/worker/verifyReport.go:80-95 | a step takes a verdict back exactly if a database error during a repeated verification sends the job to pending |
| Completion.NextKeepsClosing | backend/internal/worker/finalizeNotificationJob.go:18-45 | every step, crashes and faults included, keeps a job that it does not itself disturb final, or in processing with unfinished deliveries or a worker that is closing it |
| Completion.StrandingIsExact | backend/internal/worker/finalizeNotificationJob.go:18-45 | a job is stuck after a step exactly if it was stuck before or the step strands it: a crash with all deliveries finished and no verdict written, the last closing worker giving up, its update missing a pending job, or a verdict taken back when nobody is closing |
| Completion.NextStatementCloses | backend/internal/worker/finalizeNotificationJob.go:36-45 | any mail worker, first-attempt or retry, that holds a status closes a job in processing with its next statement, rightly |
| LateResets.LateResetsHitNewJobs | backend/internal/utils/recoverStalledJobs.go:27-39 | recovery can put a job with deliveries back to pending only if this same process has accepted it |
| LateResets.NextKeepsOrigins | backend/internal/utils/recoverStalledJobs.go:14-51 | an older job that recovery has yet to publish is nowhere else in the intake and has no deliveries |
| Wakeups.NextKeepsWakes | backend/internal/worker/retryFailedNotification.go:47-126 | every step, faults of other goroutines included, keeps for each untouched delivery one wake-up until it is finished, a holder that knows the row, and a past of rejected attempts that each waited out their backoff |
| Wakeups.OutcomeOfUntouched | backend/internal/worker/retryFailedNotification.go:88-121 | success is one accepted call after rejected ones, failure is maxRetries + 1 rejected calls and no accepted one |
| Wakeups.RetryDelayFits | backend/internal/worker/retryFailedNotification.go:17-19 | the delay is 2^attempts seconds exactly up to 33 attempts; beyond, the 64-bit product wraps |
| Wakeups.BackoffAddsUp | backend/internal/worker/retryFailedNotification.go:60-103 | after n rejected attempts at least 2^n - 2 seconds have passed since the first rejection |
| Wakeups.DeadLetterIsLate | backend/internal/worker/retryFailedNotification.go:55-103 | a dead letter comes at least 2^(maxRetries + 1) - 2 seconds after the first rejection |
| ShutdownSafety.PanicIsMisuse | backend/shutdown.go:57-66 | a step panics exactly if it sends on a closed channel or closes one again |
| ShutdownSafety.NextKeepsShut | backend/shutdown.go:46-68 | every step keeps the closed channels a prefix of the stages and each one closed only after its senders are gone, also when the drain is cut short |
| ShutdownSafety.NextKeepsFit | backend/main.go:62-67 | no step puts more messages into a channel than it was made for |
| ShutdownSafety.DrainedIsFinished | backend/main.go:150-158 | a completed drain without cancelled workers leaves closed empty channels, no request, no goroutine, and only finished deliveries, but for those that were given up |
| Drain.StepPays | backend/shutdown.go:46-68 | from the first signal on every step of requests, handlers, recovery and workers, whether it succeeds or fails, lowers the work that is left and brings no more dead letters, unless it is a crash or ends the shutdown before its time |
| Drain.DrainMoves | backend/shutdown.go:46-68 | until the last channel is closed some step can be taken, now or when a backoff is over, even with a provider that accepts nothing, unless a worker is blocked by a full dead-letter channel |
| Drain.DrainStopsOnlyAtItsEnd | backend/shutdown.go:46-68 | with room for the dead letters the shutdown has no further step exactly if all its stages are done, with faults and without |
| Drain.DrainReachesItsEnd | backend/shutdown.go:46-68 | with room for the dead letters there is a run to the end from every state of the shutdown |
| Drain.DrainsAreShort | backend/main.go:140-149 | no run from the first signal on, with any number of faults, has more steps than there was work at its start |
| Drain.DrainHangsOnFullDeadLetters | backend/main.go:67-67 | with a full dead-letter channel, which nobody reads, and a worker sending on it, no run of the shutdown reaches the end |
| DrainHangs.HangsExactlyWithoutRoom | backend/main.go:67-67 | once no report and no request is on its way, every accepted call is recorded and no unfinished delivery is given up, some run of a reachable shutdown gets where it can never finish exactly if more dead letters can come than the channel has room for |
| DrainHangs.RefusalKeepsLetters | backend/internal/worker/retryFailedNotification.go:55-188 | while the provider accepts nothing, no step brings the number of dead letters to come down |
| Guarantees.SendsAreBounded | backend/internal/worker/retryFailedNotification.go:55-84 | in every reachable state the provider was called at most attempts times, and attempts is at most maxRetries + 1, over any number of restarts |
| Guarantees.StatusesAreTrue | backend/internal/worker/retryFailedNotification.go:144-188 | in every reachable state a delivery has one dead letter if it is failed and none otherwise, failed means all attempts used, success means accepted by the provider |
| Guarantees.NoDeliveryIsLost | backend/internal/utils/recoverNotificationDeliveries.go:11-53 | in every reachable state every unfinished delivery has a carrier unless this process has given it up; when all is quiet, all others are finished |
| Guarantees.NoJobIsLost | backend/internal/utils/recoverStalledJobs.go:14-51 | in every reachable state every open job without deliveries is with its handler, in a queue, with a worker, or still to be scanned or published by recovery, unless this process has let go of it |
| Guarantees.UntouchedDeliveries | backend/internal/worker/retryFailedNotification.go:47-126 | in every reachable state an untouched delivery has exactly one wake-up until it is finished, and the outcome and backoff bounds above hold, whatever went wrong elsewhere |
| Guarantees.UntouchedDeliveriesBackOff | backend/internal/worker/retryFailedNotification.go:60-103 | attempt k + 1 of an undisturbed delivery is claimed no earlier than 2^k seconds after attempt k was rejected |
| Guarantees.UntouchedDeliveriesAreDue | backend/internal/worker/retryFailedNotification.go:17-19 | an undisturbed delivery that waits for its next attempt is due exactly 2^attempts seconds after its last rejection |
| Guarantees.BackoffNeverOverflows | backend/internal/worker/retryFailedNotification.go:17-19 | with maxRetries up to 32 no reachable attempt count makes the delay overflow |
| Guarantees.LaterStatesEvolve | backend/internal/utils/recoverNotificationDeliveries.go:20-27 | between any two states of a run rows evolve, logs only grow, reports stay, and a job with deliveries keeps exactly these |
| Guarantees.DeliverySetIsFixed | backend/internal/utils/nearbyUsers.go:100-113 | whatever happens later, a job with deliveries is for the same users |
| Guarantees.DeliveriesAreDistinct | backend/internal/models/notificationDelivery.go:18-20 | in every reachable state no two deliveries share a provider key |
| Guarantees.VerdictsAreSound | backend/internal/worker/finalizeNotificationJob.go:18-58 | a final status is the right one for its deliveries, in this and every later state, and never turns into another verdict |
| Guarantees.PendingJobsStayOpen | backend/internal/worker/finalizeNotificationJob.go:36-38 | a job with deliveries that is back in pending is never closed |
| Guarantees.UndisturbedJobsClose | backend/internal/worker/finalizeNotificationJob.go:18-45 | a reachable job with deliveries whose closing nothing has cut off is final, or in processing with an unfinished delivery or a worker that is closing it, however many crashes it has seen |
| Guarantees.QuietJobsAreClosed | backend/internal/worker/finalizeNotificationJob.go:18-45 | when all is quiet such a job has the right verdict, unless this process has given up one of its deliveries unfinished |
| Guarantees.StuckExactlyAfterStranding | backend/internal/utils/recoverStalledJobs.go:16-25 | after any run from the start a job is stuck exactly if some step of the run has stranded it |
| Guarantees.ClosedExactlyUnlessStranded | backend/internal/worker/finalizeNotificationJob.go:18-45 | when all is quiet after a run from the start, a job with deliveries has a final status exactly if no step of the run has stranded it, unless this process has given up one of its deliveries unfinished |
| Guarantees.StuckJobsStayStuck | backend/internal/utils/recoverStalledJobs.go:16-25 | a stuck job is stuck in every later state of every run |
| Guarantees.TouchedMeansInterference | backend/internal/utils/recoverNotificationDeliveries.go:20-33 | after any run a delivery counts as touched exactly if some step was a crash that found it unfinished, lost its holder, or was the reset or the listing by recovery |
| Guarantees.DisturbedMeansInterference | backend/internal/utils/recoverStalledJobs.go:27-39 | after any run a job counts as disturbed exactly if some step was a crash that found it finished and not closed, cut off its closing, or put it back to pending in spite of its deliveries |
| Guarantees.DismissedMeansLetGo | backend/internal/worker/verifyReport.go:61-97 | after any run a job counts as let go of exactly if some step since the last crash has let go of it: no room for it, a report that is not to be published, an error, a forced shutdown or a failure of recovery |
| Guarantees.NothingPanics | backend/shutdown.go:46-68 | no reachable step sends on a closed channel or closes one twice |
| Guarantees.ClosedChannelsHaveNoSenders | backend/shutdown.go:10-18 | in every reachable state the closed channels are a prefix of the stages and every sender to a closed one is gone |
| Guarantees.GracefulEndIsComplete | backend/shutdown.go:46-68 | every reachable completed shutdown without cancelled workers has left nothing in the process; all deliveries are finished and all jobs have their verdict, but for those that were given up, left unfinished by that, or disturbed; every job without deliveries is final or was let go of |
| Guarantees.DrainIsBounded | backend/main.go:140-149 | from every reachable state after the first signal, requests in flight included, no run with or without faults has more steps than there is work left, however little room there is for dead letters |
| Guarantees.DrainTerminates | backend/shutdown.go:46-68 | from every reachable state after the first signal, requests in flight included, with room for the dead letters, runs with and without faults stop only at the end, and end with an empty process, all deliveries finished that were not given up, and every job without deliveries final or let go of; without faults no delivery is given up on the way |
| Counterexamples.CrashLeavesJobOpenForEver | backend/internal/utils/recoverStalledJobs.go:18-22 | a run in which a crash before the count leaves a job with one successful delivery in processing, for ever |
| Counterexamples.LateResetLeavesJobOpenForEver | backend/internal/utils/recoverStalledJobs.go:27-39 | a run without crash or fault in which a late reset leaves such a job in pending, for ever |
| Counterexamples.LookupTakesVerdictBackForEver | backend/internal/worker/verifyReport.go:80-95 | a run without crash or earlier fault in which the failed lookup of a repeated verification turns a job that is done back to pending, for ever |
| Counterexamples.ShutdownHangsForEver | backend/main.go:67-67 | the first signal finds no job and one request in flight, which then stores its report; without a fault the shutdown can get where it never ends, with two users, no retries and room for one dead letter |
| Process.Server.Others | backend/main.go:77-103 | while one goroutine pauses, all others take any number of steps and leave it where it was |
| Process.Server.constructor | backend/main.go:62-82 | a first start is an initial state of the step system |
| Process.Server.Restart | backend/main.go:77-103 | a restart keeps every stored row and resets everything else: the new users, empty open channels, idle workers, no request and no handler, recovery about to scan, with every stored job its own, nothing cancelled, nothing given up and nothing let go of |
| Process.WentIsLeads | backend/main.go:77-103 | what the methods promise, in terms of all properties that steps keep, is the same as the existence of a run |
| RetryWorker.ProcessRetry | backend/internal/worker/retryFailedNotification.go:47-126 | the whole loop is a run of the system; every call of the provider costs an attempt, so that there are at most maxRetries + 1 minus the attempts before; it ends with the row successful, or failed with its letter in the channel or still to be sent, which only a forced shutdown prevents, or gives up a delivery that was interfered with |
| RetryWorker.Attempt | backend/internal/worker/retryFailedNotification.go:60-125 | one round: wait, guarded claim, send, guarded outcome; a round with a call leaves one more attempt in the row, and a round that gives up was interfered with |
| RetryWorker.Claim | backend/internal/worker/retryFailedNotification.go:64-82 | the claim takes the row exactly if it is retrying with the attempts that were read |
| RetryWorker.RecordFailure | backend/internal/worker/retryFailedNotification.go:86-103 | a rejection is recorded exactly if the row is still in processing with this attempt |
| RetryWorker.RecordSuccess | backend/internal/worker/retryFailedNotification.go:106-121 | an accepted call is recorded exactly if the row is still in processing with this attempt |
| RetryWorker.WaitUntil | backend/internal/worker/retryFailedNotification.go:21-33 | the wait is over no earlier than the due time; no due time means no wait |
| RetryWorker.SendEmail | backend/internal/worker/retryFailedNotification.go:84-88 | the call of the provider is logged with its attempt and outcome; a rejected one is due again RetryDelay(attempt) after the answer |
| RetryWorker.Bury | backend/internal/worker/retryFailedNotification.go:154-177 | row and dead letter are written together, exactly if the row is retrying with the attempts that were read |
| RetryWorker.MoveDeliveryToDLQ | backend/internal/worker/retryFailedNotification.go:144-188 | the row is failed and its letter is the last one in the channel, or the worker still waits for room, or a forced shutdown has cut its wait off, whatever becomes of the closing of the job; it gives up only a delivery that was interfered with |
| MailWorker.FinalizeNotificationJob | backend/internal/worker/finalizeNotificationJob.go:18-45 | the one function both kinds of mail workers call: count and update as two statements with everybody running in between; if all deliveries were finished at the call, the job has its right verdict at the return, unless this closing was cut off or the job was put back to pending |
| MailWorker.Tally | backend/internal/worker/finalizeNotificationJob.go:18-29 | the status that the aggregate counts call for, computed in one statement |
| MailWorker.WriteStatus | backend/internal/worker/finalizeNotificationJob.go:36-38 | the status is written exactly if the job is still in processing |
| NotificationWorker.ProcessDelivery | backend/internal/worker/emailNotification.go:52-131 | the whole function is a run of the system with at most one call; it ends with the row successful, or rejected with its id the last in the retry channel or still waiting for room, or gives up a delivery that was interfered with |
| NotificationWorker.Claim | backend/internal/worker/emailNotification.go:65-82 | the claim takes the row exactly if it is pending |
| NotificationWorker.SendEmail | backend/internal/worker/emailNotification.go:84-88 | the call of the provider is logged as the first attempt with its outcome; a rejected one is due again RetryDelay(1) after the answer |
| NotificationWorker.RecordFailure | backend/internal/worker/emailNotification.go:86-103 | a rejection is recorded exactly if the row is still in processing, whatever its attempts |
| NotificationWorker.RecordOutcome | backend/internal/worker/emailNotification.go:84-130 | an accepted call ends as a success, a rejected one in the retry channel or waiting for room there; anything else means that the delivery was interfered with |
| Extraction.CollectAffected | backend/internal/utils/nearbyUsers.go:69-98 | the loop over the loaded users collects exactly those with coordinates that are near |
| Extraction.InsertAll | backend/internal/utils/nearbyUsers.go:102-109 | the inserts all succeed exactly if the unique index holds with them; otherwise nothing is stored |
| Extraction.ProcessReport | backend/internal/utils/nearbyUsers.go:67-121 | in the state in which the transaction runs, a job with nobody affected becomes done, a job with deliveries stays as it is, and any other gets one pending delivery for each affected user, while no other job or delivery changes; the new ids are put into the delivery channel in order, all of them unless an error cuts the loop short, which leaves the rest on record, or it waits for room; the job has deliveries for exactly the affected users whatever happens meanwhile; a job that is not extracted counts as let go of |
| Verification.VerifyReport | backend/internal/utils/userTrustScore.go:30-66 | a report without its row sends the job back to pending with one attempt more, one without coordinates changes nothing, one with too short a text loses its report, any other is to be published; no other job changes, and a job that is not to be published counts as let go of |
| Verification.ResetJob | backend/internal/worker/verifyReport.go:80-95 | a failed lookup sends the job back to pending with one attempt more, whatever its status, and disturbs it if it has deliveries |
| Verification.ProcessCurrentJob | backend/internal/worker/verifyReport.go:61-97 | the whole function is a run of the system: its judgement is the one that job and report call for in the state in which they are looked up, or the lookup failed; the job is left as the judgement says, no other job changes; a report is published only with coordinates and a long enough text, and is then the last in the reports channel, unless the worker waits for room or a forced shutdown has ended its wait |
| StartupRecovery.RecoverUnfinishedJobs | backend/internal/utils/recoverStalledJobs.go:14-51 | the listed jobs take their turns in order, all of them unless the pass is cut short or waits for room; in a completed pass every job that was pending without deliveries at the scan has been the last message of the verification channel since, and so has every one in processing unless it left that status meanwhile |
| StartupRecovery.TakeNextJob | backend/internal/utils/recoverStalledJobs.go:27-39 | a listed job is reset exactly if it was listed in processing and still is, and is published exactly if it was reset or was pending when listed |
| StartupRecovery.ReleaseInterruptedRows | backend/internal/utils/recoverNotificationDeliveries.go:18-29 | exactly the rows in processing become retrying and due now |
| StartupRecovery.RecoverableAre | backend/internal/utils/recoverNotificationDeliveries.go:31-43 | the snapshot holds exactly the pending and retrying deliveries, each bound for its channel |
| StartupRecovery.RecoverNotificationDeliveries | backend/internal/utils/recoverNotificationDeliveries.go:17-53 | unless an error comes before the list is made, exactly the rows in processing are released, and the deliveries listed after that are put into the channel for their status one by one, all of them unless the pass waits for room or a forced shutdown cuts it short; in a completed pass every delivery that was pending or retrying at the listing has been the last message of its channel since |
| ReportIntake.CreateReport | backend/internal/api/handler/createReport.go:78-135 | a request that has begun, before or after the first signal, ends with an error and stores nothing, or the job is stored before it is queued and stays stored; the answer is right: queued means it is the last message of the verification channel, not queued that the channel is full and the job let go of until the next start |
| ReportIntake.StoreReport | backend/internal/api/handler/createReport.go:78-115 | the transaction adds exactly one job, in processing, without attempts, with its report |
| ReportIntake.TryToQueue | backend/internal/api/handler/createReport.go:117-135 | the job is queued exactly if the channel takes it at once |
| GracefulShutdown.ShutDownGracefully | backend/shutdown.go:46-68 | a return without error means that no request is left, all stages are done and, unless the workers were cancelled, that the process is empty, every delivery finished that was not given up, and every job without deliveries final or let go of; an error means the workers are cancelled |
| GracefulShutdown.DrainStages | backend/shutdown.go:57-62 | each channel is closed in a state in which exactly the ones before it are closed and the workers of the stage before have exited, stage after stage; the stages done are all, or the first few when a wait was cut short |

## Left out

- Floating point: scores are reals, so rounding at the thresholds 0.80 and 0.10 is not modelled.
- HTTP, JSON, Redis, metrics, logging and SQL text: the database is a sequence of rows with guarded updates and transactions, and the reply of the geocoding provider is a status, a size, and a list of results if it decodes.
- Decoding of the job payload: it always succeeds, so the update to `failed` in `verifyReport.go:73-79` does not occur.
- Distances: "within 20 km" is a fixed relation between the place of a report and the place of a user.
- Unicode tables: lower-casing and the classes of letters, digits and spaces are parameters with stated assumptions, lower-casing idempotent and character by character.
- Row ids: jobs and deliveries are numbered densely from zero; an id that a failed insert skips is not modelled.
- Verification of one message is one step, taken when its last statement runs. What its lookups read of a job and its report never changes back, with one exception: two workers that have both looked up a located report with too short a text both delete it and change no job. In the model the second one finds the report missing and resets the job, so that run exists there only with an abandoned message (`VDrop`), which counts as a fault, though it leaves no record.
- A database error after which the statement has nevertheless taken effect is the statement followed by an abandoned wait, which is a run of the model; only after the transactions of `CreateReport` and `moveDeliveryToDLQ` does the model then still publish the job or the letter.
- Goroutine panics other than those of channel misuse, authentication, request validation, rate limiting: the limiter's wait is a delay before the claim.
- The receive loops around `processRetry`, `processDelivery`, `processReport` and `processCurrentJob` are the receive and exit actions of the step system; as methods they would not end.
- A wait for room in a channel ends a worker method with the worker still waiting, because a method has to end; in the step system the wait goes on.
- RetryWorker.SendEmail: whether a call succeeds is arbitrary, and accepted means that it returned without an error; a call that returns an error although the provider took the message counts as rejected, and what the provider does with a repeated key is not modelled.
- Wakeups.RetryDelayFits: Go leaves the conversion of a float beyond the range of int64 open, from 63 attempts on; the model multiplies modulo 2^64 as amd64 does.
- GracefulShutdown.ShutDownGracefully: the deadline is a patience that may run out at every wait, not five minutes on a clock.
- DrainHangs.HangsExactlyWithoutRoom: while a request or a report is still on its way, or an accepted call not yet recorded, room for every dead letter that can come is enough for the shutdown to end (DrainTerminates) but not always needed, because a report may be turned down or affect fewer users than are charged for it.
- Completion of unverified reports: a report without coordinates or with too short a text leaves its job unfinished in the code, so no property says that every job reaches a final status.
