# SEOTracker: verified models

SEOTracker audits web sites on a schedule, keeps the issues it finds, and serves the results to the
members of a project. These Dafny modules model the parts of it that carry state across requests,
replicas and failures, and prove what every run of them keeps. `dafny verify dfyconfig.toml` checks
the whole project.

| module | models |
|---|---|
| `DistributedLock` | the Redis lease behind `withLock`: compare-and-extend, compare-and-delete, the refresh loop and the abort |
| `Scheduling`, `LockedScheduling` | the audit scheduler, alone and under that lease |
| `ContentUtils`, `Text` | near-duplicate detection by word shingles |
| `SiteIssues` | persistent issues: reconciliation after each run and the users' changes |
| `AuditComparison` | the diff of two audit runs |
| `AuditLifecycle` | audit runs over a deduplicating at-least-once queue, and the sweep |
| `LoginBackoff`, `SessionTokens` | the brake on failed logins; refresh and password-reset tokens |
| `Permissions`, `Membership` | permission sets; projects, members and invites |
| `ApiClient` | the web client: shared refreshes, shared GETs, replays and retries |
| `PublicBadges` | the public badge as a TTL cache over the database |
| `Indexability`, `ActionItems`, `Sorting` | the indexability matrix and the action plan of a run; the stable sort both end with |

## How the models are built

Code that changes state step by step is a class or a method with a loop whose contract equates the new
state with a specification function; code made of expressions is a function. The theorems are about
those functions and about runs of them: sequences of events in any order, with any number of replicas,
lost requests, crashes and clock readings. Each server handler and each transaction is one atomic
step. The lease, the client and the badge cache are broken up further, at every point where their
code waits.

Times are integers (milliseconds, seconds in `LoginBackoff`), similarities and score impacts are exact
rationals (`real`). Random tokens and ids are fresh values, token hashes are injective, and so is the
signature on a JWT. Functions of other files and of the platform (`normalizeForComparison`,
`isExpectedNoindexUrl`, `toLowerCase`, `localeCompare`, `getIssueDefinition`) are parameters, about which
nothing is assumed except where a lemma says so.

## What does not hold

Properties that one might expect and that the code does not have. Each item names the lemma that says exactly
when the code does have the property, and the run or input in which it fails.

- A lease excludes exactly when two refresh periods and five delays fit in its TTL
  (`ExclusionIffFitsLease`, `LateRefreshesBreakExclusion`). With no delays that is `ttlMs > 2000`, so a TTL of
  two seconds or less never protects against two failed refreshes.
- A key outlives its `withLock` call for ever exactly when the task ends while a refresh is in flight whose reply
  will re-arm the timer that `finally` has just cleared (`TaskEndOrphansKeyIff`, `OrphanedLoopHoldsTheKey`).
- `runDueSchedules` inserts an audit run first and writes `lastRunAt` afterwards. A slot can therefore start one
  audit more than it leaves unrecorded to an exception or a crash (`StartsCounted`, `OneStartBeyondTheLost`), and
  after an unrecorded start the next tick starts the slot again exactly while its window covers the reading
  (`UnrecordedStartRepeatsIff`). No lease prevents that: starts happen at most once per slot only for a schedule
  that never fires (`StartedOnceIff`, `CrashStartsSlotTwice`).
- The loop reads the abort signal only at its head. No slot is recorded twice exactly when the longest firing, two
  refresh periods and five delays fit in the TTL, or the schedule never fires (`RecordedOnceIff`,
  `LateFiringRepeatsSlot`).
- An open issue can carry an old `ignoredAt`: it is there exactly when the issue was ignored and no user has set it
  to OPEN since (`IgnoredAtExact`, `ReopenedIssueKeepsIgnoredAt`). `resolvedAt` tells only of issues that a
  reconcile has closed, not of those that a user has set to FIXED (`ResolvedAtExact`). The issues a run is scored on are the ones it
  leaves open exactly when nobody changed which of them are ignored in between (`ScoredIssuesAreOpenIff`).
- Strikes are forgotten after an hour unless every EXPIRE of that life of the counter was lost
  (`HourlyWindowIff`, `LostExpireNeverForgets`).
- A throttled run is requeued under its default job id, which the queue drops as long as the job being
  processed has that id (`ThrottledRequeueIffNoDefaultJob`, `FirstThrottleLosesTheJob`); only the sweep
  brings it back.
- A RUNNING run can still end exactly as long as a worker works on it (`CanEndIffWorkedOn`), and a queued run of an
  existing site can still start exactly when fewer of the site's runs are abandoned than may run at once
  (`CanStartIffRoom`).
- A 401 starts a refresh of its own exactly when none is outstanding, so two requests sent with the same expired
  token can refresh twice (`CoalescesIffOutstanding`, `LateUnauthorizedRefreshesAgain`). A GET makes a bounded
  number of fetches exactly when `maxRetries` is not negative (`BoundedIffRetriesNonNegative`).
- An invalidation puts an end to older badges exactly when no render is about to store one
  (`InvalidationHoldsIffNoStaleRender`).
- A row of the indexability matrix and its evidence show the same fact exactly when the page that names the row
  records it or no page does (`EvidenceAgreesIff`). The fact shown is independent of the order of the pages exactly
  when all recorded facts agree or all pages of the highest rank record the same one (`OrderFreeIff`,
  `FactsDependOnOrder`).

One lemma describes a hazard that no code of the repository triggers: the bulk close of site issues compares with
`<>`, which skips nulls, so an open issue whose last audit run was deleted would stay open (`StepMatchesLife`,
`OpenIffInRunAndNotIgnored`, `DeletedRunLeavesIssueOpen`). Audit runs are only deleted with their site, in the
cascade that deletes the site's issues too; it takes a deletion by hand.

The comment at `packages/server/src/public-badges/public-badges.service.ts:31-32` says that the next render
after `invalidate` reflects a toggle immediately; the model follows the code, where that needs the condition
above. The same goes for the comment at `apps/web/src/lib/api-client.ts:46`, which has many concurrent 401s
coalesce into one refresh.

## Model

| member | source | states |
|---|---|---|
| DistributedLock.RedisKey.Acquire | packages/server/src/queue/distributed-lock.service.ts:117-131 | takes a free or expired key with a fresh token and the full TTL; a live key is left alone and null is answered |
| DistributedLock.RedisKey.Extend | packages/server/src/queue/distributed-lock.service.ts:133-143 | renews the TTL exactly when the live key holds this token, and otherwise changes nothing |
| DistributedLock.RedisKey.Release | packages/server/src/queue/distributed-lock.service.ts:145-149 | deletes the key exactly when it holds this token |
| DistributedLock.LockedTask.HandleRefreshReply | packages/server/src/queue/distributed-lock.service.ts:74-103 | a good reply clears the counter of consecutive failures and a bad one adds to it; the second bad one in a row aborts and stops the timer, any other arms it again |
| DistributedLock.LockedTask.FinishBody | packages/server/src/queue/distributed-lock.service.ts:106-114 | `finally` stops a pending timer but not a refresh in flight |
| DistributedLock.SignalFiresIffTwoInARow | packages/server/src/queue/distributed-lock.service.ts:74-103 | over every run the signal of a call has fired exactly when two adjacent refresh replies were negative, and the counter is the length of the negative replies at the end |
| DistributedLock.TimerGoesOnUnlessLost | packages/server/src/queue/distributed-lock.service.ts:74-103 | a handled reply arms the timer again from that instant, except the second negative one in a row |
| DistributedLock.AcquiredIff | packages/server/src/queue/distributed-lock.service.ts:117-131 | a call runs exactly when it finds the key free or expired and hears back; the key is its own for one TTL even if it does not |
| DistributedLock.RefreshExtendsIff | packages/server/src/queue/distributed-lock.service.ts:133-143 | a refresh answers true exactly when its reply arrives and Redis found the live key with its token; the key then lives one TTL from there |
| DistributedLock.ReleaseHandsTheKeyOver | packages/server/src/queue/distributed-lock.service.ts:106-149 | an executed release of one's own live key leaves it free, and another call acquires it at the same instant |
| DistributedLock.LostReleaseKeepsTheKey | packages/server/src/queue/distributed-lock.service.ts:106-149 | a lost release leaves the key to its TTL, and no other call gets in before |
| DistributedLock.StepKeepsInv | packages/server/src/queue/distributed-lock.service.ts:53-149 | every step keeps: a call that is entering or runs un-aborted owns the key with the expiry of its last lease and is never far behind it |
| DistributedLock.MutualExclusion | packages/server/src/queue/distributed-lock.service.ts:53-115 | over every run with any number of calls, lost requests, expiries and crashes, at most one un-aborted body runs, and it holds the live key, if two refresh periods and five delays fit in the TTL |
| DistributedLock.LateRefreshesBreakExclusion | packages/server/src/queue/distributed-lock.service.ts:53-115 | otherwise a run with two protected bodies exists |
| DistributedLock.ExclusionIffFitsLease | packages/server/src/queue/distributed-lock.service.ts:53-115 | so exclusion over all runs holds exactly under that condition |
| DistributedLock.LeaseBudget | packages/server/src/queue/distributed-lock.service.ts:64-66 | without delays the condition is ttl > 2000 ms; with the default 90 s every delay may be just under six seconds |
| DistributedLock.ForeignKeyUntouched | packages/server/src/queue/distributed-lock.service.ts:133-149 | no extend or release changes a key that holds another token |
| DistributedLock.QuietCallFreesTheKey | packages/server/src/queue/distributed-lock.service.ts:53-115 | a finished call with its loop stopped keeps the key no longer than its last lease, whatever happens later |
| DistributedLock.TaskEndOrphansKeyIff | packages/server/src/queue/distributed-lock.service.ts:74-114 | the end of a trusted task leaves a key that can be held for ever exactly when a refresh is in flight whose reply is positive or the first failure |
| DistributedLock.OrphanedLoopHoldsTheKey | packages/server/src/queue/distributed-lock.service.ts:74-114 | such an end is reachable, and then the key is held at arbitrarily late times with no task left |
| Scheduling.DueIffInsideUnservedSlot | packages/server/src/scheduling/scheduling.service.ts:29-60 | a schedule is due exactly when the instant lies in the window of one of its slots, on the slot's local day, that `lastRunAt` has not reached |
| Scheduling.SlotIffClockShows | packages/server/src/scheduling/scheduling.service.ts:29-60 | the slots read off the wall clock: the hour, the minute, no seconds and milliseconds, and the day of a weekly schedule |
| Scheduling.WeekdayExact | packages/server/src/scheduling/scheduling.service.ts:29-60 | 1 January 1970 is day 4, each local day has one weekday and the next day has the next one modulo 7 |
| Scheduling.DueIffClockShowed | packages/server/src/scheduling/scheduling.service.ts:29-60 | a schedule is due exactly when, earlier on the same local day and less than the window ago, the clock showed its time on its weekday and no run has been noted since |
| Scheduling.ScheduleTable.RunScheduled | packages/server/src/scheduling/scheduling.service.ts:136-156 | the `try` block: an audit run is started first, and `lastRunAt` changes only if everything after it succeeds |
| Scheduling.ScheduleTable.RunDueSchedules | packages/server/src/scheduling/scheduling.service.ts:125-157 | one tick: the rows it serves and leaves, one audit for each row reached, due and not stopped by an error, and that an abort stops the rest |
| Scheduling.StartedExact | packages/server/src/scheduling/scheduling.service.ts:125-157 | one tick starts one audit for each of the due rows whose start succeeds, and none for others |
| Scheduling.FiringIsRemembered | packages/server/src/scheduling/scheduling.service.ts:125-157 | after a recorded firing `lastRunAt` never falls below its slot again |
| Scheduling.StartsFollowRecords | packages/server/src/scheduling/scheduling.service.ts:29-157 | over any sequence of serialised ticks, every start after a recorded one is for a later slot, and each start lies in its slot's window |
| Scheduling.FiredSlotsIncrease | packages/server/src/scheduling/scheduling.service.ts:29-157 | the slots whose firing is recorded strictly increase |
| Scheduling.StartsCounted | packages/server/src/scheduling/scheduling.service.ts:125-157 | the audits started for a slot are the unrecorded ones plus one more once the slot is recorded |
| Scheduling.StartsBounded | packages/server/src/scheduling/scheduling.service.ts:125-157 | so at most one beyond the unrecorded ones |
| Scheduling.StartsBoundIsReached | packages/server/src/scheduling/scheduling.service.ts:125-157 | and that bound is reached for every number of unrecorded starts |
| Scheduling.UnrecordedStartRepeatsIff | packages/server/src/scheduling/scheduling.service.ts:29-157 | after an unrecorded start, with nothing recorded since, a tick that gets to inserting a run starts the slot again exactly when the window covers its reading |
| Scheduling.FirstMinuteIsCovered | packages/server/src/scheduling/scheduling.service.ts:29-60 | neither the window nor midnight cuts off a slot's first minute |
| Scheduling.EverySlotFiresOnce | packages/server/src/scheduling/scheduling.service.ts:98-164 | with a successful tick in the slot's first minute and earlier firings finished, the slot is recorded, and exactly one audit is started for it beyond the unrecorded ones |
| LockedScheduling.StepKeepsInv | packages/server/src/scheduling/scheduling.service.ts:98-164 | every step of lease and scheduler together keeps the row, the records and the calls' view of both, if a call that writes holds the live key |
| LockedScheduling.StepKeepsKeyInv | packages/server/src/scheduling/scheduling.service.ts:107-157 | every step keeps: a firing call holds the live key until it must have ended, if a whole firing fits in the lease |
| LockedScheduling.RecordedOncePerSlot | packages/server/src/scheduling/scheduling.service.ts:98-164 | then over every run of any number of replicas, with failures and crashes, the recorded slots strictly increase, each by a tick inside its window |
| LockedScheduling.OneStartBeyondTheLost | packages/server/src/scheduling/scheduling.service.ts:98-164 | and at any moment all calls but one that have started an audit for a slot have lost it to an exception or a crash |
| LockedScheduling.LeaseGivesOneFiringPerSlot | packages/server/src/scheduling/scheduling.service.ts:98-164 | however long firings take, runs in which an aborted call no longer writes record strictly increasing slots, each inside its window |
| LockedScheduling.LateFiringRepeatsSlot | packages/server/src/scheduling/scheduling.service.ts:125-157 | otherwise, for every lease, window, slot and first `lastRunAt`, a run records the slot twice |
| LockedScheduling.RecordedOnceIff | packages/server/src/scheduling/scheduling.service.ts:98-164 | no run records a slot twice exactly when a whole firing fits in the lease behind two failed refreshes, or the schedule never fires |
| LockedScheduling.CrashStartsSlotTwice | packages/server/src/scheduling/scheduling.service.ts:136-145 | for every configuration with a slot to serve, a crash between insert and update makes two calls start it |
| LockedScheduling.StartedOnceIff | packages/server/src/scheduling/scheduling.service.ts:136-145 | a slot is never started twice exactly for schedules that never fire |
| ContentUtils.BuildShingles | packages/server/src/seo-engine/content-utils.ts:20-31 | the loop collects the set of all windows of `size` words, or the whole text when it is shorter |
| ContentUtils.ShinglesExact | packages/server/src/seo-engine/content-utils.ts:20-31 | the shingles of a text are its windows at every position, first and last included, or the whole text if shorter, and each holds the words of its window |
| ContentUtils.ShingleInjective | packages/server/src/seo-engine/content-utils.ts:20-31 | two windows are one shingle exactly when they hold the same words |
| Text.WordsOfJoin | packages/server/src/seo-engine/content-utils.ts:20-31 | splitting joined words at white space gives the words back |
| Text.WordsOfSpread | packages/server/src/seo-engine/content-utils.ts:15-31 | whatever white space stands before, between and after words, splitting gives exactly the words |
| ContentUtils.SimilarityExact | packages/server/src/seo-engine/content-utils.ts:33-43 | similarity times the size of the union is the size of the intersection, and two empty sets have similarity 0 |
| ContentUtils.Jaccard | packages/server/src/seo-engine/content-utils.ts:33-43 | the loop over the smaller set computes intersection over union, and 0 for two empty sets |
| ContentUtils.TriangleInequality | packages/server/src/seo-engine/content-utils.ts:33-43 | Jaccard distance, with that convention, satisfies the triangle inequality on all finite sets |
| ContentUtils.SimilarToSimilar | packages/server/src/seo-engine/content-utils.ts:33-65 | what is similar to a similar page at threshold t is similar at 2t - 1 |
| ContentUtils.LostShingles | packages/server/src/seo-engine/content-utils.ts:20-31 | changing k words of a text loses at most size * k shingles |
| ContentUtils.EditRobustness | packages/server/src/seo-engine/content-utils.ts:20-43 | texts of equal length that differ in k words are at least (n - size k) / (n + size k) similar, n being the first one's shingles |
| ContentUtils.OneWordEditIsFlagged | packages/server/src/seo-engine/content-utils.ts:20-43 | a one-word edit of a text with 50 distinct shingles is at least 0.85 similar |
| ContentUtils.CollectDocuments | packages/server/src/seo-engine/content-utils.ts:45-52 | keeps the pages with at least 50 words, in order, with their shingles |
| ContentUtils.DetectDuplicateContent | packages/server/src/seo-engine/content-utils.ts:45-65 | the k-th pair reported has the URLs and the similarity of the pages at the k-th index pair, and two URLs are reported exactly when two long pages, in that order, at or above the threshold carry them |
| ContentUtils.DuplicatesExact | packages/server/src/seo-engine/content-utils.ts:45-65 | those are exactly the index pairs p < q of long pages at or above the threshold |
| ContentUtils.DuplicatesInOrder | packages/server/src/seo-engine/content-utils.ts:54-63 | each once, in lexicographic order |
| ContentUtils.OneWordEditIsReported | packages/server/src/seo-engine/content-utils.ts:45-65 | so the scan at 0.85 reports every such pair of pages |
| SiteIssues.FingerprintInjective | packages/server/src/audits/site-issues.service.ts:74-77 | the joined fingerprint identifies issue code and resource, because a code contains no colon |
| SiteIssues.SameKeyIff | packages/server/src/audits/site-issues.service.ts:23-26 | two rows are one issue exactly when their codes are equal and their URLs are equal after trimming, null counting as empty |
| Text.TrimExact | packages/server/src/audits/site-issues.service.ts:23-26 | trimming takes white space off both ends, only that, and leaves none there |
| Text.SpacesExact | packages/server/src/audits/site-issues.service.ts:23-26 | the characters that count as white space, one by one |
| SiteIssues.FirstRowExact | packages/server/src/audits/site-issues.service.ts:73-91 | the row whose details a group keeps is the first one with its key |
| SiteIssues.OccurrencesExact | packages/server/src/audits/site-issues.service.ts:73-91 | the count of a group is the number of positions with its key |
| SiteIssues.GroupRows | packages/server/src/audits/site-issues.service.ts:73-91 | the grouping loop builds the specified map, one key per fingerprint |
| SiteIssues.GroupedExact | packages/server/src/audits/site-issues.service.ts:73-91 | a group counts its rows and keeps the details of the first one |
| SiteIssues.TwoPhasesReconcile | packages/server/src/audits/site-issues.service.ts:93-152 | one upsert per group and one bulk close are together one pointwise update of the table |
| SiteIssues.SiteIssueTable.ReconcileAfterRun | packages/server/src/audits/site-issues.service.ts:51-154 | the transaction leaves the table in that state; `DetailsExact`, `FirstRunExact`, `ResolvedAtExact` and `UpdatedAtExact` say what its rows then hold |
| SiteIssues.SiteIssueTable.SetState | packages/server/src/audits/site-issues.service.ts:263-293 | patches the one row, with the ignore and resolve columns each state sets or clears |
| SiteIssues.HistoryKeepsRowOk | packages/server/src/audits/site-issues.service.ts:51-154 | over every history, `lastSeenAuditRunId = r` implies that the issue occurs in r |
| SiteIssues.SeenDatesExact | packages/server/src/audits/site-issues.service.ts:94-139 | over every history an issue's row exists from the first reconcile that sees it, with the dates of the first and the last one |
| SiteIssues.DetailsExact | packages/server/src/audits/site-issues.service.ts:94-139 | over every history a row carries severity, category and message of the first row with its key in the last reconciled run that contains it, and the count of that run; `lastSeenAuditRunId` is that run until it is deleted |
| SiteIssues.FirstRunExact | packages/server/src/audits/site-issues.service.ts:94-139 | `firstSeenAuditRunId` is the first reconciled run that contains it, until that is deleted |
| SiteIssues.RowWasSeen | packages/server/src/audits/site-issues.service.ts:94-139 | and every row has such a first and last run |
| SiteIssues.ResolvedAtExact | packages/server/src/audits/site-issues.service.ts:120-152 | over every history `resolvedAt` is there exactly when a reconcile has closed the issue and neither a later one nor a user has reopened it, and it tells the last time |
| SiteIssues.UpdatedAtExact | packages/server/src/audits/site-issues.service.ts:94-152 | `updatedAt` is the time of the last event that wrote the row: a run that contains the issue, one that closes it, or a user |
| SiteIssues.StepMatchesLife | packages/server/src/audits/site-issues.service.ts:93-152 | a step changes an issue as its documented life says, except exactly that an open issue whose last run was deleted is not closed |
| SiteIssues.TableRefinesLife | packages/server/src/audits/site-issues.service.ts:51-154 | while no run is deleted, every issue's state is the simple fold of the history |
| SiteIssues.OpenIffInRunAndNotIgnored | packages/server/src/audits/site-issues.service.ts:51-154 | after a reconcile the open issues are the run's minus the ignored ones exactly when no open issue outside the run has lost its last run |
| SiteIssues.DeletedRunLeavesIssueOpen | packages/server/src/audits/site-issues.service.ts:141-152 | the history, with a run deleted by hand, in which an unseen issue stays open |
| SiteIssues.IgnoredAtExact | packages/server/src/audits/site-issues.service.ts:263-293 | over every history `ignoredAt` and `ignoredByUserId` tell the last time a user ignored the issue exactly when nobody has set it to OPEN since, and are null otherwise |
| SiteIssues.ReopenedIssueKeepsIgnoredAt | packages/server/src/audits/site-issues.service.ts:263-293 | so an open issue can carry an old `ignoredAt` |
| SiteIssues.FilterIgnored | packages/server/src/audits/audit-processing.service.ts:163-175 | the filter keeps the issues whose fingerprint is not ignored, in order |
| SiteIssues.FilterJoins | packages/server/src/audits/audit-processing.service.ts:163-175 | the filter takes the parts of a list one by one, in order |
| SiteIssues.ScoredIssuesAreTheOpenOnes | packages/server/src/audits/audit-processing.service.ts:163-175 | the issues a run is scored on are exactly the ones its reconcile leaves open, when nothing happens in between |
| SiteIssues.ScoredIssuesAreOpenIff | packages/server/src/audits/audit-processing.service.ts:163-175 | and with anything in between, exactly when the same issues of the run are still ignored |
| AuditComparison.AggregateIssues | packages/server/src/audits/audit-comparison.service.ts:280-315 | the loop builds the specified Map, in insertion order |
| AuditComparison.SameSignatureIff | packages/server/src/audits/audit-comparison.service.ts:277-278 | of two issues with one code, the URL or else the message decides whether they share a signature; severity and category never do |
| AuditComparison.CountExact | packages/server/src/audits/audit-comparison.service.ts:280-315 | the count of a signature is the number of positions that have it |
| AuditComparison.AggregatedExact | packages/server/src/audits/audit-comparison.service.ts:280-315 | an entry counts the issues of its signature and carries fields with that signature |
| AuditComparison.FirstIssueIsKept | packages/server/src/audits/audit-comparison.service.ts:280-315 | code, category, severity, message and URL of an entry are those of the first issue of its signature |
| AuditComparison.OrderIsByFirstOccurrence | packages/server/src/audits/audit-comparison.service.ts:280-315 | the keys stand in the order of first occurrence |
| AuditComparison.DiffAggregates | packages/server/src/audits/audit-comparison.service.ts:359-378 | one change for each key of either map whose counts differ, details of the target first |
| AuditComparison.BuildComparisonSnapshot | packages/server/src/audits/audit-comparison.service.ts:265-430 | the baseline's score plus the score delta is the target's, a drop or an improvement is listed exactly for its sign, first and once; then the issue changes, both counts of the summary, the issue delta and the issues by severity |
| AuditComparison.ScoreChangesExact | packages/server/src/audits/audit-comparison.service.ts:330-356 | the score change comes first and only once: a drop exactly when the target's score is lower and an improvement exactly when it is higher, by the difference, null counting as 0 |
| AuditComparison.ChangesShowFirstIssues | packages/server/src/audits/audit-comparison.service.ts:359-378 | a change shows the first issue of its signature in the target, or in the baseline if the target has none |
| AuditComparison.ChangesInOrder | packages/server/src/audits/audit-comparison.service.ts:317-378 | the changes come in the order in which their signatures first occur in baseline and then target |
| AuditComparison.OfSeverityExact | packages/server/src/audits/audit-comparison.service.ts:271-275 | the number of issues of a severity is the number of positions that have it |
| AuditComparison.ChangesPatchBaseline | packages/server/src/audits/audit-comparison.service.ts:359-378 | applying the issue changes to the baseline's counts gives the target's, for every signature |
| AuditComparison.ChangesCompose | packages/server/src/audits/audit-comparison.service.ts:359-378 | a to b plus b to c is a to c, signature by signature |
| AuditComparison.ChangesNegate | packages/server/src/audits/audit-comparison.service.ts:359-378 | swapping the runs negates every delta |
| AuditComparison.IssueChangesAreProper | packages/server/src/audits/audit-comparison.service.ts:359-378 | no signature is reported twice or with delta 0, and the type follows the sign |
| AuditComparison.DeltasSumToIssuesDelta | packages/server/src/audits/audit-comparison.service.ts:359-391 | the deltas add up to the difference of the issue counts |
| AuditComparison.SummaryCountsSignatures | packages/server/src/audits/audit-comparison.service.ts:380-391 | the summary counts the signatures that grew or shrank, plus one for a lower or a higher score |
| AuditComparison.SwapExchangesSummary | packages/server/src/audits/audit-comparison.service.ts:330-391 | swapping the runs swaps improvements with regressions |
| AuditLifecycle.AuditStore.EnqueueAuditRun | packages/server/src/queue/queue.service.ts:54-65 | an add whose job id exists is ignored |
| AuditLifecycle.AuditStore.CreateAuditRun | packages/server/src/audits/audit-orchestration.service.ts:85-104 | a QUEUED run, then its RUN_QUEUED event, which may fail by itself |
| AuditLifecycle.AuditStore.MarkRunFailed | packages/server/src/audits/audit-orchestration.service.ts:106-134 | FAILED and RUN_FAILED together |
| AuditLifecycle.AuditStore.BeginQueuedRun | packages/server/src/audits/audit-processing.service.ts:68-142 | the guard on QUEUED, the throttle with its requeue, the missing site, the start, and the RUN_STARTED event, which may fail by itself |
| AuditLifecycle.AuditStore.PersistCompleted | packages/server/src/audits/audit-processing.service.ts:196-312 | issues, COMPLETED and RUN_COMPLETED in one transaction |
| AuditLifecycle.AuditStore.ReconcileQueuedRuns | packages/server/src/audits/audit-orchestration.service.ts:141-176 | the sweep enqueues every candidate under a new id, except those whose enqueue throws, and counts the rest |
| AuditLifecycle.DeliveryOutcome | packages/server/src/audits/audit-processing.service.ts:68-142 | a delivered QUEUED run stays queued exactly when the site's cap is used up, fails when its site is gone, and is RUNNING otherwise; what happens to its log, its worker and its job, and that no other run changes |
| AuditLifecycle.CreationOutcome | packages/server/src/audits/audit-orchestration.service.ts:85-104 | a created run is QUEUED with its site and date, has its event and its job as far as the creation gets, and leaves everything else alone |
| AuditLifecycle.ExecutionOutcome | packages/server/src/audits/audit-processing.service.ts:196-446 | persisting, failing, finishing and dying: status, log, issues and worker of the run afterwards, and nothing else |
| AuditLifecycle.StepKeepsSound | packages/server/src/audits/audit-processing.service.ts:68-446 | every step keeps: log and status agree but for a lost RUN_QUEUED or RUN_STARTED, issues come with RUN_COMPLETED, workers match runs, and no site exceeds its cap |
| AuditLifecycle.StatusOnlyRises | packages/server/src/audits/audit-processing.service.ts:68-446 | over every run of the system a run's status only rises in QUEUED < RUNNING < COMPLETED < FAILED and its log is only appended to |
| AuditLifecycle.LogAgreesWithStatus | packages/server/src/audits/audit-processing.service.ts:68-446 | RUN_STARTED is logged at most once and missing only on queued, failed or abandoned runs, RUN_FAILED exactly for FAILED runs, issues are stored exactly with RUN_COMPLETED, and the cap holds |
| AuditLifecycle.SweepLosesNothing | packages/server/src/audits/audit-orchestration.service.ts:141-176 | after a sweep over at most `limit` stale runs without throwing enqueues, every stale QUEUED run has a deliverable job, whatever was dropped before |
| AuditLifecycle.ThrottledRequeueIffNoDefaultJob | packages/server/src/audits/audit-processing.service.ts:97-115 | the requeue of a throttled run takes effect exactly when no job with its default id exists |
| AuditLifecycle.FirstThrottleLosesTheJob | packages/server/src/audits/audit-processing.service.ts:97-115 | so a run throttled on its original job is left QUEUED with nothing to deliver it |
| AuditLifecycle.AbandonedForGood | packages/server/src/audits/audit-processing.service.ts:68-95 | a RUNNING run whose worker died stays so over every run |
| AuditLifecycle.CanEndIffWorkedOn | packages/server/src/audits/audit-processing.service.ts:68-446 | a RUNNING run can still end exactly as long as a worker works on it |
| AuditLifecycle.AbandonedRunsBlockSite | packages/server/src/audits/audit-processing.service.ts:91-115 | when they fill the cap, whatever it is, no queued run of the site ever starts |
| AuditLifecycle.CanStartIffRoom | packages/server/src/audits/audit-processing.service.ts:91-115 | a queued run of an existing site can still start exactly when fewer of the site's runs are abandoned than the cap allows |
| LoginBackoff.LoginGuard.AssertNotLockedOut | packages/server/src/auth/auth.service.ts:168-184 | refuses during a lock and lets everybody pass when Redis is unreachable |
| LoginBackoff.LoginGuard.RecordLoginFailure | packages/server/src/auth/auth.service.ts:192-217 | the strike, its expiry, the lock and the alert, and how far each goes when Redis times out |
| LoginBackoff.LoginGuard.ClearLoginFailures | packages/server/src/auth/auth.service.ts:219-227 | removes both keys, or neither when Redis is unreachable |
| LoginBackoff.LockImpliesCounter | packages/server/src/auth/auth.service.ts:124-227 | over every serialised run, whatever Redis does, a live lock implies a live counter, ends within 30 minutes, and one counter life sends at most one alert |
| LoginBackoff.HourlyWindowIff | packages/server/src/auth/auth.service.ts:186-217 | after an hour without events the strikes are forgotten, except exactly when every EXPIRE of this life was lost |
| LoginBackoff.LostExpireNeverForgets | packages/server/src/auth/auth.service.ts:192-217 | one lost EXPIRE on a first failure is enough |
| LoginBackoff.BackoffBound | packages/server/src/auth/auth.service.ts:43-47 | with Redis up the n-th failed check (n >= 10) of a counter life comes at least 1860 + 1800 (n - 10) seconds after the fifth |
| LoginBackoff.BackoffBoundIsReached | packages/server/src/auth/auth.service.ts:43-47 | and that bound is reached for every n |
| LoginBackoff.LocksDouble | packages/server/src/auth/auth.service.ts:43-47 | the locks are 1, 2, 4, 8 and 16 minutes, then half an hour |
| LoginBackoff.AlertIffEighthStrike | packages/server/src/auth/auth.service.ts:192-217 | an email goes out exactly when the eighth strike of a known user is recorded without a timeout |
| LoginBackoff.AlertedFromEighthStrike | packages/server/src/auth/auth.service.ts:192-217 | over every run with Redis up, a counter life of a known user has had its one email exactly from the eighth strike on |
| SessionTokens.AuthService.IssueSession | packages/server/src/auth/auth.service.ts:523-595 | adds one live refresh token for the user |
| SessionTokens.AuthService.Refresh | packages/server/src/auth/auth.service.ts:282-347 | succeeds exactly for a CSRF-checked, signed, stored, unrevoked, unexpired token of an existing user, and rotates it |
| SessionTokens.AuthService.GetSession | packages/server/src/auth/auth.service.ts:355-401 | answers the user of exactly such a token and changes nothing |
| SessionTokens.AuthService.Logout | packages/server/src/auth/auth.service.ts:407-426 | revokes the presented token |
| SessionTokens.AuthService.CreatePasswordResetToken | packages/server/src/auth/auth.service.ts:258-275 | uses up the user's earlier reset tokens and adds one |
| SessionTokens.AuthService.ResetPassword | packages/server/src/auth/auth.service.ts:467-521 | succeeds exactly for an unused, unexpired token; sets the password and revokes every session of its user |
| SessionTokens.RefreshTradesOneToken | packages/server/src/auth/auth.service.ts:282-347 | an accepted refresh trades exactly one live token for another, and a refused one changes nothing |
| SessionTokens.RevokedForGood | packages/server/src/auth/auth.service.ts:282-401 | a revoked token is never accepted again, whatever happens later |
| SessionTokens.RefreshedTokenIsDead | packages/server/src/auth/auth.service.ts:282-347 | presenting a refreshed token again is refused for ever |
| SessionTokens.NoMoreTokensThanLogins | packages/server/src/auth/auth.service.ts:282-595 | over every run a user's live tokens never exceed their logins since the last reset |
| SessionTokens.ResetTokenWorksOnce | packages/server/src/auth/auth.service.ts:467-521 | a reset token changes its own user's password once, leaves no session alive, and is refused for ever after |
| SessionTokens.OneUsableResetToken | packages/server/src/auth/auth.service.ts:258-275 | over every run a user has at most one usable reset token |
| SessionTokens.LoginOpensOneSession | packages/server/src/auth/auth.service.ts:523-595 | a new session is accepted exactly until its token expires, and no other cookie is treated differently |
| SessionTokens.RefreshMovesOneSession | packages/server/src/auth/auth.service.ts:282-347 | an accepted refresh does the same for the new token, ends the presented one and leaves the rest |
| SessionTokens.LogoutEndsOneSession | packages/server/src/auth/auth.service.ts:407-426 | after a logout the presented token is refused over every later run, every other one is accepted as before, and without the CSRF token nothing happens |
| SessionTokens.RequestedLinkWorks | packages/server/src/auth/auth.service.ts:258-275 | a requested reset token works exactly until it expires, the user's earlier ones no longer do, and those of others are not touched |
| SessionTokens.ResetTouchesOneUser | packages/server/src/auth/auth.service.ts:467-521 | a working reset ends the sessions of its user and no others and spends its token and no others |
| SessionTokens.DatesAreThoseOfEvents | packages/server/src/auth/auth.service.ts:258-521 | stored tokens keep user, token and expiry, and a date of revocation or use is that of the event that wrote it |
| Permissions.CatalogueExact | packages/shared-types/src/index.ts:18-91 | which permissions each set holds |
| Permissions.ComputeEffectivePermissions | packages/shared-types/src/index.ts:99-116 | both loops compute defaults plus extras minus revoked, with owner-exclusive extras dropped |
| Permissions.ValidateOverrides | packages/server/src/projects/projects.service.ts:540-565 | accepts exactly the valid overrides and names an offending permission of the right kind |
| Permissions.ExclusiveStaysWithOwners | packages/shared-types/src/index.ts:42-116 | an owner-exclusive permission is held exactly by owners, whatever overrides are stored |
| Permissions.ValidOverridesTakeEffect | packages/shared-types/src/index.ts:99-116 | valid overrides take effect exactly as written |
| Membership.ProjectService.CreateProject | packages/server/src/projects/projects.service.ts:50-84 | a project with its creator as the only member, as OWNER |
| Membership.ProjectService.DeleteProject | packages/server/src/projects/projects.service.ts:169-175 | the project goes with its members and invites |
| Membership.ProjectService.AssertPermission | packages/server/src/projects/projects.service.ts:606-614 | passes exactly for members whose effective permissions include it |
| Membership.ProjectService.RemoveMember | packages/server/src/projects/projects.service.ts:429-458 | all refusals, and the removal of exactly one non-owner |
| Membership.ProjectService.UpdateMemberPermissions | packages/server/src/projects/projects.service.ts:473-533 | all refusals, and the replaced role and overrides |
| Membership.ProjectService.CreateInvite | packages/server/src/invitations/invitations.service.ts:50-159 | all refusals, and the stored invite |
| Membership.ProjectService.RevokeInvite | packages/server/src/invitations/invitations.service.ts:189-224 | all refusals, and the removal of a pending invite |
| Membership.ProjectService.AddMember | packages/server/src/projects/projects.service.ts:631-654 | never adds an OWNER or invalid overrides and never changes an existing member |
| Membership.ProjectService.AcceptInvite | packages/server/src/invitations/invitations.service.ts:226-278 | all refusals, and the seat with the accepted invite |
| Membership.HandleKeepsSound | packages/server/src/projects/projects.service.ts:429-654 | every handler keeps the membership invariant |
| Membership.MembershipInvariant | packages/server/src/projects/projects.service.ts:50-654 | over every run each project has exactly one OWNER, its creator; all stored overrides are valid; every other member came through an accepted invite that the owner issued to their email; owner-exclusive permissions stay with the owner |
| Membership.OthersChangeNothing | packages/server/src/projects/projects.service.ts:606-614 | nobody but the owner can delete, invite, revoke, remove or change; every such attempt is refused and changes nothing |
| Membership.OwnerIsPermanent | packages/server/src/projects/projects.service.ts:429-533 | the creator keeps every permission under every handler but the project's deletion |
| Membership.AcceptNeverFailsNorOverwrites | packages/server/src/invitations/invitations.service.ts:226-278 | accepting one's own live invite always succeeds, seats the user as invited, and alters no existing member |
| Membership.DeletionWorksIff | packages/server/src/projects/projects.service.ts:169-175 | succeeds exactly for the owner, and then exactly the project's seats and invites are gone |
| Membership.RemovalWorksIff | packages/server/src/projects/projects.service.ts:429-458 | succeeds exactly for the owner and another member, and then exactly that seat is gone |
| Membership.UpdateWorksIff | packages/server/src/projects/projects.service.ts:473-533 | succeeds exactly for the owner, another member, and a role and overrides allowed; then exactly that member has them |
| Membership.InvitationWorksIff | packages/server/src/invitations/invitations.service.ts:50-159 | succeeds exactly for the owner, a role and overrides allowed, and an address without pending invite or seat; the invite is as asked for and live for exactly seven days |
| Membership.RevocationWorksIff | packages/server/src/invitations/invitations.service.ts:189-224 | succeeds exactly for the owner and a pending invite of the project, and then exactly that one is gone |
| Membership.AcceptanceWorksIff | packages/server/src/invitations/invitations.service.ts:226-278 | succeeds exactly while the invite is live and for a user with its address |
| Membership.AcceptanceSpendsOneInvite | packages/server/src/invitations/invitations.service.ts:226-278 | and then the user has a seat, the invite is dated, and nothing else changes |
| Membership.AddingWorksIff | packages/server/src/projects/projects.service.ts:631-654 | refused exactly for OWNER or overrides not allowed; otherwise the user has a seat, as asked for unless there was one, and no other seat changes |
| ApiClient.Client.StartRefresh | apps/web/src/lib/api-client.ts:67-79 | joins the outstanding refresh or starts one |
| ApiClient.Client.OnRefreshEnded | apps/web/src/lib/api-client.ts:75-77 | stores the verdict and clears `refreshing` before any waiter goes on |
| ApiClient.Client.Send | apps/web/src/lib/api-client.ts:132-241 | a GET joins the one in flight on its path; other calls start, behind a refresh when there is no token |
| ApiClient.Client.OnAnswer | apps/web/src/lib/api-client.ts:109-179 | what an answer leads to: a retry with its sleep, a refresh, the body, or the result |
| ApiClient.Client.OnRefreshAwaited | apps/web/src/lib/api-client.ts:138-156 | fetch after the early refresh; replay, deliver the 401 or fail after the late one |
| ApiClient.RequestStarts | apps/web/src/lib/api-client.ts:132-241 | a GET in flight is joined; any other request adds one call, which awaits a refresh first exactly with a refresher, a getter without a token, and a path outside the five that work signed out |
| ApiClient.AnswerLeadsTo | apps/web/src/lib/api-client.ts:109-241 | what each answer leads to: GETs are repeated after network errors and 408, 500, 502, 503, 504 while attempts are left; a 401 is taken to a refresh; a 2xx is a success |
| ApiClient.AnswerIsBooked | apps/web/src/lib/api-client.ts:109-171 | the answer, the sleep of 300 * 2^attempt ms plus jitter, and one notice for each 401 that is not taken to a refresh |
| ApiClient.ContinuationLeadsTo | apps/web/src/lib/api-client.ts:138-179 | an early refresh lets the call go on, granted or refused; a late one replays it or delivers the 401; a refresh that throws fails it; only a good answer needs a readable body |
| ApiClient.ResultIsLastAnswer | apps/web/src/lib/api-client.ts:81-179 | over every run the result of a call not ended by a failed refresh is that of its last answer |
| ApiClient.StepKeepsInv | apps/web/src/lib/api-client.ts:55-241 | every continuation keeps the invariant of calls, `inflight` and `refreshing` |
| ApiClient.AtMostOneRefresh | apps/web/src/lib/api-client.ts:58-79 | over every run at most one `refreshSession()` is outstanding |
| ApiClient.InflightHoldsThePendingGets | apps/web/src/lib/api-client.ts:181-193 | over every run `inflight` holds exactly the paths with an unsettled GET, and there is one GET per path |
| ApiClient.RefreshCallsNeverWait | apps/web/src/lib/api-client.ts:144-156 | a call to the refresh endpoint never waits for a refresh and is never replayed |
| ApiClient.MutationsRepeatOnlyAfter401 | apps/web/src/lib/api-client.ts:81-156 | a mutation is sent at most twice, and twice only after a 401 and a granted refresh |
| ApiClient.UnauthorizedIsFinal | apps/web/src/lib/api-client.ts:144-171 | a call fails with 401 only where no refresh could help, was refused, or the replay got a 401 too |
| ApiClient.OthersStaySilent | apps/web/src/lib/api-client.ts:158-171 | a settled call has told `onUnauthorized` exactly when its result is a 401 |
| ApiClient.GetsGiveUpLast | apps/web/src/lib/api-client.ts:108-130 | a GET reports an unavailable server only after all attempts |
| ApiClient.SleepsWithin | apps/web/src/lib/api-client.ts:253-257 | n retries sleep between 300 (2^n - 1) and 300 (2^n - 1) + 149 n ms |
| ApiClient.FetchesBounded | apps/web/src/lib/api-client.ts:81-156 | no call fetches more than 2 (maxRetries + 1) times |
| ApiClient.BoundedIffRetriesNonNegative | apps/web/src/lib/api-client.ts:113-124 | the number of fetches is bounded exactly when `maxRetries` is not negative |
| ApiClient.NoCallIsStuck | apps/web/src/lib/api-client.ts:67-193 | an unsettled call can be continued or waits for a refresh that is under way |
| ApiClient.CallsEnd | apps/web/src/lib/api-client.ts:67-193 | a call is continued at most 4 maxRetries + 6 times, and after that many it has settled |
| ApiClient.CoalescesIffOutstanding | apps/web/src/lib/api-client.ts:67-79 | a 401 starts a refresh of its own exactly when none is outstanding |
| ApiClient.LateUnauthorizedRefreshesAgain | apps/web/src/lib/api-client.ts:144-156 | so two calls with the same expired token can refresh twice |
| PublicBadges.BadgeCache.RenderSvg | packages/server/src/public-badges/public-badges.service.ts:41-76 | a hit shows the cached badge; a miss shows the uncached one and stores it with its TTL if Redis is reached |
| PublicBadges.BadgeCache.Invalidate | packages/server/src/public-badges/public-badges.service.ts:78-85 | drops the entry if Redis is reached |
| PublicBadges.BadgeShowsScoreIff | packages/server/src/public-badges/public-badges.service.ts:18-76 | the score is shown exactly for an existing, enabled site that has one, pending exactly for an enabled one without, and off for the rest; the score is kept 300 s and the others 60 s |
| PublicBadges.StepKeepsInv | packages/server/src/public-badges/public-badges.service.ts:41-85 | every round trip keeps: what is cached or about to be was current when it was read, and expires in time |
| PublicBadges.BoundedStaleness | packages/server/src/public-badges/public-badges.service.ts:18-76 | over every interleaving a shown badge was the uncached one at an instant of the last 300 s (60 s for off and pending) plus the delay of a render |
| PublicBadges.StalenessIsReached | packages/server/src/public-badges/public-badges.service.ts:18-76 | that bound is reached |
| PublicBadges.InvalidationHoldsIffNoStaleRender | packages/server/src/public-badges/public-badges.service.ts:31-85 | after an invalidation the cache shows only rows from then on exactly when no render is about to store an outdated badge |
| PublicBadges.FirstRenderAfterInvalidate | packages/server/src/public-badges/public-badges.service.ts:31-85 | one request after the other, the first render after an invalidation shows the present badge |
| Indexability.CollectPages | packages/server/src/seo-engine/indexability-analyzer.ts:22-30 | the loop over the pages builds the specified Map |
| Indexability.CollectSitemap | packages/server/src/seo-engine/indexability-analyzer.ts:32-59 | the loop over the sitemap extends it |
| Indexability.BuildIndexabilityMatrix | packages/server/src/seo-engine/indexability-analyzer.ts:14-67 | returns the sorted rows of that Map |
| Indexability.OneRowPerUrl | packages/server/src/seo-engine/indexability-analyzer.ts:14-67 | exactly one row for each normalised URL of the pages and the sitemap |
| Indexability.RowExact | packages/server/src/seo-engine/indexability-analyzer.ts:14-182 | a row's URL, source, status and evidence come from the first page of the highest source rank, or from the first sitemap URL; `sitemapIncluded` exactly for listed keys |
| Indexability.RowStatusIff | packages/server/src/seo-engine/indexability-analyzer.ts:101-133 | each status exactly under its condition, in the order of precedence, with `noindex` looked for anywhere in both the robots directive and the X-Robots-Tag |
| Indexability.RowEvidenceExact | packages/server/src/seo-engine/indexability-analyzer.ts:69-99 | URL, source and every field of the evidence are those of the naming page, and `sitemapIncluded` says whether the sitemap lists the URL |
| Indexability.SitemapOnlyRowExact | packages/server/src/seo-engine/indexability-analyzer.ts:32-59 | a URL that only the sitemap knows has no facts and is private or unknown |
| Indexability.SourceOrder | packages/server/src/seo-engine/indexability-analyzer.ts:176-182 | homepage, crawl, HEAD, sitemap, probe |
| Indexability.RowFactsExact | packages/server/src/seo-engine/indexability-analyzer.ts:161-174 | an optional field is filled exactly when some page of the key records it, from one of those pages, and from the naming page if that one does |
| Indexability.RowFactsByField | packages/server/src/seo-engine/indexability-analyzer.ts:161-174 | status code, canonical URL, robots directive and X-Robots-Tag of a row are each recorded as that field by a page of the URL |
| Indexability.SitemapLeavesPageRows | packages/server/src/seo-engine/indexability-analyzer.ts:32-42 | the second loop changes no row of a crawled page |
| Indexability.EvidenceAgreesIff | packages/server/src/seo-engine/indexability-analyzer.ts:161-174 | a row and its evidence agree on a field exactly when the naming page records it or no page does |
| Indexability.OrderFreeIff | packages/server/src/seo-engine/indexability-analyzer.ts:161-182 | all orders of the same pages show the same fact exactly when all facts recorded for it agree or all pages of the highest rank record one and the same |
| Indexability.FactsDependOnOrder | packages/server/src/seo-engine/indexability-analyzer.ts:161-182 | an instance in which two orders show two canonical URLs |
| Indexability.IndexableRowIff | packages/server/src/seo-engine/indexability-analyzer.ts:22-30 | a row is INDEXABLE exactly when the first page of the highest source rank is clean and has answered below 400 |
| Indexability.ComparatorConsistent | packages/server/src/seo-engine/indexability-analyzer.ts:61-66 | the comparator is consistent on the rows, whose keys are distinct |
| Indexability.HomepageFirstRestSorted | packages/server/src/seo-engine/indexability-analyzer.ts:61-66 | the homepage comes first and the other URLs follow in order |
| ActionItems.GroupIssues | packages/server/src/audits/action-item-builder.ts:43-69 | the loop builds the specified groups |
| ActionItems.BuildAuditActionItems | packages/server/src/audits/action-item-builder.ts:43-74 | returns the sorted items of those groups |
| ActionItems.ListedCodes | packages/server/src/audits/action-item-builder.ts:43-74 | an item for exactly the codes that occur |
| ActionItems.CodesDistinct | packages/server/src/audits/action-item-builder.ts:43-74 | and only one for each |
| ActionItems.ItemsExact | packages/server/src/audits/action-item-builder.ts:43-128 | occurrences, number of affected URLs and the first eight of them in order, evidence, the first issue's category, severity and message of the first most severe one, and the estimates that follow |
| ActionItems.ScoresExact | packages/server/src/audits/action-item-builder.ts:82-128 | the rounded and capped score impact, the priority with the weights 100, 70, 40, 15 and its capped bonuses, never negative, and the thresholds of impact and effort |
| ActionItems.CountExact | packages/server/src/audits/action-item-builder.ts:43-69 | an item's occurrences are the positions of its code |
| ActionItems.AffectedExact | packages/server/src/audits/action-item-builder.ts:43-80 | its URLs are those of the code's issues that have one |
| ActionItems.EvidenceJoins | packages/server/src/audits/action-item-builder.ts:43-69 | its evidence is that of the issues one after the other |
| ActionItems.ShortLists | packages/server/src/audits/action-item-builder.ts:43-103 | cut off after three pieces and eight URLs |
| ActionItems.OccurrencesSumToIssues | packages/server/src/audits/action-item-builder.ts:43-74 | the occurrences of all items add up to the number of issues |
| ActionItems.ItemsSorted | packages/server/src/audits/action-item-builder.ts:71-73 | highest priority first |
| ActionItems.TiesKeepFirstOccurrence | packages/server/src/audits/action-item-builder.ts:71-73 | codes of equal priority stay in the order in which they first occur |
| ActionItems.PriorityPermutes | packages/server/src/audits/action-item-builder.ts:76-95 | permuting the issues changes no item's priority, severity, impact or counts |
| ActionItems.PriorityGrows | packages/server/src/audits/action-item-builder.ts:76-209 | appending issues never lowers a priority, severity, impact or effort when the code's repeat increment is not negative, as it is in the whole table |
| Sorting.SortedOrdered | packages/server/src/audits/action-item-builder.ts:71-73 | a consistent comparator leaves no element before one that belongs in front of it |
| Sorting.SortedStable | packages/server/src/audits/action-item-builder.ts:71-73 | an element stays in front of a later one that does not belong before it |

## Left out

- HTTP controllers, Nest modules, BullMQ worker wiring, metrics, tracing, health checks, configuration parsing, React components and mail rendering: plumbing and text.
- Argon2, JWT signing, HMAC, encryption, cookies and the CSRF comparison: signed tokens, hashes and random values are abstract, and the comparison's result is an input.
- The Cheerio extractors, `homepage-html-analyzer.ts`, `content-checks.ts`, the remaining checks of the engine and `scoreAudit`: lists of single checks over a foreign parser, or arithmetic that no modelled protocol depends on.
- Exports, outbound and email deliveries, Search Console imports and activity logging: status rows that would add only easier members.
- `compareProjectRuns`, `persistComparisonForRun` and the stored comparison rows: the model ends at the snapshot.
- AuditComparison.BuildComparisonSnapshot: the runs themselves and the placeholder row (`id: 'transient'`, dates) that the snapshot carries along are not modelled.
- Races inside one server handler: each handler is atomic, except that in `AuditLifecycle` the RUN_QUEUED and RUN_STARTED events can be lost on their own, and in `LockedScheduling` a firing has separate steps for its audit run and its `lastRunAt`. The prefix of `processQueuedRun` from the status guard to RUNNING is one step; what two workers reading the same QUEUED row at once would do is not captured.
- AuditLifecycle.LogAgreesWithStatus: one start per run and the cap hold because the status guard and the move to RUNNING are one step.
- AuditLifecycle.AuditStore.BeginQueuedRun: the guard, the count of running runs and the move to RUNNING are one step here.
- Daylight-saving transitions and calendar zones: a schedule has a fixed offset; `timeOfDay` is either malformed or a time of day, without the corner cases of `Number()`.
- Floating-point rounding: similarities, thresholds and score impacts are exact rationals. The repeat increments in the table are multiples of a quarter, so `Math.round` sees no rounding error there.
- Scheduling.EverySlotFiresOnce: asks for a successful tick in the slot's first minute and for earlier firings to have finished, because the code skips a slot whose previous firing ended after it began.
- Scheduling.ScheduleTable.RunDueSchedules: writing the error log inside `catch` is assumed to succeed; if it threw, the tick would end there.
- LockedScheduling.RecordedOncePerSlot: `maxFiring`, the longest time from the abort check to the end of the `try` block, is a parameter, because the code sets no bound; clocks of replicas may be behind but not ahead.
- LockedScheduling.LeaseGivesOneFiringPerSlot: is about runs in which an aborted call no longer writes, which the code does not enforce; `RecordedOnceIff` is the statement without that assumption.
- DistributedLock.MutualExclusion: assumes that nothing but this protocol and expiry changes the key, that tokens are fresh, and that timers and requests are late by at most `lag`.
- LoginBackoff.BackoffBound: logins of one email are handled one after the other; concurrent password checks of one email are not modelled.
- ApiClient.Client.Send: `extraHeaders` and bodies are not modelled, nor that a GET joining another one ignores its own headers; a `maxRetries` that is not an integer behaves like a negative one.
- PublicBadges.BadgeCache.RenderSvg: the query is a parameter that gives the flag and the latest completed score; SVG text, tones and XML escaping are not modelled.
- Indexability.RowExact: the explanatory `reason` texts of the evidence are not modelled.
- ActionItems.ItemsExact: titles, recommended actions, prompts and the wording of evidence are not modelled; an issue's evidence text is an input.
- Sorting.SortedStable: `Array.prototype.toSorted` is modelled as an insertion sort, which agrees with it on consistent comparators; the comparators used are proved consistent.
