# Plate, verified

Plate is a media service. Originals go to a private vault, a worker derives renditions, and
the service hands out URLs: public, signed for the owner, or granted to a visitor under a
revocable grant. Around that sit a job queue with leases, a two-step upload, a two-step
delete, capabilities that expire, a checksum sweep, and a handful of exact codecs. This
project models that logic in Dafny and proves what it keeps.

## How to read it

Each table of the database is a map keyed by id (`Records`). Each SQL statement or
transaction is one function from tables to tables, and the class method that performs it is
proved equal to that function. Concurrency is a state machine: a step is one statement, one
storage operation or the passing of time, a run is any legal sequence of steps, and theorems
quantify over all runs. Some states carry history (asset births and purges, first deletions,
signatures made, responses served); nothing the modelled code decides depends on it, except
that a signature verifies only if it was made.

| modules | what they hold |
|---|---|
| `Contract`, `Records`, `Collections`, `Text`, `Decimal` | enumerations, table rows, stock lemmas on lists, strings and printed integers |
| `JobQueue` | the queue's statements and the class that performs them |
| `Workers`, `WorkerSafety`, `WorkerLease`, `WorkerDrain`, `WorkerRecovery`, `WorkerOutcomes` | N workers over one queue: invariants of every run, exclusion under the lease assumption, draining with and without crashes behind; what a worker decides about a file and what becomes of the job |
| `AssetStore`, `Paging` | account-scoped statements, classification of a requested set, exports, pages |
| `Lifecycle`, `LifecycleHistory`, `LifecycleBytes`, `LifecycleOutcomes`, `Reconcile` | finalize against the two sweeps: the machine, what it remembers, when bytes are safe, what each brings about, and the sweep loops |
| `TokenApi`, `TokenAnswers`, `AccountScope`, `AccountRuns` | the token endpoints as answer plus written rows; what each answers and writes; isolation between accounts, call by call and over runs with workers and sweeps |
| `Verdicts`, `GrantCache` | what the store says of a grant, and the cache under concurrent callers |
| `Resolution`, `UrlPath`, `Delivery`, `DeliveryBounds`, `DeliveryServes` | from intent to URL, how a key is read back from a URL, the download edge over time, what it lets through at most and for how long, and what it does let through |
| `UploadStories` | from upload through the worker to the URL |
| `Checksum`, `ChecksumRace` | the checksum statements and pass; sweeps racing derive jobs |
| `Ids`, `Positional`, `Ordering`, `Keys` | ULIDs, storage keys, signed messages |
| `MediaSpec`, `Fit`, `ImagePath` | presets and their pixel bounds, the fit, printed image URLs and the grammar that reads them |

Ids handed to a request as fresh are ones no row has used. In `Delivery` ids and account
names, which are printed into URLs as they stand, hold no control character, percent sign,
question mark or hash. Three further assumptions are explicit predicates of the model.
`WorkerLease.LeaseKept`: a live worker's last lease write is never older than the lease.
Heartbeats run only around the transcode, so download, probe and upload must each fit too.
`Lifecycle.LateCommit` (negated): no finalize commits on an upload older than the grace
window. `ChecksumRace.World`: a key holds the same bytes whenever it holds any. The first two
are shown to be needed by concrete runs that break the property
(`WorkerLease.StaleWorkerRequeues`, `LifecycleBytes.LateCommitLosesBytes`,
`LifecycleBytes.CommitAfterDeleteLosesBytes`), and the exact conditions are
`WorkerSafety.FinishedJobDisturbedIff` and `LifecycleBytes.RunsAreWholeIff`.

Where code and documentation disagree the model follows the code:

- The zoom ladder is documented as staying under 24,000,000 pixels. The wide cap 6197 is one
  above floor(sqrt(38,400,000)) and the fit rounds up, so the deepest rung can reach
  24,000,981; `MediaSpec.DeepestRungArea` says exactly when it passes 24,000,000.
- The comment on `grantCache` says the key is the grant id alone; the code keys on grant and
  asset.
- Comments speak of succeeded and failed jobs as final. Two writes carry no status guard;
  `WorkerSafety.FinishedJobDisturbedIff` says exactly when one of them moves a finished job.
- Comments say documents pass through to public storage. The routing table has no entry for a
  document but `original`, so every other intent on a document is refused
  (`Resolution.DeliversIff`).
- `validIntent` and the image branch of delivery let an image be asked for `poster`, `loop` or
  `detail`, although the routing table has no such entry. The answer is a URL naming a preset
  no host configures: `Resolution.DeliveredUrlServesIff` says exactly which URLs handed out
  can be served, `Resolution.ImageLoopIsDeadLink` gives the case.
- The comment on `mac` says a NUL cannot appear in any signed field. The service signs none,
  but the edge decodes the fields of a request, and there one can: an owner's signature
  verifies for a request nobody signed (`DeliveryBounds.NulShiftsFields`), which no grant then
  answers for. `DeliveryBounds.VerifiedWasMinted` says exactly when a verified request is one
  that was signed; `DeliveryBounds.LetThroughWasSigned` that what is let through always was.
- A comment on authored loops says they are silent. The code accepts one with sound
  (`WorkerOutcomes.LoopAccepted`).
- Account ids are documented as letters, digits and `_.-`. Only self-provisioning checks it
  (`TokenAnswers.AccountProvisioned`); an account the operator gave a slash finds every
  download signed for it denied (`DeliveryServes.OwnerUrlServes`,
  `DeliveryServes.GrantedUrlServes`).
- `itoa` prints the most negative 64-bit integer as a bare sign; every other integer reads
  back (`MediaSpec.ItoaReadsBack`).

## Model

| member | source | states |
|---|---|---|
| `JobQueue.JobStore.EnqueueJob` | internal/store/queue.go:49-82 | a newest job of the triple that has not failed is answered and nothing written; otherwise exactly one fresh queued row is added, or nothing when the asset row is missing |
| `JobQueue.JobStore.EnqueueRemuxJob` | internal/store/queue.go:93-132 | as above, but a standing job is re-pointed at the new file without being queued again, and reported queued |
| `JobQueue.JobStore.ClaimNextJob` | internal/store/queue.go:143-197 | no job exactly when no unlocked row is queued or stale; otherwise a first row by tier and age becomes running with one more attempt and a fresh lease; a row whose asset is not its account's is claimed and not handed out |
| `JobQueue.JobStore.Heartbeat` | internal/store/queue.go:201-206 | renews the lease of a running job and touches nothing else |
| `JobQueue.JobStore.CompleteJob` | internal/store/queue.go:211-247 | ready rendition and succeeded job together, and only from running; otherwise nothing |
| `JobQueue.JobStore.CompleteJobNoRendition` | internal/store/queue.go:253-257 | succeeded whatever the status was |
| `JobQueue.JobStore.FailJob` | internal/store/queue.go:262-280 | back to queued while attempts remain, failed with a reason after, whatever the status was |
| `JobQueue.JobStore.FailedRenditionForCeiling` | internal/store/queue.go:351-358 | records the refusal over any earlier row and keeps that row's other columns; fails when the asset is gone |
| `JobQueue.JobStore.MarkNotDerived` | internal/store/queue.go:374-381 | records an opt-out and never overwrites a row |
| `JobQueue.JobStore.PurgeDeletedAsset` | internal/store/queue.go:320-323 | removes a marked asset with its jobs and renditions, and nothing of an unmarked one |
| `JobQueue.NextExists` | internal/store/queue.go:153-171 | whenever some unlocked row is runnable, a first one exists |
| `JobQueue.NewestExists` | internal/store/queue.go:56-64 | whenever a job of the triple exists, a newest one does |
| `JobQueue.FirstChoice` | internal/store/queue.go:143-170 | the row claimed: stream copies and posters before everything, loops before everything else, and the oldest first within each; whatever unlocked queued or stale row it is compared with |
| `Workers.AcceptedLoopIsSmall` | internal/worker/worker.go:370-416 | a loop within its authored limits is at most seven and a half megabytes, so the size limit never decides for loops |
| `WorkerOutcomes.DetailAccepted` | internal/worker/worker.go:370-396 | an authored detail is accepted exactly when it is H.264 with AAC or no sound, at most 1920 by 1080, 8 Mbit/s and two gibibytes, and refused for the first of these it breaks, size first |
| `WorkerOutcomes.LoopAccepted` | internal/worker/worker.go:397-410 | an authored loop exactly when it is H.264, no edge over 1920, at most thirty seconds, 2 Mbit/s and two gibibytes, and refused for the first it breaks; its sound is not looked at |
| `WorkerOutcomes.PosterAccepted` | internal/worker/worker.go:411-417 | an authored poster exactly when it is at most 1920 by 1080 and two gibibytes |
| `WorkerOutcomes.ExamineDecides` | internal/worker/worker.go:223-250 | after every probe: a file within those numbers, or a derived one within the detail ceiling when there is one, is worked on; any other is refused with its reason; one that cannot be probed is refused when authored and a failure when not; nothing else changes |
| `WorkerOutcomes.TroubleIsFailure` | internal/worker/worker.go:172-190 | whatever goes wrong at whichever point, the worker turns to recording a failure and nothing else has changed |
| `WorkerOutcomes.HeartbeatRenews` | internal/store/queue.go:201-206 | a heartbeat renews a running job's lease and revives no other |
| `WorkerOutcomes.DeclineOverwritesNothing` | internal/store/queue.go:374-381 | declining records an intent nothing is on record of, and overwrites nothing |
| `WorkerOutcomes.QueuedIsOffered` | internal/store/queue.go:63-82 | a job just queued is offered to any idle worker |
| `WorkerOutcomes.DeletedThenPurged` | internal/store/queue.go:320-323 | deleting and purging an asset takes its jobs and renditions along and nothing else |
| `WorkerOutcomes.SeenThrough` | internal/worker/worker.go:190-275 | from any state, a job that is offered to an idle worker and whose file passes ends succeeded, its rendition ready under its own key with what was measured, the object stored, and nothing else changed |
| `WorkerOutcomes.RefusedWithReason` | internal/worker/worker.go:237-250 | one whose file does not pass ends succeeded with the rendition refused for that reason, and no object stored |
| `WorkerOutcomes.FailedOrRequeued` | internal/store/queue.go:262-290 | one whose bytes cannot be pulled is queued again without a lease while it has attempts left, and has failed for good after the last |
| `WorkerOutcomes.ClaimedInVain` | internal/store/queue.go:172-197 | a job whose asset is not its account's is claimed and handed to nobody |
| `WorkerSafety.StepKeepsInv` | internal/worker/worker.go:190-300 | every step of every worker keeps: outcomes recorded for succeeded jobs, a reason and spent attempts for failed ones, a ready rendition naming an uploaded object of its own asset, and each worker's memory of its job |
| `WorkerSafety.OutcomesNeverSplit` | internal/store/queue.go:211-280 | in every interleaving, stale workers included, a succeeded job has a ready or refused rendition, never absent nor declined, and a failed one has a reason and at least the allowed attempts |
| `WorkerSafety.UnfinishedJobIsClaimable` | internal/store/queue.go:153-168 | no job is lost: a queued job is claimable now, a running one once its lease is silent for longer than the lease time |
| `WorkerSafety.RetriesCountClaims` | internal/store/queue.go:146-152 | over any run a job's retries equal the number of times it was claimed |
| `WorkerSafety.FinishedJobDisturbedIff` | internal/store/queue.go:253-280 | a finished job changes status in one step if and only if a worker that still believes it owns it closes it after a failure or writes down a failure of its own |
| `WorkerLease.RunKeepsExclusion` | internal/worker/worker.go:240-275 | under the lease assumption every busy worker's job is running with a lease at least as fresh as that worker's last write, and no two hold one job |
| `WorkerLease.LeaseExcludes` | internal/store/queue.go:134-171 | over whole timed runs, with any number of workers, crashes and re-claims, no job has two workers |
| `WorkerLease.FinishedStaysFinished` | internal/store/queue.go:208-280 | under the lease assumption no step moves a job out of succeeded or failed |
| `WorkerLease.StaleWorkerRequeues` | internal/store/queue.go:262-273 | without the assumption a concrete run puts a succeeded job back in the queue |
| `WorkerDrain.ClaimsBounded` | internal/store/queue.go:262-280 | under the lease assumption a job is claimed at most the allowed number of times, plus once for each time a worker dropped it |
| `WorkerDrain.WorkIsBounded` | internal/worker/worker.go:140-185 | without arrivals and crashes the work steps of any schedule plus the remaining measure never exceed the measure at the start |
| `WorkerDrain.UnfinishedMeansWork` | internal/worker/worker.go:140-185 | while a job is unfinished some worker has a work step it can take now, so draining never stops early |
| `WorkerDrain.AttendedQueueDrains` | internal/worker/worker.go:140-185 | from a state in which no running job is unattended, without arrivals and crashes, a run after which no worker can do anything now has finished every job, within the measure |
| `WorkerRecovery.EveryHistoryIsRecoverable` | internal/store/queue.go:143-173 | every lease-respecting history, crashes and arrivals included, reaches only states in which each queued job has an attempt left and the invariants hold |
| `WorkerRecovery.RecoveryIsBounded` | internal/store/queue.go:153-171 | from any such state, without further arrivals and crashes, work steps plus the remaining potential, nine more for each abandoned job, never exceed the potential at the start |
| `WorkerRecovery.QueueDrains` | internal/worker/worker.go:140-185 | once arrivals and crashes stop, a lease-respecting run after which no worker has anything to do, now or after any wait, has finished every job, those that crashes left running included, within the potential it started from |
| `WorkerRecovery.QueueDrainsAfterAnyHistory` | internal/store/queue.go:143-173 | the same after any history from the empty queue, whatever crashed in it |
| `WorkerDrain.CrashFreeIsSettling` | internal/worker/worker.go:140-185 | every crash-free history reaches only states from which the bound applies |
| `AssetStore.Store.MarkAssetDeleted` | internal/store/postgres.go:105-117 | stamps the account's own asset and answers nothing for anyone else's |
| `AssetStore.Store.RevokeGrant` | internal/store/postgres.go:155-161 | the first revocation stands; another account's grant is untouched |
| `AssetStore.Store.FinalizeUpload` | internal/store/postgres.go:532-615 | swept is refused, finalized answers the existing asset, fresh creates asset and stamp together, another account's upload is not found |
| `AssetStore.Store.MarkUploadSwept` | internal/store/postgres.go:652-656 | stamps the row with no guard |
| `AssetStore.Store.CreateGrant` | internal/store/postgres.go:239-272 | any refused id refuses the set; otherwise the whole requested list is frozen and the gone ids reported in order |
| `AssetStore.Store.CreateExport` | internal/store/postgres.go:327-380 | any refused id refuses the set; an empty live list is the named refusal; otherwise the frozen list is the live ids and the rest are reported gone |
| `AssetStore.ExportPartitions` | internal/store/postgres.go:346-358 | frozen and gone lists are each duplicate-free, hold exactly the live and exactly the gone ids, and together cover the request |
| `AssetStore.ExportKeepsOrder` | internal/store/postgres.go:346-358 | both lists keep first-occurrence order of the request |
| `AssetStore.Store.ListAssets` | internal/store/postgres.go:60-103 | a page is the first ids past the cursor, with a next cursor exactly when more remain |
| `AssetStore.CollectPage` | internal/store/postgres.go:76-93 | the collected rows are trimmed to the page and the cursor is the last kept id |
| `AssetStore.CollectGone` | internal/store/postgres.go:247-255 | the gone ids in row order, or nothing if a row is refused |
| `AssetStore.LiveAndGone` | internal/store/postgres.go:346-358 | the loop with its `seen` set splits the request into live and gone, each id once where it first occurs |
| `TokenAnswers.OriginalBrokered` | internal/service/upload.go:28-140 | an original is brokered to a provisioned account under `vault/{account}/{id}`, and to nobody else |
| `TokenAnswers.AuthoredBrokered` | internal/service/upload.go:60-110 | an authored file is brokered to staging exactly for a poster, loop or detail of the account's asset that has none ready; each refusal in its order |
| `TokenAnswers.FinalizeCreates` | internal/store/postgres.go:588-612 | a finalize that creates an asset writes the stored object's size, width, height, checksum and verified flag column by column, the kind of its content type and the account and key of its upload, stamps the upload, and touches nothing else but the new asset's jobs and renditions |
| `TokenAnswers.FinalizeQueues` | internal/service/upload.go:328-372 | a finalized video or sound has exactly one detail job queued, an image or document none |
| `TokenAnswers.FinalizeDeclines` | internal/service/upload.go:328-360 | an upload that opted out has exactly the derivations of its kind on record as declined, and no job |
| `TokenAnswers.FinalizeRefuses` | internal/service/upload.go:218-326 | every other finalize writes no asset and no upload, and is refused by the first that applies: foreign, swept, not uploaded, unreadable; a retry is answered the asset there is |
| `TokenAnswers.AuthoredFinalized` | internal/store/queue.go:93-132 | a finalized authored file changes the source and mode of the standing job and no other column, or queues one new job for itself |
| `TokenAnswers.RepointedColumns` | internal/store/queue.go:110-125 | re-pointing changes a job's source and mode and no other column |
| `TokenAnswers.RenditionAsked` | internal/service/handlers.go:846-914 | asking answers what is on record unless declined, ready for an image or original, else the newest unfailed job, else one new derive job |
| `TokenAnswers.RowsRead` | internal/store/postgres.go:46-160 | an account reads its own assets, renditions, jobs, grants and exports as they stand, and of anybody else's only that they are not there |
| `TokenAnswers.ReadingWritesNothing` | internal/service/router.go:29-46 | reading writes nothing |
| `TokenAnswers.PageListed` | internal/service/handlers.go:824-844 | a page shows the rows of the ids on it in order; a length outside 1 to 200 is refused, and 50 is the default |
| `TokenAnswers.GrantIssued` | internal/store/postgres.go:239-274 | a grant freezes the request as it is and names exactly its gone ids, once each and sorted; an id the account never had refuses it |
| `TokenAnswers.ExportIssued` | internal/service/exports.go:93-127 | an export is issued exactly when downloads can be signed, for thirty days at most and when something is live; it freezes exactly the live ids |
| `TokenAnswers.GrantRevoked` | internal/store/postgres.go:155-180 | revoking ends the account's own grant at the first revocation, and nobody else's |
| `TokenAnswers.ExportRevoked` | internal/store/postgres.go:319-325 | and an export likewise |
| `TokenAnswers.DeletedIsNotServed` | internal/service/handlers.go:128-138 | after a delete every intent of the asset is refused as deleted, the original included |
| `TokenAnswers.OriginalAnswered` | internal/service/handlers.go:140-166 | the original of a live asset is answered by its vault key where downloads can be signed |
| `TokenAnswers.AccountProvisioned` | internal/service/accounts.go:27-53 | an account of the contract's shape provisions itself, is told whether it was new, and is one plain path segment; any other is refused |
| `Paging.ListingIsExact` | internal/store/postgres.go:60-103 | over a fixed store, pages of any lengths followed from the empty cursor concatenate to exactly the sorted ids, and stop |
| `Paging.WalkIsFaithful` | internal/store/postgres.go:64-93 | with inserts and purges between pages ids come strictly increasing, each was there when its page was read, and one present at every page is seen |
| `Paging.ListingUnderChange` | internal/store/postgres.go:60-103 | under change no id comes twice and none that was there throughout is missed |
| `LifecycleHistory.StepKeepsInv` | internal/store/postgres.go:532-656 | every step keeps assets tied to their finalized upload, listed keys to their rows, and history to the tables |
| `LifecycleHistory.OneAssetPerUpload` | internal/store/postgres.go:539-577 | in every interleaving retried and racing finalizes create at most one asset per upload |
| `LifecycleHistory.PurgedTestIsHistory` | internal/store/postgres.go:183-196 | in every reachable state the purged test holds exactly of the ids that were once that account's asset and have been purged |
| `LifecycleHistory.ForeignIsRefused` | internal/store/postgres.go:163-176 | an id another account uploaded is refused in every reachable state |
| `LifecycleHistory.ClassIsStage` | internal/store/postgres.go:168-176 | in every consistent state an id is refused, live or gone exactly when it never was, still is, or once was the account's undeleted asset |
| `LifecycleHistory.ClassMovesOn` | internal/store/postgres.go:204-237 | one step leaves an id's class alone or moves it one on: refused to live, or live to gone |
| `LifecycleHistory.ClassNeverMovesBack` | internal/store/postgres.go:163-176 | over any continuation of any run a class never moves back, so nothing purged or deleted comes back |
| `LifecycleBytes.LiveAssetsKeepTheirBytes` | internal/worker/reconcile.go:51-110 | in every run with no late commit each asset not deleted still has its vault bytes and no upload is both finalized and swept |
| `LifecycleBytes.BytesLostIff` | internal/worker/reconcile.go:58-82 | with no assumption, over every step: some live asset is left without bytes if and only if an orphan pass deletes the object of an upload finalized since it was listed, or a commit makes an asset of an upload whose object is gone |
| `LifecycleBytes.BothStampsIff` | internal/store/postgres.go:648-656 | with no assumption, over every step: some upload is left both finalized and swept if and only if an orphan pass stamps a row finalized since it was listed |
| `LifecycleBytes.RunsAreWholeIff` | internal/worker/reconcile.go:51-82 | over whole runs both properties hold all along if and only if no step is one of those three |
| `LifecycleBytes.LateCommitLosesBytes` | internal/service/upload.go:237-328 | for every grace window a stalled finalize can end with a live asset without bytes, its upload both finalized and swept |
| `LifecycleBytes.CommitAfterDeleteLosesBytes` | internal/service/upload.go:254-326 | the other losing order: the object is deleted first and the commit then creates the asset |
| `LifecycleOutcomes.BegunIff` | internal/service/upload.go:218-250 | a finalize begins on exactly the account's own unswept originals |
| `LifecycleOutcomes.UploadBecomesAsset` | internal/store/postgres.go:532-614 | left to itself with the object there, it creates the asset of the stored facts, column by column, and stamps the upload |
| `LifecycleOutcomes.NoObjectNoAsset` | internal/service/upload.go:251-262 | without the object, or on an upload already finalized, it leaves no trace |
| `LifecycleOutcomes.OrphanIff` | internal/store/postgres.go:617-628 | the orphan sweep takes exactly the uploads neither finalized nor swept and older than the grace window |
| `LifecycleOutcomes.OrphanReclaimed` | internal/store/postgres.go:648-656 | it deletes the object and stamps the row, and no finalize of it begins any more |
| `LifecycleOutcomes.DeletedIff` | internal/store/queue.go:293-316 | the other sweep takes exactly the assets marked deleted longer ago than the grace window |
| `LifecycleOutcomes.DeletedIsPurged` | internal/store/queue.go:320-323 | it removes the original, the row, and exactly that row's jobs and renditions |
| `LifecycleOutcomes.DeletedInTime` | internal/store/postgres.go:105-116 | a deleted asset is purged once more than the grace window has passed, and not before |
| `LifecycleOutcomes.FailedSweepKeepsRow` | internal/worker/reconcile.go:65-84 | a deletion or a mark that fails keeps the row for a later pass |
| `Reconcile.SelectOldest` | internal/store/queue.go:292-314 | an ordered, limited selection: distinct rows of the set, oldest first, none older left behind, all of them when they fit |
| `Reconcile.Reconciler.SweepOnce` | internal/worker/reconcile.go:58-82 | exactly the listed objects whose deletion succeeds are gone, exactly those rows whose stamp succeeds are swept, and the count is of the former |
| `Reconcile.Reconciler.SweepDeletedAssets` | internal/worker/reconcile.go:88-110 | bytes before rows: a failure at either keeps the row, and the count is of rows purged |
| `Reconcile.DealtWithOnce` | internal/store/postgres.go:617-656 | what a pass stamps or purges leaves every later selection and nothing else does |
| `Reconcile.OldestFirst` | internal/store/postgres.go:621-628 | no upload the orphan sweep could take is older than one it takes in its place |
| `Reconcile.LongestDeletedFirst` | internal/store/queue.go:293-316 | nor was an asset the other sweep could take deleted longer ago than one it takes in its place |
| `TokenApi.FinalizeRowsAreTheTransaction` | internal/store/postgres.go:587-605 | the rows a finalize endpoint writes are what the transaction does to the tables |
| `TokenApi.NewestJobIsNewest` | internal/store/queue.go:56-64 | a request finds a standing job whenever one of the triple exists, and it is a newest one |
| `TokenApi.DeleteIsMark` | internal/service/handlers.go:813-822 | the delete endpoint marks the account's own asset and changes nothing else |
| `TokenApi.OptedOutIsNeverPending` | internal/service/upload.go:177-196 | a finalize request that succeeds on a declined audio or video upload, first or retried, writes no job, and every offered intent without a rendition row of its own, all of them when the asset is new, is answered not_derived, never pending |
| `TokenApi.DeclinedIsAsIfAbsent` | internal/service/handlers.go:875-892 | requesting a declined intent does exactly what it would with no rendition row |
| `TokenApi.FailureIsInvisible` | internal/service/handlers.go:786-788 | recording a job's failure changes no delivery answer, so a terminally failed job keeps answering pending |
| `AccountScope.ServeIsLocal` | internal/store/store.go:54-58 | for every token endpoint the answer and the rows written are what they would be with nobody else in the database |
| `AccountScope.ServeWritesOwn` | internal/service/handlers.go:52-58 | every row an endpoint writes is the caller's and replaces none of another's |
| `AccountScope.TwoRunIsolation` | internal/store/postgres.go:46-161 | two stores that agree on an account's rows give it the same answer and still agree afterwards; every other account's rows are unchanged |
| `AccountRuns.WorkersStayHome` | internal/store/queue.go:143-381 | every statement a worker makes about a job writes rows of that job's account only, and keeps the ties |
| `AccountRuns.StatementIsLocal` | internal/store/queue.go:143-381 | and writes the same rows with nobody else in the database |
| `AccountRuns.AssetStatementsStayHome` | internal/store/checksum.go:56-117 | the checksum sweep's claim, mark and release and the worker's probe write-back, which name an asset and no account, write only a row of that asset's account, and keep the ties |
| `AccountRuns.AssetStatementIsLocal` | internal/store/queue.go:325-338 | and write the same row with nobody else in the database |
| `AccountRuns.PurgeView` | internal/store/queue.go:320-323 | a purge does to its account's rows what it would do alone and touches nobody else's |
| `AccountRuns.EventCommutes` | internal/store/store.go:54-58 | a call, a worker's statement on a job or an asset, or a sweep does to its account's rows exactly what it would do with nobody else there |
| `AccountRuns.NobodyElseMatters` | internal/service/router.go:29-46 | over whole runs of calls, worker statements and sweeps, with everybody else's rows and events gone an account's own events still make a run and it is told exactly the same |
| `AccountRuns.AgreeingRunsTellAlike` | internal/service/router.go:29-46 | two runs that agree on an account's rows at the start and on its events tell it the same, whatever else they hold and whatever befalls it |
| `AccountScope.ConsistencyIsKept` | internal/store/postgres.go:183-190 | no call breaks the ties between assets, uploads, renditions and jobs, on which the unscoped half of the purged test relies |
| `AccountRuns.SweepsKeepConsistency` | internal/store/postgres.go:648-656 | neither sweep breaks them |
| `AccountScope.PurgedTestNeedsTheTie` | internal/store/postgres.go:190-196 | the purged test depends on another account's rows exactly when an asset and its upload belong to different accounts |
| `GrantCache.Cache.constructor` | internal/service/grantcache.go:40-45 | a non-positive ttl falls back to the default |
| `GrantCache.Cache.Resolve` | internal/service/grantcache.go:56-76 | a fresh entry answers and nothing changes; otherwise the store's answer is returned and cached until the sampled time plus ttl; an error caches nothing |
| `Verdicts.OpensIff` | internal/store/postgres.go:290-303 | a capability opens an asset exactly when that is in its frozen set, from its issue until it expires or is revoked, and for the account that issued it |
| `GrantCache.AnswerLastsOneTtl` | internal/service/grantcache.go:56-76 | asked once, the store is not asked again for exactly one ttl |
| `GrantCache.CacheKeyInjective` | internal/service/grantcache.go:52-57 | no two questions the store can answer share an entry, and a question it cannot answer never finds one |
| `GrantCache.CacheAgreesWithStore` | internal/service/grantcache.go:56-76 | under any interleaving of calls, slow reads overwriting newer entries included, a call that sampled a time is told what the store said at some instant later than that time minus ttl |
| `GrantCache.ReturnedIsRecent` | internal/service/grantcache.go:56-76 | a call made at one instant, in any state concurrent callers reach, returns what the store said within the last ttl, that instant included |
| `GrantCache.RevokedWithinOneTtl` | internal/service/grantcache.go:11-18 | a call starting one ttl or more after a revocation or the expiry is never told live |
| `GrantCache.RevocationIsNotInstant` | internal/service/grantcache.go:14-17 | for every ttl of seven instants or more, the length of the run, some run tells a later caller a revoked grant is live, so the window is real |
| `Resolution.DeliversIff` | internal/service/handlers.go:680-789 | for an intent other than original, something is delivered exactly when the asset is not deleted and: it is an image, whatever the intent, or a video asked for thumbnail, grid or lightbox with a ready poster, and image hosting is configured; or it is audio or video with that rendition ready and routed |
| `Resolution.PictureDelivered` | internal/service/handlers.go:610-668 | an image intent is answered with the URL of its own name, but for the mobile clamp and the deepest rung, which goes by aspect; rendered from the original or the poster, and reported at the source scaled into the box of 400, 800, 1400, 2048, 3072, 4096, 4898, 5477 or 6197 that name stands for |
| `Resolution.MediaAnswered` | internal/service/handlers.go:733-789 | a stream is answered with the object `delivery/{account}/{asset}/{intent}` exactly when its rendition is ready and the kind offers it, and otherwise with the reason its rendition gives |
| `Resolution.RefusedAnyway` | internal/service/handlers.go:680-722 | whatever is ready: anything deleted is refused as deleted, a document and an image no host serves as unsupported |
| `UploadStories.FinalizedImageIsServed` | internal/service/handlers.go:690-714 | a finalized image of `w` by `h` is served at once from its own original under the intent's name, at `w` by `h` scaled into that name's box |
| `UploadStories.FinalizedMediaIsPending` | internal/service/upload.go:328-372 | a finalized video or sound is answered pending, and its queued job is one a worker can see through |
| `UploadStories.SeenThroughIsServed` | internal/worker/worker.go:262-275 | once a worker has seen a job through, the account is answered the very object that worker stored |
| `UploadStories.RefusedIsSaid` | internal/service/handlers.go:597-608 | once a worker has refused it, the account is answered the reason |
| `UploadStories.PosterMakesPictures` | internal/service/handlers.go:715-731 | a poster seen through is what the video's thumbnail, grid and lightbox are rendered from, at its measured size |
| `Resolution.DeliveredUrlServesIff` | internal/service/handlers.go:690-744 | the presets-only host accepts the image URL that is handed out if and only if the intent is an image intent and the source is readable, as it is for keys and buckets without an at sign |
| `Resolution.PictureUrlText` | internal/service/sign.go:161-171 | the text of the two URL forms: name, then the source in the private bucket, with the expiry second among the options under a grant |
| `Resolution.GrantedUrlServesIff` | internal/service/handlers.go:295-324 | the granted host accepts a granted image URL if and only if the intent is an image intent, the source is readable and the URL has not expired |
| `Resolution.ImageLoopIsDeadLink` | internal/service/handlers.go:791-798 | a live image asked for `loop` is answered with a URL its own host refuses |
| `Resolution.GrantedMirrorsPublic` | internal/service/handlers.go:281-350 | granted delivery is the public one with an end: same preset and source, or same object behind a signed download; never an unenforced URL |
| `Resolution.LadderFollowsPoster` | internal/service/handlers.go:723-731 | until its poster is ready a video's image intents answer what the poster answers |
| `Resolution.NoRawOriginals` | internal/service/delivery.go:195-242 | no non-original delivery names a vault object |
| `Resolution.ReportedSizeFitsBudget` | internal/service/handlers.go:704-713 | the size reported with an image delivery decodes within the device's memory budget |
| `Delivery.UrlTtlIsCapped` | internal/service/service.go:112-121 | the granted URL lifetime is always positive and at most two minutes, and a configured value in that range is kept |
| `UrlPath.PlainIsItself` | internal/service/handlers.go:391-394 | a key the edge prints into a URL again is read back as itself exactly when it holds no control character, percent sign, question mark or hash |
| `UrlPath.EscapeReads` | internal/service/handlers.go:391-394 | an escape in the key names the byte its two digits spell, and one without them nothing |
| `Keys.UnframedMessage` | internal/service/sign.go:86-94 | with a NUL in the path or the intent a message can be another capability's only when the grant field gives that capability's name, and is a grant's only when all fields agree |
| `DeliveryBounds.VerifiedWasMinted` | internal/service/sign.go:67-84 | a request that verifies is, field for field, one that was signed and is in time, exactly when its key is plain and neither its intent nor its capability holds a NUL |
| `DeliveryBounds.NulShiftsFields` | internal/service/sign.go:86-93 | with a NUL behind the intent and the owner's name as grant, an owner's signature verifies for a request nobody signed, and that request is let through nowhere |
| `DeliveryBounds.LetThroughWasSigned` | internal/service/handlers.go:396-470 | whatever the edge lets through was signed for that very capability and intent and for the path its key names, whatever characters the request holds |
| `DeliveryBounds.CapabilitiesOpenOnlyTheirSet` | internal/store/postgres.go:290-303 | over all runs, whatever is handed out under a grant or an export is a rendition, picture or original of an asset in its frozen set, under the account that issued it and whose that asset always was |
| `DeliveryServes.OwnerUrlServes` | internal/service/handlers.go:433-450 | from the moment it is handed out to the second it expires in, the owner's URL redirects to the original while that is not deleted, exactly for accounts whose name is one path segment |
| `DeliveryServes.ExportSigns` | internal/service/exports.go:53-75 | issuing an export signs a URL for each requested live asset and for no other |
| `DeliveryServes.ExportSignsAgain` | internal/service/exports.go:77-91 | reading it again signs the same URLs while it has not ended, and then none |
| `DeliveryServes.ExportUrlServes` | internal/service/handlers.go:396-432 | an export's URL redirects likewise while the row is neither revoked nor expired |
| `DeliveryServes.GrantSigns` | internal/service/handlers.go:197-262 | under a live grant a stream is signed exactly when the asset is not deleted and the rendition ready; nothing else is ever signed for a grant |
| `DeliveryServes.GrantedUrlServes` | internal/service/handlers.go:451-470 | the visitor's URL redirects while it is in time and the grant is found live, exactly for accounts without a slash in their name |
| `DeliveryServes.FreshAnswerOpens` | internal/service/handlers.go:465-469 | a grant that covers the asset and has not ended is found live by a call that asks the store |
| `DeliveryServes.GrantPictures` | internal/service/handlers.go:281-324 | under a live grant a picture is handed out exactly when there is one, not deleted, and both image hosts are configured |
| `DeliveryServes.GrantedImageLoads` | internal/service/handlers.go:500-516 | and its URL loads until the second it expires in is over |
| `DeliveryServes.EndsTakeEffect` | internal/store/postgres.go:155-180 | issue, revocation and deletion take effect in their step, and the first revocation and deletion stand |
| `DeliveryServes.EdgeTurnsAway` | internal/service/handlers.go:370-433 | whatever is signed, a request without key or intent, or one that mixes grant, export and original, is turned away |
| `DeliveryBounds.CacheKeepsItsWord` | internal/service/handlers.go:465-469 | what the cache returns to a request at the edge lies in the window the edge is modelled with, whatever callers ran before |
| `DeliveryBounds.GrantedDownloadsEnd` | internal/service/handlers.go:451-470 | no granted download is redirected one cache window after a revocation or expiry; none to an asset's rendition one URL lifetime, at most two minutes, after its deletion, and the edge checked the grant for that asset |
| `DeliveryBounds.RenditionsHaveKeys` | internal/id/id.go:98-105 | in every reachable state a rendition of an asset on record has a key that bound is about |
| `DeliveryBounds.GrantedImagesEnd` | internal/service/handlers.go:269-324 | no granted image loads past the second in which cache window plus URL lifetime after a revocation end, nor one URL lifetime after a deletion |
| `DeliveryBounds.OriginalDownloadsEndAtOnce` | internal/service/handlers.go:395-450 | owner originals and exports redirect to the asset's original and stop when the asset is deleted; exports also when revoked or expired, and thirty days after issue |
| `DeliveryBounds.GrantedIgnoresDeletion` | internal/service/handlers.go:451-470 | deleting an asset changes nothing about what the granted branch lets through, which is why its bound is the URL lifetime |
| `DeliveryBounds.AssetIdOrNothing` | internal/service/handlers.go:524-533 | from a signed rendition key the edge reads the right asset id or none, whatever the account name looks like |
| `Checksum.Checksummer.Claim` | internal/store/checksum.go:56-80 | nothing exactly when no unlocked asset is claimable; otherwise a first one in the stated order is stamped |
| `Checksum.Checksummer.MarkVerified` | internal/store/checksum.go:96-117 | a malformed digest is refused, a different verified one never overwritten, a missing asset no error |
| `Checksum.Checksummer.Release` | internal/store/checksum.go:85-88 | the claim stamp is cleared and nothing else |
| `Checksum.BacklogAddsUp` | internal/store/checksum.go:130-143 | live equals verified plus pending, attempted is part of pending, and the backfill is done exactly when every live row vouches for a SHA-256 |
| `Checksum.CandidateExists` | internal/store/checksum.go:59-70 | whenever an unlocked asset is claimable a first one exists |
| `Checksum.ClaimableIff` | internal/store/checksum.go:44-70 | what may be hashed: a live asset that vouches for no SHA-256, not tried since the given time, with no derive job queued or running |
| `Checksum.HashedFirst` | internal/store/checksum.go:59-72 | never tried first, then longest ago, then the newest asset, then the least id |
| `Checksum.FirstDigestStands` | internal/store/checksum.go:90-117 | the first digest takes the place of none or of an MD5, is recorded again without effect and refuses every other; no digest but `sha256:` and 64 characters is recorded |
| `Checksum.Checksummer.RunPass` | internal/worker/checksum.go:104-151 | a pass shorter than the back-off claims each pending asset at most once, counts hashed ones exactly, and leaves nothing claimable when it drains; without faults it ends drained or at its limit with every claim verified, so an unlimited fault-free pass drains and verifies everything claimable at its start |
| `ChecksumRace.VerifiedIsTrue` | internal/store/checksum.go:90-117 | whatever sweeps and derive jobs interleave, a verified SHA-256 is the hash of that asset's bytes |
| `ChecksumRace.VerifiedForEver` | internal/store/checksum.go:94-96 | over any continuation of any run a verified SHA-256 never changes |
| `ChecksumRace.NobodyDisagrees` | internal/worker/checksum.go:202-214 | with immutable bytes no sweep or derive job meets a mismatch or a refused format |
| `ChecksumRace.ReadIsRecorded` | internal/worker/checksum.go:104-214 | a sweep or derive job that reads the whole object and is not interrupted leaves the row vouching for its SHA-256; one of another length leaves it as it was |
| `ChecksumRace.NothingToHash` | internal/store/checksum.go:44-70 | a lost object is not read, and an asset that is deleted, or one a derive job waits for, not claimed |
| `Ids.Encode` | internal/id/id.go:48-59 | the loop over two 64-bit halves prints exactly the 26 base-32 digits of the 128-bit value |
| `Ids.New` | internal/id/id.go:26-42 | an id prints the 48-bit clock, big-endian, followed by the ten random bytes |
| `Ids.DecodePrinted` | internal/id/id.go:44-59 | printing has a left inverse, so no two byte strings print alike |
| `Ids.FirstCharacterAtMostSeven` | internal/id/id.go:44-47 | the first character is at most 7 |
| `Ids.PrintedKeepsOrder` | internal/id/id.go:22-25 | ids sort as their bytes do |
| `Ids.LaterIsLarger` | internal/id/id.go:22-25 | a later millisecond gives a larger id whatever the random bytes |
| `Keys.VaultKeyPartsExact` | internal/service/handlers.go:535-543 | the parser answers for printed vault keys of non-empty slash-free parts, with those parts, and for no other string |
| `Keys.AssetIdRoundTrip` | internal/service/handlers.go:518-533 | the asset id is read back from rendition and vault keys, and none from a staging key |
| `Keys.RenditionKeyInjective` | internal/id/id.go:98-105 | two rendition keys agree only when account, asset and intent do |
| `Keys.VaultKeyInjective` | internal/id/id.go:85-87 | slash-free ids alone make vault keys unique |
| `Keys.KeySpacesDisjoint` | internal/id/id.go:68-78 | vault, delivery and staging keys never meet |
| `Keys.MacMessageInjective` | internal/service/sign.go:86-94 | signed messages of NUL-free fields are injective and never coincide between grants, owner originals and exports |
| `MediaSpec.DeepestRungArea` | internal/mediaspec/mediaspec.go:247-264 | the deepest zoom rung has at most 24,000,981 pixels for every source size, and passes 24,000,000 exactly for the stated band of sources |
| `MediaSpec.DeepestRungAreaIsTight` | internal/mediaspec/mediaspec.go:195-220 | that maximum is reached |
| `MediaSpec.DecodesWithinBudget` | internal/service/handlers.go:610-630 | every image rendition decodes within the device's budget, unprobed sources included |
| `MediaSpec.RungsIncrease` | internal/mediaspec/mediaspec.go:210-220 | for a long edge over 4096 the three desktop rungs strictly increase in pixels |
| `MediaSpec.Itoa` | internal/mediaspec/mediaspec.go:308-328 | the buffer loop prints the decimal text, wrap-around of negation included |
| `MediaSpec.ItoaReadsBack` | internal/mediaspec/mediaspec.go:308-328 | the printed text parses back to the number exactly when it is not the most negative one |
| `MediaSpec.PresetDefs` | internal/mediaspec/mediaspec.go:287-305 | the loop prints the definitions of the presets in order, joined by commas |
| `MediaSpec.PresetDefsReadBack` | internal/mediaspec/mediaspec.go:275-305 | splitting the printed text gives back each definition and its name |
| `MediaSpec.DefinitionsDeployed` | deploy/fly.imgproxy.plate.toml:31 | each printed definition is, name, box and quality, the one the image hosts are deployed with, in that order |
| `Fit.FitNeverEnlarges` | internal/service/handlers.go:649-668 | neither edge grows, both stay at least one pixel, and the long edge becomes exactly the cap when shrunk |
| `Fit.FitKeepsAspect` | internal/service/handlers.go:656-666 | the short edge is within half a pixel of exact aspect, or the minimum of one |
| `Fit.FitIdempotentAndSymmetric` | internal/service/handlers.go:641-668 | fitting twice is fitting once, and swapping the edges swaps the result |
| `ImagePath.ParseImagePath` | internal/service/imgproxy_deploy_config_test.go:101-179 | the scanning loops compute the grammar's verdict, error by error |
| `ImagePath.PublicFormOnPublicHost` | internal/service/sign.go:144-150 | the public form is accepted by the presets-only grammar exactly for a configured preset and a readable source |
| `ImagePath.PublicFormOnGrantedHost` | internal/service/sign.go:152-159 | the options grammar rejects every public form |
| `ImagePath.GrantedFormOnGrantedHost` | internal/service/sign.go:152-171 | the granted form is accepted by the options grammar exactly while unexpired |
| `ImagePath.OtherOptionsForbidden` | deploy/fly.imgproxy-granted.plate.toml:48-53 | the granted host takes no option but its two |
| `ImagePath.GrantedFormOnPublicHost` | internal/service/sign.go:154-159 | the presets-only grammar rejects every granted form |
| `ImagePath.SignedUrlCarriesPath` | internal/service/sign.go:125-171 | stripping base and signature segment from a printed URL leaves exactly the signed path |
| `Decimal.ParseFormat` | internal/service/sign.go:55-82 | a printed expiry parses back, exactly within 64 bits |

## Left out

- HTTP, JSON, headers, scopes and token verification: the handlers' decisions are modelled, their transport is not.
- The SQL engine: a statement or transaction is one atomic step and row locks are an arbitrary set of locked rows; text order is by character.
- A commit whose outcome the client cannot learn, and database outages, except where a step may fail outright.
- Storage, presigning, ffmpeg, ffprobe and image decoding: storage is a set of keys, a probe any result or none.
- HMAC, SHA-256 and base 64: a signature verifies only if it was made over the same message, and equal bytes hash equally.
- Percent-encoding of URLs, except a key read back at the download edge: requests there are taken as decoded, with arbitrary characters in every field. Account names that would need escaping are not modelled there.
- Floating-point rounding in the fit and the aspect bands: the arithmetic is exact.
- Columns nothing decides on: progress, last_error, locked_at, updated, file names, recipients, notes, storage prefixes.
- Batch order and size in `Lifecycle`: a pass there takes any reclaimable rows; `Reconcile` has the ordered, limited selection.
- Authored uploads' job requests appear in `Workers` only as arbitrary enqueue and re-point steps, and the worker's write-back of probe results only in `AccountRuns`.
- `pending_bytes` of the backlog report, read throttling, the standing loops' timers, readiness and heartbeat rows.
- Assets seeded without an upload row: every asset of the lifecycle and isolation models is brokered.
- JobQueue.JobStore.EnqueueJob: its read and its insert are one call here; the worker model lets any enqueue fall between any statements, so no uniqueness of jobs is claimed.
- JobQueue.JobStore.FailJob: its read and its write are one call here; the worker model has them as two steps.
- JobQueue.JobStore.ClaimNextJob: any first row by tier and age may be chosen; ties are not resolved.
- Checksum.Checksummer.RunPass: the pass has the tables to itself; interleaving is the subject of `ChecksumRace`.
- DeliveryBounds.GrantedImagesEnd: image hosts compare whole seconds, so the bound is the end of the second.
- AccountScope.TwoRunIsolation: ties between equally new jobs go to the least id, the same on both sides; delivery with a `grant` parameter is by design not account-scoped and is covered by `DeliveryBounds`.
