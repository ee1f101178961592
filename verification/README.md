# Verified model of the content-publishing backend

A Dafny model of the parts of the backend whose correctness does not show in any one function, with proofs of what
they keep over whole runs. `dafny verify dfyconfig.toml` checks everything.

## What is modelled

**The publishing pipeline** (`StateMachine`, `Pipeline*`). A content item's status is changed by the approval service,
the reviewer portal, the scheduler tick, the manual publish route and the publish worker. `Pipeline` is their protocol:
every `await` is one step, a running operation is a program counter with the values it has read (`Proc`), store calls
are atomic and status writes are conditional on the expected status. Any number of operations interleave, any of them
may crash at any await, an offered queue payload may be delivered at any time and any number of times, the publisher
answers success, a retryable or a terminal error, and the two writes after a post may throw. Copy, compliance configs,
due dates, target accounts, connected accounts and review shares change between any two steps. `trace` logs one event
per step. `PipelineInvariants` has the conservation laws, `PipelineSafety` the histories, `PipelineClaims` their
consequences (exactly when an item is posted at most once, and when posts and publications agree) and the tick's
result, `PipelineRuns` a condition on handlers under which posting is at most once, `PipelineWitnesses` runs from the
empty system in which it is not. `PipelineService.Backend` is the same program in place: methods that update the stores, each proved against
its outcome, including the worker's retry loop. `PipelineAlone` shows that each of these methods ends where the
protocol ends when the operation runs without interference.

**The media library** (`Media*`). Asset rows share stored blobs, through dedupe by digest on generation and through
reattach; they are grouped into versions, archived, purged, and blobs are collected by a per-agency reference count.
`Media` gives every service call as one atomic step on the tables; `MediaInvariants` proves what every reachable
library satisfies, `MediaSharing` that sharing refines a store in which each row owns its bytes, `MediaVersions` what
`versions` lists, `MediaSweep` the closed form of the retention sweep. `MediaService.MediaLibrary` is the service in
place, with the loops of the store and of the service, each method tied to the call it implements.

**Smaller cores.** `RateLimiter` (sliding window, over whole runs), `Pagination` (cursor pages, and walks while others
write), `Ranking` and `Report` (the planner brief against the report's top posts, and rollups that add up), `Trends`
(the merge of observations), `Redaction` (the logger's redactor on arbitrary object graphs), `Clips` (durations of a
video's stills). `Seqs` holds the stable sort of `Array.prototype.sort`, filtering, counting and first appearances,
`Ranks` the place of an element in a stable sort and what becomes of the first elements under a coarser order.

## Readings and findings

- `src/lib/scheduler/types.ts` says due items come newest first; the stores sort ascending, and the model follows them.
- In every run, an item is posted at most once if and only if each of its posts is made while it is not published, no
  handler of it sits between its post and its status write, and no "left scheduled" warning and no lost status write of
  it is logged (`AtMostOnceIff`). Posts and publications agree if and only if every write after a post succeeds and
  finds the item still scheduled (`PostedIffPublished`).
- Both hold when, from a handler's read of the item to its status write, no other handler reads the item and nobody else
  changes its status, and after its post the handler's writes succeed and it does not crash
  (`SerialHandlersPostAtMostOnce`). Edits, operations on the item that change no status, and everything about other items
  may fall in between. Each part is needed:
  `OverlappingHandlersPostTwice`, `CancelledItemPostsTwice` (no overlap, no failing write, but the item is cancelled to
  approved between the post and the status write, and published again) and `FailedMarkPostsTwice` give runs with a
  second post, and `TwoPostsAreReachable` gives each of them from the empty system.
- "At most one enqueue between two entries into scheduled" is true of a window that starts with no claim waiting
  (`OneEntryOneEnqueue`); a claim of an earlier entry that is still waiting adds to it (`WaitingClaimEnqueuesTwice`).
  `EnqueuesInAWindow` is the exact count.
- The approval gate is about the operation that approves: the operation that moved the item from in_review to approved
  had itself passed the gate. The copy may change afterwards.
- The reference count of a purge looks at one agency's rows only. It is sound because an owned URL is only ever used by
  rows of one client, which is proved; `blobsDeleted` also counts external URLs, whose deletion does nothing.
- The sweep throws at its first client when the retention days are invalid; when only the purge days are invalid, that
  client has been archived by then (`RunRetentionSweep`).
- The report sorts by rounded scores, the planner brief by exact ones. Their lists, cut at five, hold the same posts if
  and only if rounding hides no lead of one of the five best over an earlier post (`RankingsAgreeIff`), so always with
  whole-number metrics; `FractionalMetricsDisagree` is an input on which they differ.
- `topDistinct` returns one value even when asked for none.
- `redact` copies a value as it is if and only if it is within the depth limit, its sensitive keys already hold the
  marker, and no object occurs in it twice (`CopiedIff`). An object that is merely shared comes out as circular the
  second time (`SharedComesOutCircular`).

## Model

| member | source | states |
|---|---|---|
| PipelineInvariants.Conservation | src/lib/publish/job.ts:71-119 | in every interleaving, for every item: posts = "left scheduled" warnings + (1 if published) + handlers between post and status write + lost writes; posts = rows marked published + handlers between post and mark + lost marks; entries into scheduled = enqueues + waiting claims + claims lost to a crash |
| PipelineInvariants.StepKeepsProcsOk | src/lib/publish/job.ts:76-118 | a job row is only ever written by the handler that opened it, pending status changes are table edges, and exactly the moves into scheduled are followed by an enqueue of that item |
| PipelineInvariants.StepKeepsBalance | src/lib/scheduler/index.ts:56-71 | one step of anybody keeps the three conservation laws |
| PipelineSafety.HistoriesAreLegal | src/lib/approval/state-machine.ts:16-33 | in every interleaving an item's status history is a path in the transition table, and a status past review goes back, since the last draft, to an in_review to approved step of an operation that had passed the compliance gate |
| PipelineSafety.EveryPostWasCleared | src/lib/publish/job.ts:71-98 | before every post there is a moment at which its handler read the item as scheduled, and it was scheduled and cleared then |
| PipelineSafety.PublishedIsForever | src/lib/approval/state-machine.ts:16-23 | no schedule of operations takes a published item to another status |
| PipelineSafety.PastReviewIsCleared | src/lib/approval/index.ts:43-54 | in a legal trace every approved, scheduled, published or failed item was approved out of review through the gate since its last draft |
| PipelineSafety.StepKeepsSafe | src/lib/review/index.ts:94-118 | every step keeps statuses equal to the history, events legal and pending approvals backed by a passed gate |
| PipelineClaims.AtMostOnceIff | src/lib/publish/job.ts:71-119 | in every run an item is posted at most once if and only if each post of it is made while it is not published, no handler of it is between its post and its status write, and no warning or lost status write of it is logged |
| PipelineClaims.PostedIffPublished | src/lib/publish/job.ts:100-119 | with no handler between its post and its status write, posts equal publications if and only if every step of a handler after its post succeeds, none crashes there, and the status write finds the item still scheduled |
| PipelineClaims.EnqueuesInAWindow | src/app/api/content-items/[id]/publish/route.ts:42-49 | between any two moments: enqueues + claims now waiting + claims lost = entries into scheduled + claims waiting before |
| PipelineClaims.OneEntryOneEnqueue | src/lib/scheduler/index.ts:56-71 | a window that starts with no claim waiting and sees at most one entry into scheduled sees at most one enqueue |
| PipelineClaims.TickResult | src/lib/scheduler/index.ts:50-73 | whatever runs beside a tick, its ids are a duplicate-free subsequence of its due list: scheduled = ids, at most due, at most limit |
| PipelineRuns.SerialHandlersPostAtMostOnce | src/lib/publish/job.ts:71-119 | if from a handler's read of the item to its status write no other handler reads the item, nobody else changes its status, and after its post the handler's writes succeed and it does not crash, it is posted at most once, and exactly if published whenever no handler is between its post and its status write; all else may interleave |
| PipelineWitnesses.OverlappingHandlersPostTwice | src/lib/publish/job.ts:71-98 | from any state with a scheduled, complying, queued item: two deliveries that both read scheduled add two posts |
| PipelineWitnesses.FailedMarkPostsTwice | src/lib/publish/job.ts:100-118 | one handler at a time, but marking the row fails: the retry posts again |
| PipelineWitnesses.CancelledItemPostsTwice | src/lib/publish/job.ts:102-109 | no overlap and no failing write, but the item is cancelled to approved after the post and published again: it is posted again |
| PipelineWitnesses.TwoPostsAreReachable | src/lib/queue/worker.ts:129-163 | from the empty system: an account, a draft, its submission, approval and publication, then each of the three runs gives exactly two posts |
| PipelineWitnesses.PostableIsReachable | src/app/api/content-items/[id]/publish/route.ts:29-50 | the states those runs start from are reachable, with no post made yet |
| PipelineWitnesses.WaitingClaimEnqueuesTwice | src/app/api/content-items/[id]/publish/route.ts:42-49 | in a window that starts with a claim waiting, one entry into scheduled is followed by two enqueues |
| PipelineWitnesses.ApprovedIsReachable | src/lib/approval/index.ts:43-60 | the state that run starts from is reachable |
| PipelineService.Backend.DeliverJob | src/lib/queue/worker.ts:129-163 | a deliverable job is tried until the first answer that is a success or one of the six errors that last (validation, unauthorized, forbidden, not found, conflict, rate limited), or until the budget is used up; it is scheduled between attempts, ends published after a success and failed otherwise, every row failed except a last published one, alert exactly on the last allowed attempt |
| PipelineService.Backend.RunPublishJob | src/lib/publish/job.ts:59-120 | for every input, in fields: which error in the order of the checks, the row it leaves, and the item's status; a scheduled item becomes published after a success, failed on the last attempt or one of the six lasting errors, and stays scheduled after an upstream, internal or unknown error |
| PipelineService.Backend.Move | src/lib/approval/index.ts:43-69 | for each of the six statuses which moves are no conflict, in fields; not found for another agency's item; a validation error exactly for a blocked copy on its way to approved; the item changes exactly on success, and nothing else does |
| PipelineService.Backend.Decide | src/lib/review/index.ts:88-125 | in fields, exactly when a reviewer's decision is taken: live link, item of its client and in review, a comment of at most 2000 characters that is there when changes are asked for, no blocked copy approved; the status it sets and the comment it saves |
| PipelineService.Backend.Publish | src/app/api/content-items/[id]/publish/route.ts:29-50 | goes through exactly for an approved or failed item of the agency and of the client of one of the agency's accounts, which is then scheduled and queued; with a throwing enqueue it is scheduled and the answer is that error; otherwise which error, in the order of the checks, and nothing changes |
| PipelineService.Backend.Tick | src/lib/scheduler/index.ts:50-73 | with nothing beside it: every scheduled item was approved, had a target and a due time not after now, and was of the agency asked for; one with these facts is left out only for `limit` others due no later; those whose enqueue does not throw are queued with their own target and reported |
| PipelineService.Backend.ClaimEach | src/lib/scheduler/index.ts:55-71 | the claim and enqueue loop; a failing enqueue does not stop the rest |
| PipelineService.Backend.Transition | src/lib/repositories/fakes/fake-publish-stores.ts:25-30 | the conditional update: moves exactly a row of that scope with the expected status, and says whether it did |
| PipelineService.ApprovalPathsAgree | src/lib/review/index.ts:111-118 | for an item in review the reviewer's approval and the approval service give the same answer, and approve exactly if the copy complies with the agency's configuration |
| PipelineService.OnlyCompliantIsApproved | src/lib/compliance/index.ts:49-82 | whatever the item, link or comment, neither way approves an item of another agency or one whose copy an enabled configuration blocks |
| PipelineService.DueItemsIsDueList | src/lib/scheduler/fakes.ts:18-35 | filter, stable sort and cut give approved items with a target whose time has come, each once, earliest first, nothing due left out unless the limit is reached by earlier ones |
| PipelineService.ScheduleAllIs | src/lib/repositories/prisma-stores.ts:581-587 | claiming a list schedules exactly the listed items |
| PipelineService.StillDue | src/lib/scheduler/index.ts:56-59 | without interference no claim of a tick is lost to an earlier one of the same tick |
| PipelineAlone.JobAlone | src/lib/publish/job.ts:59-120 | the protocol's handler, run alone, ends with the items and rows of RunPublishJob |
| PipelineAlone.MoveAlone | src/lib/approval/index.ts:43-54 | the protocol's move, run alone, ends with the items of Move |
| PipelineAlone.DecideAlone | src/lib/review/index.ts:88-125 | the protocol's decision, run alone, ends with the items and comments of Decide, and nothing else changed |
| PipelineAlone.PublishAlone | src/app/api/content-items/[id]/publish/route.ts:29-50 | the protocol's publish route, run alone, ends with the items and queue of Publish, and nothing else changed |
| PipelineAlone.TickAlone | src/lib/scheduler/index.ts:50-73 | the protocol's tick, run alone, returns the ids and ends with the items of Tick; its queue gains every claimed job, which are those Tick queues and those whose enqueue threw |
| StateMachine.ApprovalCutsEveryPath | src/lib/approval/state-machine.ts:16-27 | every path from draft or in_review to a status past review crosses in_review to approved |
| StateMachine.OnlyPublishedIsTerminal | src/lib/approval/state-machine.ts:35-37 | published is the one terminal status, and terminal means no transition is allowed |
| MediaInvariants.ReachableIsSound | src/lib/media/index.ts:49-180 | in every reachable library, even when blob deletions fail: each row with an owned URL has its blob, digests are true, owned URLs belong to one client, rows of a version group have distinct versions from 1 up and share client, URL, kind and digest |
| MediaInvariants.BlobsAreOwnedUrls | src/lib/media/index.ts:120-155 | while deletions work, the stored blobs are exactly the owned URLs of the surviving rows |
| MediaInvariants.CollectedIsUnused | src/lib/media/index.ts:137-143 | the per-agency reference count never lets go of a blob that a surviving row of any agency uses |
| MediaInvariants.ReattachIsSound | src/lib/media/index.ts:49-77 | reattach, anchoring included, keeps the library sound |
| MediaInvariants.GenerateIsSound | src/lib/creative/index.ts:111-133 | generation, with or without a dedupe hit, keeps the library sound |
| MediaSharing.LibraryRefinesPlain | src/lib/creative/index.ts:106-133 | at every moment of any run each row with an owned URL reads as the bytes it would own in a store without sharing |
| MediaSharing.GeneratedImageReadsBack | src/lib/creative/index.ts:111-133 | a generated image reads back as its bytes for as long as its row survives, whatever happens to rows that share its blob |
| MediaSharing.ReusedImageReadsBack | src/lib/media/index.ts:49-77 | a reattached image reads back as its source's bytes, also after the source is purged |
| MediaSharing.DedupeHits | src/lib/repositories/prisma-stores.ts:230-234 | a dedupe hit holds exactly the bytes just generated |
| MediaVersions.VersionsIsGroupList | src/lib/media/index.ts:80-88 | versions lists exactly the asset's group in strictly increasing version order |
| MediaVersions.MembersListTheSame | src/lib/media/fakes.ts:128-133 | any two members of a group list the same, however the store orders its rows |
| MediaVersions.PurgeOnlyShortensTheList | src/lib/media/index.ts:80-88 | purging any members, the anchor included, removes exactly them from every other member's list |
| MediaSweep.SweepHasClosedForm | src/lib/media/index.ts:162-180 | sweeping client after client gives the closed form over the set of clients, rows, blobs and totals |
| MediaSweep.SweepOrderIsIrrelevant | src/lib/media/index.ts:166-178 | the order of clients changes neither the final library nor the totals |
| MediaSweep.ArchivedSurvives | src/lib/media/index.ts:100-155 | no row the sweep archives is purged by it |
| MediaSweep.BlobsAtMostRows | src/lib/media/index.ts:26-31 | never more blobs deleted than rows purged |
| MediaSweep.SecondSweepIsIdle | src/lib/media/index.ts:162-180 | a second sweep at the same time changes nothing and counts nothing |
| MediaSweep.OneMoreOrphaned | src/lib/media/index.ts:127-143 | what one client's purge collects is exactly what its rows orphan beyond what the clients before it orphaned |
| MediaService.MediaLibrary.RunRetentionSweep | src/lib/media/index.ts:162-180 | row by row, with valid days: a row is dropped exactly if archived longer than the purge days; a live one is archived exactly if generated or reused, older than the retention days, and of an item neither approved, scheduled nor published; blobs go exactly if an agency's last row over them went and storage lets them; the totals count this; with invalid days it throws at the first client, whose stale rows at most have been archived |
| MediaService.MediaLibrary.PurgeArchived | src/lib/media/index.ts:120-155 | ties rows, blobs and both counts to the purge call, with failing deletions and without storage |
| MediaService.PurgeInFields | src/lib/media/index.ts:120-155 | that call, in fields: the client's rows archived longer than the days go, and then exactly the blobs whose last row in the agency went and whose deletion works |
| MediaService.MediaLibrary.CollectBlobs | src/lib/media/index.ts:134-153 | deletes and counts exactly the URLs no row of the agency uses, less those whose deletion throws |
| MediaService.MediaLibrary.RunRetention | src/lib/media/index.ts:100-112 | ties the rows and the count to the retention call; invalid days change nothing |
| MediaService.RetainInFields | src/lib/media/index.ts:100-112 | that call, in fields: exactly the client's live generated or reused rows older than the days, of items neither approved, scheduled nor published, are archived at now and counted |
| MediaService.MediaLibrary.ArchiveStale | src/lib/media/fakes.ts:178-199 | the store's loop stamps and counts exactly the client's live, generated or reused rows created before the cutoff whose item is neither approved, scheduled nor published |
| MediaService.MediaLibrary.Reattach | src/lib/media/index.ts:49-77 | the three refusals in order; else a row on the target item with the source's kind, URL and hash, reused, live, created now, in the source's group (or the one of its own it then starts) and one version above the highest there; every other row is unchanged, save the source's group |
| MediaService.MediaLibrary.NextVersionOf | src/lib/media/fakes.ts:121-126 | one above the highest version of the group, 1 for an empty one |
| MediaService.MediaLibrary.GenerateImage | src/lib/creative/index.ts:109-133 | an image row for the item over the URL of a row of the same client and digest, or, when there is none, over a new blob under the key; every field of the row |
| MediaService.MediaLibrary.FindByHash | src/lib/repositories/prisma-stores.ts:230-234 | finds a row of that client with the digest if there is one |
| MediaService.MediaLibrary.ProduceVideo | src/lib/video/index.ts:168-175 | a video row over a new blob under its own key, without a digest; every field of the row |
| MediaService.MediaLibrary.PushUpload | src/app/api/v1/content-items/[id]/assets/route.ts:13-30 | an upload row over its own absolute URL; no blob is touched |
| MediaService.MediaLibrary.SetArchived | src/lib/media/index.ts:91-94 | archives or restores one asset of the agency |
| MediaService.MediaLibrary.DeleteByUrl | src/lib/creative/asset-storage.ts:56-64 | removes exactly the blob behind an owned URL and leaves others alone |
| RateLimiter.AnswersFromFullHistory | src/lib/security/rate-limiter.ts:26-40 | over every run with a clock that never goes back, the pruned list answers as the full history of allowed calls would |
| RateLimiter.AtMostLimitPerWindow | src/lib/security/rate-limiter.ts:26-40 | at most `limit` allowed calls on a key in any window (s, s + windowMs] |
| RateLimiter.RefusedCallsDoNotCount | src/lib/security/rate-limiter.ts:31-35 | without a refused call the same later calls are allowed |
| RateLimiter.KeysAreIndependent | src/lib/security/rate-limiter.ts:18-29 | a key is answered as in the run of its own calls alone |
| RateLimiter.RetryAfterIsInWindow | src/lib/security/rate-limiter.ts:31-35 | the wait of a refusal is positive and at most the window |
| RateLimiter.RefusedBeforeRetry | src/lib/security/rate-limiter.ts:27-35 | every further call on the key before the wait is over is refused |
| RateLimiter.AllowedAtRetry | src/lib/security/rate-limiter.ts:27-39 | a call at or after the end of the wait, with no other call on the key in between, is allowed |
| RateLimiter.AnswerCounts | src/lib/security/rate-limiter.ts:26-40 | a call is allowed exactly if fewer than the limit were allowed on the key within the window before it, and `remaining` is what is then left |
| RateLimiter.RemainingIsExact | src/lib/security/rate-limiter.ts:37-40 | after an allowed call exactly `remaining` further calls on the key at the same time are allowed (all of them if there is no window) |
| RateLimiter.InMemoryRateLimiter.Consume | src/lib/security/rate-limiter.ts:26-40 | one call: the answer and the stored lists are those of the run so far |
| Pagination.WalkIsExact | src/lib/repositories/client-repository.ts:86-91 | a walk while others insert and update rows is newest first by creation time and id, shows no row twice and, once finished, every row that existed at its start |
| Pagination.WalkIsWholeList | src/lib/db/pagination.ts:37-66 | with nothing changing, a walk ends and its pages together are the agency's whole list |
| Pagination.RestingWalk | src/lib/repositories/fakes/fake-client-store.ts:44-51 | from any cursor the pages cut up the rows after it, and every page leaves fewer |
| Pagination.PageIsRest | src/lib/repositories/fakes/fake-client-store.ts:35-52 | stepping past the cursor row gives exactly the rows after it in (createdAt, id) order |
| Pagination.ListingAscends | src/lib/repositories/fakes/fake-client-store.ts:36-42 | the list is newest first by creation time, then id; no two rows of it tie |
| Pagination.ClampLimit | src/lib/db/pagination.ts:23-29 | refuses exactly what is no positive integer; twenty by default; else what is asked for, but at most a hundred |
| Pagination.EvolvesTransitive | src/lib/repositories/fakes/fake-client-store.ts:18-33 | any number of creates and updates between two pages is one change in the sense of WalkIsExact |
| Pagination.ClientStore.List | src/lib/repositories/client-repository.ts:86-91 | newest first by creation time and id, the first n of the agency's rows or of those older than the cursor row; whether that leaves any, and if so the last row shown as next cursor; an empty last page for a cursor that is no row of the agency; the validation error exactly for a limit that is no positive integer |
| Pagination.ClientStore.Create | src/lib/repositories/fakes/fake-client-store.ts:18-33 | appends one row; the table evolves only by it |
| Pagination.ClientStore.Update | src/lib/repositories/fakes/fake-client-store.ts:63-81 | changes only the given fields of only the row with that id and agency, never what the order depends on |
| Ranks.PrefixesAgreeIff | src/lib/reporting/build.ts:48-49 | stable sorts by an order and by a coarser one have the same first n elements if and only if no lead of one of the first n over an earlier element is lost in the coarser order |
| Ranks.RankIsPlace | src/lib/performance/metrics.ts:53-55 | an element's place in a stable sort is the number of earlier elements it does not beat and later ones that beat it |
| Ranking.RankingsAgreeIff | src/lib/reporting/build.ts:40-49 | for any posts and cut, the first n by rounded score are the first n by score if and only if rounding hides no lead of one of the first n by score over an earlier post |
| Ranking.ReportAndBriefAgree | src/lib/performance/metrics.ts:53-66 | report and brief list the same posts, order and scores if rounding hides no lead of one of the five best posts with an idea, and, where the lists tell the kept posts apart, only then |
| Ranking.WholeMetricsAgree | src/lib/performance/metrics.ts:15-22 | with whole-number metrics they always do |
| Ranking.FractionalMetricsDisagree | src/lib/reporting/build.ts:46-48 | two posts with fractional metrics on which report and brief differ |
| Ranking.TopDistinct | src/lib/performance/metrics.ts:25-40 | the first distinct non-blank values, trimmed, in rank order; one value even for max 0 |
| Ranking.SummarizePerformance | src/lib/performance/metrics.ts:46-74 | no brief without posts; else the best ideas as highlights, and pillars and formats of the ranked posts |
| Ranking.HighlightsAreBest | src/lib/performance/metrics.ts:53-66 | the highlights are entries of posts with an idea, best first, each with likes, twice the comments, three times the shares and a thousandth of the impressions, rounded to thousandths; one is left out only for topN as good |
| Ranking.TopPostsAreBest | src/lib/reporting/build.ts:40-49 | so are the report's top posts, at most five, each with its impressions |
| Report.BuildReport | src/lib/reporting/build.ts:11-60 | each occurring platform exactly once, most impressions first and ties by first appearance; the totals and every platform's columns are the number of its posts and the sums of their impressions, likes, comments and shares; the top posts are the five best ideas |
| Report.EveryPostCounts | src/lib/reporting/build.ts:32 | the totals count every row and each of its four metrics once, absent ones as zero |
| Report.RollUp | src/lib/reporting/build.ts:18-38 | the loop's rollups and totals are those of the rows read |
| Report.RollupsBreakDown | src/lib/reporting/build.ts:21-31 | every rollup is the sum of its own platform's posts and the rollups add up to the totals |
| Report.RollupsKeepOrder | src/lib/reporting/build.ts:18-31 | platforms are kept in order of first appearance |
| Trends.MergeIsIncremental | src/lib/trend/combine.ts:16-32 | merging a merged feed with new observations is merging all of them |
| Trends.MergeIsIdempotent | src/lib/trend/combine.ts:16-32 | merging a merged feed changes nothing |
| Trends.MergeIsGrouped | src/lib/trend/combine.ts:17-31 | one entry per distinct non-blank key, in order of first appearance, made of that key's observations |
| Trends.MergeKeys | src/lib/trend/combine.ts:18-20 | keys are distinct and every observation of a non-blank topic is represented |
| Trends.EntriesHold | src/lib/trend/combine.ts:22-29 | an entry has its topic's first spelling, the largest volume and growth, and all refs of a single observation or the first five distinct refs of several |
| Trends.MergeObservations | src/lib/trend/combine.ts:16-32 | the loop computes the merge |
| Redaction.OutputIsSafe | src/lib/logger/index.ts:56-74 | for every object graph the output is a finite tree at most twelve containers deep in which every key that names a secret holds the marker |
| Redaction.SensitiveIff | src/lib/logger/index.ts:50-53 | a key is redacted exactly if one of the 22 words, written out, occurs anywhere in its lower-cased form |
| Redaction.SecretsDoNotGetThrough | src/lib/logger/index.ts:70-72 | what keys that name a secret hold has no influence on the output |
| Redaction.RedactIsIdempotent | src/lib/logger/index.ts:56-74 | redacting a redacted value changes nothing |
| Redaction.CopiedIff | src/lib/logger/index.ts:56-74 | a value comes out as it is if and only if it is within the depth limit, its sensitive keys already hold the marker, and no object occurs in it twice |
| Redaction.PlainTreesAreCopied | src/lib/logger/index.ts:55-74 | without sensitive keys and dates: if and only if it is within the depth limit and unshared |
| Redaction.SharedComesOutCircular | src/lib/logger/index.ts:64-67 | a list that holds one record twice comes out with the marker for circular in the second place |
| Redaction.CopyMeansUnshared | src/lib/logger/index.ts:61-73 | at any depth and with anything seen before, a value that comes out as it is shares no object with itself or with what was seen |
| Redaction.SafeTreesAreCopied | src/lib/logger/index.ts:61-73 | so does any unshared tree whose sensitive keys already hold the marker, at any depth and with anything seen before |
| Redaction.Redactor.Run | src/lib/logger/index.ts:56-74 | the recursive run with its mutable set of seen objects computes the output; in fields: each record field holds the marker if one of the 22 words occurs in its lower-cased key, else its value redacted after the fields before it; each list item likewise; dates, circular and too deep objects come out as their texts |
| Clips.TotalIsClose | src/lib/video/script.ts:67-77 | the clips together miss max(target, 2n) by at most n/200 seconds |
| Clips.ClipsAreLongEnough | src/lib/video/script.ts:74-76 | no clip is shorter than two seconds |
| Clips.LongerNarrationLongerClip | src/lib/video/script.ts:71-76 | a longer narration never gets a shorter clip |
| Clips.ClipsAreInProportion | src/lib/video/script.ts:71-76 | every clip has two seconds and one same rate per word of its narration, a blank one counting as one word, up to half a hundredth |
| Clips.AssembledIsSum | src/lib/video/ffmpeg.ts:48-49 | the assembler's rounded total is the exact sum of the clips |

## Left out

- Platform adapters, image, speech and language providers, the ffmpeg process and the crawler: the publisher is a non-deterministic answer, generated bytes are an input.
- BullMQ and Redis internals, backoff and job retention: any offered payload may be delivered any number of times.
- Prisma and SQL: each store call is one atomic operation; a store write that throws is taken to have had no effect.
- A write that throws inside the catch block of the worker is a crash at that point.
- Liveness of scheduled items: a failed enqueue or a failing pre-flight leaves an item scheduled, and nothing moves it on.
- Compliance rules: the gate is an arbitrary predicate on the copy, per agency configuration.
- Overlapping media calls: each service call is one step, so two reattach calls between `nextVersion` and the insert, or a purge between a dedupe lookup and the new row, are not modelled.
- Rows without a content item, and keys or ids that are generated twice: generated ids and keys are taken to be fresh.
- Collisions of SHA-256: a digest determines its bytes.
- Retention days that are not whole numbers, and infinite ones.
- Browsing the library with filters and the signed streaming route: they only read.
- Floating point: metrics, volumes, scores and durations are exact reals.
- String trimming, lower-casing and word splitting: parameters, or word counts as input.
- Empty page cursors, which count as none, and the tenancy check on a blank agency id.
- Redaction of values inside free text (`scrubSecrets`), invalid dates, and a key named `__proto__`.
- A rate limit of zero or less, for which the wait is not a number.
- PipelineAlone.PublishAlone: compares what is written; the protocol does not keep the answers of finished operations.
- PipelineAlone.TickAlone: the protocol offers a claimed job to the queue even when its enqueue throws, which only adds deliveries.
- Dashboards, notifications, webhooks, billing, teams, API keys and white-labelling.
