# BlackPearl in Dafny

BlackPearl streams media from remote providers to Plex through a local NFS
export. This project models six of its components and proves what they
promise over every input and every run.

- **Rolling chunk cache** (`Cache*.dfy`, `Sums.dfy`). Each mutex-protected
  section is one atomic step; any number of readers, fetches and prefetches
  interleave. Accounting, quota and contents hold in every reachable state, no
  object is complete on disk as long as failed fetches remove their files, a
  chunked read is a direct read, no reader is ever stuck, every read can
  succeed, and one that fails has a cause.
- **Acquisition jobs** (`Job*.dfy`). Rows and candidate plans under guarded
  updates, the plan builder, the worker's reaction to every provider reply,
  and the provider account it changes. Leases fence every run of arbitrary
  callers; with the worker as caller, rows stay loadable, no transition is
  refused, and no info hash gets a second provider object in spite of crashes.
  Every way a job can end has its exact causes, and every active job can still
  succeed.
- **Watchlist and episode frontier** (`Watch*.dfy`, `PlexMetadata.dfy`,
  `PlaybackAdvance.dfy`). A show moves forward one listed episode at a time,
  each move uses up exactly one publication, and a pass moves every show it can.
- **Bencode scanner** (`Bencode*.dfy`, `Bytes.dfy`). The scanner accepts
  exactly the encodings of a grammar and isolates the raw info dictionary.
- **Setup** (`Setup*.dfy`). The saved manifest, the published runtime and the
  status agree; on disk, a kill or a power loss at any point leaves the old or
  the new pair.
- **Handles and ranking** (`Namespace.dfy`, `Handles.dfy`, `Ranking.dfy`). File
  handles keep their meaning across replacements; the ranked result does not
  depend on the order in which providers answer.

`Options.dfy`, `Numbers.dfy`, `Sorting.dfy` and `Subsequences.dfy` hold shared
definitions. Code that updates state in place is modelled by classes and loops
whose contracts equate the new state with a function; the properties are proved
about those functions and about runs made of them.

## Assumptions

- Cache: the content and size behind an object key do not change, keys are
  injective, recovered chunks were written with the same chunk size, and a
  provider that reports success has delivered the bytes asked for.
- Jobs: the clock does not go back; claims come from `Claim`. For the worker
  also: one serialized worker, progress below 100 until an object is ready,
  well-formed identifiers, no direct candidate listed twice. For the provider
  account also: lookups are current, an unauthorized create made nothing,
  nobody else creates objects, object ids are not reused, and a created object
  has the hash of the material sent. For a torrent file that is the selected
  hash by `BencodeProofs.TorrentFileMatches`; for a magnet it is assumed.
- Watchlist: an external id keeps its media type.
- Setup: file contents are synced before they are renamed into place, every
  directory entry may be lost or kept independently until its directory is
  synced, and generation ids are fresh. The agreement of views assumes working
  reads and a working rollback; what happens otherwise is stated exactly. On
  disk, a previous pair that is rolled back is within the limits on reading,
  as every pair read back after a save is. Tokens are trimmed of ASCII white
  space only, where Go also knows other white space.

## Where the code falls short of its promise

- An uncached release can be planned while a valid cached one is left out: when
  direct candidates exist but none of them is valid, one place stays reserved
  for them (`JobPlanProofs.UncachedComesLast`). The Internet Archive gateway
  validates its candidates, so this needs another resolver, or a zero value;
  with valid candidates it cannot occur (`JobPlanProofs.ValidDirectKeepsOrder`).
- A plan with a repeated direct candidate is refused by the repository, so the
  job makes no progress while the resolver repeats itself
  (`JobPlanProofs.RepeatedDirectRefused`, `JobPlanProofs.PlanAccepted`).
- `i01e` and its like are accepted although BEP 3 forbids leading zeros
  (`BencodeProofs.LeadingZeroAccepted`, `BencodeProofs.AcceptedIntegers`).
- A fetch that fails after putting its chunk file in place, and cannot remove
  it, leaves a file the index does not know; by such files an opened object can
  come to be complete on disk, exactly if it is larger than one chunk
  (`CacheFiles.CompleteOnDiskIff`). Runs in which no fetch fails with its file
  in place are exactly those without such files, and there no object is ever
  complete (`CacheFiles.StraysIff`, `CacheFiles.CleanRunsNeverComplete`).
- A token of exactly 4096 bytes is accepted and saved with a newline after it,
  which makes the file too long to be read again
  (`SetupCrashes.LongestTokenIsLost`, `SetupCrashes.SaveAndLoad`).
- Reopening the setup directory removes the previous generation without first
  syncing the link to the committed one (the `current` file). If the process
  was killed between the rename and the sync, a later power loss can bring
  back a link to the removed generation (`SetupCrashes.RestartThenPowerLoss`,
  `SetupRepository.Repository.Open`).
- Handles issued through a snapshot are named by path alone, so they can change
  their meaning if the NFS library ever asks for them; what the library asks
  for is not part of this model (`Handles.PathHandleMoves`,
  `Handles.PathHandleStableIff`).

## Model

| member | source | states |
|---|---|---|
| `CacheShared.RollingShared.constructor` | internal/cache/rolling.go:229-238 | an empty index that accounts for nothing |
| `CacheShared.RollingShared.ObjectUsage` | internal/cache/rolling.go:575-588 | cached plus in-flight bytes of one object, whatever order the maps are walked in |
| `CacheShared.RollingShared.OldestUnpinned` | internal/cache/rolling.go:590-618 | none exactly when no chunk is eligible; otherwise an eligible chunk no eligible chunk is older than |
| `CacheShared.RollingShared.FitsNow` | internal/cache/rolling.go:559-560 | whether the demand fits the object limit or the quota |
| `CacheShared.RollingShared.MakeRoom` | internal/cache/rolling.go:553-573 | the eviction loop ends in the state and verdict of evicting the oldest eligible chunk until the demand fits |
| `CacheShared.RollingShared.Reserve` | internal/cache/rolling.go:806-811 | the whole new state: in-flight entry, reserved bytes and high-water mark |
| `CacheShared.RollingShared.TryReserve` | internal/cache/rolling.go:778-804 | object limit first, then quota, then the reservation; every refusal and failed deletion included |
| `CacheShared.RollingShared.TryReserveBackground` | internal/cache/rolling.go:519-551 | the background variant with its spared chunk, its headroom and its next-episode restriction |
| `CacheShared.RollingShared.Acquire` | internal/cache/rolling.go:708-776 | one locked pass of acquireChunk: hit and pin, join a running fetch, start one, wait, or fail |
| `CacheShared.RollingShared.Release` | internal/cache/rolling.go:975-985 | one pin fewer, nothing else |
| `CacheShared.RollingShared.FinishFetch` | internal/cache/rolling.go:828-857 | reserved bytes become cached bytes or are given back |
| `CacheShared.RollingShared.RecoverChunks` | internal/cache/rolling.go:993-1064 | start-up: the index that sorting, loading and trimming the directory gives, or failure |
| `CacheShared.RollingShared.Listed` | internal/cache/rolling.go:1004-1037 | each directory entry is loaded, skipped or refused as the recovery function says |
| `CacheIndexProofs.OldestExists` | internal/cache/rolling.go:590-618 | a victim exists whenever some chunk is eligible |
| `CacheIndexProofs.VictimUnique` | internal/cache/rolling.go:590-618 | access stamps differ, so the victim does not depend on map order |
| `CacheIndexProofs.EvictUntilVerdict` | internal/cache/rolling.go:553-573 | the loop reports room exactly when there is room and gives up only with nothing eligible left |
| `CacheIndexProofs.EvictUntilOnly` | internal/cache/rolling.go:790-804 | eviction changes no chunk it keeps, never takes a pinned or spared chunk, and takes only eligible ones |
| `CacheIndexProofs.EvictionPolicy` | internal/cache/rolling.go:790-826 | what is evicted is older than every eligible chunk that stays, and the last eviction was needed |
| `CacheIndexProofs.ReserveSound` | internal/cache/rolling.go:806-811 | a reservation that fits keeps accounting, stamps, contents and quota |
| `CacheIndexProofs.TryReserveOk` | internal/cache/rolling.go:778-804 | a foreground reservation keeps the index sound and adds at most its own in-flight entry |
| `CacheIndexProofs.TryReserveBackgroundOk` | internal/cache/rolling.go:519-551 | a background reservation keeps the index sound and adds at most its own in-flight entry |
| `CacheIndexProofs.TryReserveUsage` | internal/cache/rolling.go:778-789 | after a grant the object stays below its full size; no other object's usage grows |
| `CacheIndexProofs.TryReserveBackgroundUsage` | internal/cache/rolling.go:519-573 | the same for background reservations |
| `CacheIndexProofs.BackgroundHeadroom` | internal/cache/rolling.go:519-551 | a granted background fetch leaves room for one whole foreground chunk |
| `CacheIndexProofs.BackgroundSpares` | internal/cache/rolling.go:464-517 | a background fetch evicts no pinned or spared chunk; a next-episode prefetch evicts no chunk of another object |
| `CacheIndexProofs.BlockedMeansBusy` | internal/cache/rolling.go:730-776 | a blocked reservation means some chunk is pinned or some fetch is in flight |
| `CacheIndexProofs.IdleMeansGranted` | internal/cache/rolling.go:778-804 | with nothing pinned, nothing in flight and working deletions a reservation is granted |
| `CacheIndexProofs.PinSound` | internal/cache/rolling.go:708-729 | a hit keeps the index sound with a fresh, distinct stamp |
| `CacheIndexProofs.EndFetchSound` | internal/cache/rolling.go:828-849 | the end of a fetch keeps accounting, stamps, contents and quota |
| `CacheRecovery.FirstChunksSum` | internal/cache/rolling.go:1081-1088 | chunk lengths over all indices add up to the object size |
| `CacheRecovery.SomeChunkMissing` | internal/cache/rolling.go:553-573 | an object kept below its size misses at least one whole chunk |
| `CacheRecovery.RecoverSound` | internal/cache/rolling.go:993-1064 | recovery ends with exact accounting inside the quota, nothing pinned, nothing in flight |
| `CacheRecovery.RecoverSucceeds` | internal/cache/rolling.go:1004-1064 | start-up fails only on an entry it does not know or a file, chunk or temporary, that it cannot delete |
| `CacheRecovery.RecoverKeepsNewest` | internal/cache/rolling.go:1038-1061 | what the quota drops at start-up is never newer than what it keeps |
| `CacheGrants.OwnFilesAcceptable` | internal/cache/rolling.go:1024-1035 | every chunk file the cache itself wrote, full chunks included, passes the size check at start-up |
| `CacheGrants.OwnDirectoryRecovers` | internal/cache/rolling.go:993-1064 | start-up succeeds on the cache's own directory whenever every temporary and every trimmed file can be deleted |
| `CacheGrants.RecoverKeepsWhatFits` | internal/cache/rolling.go:1044-1061 | every saved file is in the index with its bytes unless the quota is exceeded |
| `CacheGrants.FittingPrefetchStarts` | internal/cache/rolling.go:519-551 | a prefetch that fits beside a whole foreground chunk starts at once and evicts nothing |
| `CacheGrants.IdlePrefetch` | internal/cache/rolling.go:519-551 | in an idle pool read-ahead is granted, and a next-episode prefetch exactly if no other object has to make way |
| `CacheGrants.OpenSucceeds` | internal/cache/rolling.go:257-288 | an object with bytes can be opened in every idle pool with working deletions, any object in a persistent one |
| `CacheGrants.EmptyNeverOpens` | internal/cache/rolling.go:553-573 | an object without bytes is never opened in a rolling pool |
| `CacheSafety.StepKeeps` | internal/cache/rolling.go:349-402 | every step of every reader, fetch and scheduler keeps the invariant of the whole cache |
| `CacheSafety.AlwaysInv` | internal/cache/rolling.go:993-1064 | the invariant holds in every state reachable, under any interleaving, from a pool recovered from its own directory |
| `CacheProgress.QuotaAlways` | internal/cache/rolling.go:708-857 | in every reachable state current and reserved are exact sums over disjoint keys and stay within the high-water mark and the quota |
| `CacheProgress.NeverCompleteAlways` | internal/cache/rolling.go:519-588 | no opened or prefetched object is ever complete: some chunk is neither cached nor in flight |
| `CacheProgress.ReadRefinesDirect` | internal/cache/rolling.go:349-427 | the bytes read are the remote bytes from the offset; a success delivers exactly what a direct read would, with EOF exactly when cut short |
| `CacheFiles.StepContinues` | internal/cache/rolling.go:778-857 | a running fetch is given up only by its own end, and any fetch that starts is for an object of more than one chunk |
| `CacheFiles.StraysIff` | internal/cache/rolling.go:954-971 | over any run, a file that neither the index nor a running fetch accounts for exists at some moment exactly when some fetch fails and leaves its file in place |
| `CacheFiles.CleanRunsNeverComplete` | internal/cache/rolling.go:954-971 | in a run whose failed fetches remove their files no opened object is ever complete on disk |
| `CacheFiles.CompleteMeansStray` | internal/cache/rolling.go:954-971 | in any run, the missing chunk of an opened object that is complete on disk is such a file |
| `CacheFiles.CompleteOnDiskIff` | internal/cache/rolling.go:519-588 | an opened object can come to be complete on disk, by failed fetches that leave their files, exactly when it is larger than one chunk |
| `CacheFiles.StrayCompletes` | internal/cache/rolling.go:954-971 | for every object of more than one chunk, a reachable state with the whole object on disk |
| `CacheProgress.PinnedStays` | internal/cache/rolling.go:590-618 | no step evicts or rewrites a chunk while a reader holds it |
| `CacheProgress.NoDeadlock` | internal/cache/rolling.go:376-391 | every unfinished reader can move after at most two steps of others, none of them a cancellation |
| `CacheProgress.Unblock` | internal/cache/rolling.go:975-985 | a reader that cannot move holds no pin, and the pin release or fetch end it waits for is possible |
| `CacheProgress.ReadCanSucceed` | internal/cache/rolling.go:349-402 | from every reachable state a read that has not failed has a schedule in which it succeeds |
| `CacheOutcomes.EveryReadCanSucceed` | internal/cache/rolling.go:349-427 | from every reachable state, every read started at an offset of zero or more has a schedule in which it ends without an error with exactly the bytes a direct read gives, and EOF exactly when cut short |
| `CacheOutcomes.StepFails` | internal/cache/rolling.go:708-776 | one step makes a reader fail exactly if it cancels it, is its failing direct read or copy, is an attempt refused for a failed deletion, or ends its wait for a fetch that failed; the cancellation of a prefetch it had joined is none of these |
| `CacheOutcomes.FailsExactlyWithCause` | internal/cache/rolling.go:349-402 | over any run a read fails exactly if its offset was negative or the run holds such a step for it |
| `CacheOutcomes.WorkingDeletions` | internal/cache/rolling.go:553-573 | with deletions that work no attempt is refused |
| `JobRepository.Repository.FindActive` | internal/repository/acquisitionjob/repository.go:143-149 | finds an active job of the intent exactly when there is one |
| `JobRepository.Repository.Submit` | internal/repository/acquisitionjob/repository.go:124-165 | returns the active job of the same intent, or inserts a queued row, or rejects; the table changes accordingly |
| `JobRepository.Repository.Earliest` | internal/repository/acquisitionjob/repository.go:176-184 | the claimable job ahead of all others by due time, age and id |
| `JobRepository.Repository.Claim` | internal/repository/acquisitionjob/repository.go:168-209 | leases exactly the job in front with the next version; a row that does not load is leased without a claim |
| `JobRepository.Repository.Transition` | internal/repository/acquisitionjob/repository.go:527-560 | one guarded update: commits exactly when version, expiry and state match |
| `JobRepository.Repository.ValidateCandidatePlan` | internal/repository/acquisitionjob/repository.go:793-816 | accepts exactly the plans of one to five valid, distinct, correctly numbered candidates |
| `JobRepository.Repository.Plan` | internal/repository/acquisitionjob/repository.go:233-291 | stores the plan and selects its first candidate, or changes nothing |
| `JobRepository.Repository.AttachPrepared` | internal/repository/acquisitionjob/repository.go:300-319 | moves a selected job to preparing with its object and ownership, or changes nothing |
| `JobRepository.Repository.NextPending` | internal/repository/acquisitionjob/repository.go:370-375 | the least pending ordinal |
| `JobRepository.Repository.Advance` | internal/repository/acquisitionjob/repository.go:323-429 | marks the candidate, selects the next pending one or fails the job, all or nothing; reports whether one is left |
| `JobRepository.Repository.Defer` | internal/repository/acquisitionjob/repository.go:432-452 | gives the lease back with a future attempt, or changes nothing |
| `JobRepository.Repository.Succeed` | internal/repository/acquisitionjob/repository.go:455-471 | records the published object if the resulting snapshot is valid, or changes nothing |
| `JobRepository.Repository.Fail` | internal/repository/acquisitionjob/repository.go:475-491 | records a terminal outcome if the resulting snapshot is valid, or changes nothing |
| `JobModel.FirstUnique` | internal/repository/acquisitionjob/repository.go:176-184 | the job to lease next does not depend on scan order |
| `JobRuns.SubmitStores` | internal/repository/acquisitionjob/repository.go:124-165 | the submission step of a run stores what Submit stores |
| `JobQueue.SubmitLaw` | internal/repository/acquisitionjob/repository.go:124-165 | a request is stored, queued and due at once, exactly when its id and text are acceptable, the id is free and no unfinished job has its intent |
| `JobQueue.LeaseLaw` | internal/repository/acquisitionjob/repository.go:168-209 | a lease takes a row exactly when some row is unfinished, due and unleased, and then the one with the least due time, age and id; it counts the attempt, moves the version on and sets the expiry, and touches nothing else |
| `JobQueue.LeaseSkips` | internal/repository/acquisitionjob/repository.go:176-184 | a lease neither changes nor claims a row that is not due |
| `JobQueue.DeferredUntil` | internal/repository/acquisitionjob/repository.go:432-453 | after a committed deferral to a time, nothing before that time leases the job or changes its row, over any run |
| `JobQueue.TransitionLaw` | internal/repository/acquisitionjob/repository.go:233-491 | column by column, what each committed transition found in the row and what it left there; a refused one changes nothing |
| `JobQueue.AdvanceGivesUp` | internal/repository/acquisitionjob/repository.go:355-429 | the given-up candidate gets its outcome and the first waiting one is selected; if none waits the job fails |
| `JobFencing.FailShape` | internal/acquisition/job.go:394-410 | a planned job can only be failed by asking for manual review |
| `JobFencing.AdvanceShape` | internal/repository/acquisitionjob/repository.go:356-417 | giving up candidate k makes k + 1 the selected one, or leaves only abandoned ones |
| `JobFencing.CommitShape` | internal/repository/acquisitionjob/repository.go:233-491 | every transition keeps the shape of the candidate plan |
| `JobFencing.CommitProgress` | internal/repository/acquisitionjob/repository.go:233-491 | every transition but a deferral uses up some of the remaining moves; a deferral uses none |
| `JobFencing.CommitIsFirst` | internal/repository/acquisitionjob/repository.go:539-560 | a claim that passes the guard has not committed before and its snapshot is the row |
| `JobFencing.StepKeeps` | internal/repository/acquisitionjob/repository.go:124-560 | every submission, claim and transition by any caller keeps fencing, plan shape and bound |
| `JobFencing.AlwaysInv` | internal/repository/acquisitionjob/repository.go:124-560 | so every reachable state has them |
| `JobTheorems.OneLiveClaim` | internal/repository/acquisitionjob/repository.go:168-209 | claims of a job have strictly increasing versions and no two can commit at the same time |
| `JobTheorems.ClaimCommitsOnce` | internal/repository/acquisitionjob/repository.go:527-560 | each claim commits at most one transition |
| `JobTheorems.OneActiveJob` | internal/repository/acquisitionjob/repository.go:143-165 | at most one active job exists per intent key |
| `JobTheorems.TerminalForever` | internal/repository/acquisitionjob/repository.go:517-560 | a succeeded, failed or manual-review job never changes again |
| `JobTheorems.LeaseIsExclusive` | internal/repository/acquisitionjob/repository.go:176-209 | until it expires or commits, a lease keeps everyone else from leasing or changing its job |
| `JobTheorems.PlanAndBound` | internal/repository/acquisitionjob/repository.go:233-429 | an active planned job has exactly one selected candidate, at its ordinal, abandoned ones before, pending ones after; a plan of n candidates allows at most 1 + 2n moves |
| `JobPlanning.Eligible` | internal/service/acquisitionjob/worker.go:163-179 | the first hundred torrent releases with a hash not seen before |
| `JobPlanning.PartitionCached` | internal/service/acquisitionjob/worker.go:246-270 | splits the eligible releases by the hashes the cache confirmed, keeping their order |
| `JobPlanning.AppendAll` | internal/service/acquisitionjob/worker.go:205-231 | appends the valid items in order until the limit is reached |
| `JobPlanning.BuildPlan` | internal/service/acquisitionjob/worker.go:199-231 | the plan is the cached, then direct, then uncached part, numbered, first one selected |
| `JobPlanProofs.ProbeInOrder` | internal/service/acquisitionjob/worker.go:166-179 | the probed releases keep rank order and are at most a hundred |
| `JobReactions.ProbeJoins` | internal/service/acquisitionjob/worker.go:166-179 | a release is probed exactly when it is a torrent whose hash no earlier torrent has and fewer than a hundred were probed before it |
| `JobPlanProofs.ProbeDistinct` | internal/service/acquisitionjob/worker.go:166-179 | their hashes are present and distinct |
| `JobPlanProofs.PlanOrder` | internal/service/acquisitionjob/worker.go:199-231 | each part of the plan keeps the order it came in and holds only cached, direct or uncached candidates |
| `JobPlanProofs.PlanAccepted` | internal/repository/acquisitionjob/repository.go:793-816 | the repository accepts the plan exactly when it is nonempty and repeats no direct candidate |
| `JobPlanProofs.DistinctDirectAccepted` | internal/service/acquisitionjob/worker.go:214-222 | a resolver that repeats no identity always gets an acceptable plan |
| `JobPlanProofs.RepeatedDirectRefused` | internal/repository/acquisitionjob/repository.go:808-811 | a valid direct candidate listed twice makes a plan the repository refuses |
| `JobPlanProofs.DirectHasPlace` | internal/service/acquisitionjob/worker.go:201-222 | a valid direct candidate always gets a place |
| `JobPlanProofs.UncachedComesLast` | internal/service/acquisitionjob/worker.go:201-231 | an uncached release is planned while a valid cached one is left out exactly when direct candidates exist, none is valid, five or more cached ones wait and an uncached one is valid |
| `JobPlanProofs.ValidDirectKeepsOrder` | internal/service/acquisitionjob/worker.go:201-231 | with direct candidates that are all valid the exception cannot occur |
| `JobPlanProofs.UncachedBeforeCached` | internal/service/acquisitionjob/worker.go:201-231 | the exceptional case, for any five cached releases and an invalid direct candidate |
| `JobPlanProofs.UncachedBeforeCachedSample` | internal/service/acquisitionjob/worker.go:201-231 | it occurs for a concrete input |
| `JobPlanProofs.PlanIsFull` | internal/service/acquisitionjob/worker.go:205-231 | room stays unused only when nothing valid is left over, up to the same exception |
| `JobWorker.Resolve` | internal/service/acquisitionjob/worker.go:162-244 | the decision on a queued job for every search, direct and cache reply, errors included |
| `JobDecisions.RetrySound` | internal/repository/acquisitionjob/repository.go:432-452 | a deferral with the worker's codes and progress is accepted and leaves a loadable row |
| `JobDecisions.AdvanceSound` | internal/repository/acquisitionjob/repository.go:323-429 | an advancement the worker asks for is accepted and leaves a loadable row |
| `JobDecisions.ResolvedSound` | internal/service/acquisitionjob/worker.go:162-244 | whatever the searches reply, the decision on a queued job is accepted |
| `JobDecisions.NextOk` | internal/service/acquisitionjob/worker.go:284-539 | for every phase and every reply, the worker's next phase is in order and its decision is accepted; which one it is, the lemmas of JobReactions say exactly |
| `JobDecisions.ReviewExactlyInDoubt` | internal/service/acquisitionjob/worker.go:312-357 | the worker asks for manual review exactly when a reply leaves the provider's state in doubt |
| `JobReviews.ReviewOnlyInDoubt` | internal/service/acquisitionjob/worker.go:312-505 | over any run with any crashes, a job under manual review has seen such a reply to a call made for it |
| `JobDecisions.PassEnds` | internal/service/acquisitionjob/worker.go:126-160 | every reply a call can give brings the pass closer to its one transition |
| `JobReactions.FirstCallExactly` | internal/service/acquisitionjob/worker.go:142-159 | the stage and kind of the job decide the first call; a range job without a range provider is put off |
| `JobReactions.CreatesExactly` | internal/service/acquisitionjob/worker.go:312-351 | a torrent is created exactly along one path: not found, offered again, materialized; an unclear create is looked up again |
| `JobReactions.AttachesExactly` | internal/service/acquisitionjob/worker.go:284-357 | an object is adopted as the job's own exactly when a create returned it or the look-up after an unclear create found it, as somebody else's exactly when it was found first or is a range |
| `JobReactions.PublishesExactly` | internal/service/acquisitionjob/worker.go:360-454 | an object id is published exactly when an inspection found it playable |
| `JobReactions.SucceedsExactly` | internal/service/acquisitionjob/worker.go:401-408 | success is asked for exactly when the publication of that object id succeeded |
| `JobReactions.DeletesExactly` | internal/service/acquisitionjob/worker.go:467-479 | an object is deleted exactly when the job created it and the candidate stalled or holds nothing playable |
| `JobReactions.GivesUpExactly` | internal/service/acquisitionjob/worker.go:284-493 | a candidate is given up, with its outcome and code, exactly for the listed replies: not offered, missing, stalled, unplayable, or the object to delete is deleted |
| `JobReactions.DefersExactly` | internal/service/acquisitionjob/worker.go:507-530 | the pass ends in a deferral exactly for an object not ready, an unauthorized or unavailable provider, or a missing range provider, each with its code, wait and progress |
| `JobReactions.StopsExactly` | internal/service/acquisitionjob/worker.go:507-510 | a pass ends without a transition exactly when a call is interrupted |
| `JobReactions.FailsExactly` | internal/service/acquisitionjob/worker.go:232-237 | a job is failed without review only by the decision that there is no release |
| `JobReactions.PlanEmptyIff` | internal/service/acquisitionjob/worker.go:193-231 | a plan is empty exactly when no direct candidate and no probed release makes a valid selection, whatever is cached |
| `JobReactions.DecidesExactly` | internal/service/acquisitionjob/worker.go:162-243 | a queued job gets a plan exactly when something can be tried and no answer that matters failed, fails for want of a release exactly when nothing can and none failed, and is put off otherwise |
| `JobOutcomes.SucceededWasPublished` | internal/service/acquisitionjob/worker.go:360-455 | over any run with any crashes, a succeeded job was found playable and then published with that very object id |
| `JobOutcomes.MarkedWasLost` | internal/service/acquisitionjob/worker.go:284-493 | a candidate is marked stalled, missing or unplayable only after a call about that candidate got a reply with that meaning |
| `JobOutcomes.FailedWasExhausted` | internal/service/acquisitionjob/worker.go:162-493 | a job fails only when nothing could be tried, or when every candidate of its plan was lost to a reply of its own |
| `JobSuccess.DecisionsLand` | internal/service/acquisitionjob/worker.go:458-539 | what the worker decided is what the row says after the write, a retry counted from that time |
| `JobSuccess.InspectPublishWrite` | internal/service/acquisitionjob/worker.go:360-410 | from every site that arises with an inspection under way, playable, published and written before the lease ends, the row is succeeded with that object id |
| `JobSuccess.Turn` | internal/repository/acquisitionjob/repository.go:168-209 | any due job comes to the front of the queue, however many are before it |
| `JobSuccess.EveryJobCanSucceed` | internal/service/acquisitionjob/worker.go:126-539 | from every site that arises, every active job has a run that ends in success with any well-formed object id, given a usable release and accounts that hold well-formed objects and can make one more |
| `JobSafety.CreatedSole` | internal/service/acquisitionjob/worker.go:312-346 | the object a create makes is the only one with its hash |
| `JobSafety.HappeningKeeps` | internal/service/acquisitionjob/worker.go:126-539 | every step of queue, worker and provider, every crash and every vanished object keeps the invariant |
| `JobSafety.AlwaysSafe` | internal/service/acquisitionjob/worker.go:126-539 | so every state that arises has it |
| `JobSafety.RowsAlwaysLoad` | internal/acquisition/job.go:340-511 | every stored row passes the snapshot validator and every claim that finds a job gets it |
| `JobSafety.RowsMakeSense` | internal/acquisition/job.go:340-511 | what every stored row holds, state by state: plan, selection, object, publication, progress and code |
| `JobSafety.NeverWedges` | internal/service/acquisitionjob/worker.go:458-539 | the transition the worker chose commits while its lease lasts and leaves a loadable row |
| `JobSafety.OneObjectPerHash` | internal/service/acquisitionjob/worker.go:312-357 | no info hash ever gets a second provider object, despite crashes |
| `JobSafety.CreatesOnlyWhenAbsent` | internal/service/acquisitionjob/worker.go:312-344 | a create is sent only when the account holds nothing with that hash |
| `JobSafety.OwnsOnlyWhatItCreated` | internal/service/acquisitionjob/worker.go:344-356 | a row says an object is the job's own only if the job created it for its selected hash |
| `JobSafety.DeletesOnlyOwn` | internal/service/acquisitionjob/worker.go:467-480 | a delete is only ever sent for an object the job itself created for its selected hash |
| `Bencode.Parser.Consume` | internal/acquisition/material.go:153-159 | steps over one expected byte or stays |
| `Bencode.Parser.SkipDigits` | internal/acquisition/material.go:163-165 | stops at the end of the run of digits |
| `Bencode.Parser.ReadBytes` | internal/acquisition/material.go:161-181 | reads the length-prefixed string the grammar gives, or fails |
| `Bencode.Parser.SkipIntegerHere` | internal/acquisition/material.go:224-242 | skips an integer the grammar accepts, or fails |
| `Bencode.Parser.SkipValue` | internal/acquisition/material.go:183-222 | ends exactly where the scanner function ends, and terminates |
| `Bencode.Parser.SkipListHere` | internal/acquisition/material.go:190-200 | the list loop ends where the item scan ends |
| `Bencode.Parser.SkipDictHere` | internal/acquisition/material.go:201-214 | the dictionary loop ends where the pair scan ends |
| `Bencode.RawTorrentInfo` | internal/acquisition/material.go:104-137 | returns the raw info slice that the scan function gives |
| `BencodeProofs.ReadEncoded` | internal/acquisition/material.go:161-181 | an encoded string is read back whole, whatever follows |
| `BencodeProofs.ReadSound` | internal/acquisition/material.go:161-181 | whatever is read was the encoding of its content, with a canonical length |
| `BencodeProofs.SkipEncoded` | internal/acquisition/material.go:183-222 | skipping the encoding of a valid value stops exactly at its end, for any suffix |
| `BencodeProofs.SkipSound` | internal/acquisition/material.go:183-222 | whatever is skipped is the encoding of a valid value |
| `BencodeProofs.SkipIsGrammar` | internal/acquisition/material.go:183-222 | the scanner stops at e exactly when a valid value's encoding lies between o and e |
| `BencodeProofs.UniqueEnd` | internal/acquisition/material.go:183-222 | no valid encoding is a proper prefix of another |
| `BencodeProofs.AcceptedIntegers` | internal/acquisition/material.go:224-242 | accepted integers are the canonical ones and exactly those with one superfluous leading zero |
| `BencodeProofs.LeadingZeroAccepted` | internal/acquisition/material.go:237-241 | the integer 01 is accepted and is not canonical |
| `BencodeProofs.ScanSound` | internal/acquisition/material.go:110-134 | a successful scan has parsed the rest as pairs with one info dictionary |
| `BencodeProofs.ScanComplete` | internal/acquisition/material.go:110-134 | every such rest is scanned to that dictionary's encoding |
| `BencodeProofs.InfoIsEncoding` | internal/acquisition/material.go:104-137 | the hashed slice exists exactly when the payload is one dictionary within the depth limit with exactly one info entry, a dictionary, and is that entry's encoding |
| `Bencode.NewTorrentFileInput` | internal/acquisition/material.go:71-90 | accepts exactly the bounded payloads whose info slice hashes to the selected release |
| `BencodeProofs.TorrentFileMatches` | internal/acquisition/material.go:71-90 | so an accepted file is one whose only info dictionary encodes to the selected hash, and every such file is accepted |
| `BencodeProofs.DepthExactly` | internal/acquisition/material.go:183-222 | a value is accepted exactly when nothing in it lies more than 64 levels deep and its integers and strings are acceptable |
| `BencodeProofs.SampleInfo` | internal/acquisition/material.go:104-142 | in the format's own letters, the slice hashed reaches from the d of the info dictionary to its e |
| `WatchRepository.Repository.SetPolicy` | internal/repository/watchlist/repository.go:109-135 | replaces the policy alone |
| `WatchRepository.Repository.UpsertObservations` | internal/repository/watchlist/repository.go:231-282 | all observations or none; known rows keep intent, eligibility and progress |
| `WatchRepository.Repository.Earliest` | internal/repository/watchlist/repository.go:297-327 | the claimable row ahead of all others in the claim order |
| `WatchRepository.Repository.Claim` | internal/repository/watchlist/repository.go:285-346 | leases exactly that row with the next version |
| `WatchRepository.Repository.Transition` | internal/repository/watchlist/repository.go:380-463 | attach, defer and complete commit exactly under the exact live lease |
| `WatchRepository.Repository.CanAdvanceEpisode` | internal/repository/watchlist/repository.go:467-510 | true exactly for a recently observed, published, eligible episode at the frontier under the pilot policy |
| `WatchRepository.Repository.AdvanceEpisode` | internal/repository/watchlist/repository.go:514-579 | moves that frontier to a later episode and resets the work state, or changes nothing |
| `WatchRepository.Observer.Sync` | internal/service/watchlist/observer.go:82-135 | records the snapshot with the eligibility the baseline and policy give; a failed sync only marks the observer unhealthy |
| `WatchModel.FirstUnique` | internal/repository/watchlist/repository.go:320-326 | the next claim does not depend on scan order |
| `WatchQueue.SyncExactly` | internal/repository/watchlist/repository.go:231-282 | key by key, what a sync leaves: rows not seen as they were, known ones refreshed, new ones waiting and due, eligible exactly after a baseline under a policy that follows their kind |
| `WatchQueue.LeaseLaw` | internal/repository/watchlist/repository.go:285-346 | a claim takes a row exactly when some row is followed, eligible and due, and then the one first in line: expired leases, then due time, then age, then key |
| `WatchQueue.PolicyHolds` | internal/repository/watchlist/repository.go:297-319 | under a disabled policy nothing is claimed, and without the pilot policy no show |
| `WatchQueue.DeferredUntil` | internal/repository/watchlist/repository.go:349-463 | what asked to be looked at again at a time is not claimed before it, over any run |
| `WatchQueue.CommitsExactly` | internal/repository/watchlist/repository.go:349-463 | a transition commits exactly when claim and command are well formed and the row is still leased to the claim |
| `WatchQueue.TransitionLaw` | internal/repository/watchlist/repository.go:380-463 | column by column, what each committed transition leaves |
| `WatchQueue.MoveLaw` | internal/repository/watchlist/repository.go:514-579 | a frontier moves exactly if the show is followed, eligible, published at that object and episode and seen recently, and the next episode is later |
| `WatchSafety.SyncRefreshes` | internal/repository/watchlist/repository.go:255-277 | a sync only refreshes known rows and adds rows at (0, 0) or (1, 1) |
| `WatchSafety.StepKeeps` | internal/repository/watchlist/repository.go:231-579 | every step keeps rows, claims, log and balance in order |
| `WatchSafety.AlwaysInv` | internal/repository/watchlist/repository.go:231-579 | so every reachable state has them in order |
| `WatchTheorems.ShowIntent` | internal/repository/watchlist/repository.go:514-579 | whoever moves frontiers, a show stands at (0, 0) or where moves from (1, 1) led, each from where it stood to a later episode |
| `WatchPlayback.PassIsRun` | internal/service/playbackadvance/worker.go:141-195 | the moves of a worker pass are a run of the queue with the same rows, and log only their own traces |
| `WatchPlayback.PlayIsRun` | internal/service/playbackadvance/worker.go:141-195 | every run with worker passes is a run of the queue in which each move was sanctioned by a pass |
| `WatchPlayback.FrontierFollowsListing` | internal/service/playbackadvance/worker.go:141-195 | with the worker as only mover, a show stands at (0, 0) or where moves from (1, 1) led, each to the least episode the server lists after the one left, after a qualifying playback of the published file |
| `WatchPlayback.ServerPass` | internal/service/playbackadvance/worker.go:141-195 | what the worker does on the queue is such a pass, and its run leads to the queue the worker leaves |
| `WatchTheorems.OnePublicationPerMove` | internal/repository/watchlist/repository.go:419-463 | every move used up exactly one publication, of the very episode it left; at most one is unused |
| `WatchTheorems.ClaimCompletesItsOwnEpisode` | internal/repository/watchlist/repository.go:419-463 | a claim commits only for the episode it was taken for, once, and no other claim can |
| `WatchTheorems.IntentOnlyGrows` | internal/repository/watchlist/repository.go:514-579 | over any run an intent stays or moves to a later episode, and eligibility never changes |
| `WatchTheorems.IneligibleNeverClaimed` | internal/repository/watchlist/repository.go:297-346 | an item ineligible at first observation stays pending and is never claimed |
| `WatchTheorems.BaselineRecordsOnly` | internal/service/watchlist/observer.go:105-124 | the first sync after a start makes nothing eligible |
| `PlaybackAdvance.Process` | internal/service/playbackadvance/worker.go:141-195 | the queue, the moves and the verdict of handling the playbacks one after another with the cutoff two polls back; its moves are justified: a qualifying playback of a published episode, to its successor in any listing that agrees with the pages that came |
| `PlaybackAdvance.EveryPlaybackHandled` | internal/service/playbackadvance/worker.go:152-193 | after a pass without an error, no playback of two minutes and a tenth, of the episode published at its path, with a later one listed, is still at its show's frontier |
| `PlaybackAdvance.FailsExactly` | internal/service/playbackadvance/worker.go:152-193 | a pass fails exactly when some long enough playback has a failed lookup, or is of a published episode that is no valid frontier, or stands at the frontier of a show not moved while the listings do not answer |
| `PlaybackAdvance.HandleTracks` | internal/service/playbackadvance/worker.go:152-193 | a show leaves its frontier exactly when the pass moves it |
| `WatchPlayback.PassHandles` | internal/service/playbackadvance/worker.go:141-195 | a pass in a run leaves the queue that handling its playbacks leaves |
| `PlexMetadata.Children` | internal/gateway/plexmetadata/gateway.go:196-227 | the page loop ends within the limit with what collecting pages gives |
| `PlexMetadata.CollectsAll` | internal/gateway/plexmetadata/gateway.go:196-227 | a listing is collected whole or not at all, and whole whenever the server answers |
| `PlexMetadata.Seasons` | internal/gateway/plexmetadata/gateway.go:151-173 | exactly the valid seasons in strictly increasing order; unavailable exactly when one number has two identities |
| `PlexMetadata.Episodes` | internal/gateway/plexmetadata/gateway.go:175-194 | exactly the valid episodes of the season in strictly increasing order |
| `PlexMetadata.Next` | internal/gateway/plexmetadata/gateway.go:87-149 | the answer the pages that came determine: unavailable exactly when the seasons did not come or conflict, or a season is missing before a later episode is met; found exactly with the least listed episode after the current one; true of every listing that agrees with those pages |
| `PlexMetadata.AvailableAnswers` | internal/gateway/plexmetadata/gateway.go:87-149 | complete and consistent listings always give an answer |
| `PlexMetadata.SuccessorExists` | internal/gateway/plexmetadata/gateway.go:111-149 | a listed episode with a later one has a successor |
| `PlexMetadata.ListedExactly` | internal/gateway/plexmetadata/gateway.go:151-194 | what is listed, on the entries: a season numbered 1 to 99 with a well-formed id and under it an episode of that season numbered 1 to 999 |
| `PlexMetadata.FetchedBounded` | internal/gateway/plexmetadata/gateway.go:196-227 | listings over 100 seasons or 1000 episodes do not come at all |
| `PlexMetadata.FetchedIsTrue` | internal/gateway/plexmetadata/gateway.go:196-227 | whatever requests fail, the listings that came are the server's own, whole |
| `PlexMetadata.AnsweringIsAvailable` | internal/gateway/plexmetadata/gateway.go:196-227 | a consistent server that answers for the show and its listed seasons within the limits is always available |
| `PlexMetadata.NextOnServer` | internal/gateway/plexmetadata/gateway.go:87-149 | so an answer is the true successor in the server's lists, whatever requests fail |
| `SetupRepository.Repository.Try` | internal/repository/setup/repository.go:413-423 | one system call, which takes effect or fails, and a point where power may be lost |
| `SetupRepository.Repository.TryOutside` | internal/repository/setup/repository.go:256-282 | a call outside a set of generations leaves the link and that set as they were, at every point of a stretch of such calls |
| `SetupRepository.Repository.RemoveAll` | internal/repository/setup/repository.go:264-269 | a removal that may stop half way changes no other generation |
| `SetupRepository.Repository.CleanupInactiveGenerations` | internal/repository/setup/repository.go:318-333 | on any disk: removes every other generation, spares the kept one and the link at every point, and is complete unless a call failed |
| `SetupRepository.Repository.WriteGeneration` | internal/repository/setup/repository.go:256-282 | a generation is whole and synced before the commit, or discarded, with the link untouched; a single failure leaves nothing of it |
| `SetupRepository.Repository.Discard` | internal/repository/setup/repository.go:260-270 | the deferred removal of an uncommitted generation is invisible, and complete unless a call fails |
| `SetupRepository.Repository.SaveGeneration` | internal/repository/setup/repository.go:241-294 | on any disk: killed at any point it leaves exactly the old or the new pair loadable, power lost at any point likewise if power losses were harmless before; each reply says which is stored, whether it is settled and what is left of other generations |
| `SetupRepository.Repository.Commit` | internal/repository/setup/repository.go:283-293 | from the rename of the link on: the same, for a generation that is whole |
| `SetupRepository.Repository.Clear` | internal/repository/setup/repository.go:298-316 | on any disk: killed, or power lost, at any point it leaves the old pair or none |
| `SetupRepository.Repository.Open` | internal/repository/setup/repository.go:38-66 | on any disk: killed at any point and opened again it loads what it loaded before; once it is done, power losses stay harmless exactly when the link can come back to no other generation |
| `SetupRepository.ReopenSafeIff` | internal/repository/setup/repository.go:55-64 | after a complete cleanup power losses are harmless exactly when no unsynced change of the link could be undone to another generation |
| `SetupCrashes.KillSaveAndReopen` | internal/repository/setup/repository.go:38-66 | for a save killed at any system call and a reopening with any failures, on any disk: exactly the old pair or the new one is loaded |
| `SetupCrashes.KillClearAndReopen` | internal/repository/setup/repository.go:298-316 | for a clear killed at any system call and a reopening: exactly the old pair or none |
| `SetupCrashes.LosePowerAndReopen` | internal/repository/setup/repository.go:241-294 | for power lost at any system call of a save, in any way, and a reopening: exactly an old pair or the new one |
| `SetupCrashes.RestartThenPowerLoss` | internal/repository/setup/repository.go:283-289 | a save killed between rename and sync, a complete reopening and then a power loss can leave a link to nothing |
| `SetupCrashes.RestartThenPowerLossSample` | internal/repository/setup/repository.go:55-64 | it happens from a settled disk with one saved pair |
| `SetupCrashes.SaveAndLoad` | internal/repository/setup/repository.go:356-377 | a stored pair loads again exactly when the token is shorter than 4096 bytes and the manifest at most 512 KiB; otherwise nothing loads |
| `SetupCrashes.LongestTokenIsLost` | internal/repository/setup/repository.go:363-377 | a token of 4096 bytes passes validation, is saved without an error, and never loads again |
| `SetupBridge.SaveManifest` | internal/repository/setup/repository.go:229-239 | what each reply of a save means to the service: nothing changed, or the pair is seen exactly when it is within the limits |
| `SetupBridge.Rollback` | internal/service/setup/service.go:522-535 | on disk, a rollback restores what was seen before or changes nothing |
| `SetupBridge.CommitOnDisk` | internal/service/setup/service.go:390-422 | for pairs within the limits the service's account of a commit is true of the disk; a committed pair beyond them makes every later load fail |
| `SetupDisk.SafeSurvives` | internal/repository/setup/repository.go:343-354 | after a power loss a safe disk loads as one of its values, for good, and may be opened |
| `SetupDisk.TokenExactly` | internal/repository/setup/repository.go:356-361 | a token is accepted exactly with 1 to 4096 characters, none of them zero, and no blank at either end |
| `SetupDisk.PointIsSafe` | internal/repository/setup/repository.go:283-286 | pointing at a whole generation adds its pair to what may be found |
| `SetupDisk.UnpointIsSafe` | internal/repository/setup/repository.go:305-308 | removing the link adds the empty setup to what may be found |
| `SetupDisk.SyncRootIsSafe` | internal/repository/setup/repository.go:287-289 | syncing the root leaves exactly one value |
| `SetupService.Service.CommitManifest` | internal/service/setup/service.go:390-422 | the new state for every combination of preparation, read, save, publish and rollback failures |
| `SetupService.Service.PublishAcquired` | internal/service/setup/service.go:278-313 | replaces the first item with the same backing or the same logical media, or appends, and commits if valid |
| `SetupService.Service.RollbackPersistence` | internal/service/setup/service.go:522-535 | restores the previous pair, or clears, when it works |
| `SetupService.Service.SetStatus` | internal/service/setup/service.go:537-544 | the status view is replaced whole |
| `SetupService.Service.ValidateRestorePreparation` | internal/service/setup/service.go:460-481 | the greedy scan accepts exactly the nonempty ordered subsequences of the saved manifest |
| `SetupService.Service.Restore` | internal/service/setup/service.go:425-458 | activates a prepared part of the saved manifest, never a smaller one over an active one |
| `SetupViews.CommitAllOrNothing` | internal/service/setup/service.go:390-422 | a commit makes all three views the new manifest exactly when everything worked; a failed one changes none of them if reads and rollback work |
| `SetupViews.FailedCommitKeepsSavedIff` | internal/service/setup/service.go:403-419 | a failed commit keeps the saved pair exactly when nothing was saved, or the rollback works and the save was clean or could be read back |
| `SetupViews.StepAgrees` | internal/service/setup/service.go:278-544 | every commit, publication and restore keeps the views in agreement |
| `SetupViews.AlwaysAgree` | internal/service/setup/service.go:278-544 | from a fresh process, over every run, the published runtime is what the status says, an ordered part of the saved manifest |
| `SetupViews.DegradedMeansLess` | internal/service/setup/service.go:151-167 | the status reports degradation exactly when less than the saved manifest is served, and its counts add up |
| `SetupViews.RestoreNeverShrinks` | internal/service/setup/service.go:443-446 | a restore keeps the active manifest or activates the whole saved one |
| `SetupViews.RestoreActivates` | internal/service/setup/service.go:425-458 | a preparation is activated exactly when it is a nonempty ordered part of the saved manifest, ready and published, and the whole of it or nothing was active; so a fresh process activates a degraded one |
| `SetupViews.SavedStaysSane` | internal/service/setup/service.go:288-422 | over any run what is saved has one to a hundred good items, no two with the same file or path |
| `SetupViews.WithItemLaw` | internal/service/setup/service.go:292-306 | the item is in, nothing it does not replace is lost or moved, and publishing it again changes nothing |
| `SetupViews.PlacedExactly` | internal/service/setup/service.go:292-306 | the first item with the same file, film or episode gives its place to the new one; if none, the new one comes last |
| `SetupViews.DistinctKept` | internal/service/setup/service.go:602-614 | films of one title and different years, and different episodes of one show, are kept side by side |
| `Namespace.AddDirectories` | internal/pearlnfs/filesystem.go:146-149 | adds exactly the missing directories on the way, keeping a well-formed tree |
| `Namespace.AddMedia` | internal/pearlnfs/filesystem.go:131-156 | adds one file, or fails exactly when its path is malformed or taken |
| `Namespace.BuildEntries` | internal/pearlnfs/filesystem.go:116-129 | a tree of exactly the items' paths whose files are exactly the items, children sorted; an error exactly when a path is malformed or repeated |
| `Namespace.AcceptableExactly` | internal/pearlnfs/filesystem.go:131-145 | acceptable paths are Movies/title/file and TV Shows/show/season/file with proper names, none of them twice |
| `Namespace.TakenMeansDuplicate` | internal/pearlnfs/filesystem.go:143-145 | a file's path is taken only by the same file, never by a directory |
| `Namespace.Filesystem.Replace` | internal/pearlnfs/filesystem.go:83-114 | catalog and namespace change together or not at all, and the modification time strictly grows |
| `Handles.StableHandles.constructor` | internal/pearlnfs/server.go:135-139 | an empty, well-formed table |
| `Handles.StableHandles.Touch` | internal/pearlnfs/server.go:89-101 | moves the handle to the back of the recency list |
| `Handles.StableHandles.ToHandle` | internal/pearlnfs/server.go:51-70 | issues the handle and trims the table; handles, positions and recency hold the same keys, at most 4096 |
| `Handles.StableHandles.EvictOldest` | internal/pearlnfs/server.go:61-67 | drops the least recent handles until the table fits |
| `Handles.StableHandles.FromHandle` | internal/pearlnfs/server.go:72-87 | resolves a handle in the table, else reports it stale, and touches it |
| `Handles.StableHandles.RegisterCurrent` | internal/pearlnfs/server.go:106-114 | issues a handle for every current path |
| `Handles.IssuedOk` | internal/pearlnfs/server.go:51-70 | the new handle resolves to its target and every handle still in the table keeps its own |
| `Handles.HandlesStable` | internal/pearlnfs/filesystem.go:205-218 | from a fresh handler, after any run with any number of replacements, a file handle in the table leads to a snapshot entry with its id, path, size and backing |
| `Handles.PathHandleMoves` | internal/pearlnfs/server.go:51-58 | a handle issued through a snapshot is named by path alone: with two files taking turns at one path it comes to mean the second |
| `Handles.StepNames` | internal/pearlnfs/server.go:51-70 | only an issue of its own path changes what such a handle shows, to what that snapshot shows |
| `Handles.PathHandleStableIff` | internal/pearlnfs/server.go:51-58 | over any run such a handle keeps a file exactly when every snapshot asked to name its path shows that file |
| `Handles.StableHandles.Exchange` | internal/pearlnfs/filesystem.go:107-111 | the live namespace is exchanged; the table stays |
| `Handles.RegisteredFresh` | internal/pearlnfs/server.go:106-114 | the paths registered last are the most recent table entries, with fresh targets |
| `Handles.CurrentPathsResolve` | internal/pearlnfs/server.go:159-171 | after any run, replacing with at most 4096 entries leaves every current file's handle leading to its entry in the new snapshot and every directory's handle to the live one |
| `Handles.UsedHandlesLast` | internal/pearlnfs/server.go:51-101 | a handle an event issued or resolved is still in the table after up to 4095 further events |
| `Ranking.RankAndDeduplicate` | internal/resolver/ranking.go:23-44 | filters, sorts by rank and keeps the first release of each identity |
| `Ranking.RankTotal` | internal/resolver/ranking.go:101-124 | the rank order is asymmetric and tells any two different ranks apart |
| `Ranking.RankTransitive` | internal/resolver/ranking.go:101-124 | the rank order is negatively transitive |
| `Ranking.RankedLaw` | internal/resolver/ranking.go:23-44 | one best-ranked release for each usable identity, in rank order, and nothing else |
| `Ranking.RankingOrder` | internal/resolver/ranking.go:84-124 | on the releases' own fields: intent match, title prefix, year, known hash, more seeders with unknown below zero, smaller size, provider, source; for the result and for the one kept of each identity |
| `Ranking.RankedExactly` | internal/resolver/ranking.go:23-82 | every usable, eligible release is represented in the result |
| `Ranking.RankedOnly` | internal/resolver/ranking.go:70-82 | nothing else is in it |
| `Ranking.RankedOnce` | internal/resolver/ranking.go:161-166 | no two results have the same hash, or without hashes the same source |
| `Sorting.DictionaryOrder` | internal/resolver/ranking.go:120-123 | names are compared as in a dictionary |
| `Ranking.ArrivalOrderDoesNotMatter` | internal/resolver/ranking.go:23-44 | for every permutation of the gathered releases the result has the same sequence of ranks |
| `Ranking.DistinctRanksSameResult` | internal/resolver/ranking.go:23-44 | if no two usable releases have the same rank the result itself is the same |

## Left out

- Integers are unbounded: 64-bit overflow of sizes, offsets, stamps and lease versions is not modelled.
- Times are whole milliseconds; the zero time that Go rejects, and contexts cancelled before a call starts, are not modelled.
- Cache: statistics, file names and permissions, the retry loop inside one fetch, the scheduling of read-ahead windows, and closed handles; a fetch may end in any way at any time and a reader may be cancelled wherever it waits.
- Jobs: legacy jobs without a plan (`Select`, `Attach`), listing queries, SQL text and migrations, the text checks on names and identifiers (any predicates), and the choice of a file among inspected candidates, which is a reply.
- JobSafety.OneObjectPerHash: two workers running at once, or a create that takes effect after the worker looked again, are excluded by its assumptions.
- Watchlist: the acquisition worker between claim and completion, status counts, the playback and watchlist gateways, and the check that a show id is a Plex GUID.
- PlaybackAdvance.Process: models one process acting on the queue; a change of the queue between its check and its update is covered only by the runs of WatchRuns, where anyone may move.
- PlexMetadata: HTTP, tokens, show identities, and the agreement of pagination headers with the body; a page is what such a request returns, or nothing.
- Bencode: SHA-1 and the comparison of hashes (any functions), the normalization of the expected hash, and magnet links.
- Setup: sessions, discovery, the legacy single-selection save and load, temporary files and permissions; the manifest on disk is its encoded text.
- SetupService.Service.CommitManifest: what a failing repository call leaves behind is a parameter; SetupBridge.CommitOnDisk shows what the disk repository makes of it.
- Handles: path cleaning and the separators inside hashed identities, which are taken to be injective; requests that interleave with the registration of a new namespace; opening and reading files.
- Ranking: Unicode normalization and title matching (any predicates on the title) and the text of identity keys, which is taken to be injective.
- Configuration, wiring, HTTP handlers, the web interface, FUSE and the NFS protocol server add no hard property of their own.
