# mediaferry: a model of its state and its proofs

mediaferry imports recordings from memory cards, merges split recordings, and sends
files to Immich. It keeps its state in SQLite and on a file system and moves both
forward with short transactions that have to survive crashes, cancellation and
concurrent edits. This project models that machinery in Dafny and proves what it is
meant to guarantee.

Every `BEGIN IMMEDIATE` block (`app/src/mediaferry/db/connection.py:70-84`) is one atomic
step, and so is every other SQL statement. A step that is refused rolls back and changes
nothing. Interference by other workers and requests is any sequence of such steps.

## The parts

| files | what they model |
|---|---|
| Naming, Files, Publication, Publisher, Durability | publication of a file in eleven steps over a file system whose directories, entries and bytes each survive a power loss only once synced; crashes between any two effects, power losses that choose freely between what is there and what was synced |
| Clock, Jobs, JobStore | times as text, job leases and cancellation |
| Ledger, LedgerSafety, Fences, GuardWindow, Stacks, Uploads, Destinations, Approvals, Recheck | destinations with epochs and keys, upload records with claims and stacks, every operation on them and every interleaving |
| Merges, MergeSafety, GroupLife, MergeStore, Merger, Deletion, Selection, Choices, Counterexamples | merge groups, their members, digests, results, deletion, what may be sent and for what reason |
| Listing | the photo list with stacks folded |
| Mounts, Broker | the mount broker: descriptors, attachments, generations and connections under every fault |
| Timestamps, CaptureZone, ZoneGroups, Recompute, Fingerprint | zones, capture times and their recomputation, sample windows |
| Reconcile | what a start puts right |

State machines are written as `Accepts` (what a transaction looks at), an effect, and
`Step`/`Run`; the classes carry the operations out statement by statement and are proved
against `Step`. `if *` marks places where a process may end; a call that is `whole` does not.

## Findings

Where a promise does not hold of the code as it is, the exact condition is proved.

- Folding the list loses no file exactly when no stack rule names more than two
  extensions. Profile validation sets no upper bound (`app/src/mediaferry/core/profiles/model.py:376-392`);
  with three, a file can be hidden by one that is hidden itself.
- A file offered for deletion can be deleted exactly when it is not itself a member of a
  group. Groups made by hand accept merged files, and then the foreign key stops the
  deletion (`app/src/mediaferry/db/media.py:164`).
- Deleting a merged file discards one owner only. If two current groups came to share the
  file, the other one stays merged without an output, its members held. Two groups of one
  profile end at one name where their first and last files lie in one directory, were taken at
  one time and carry the same numbers: for the built-in rule parts
  `DJI_20240101120000_0001_D.MP4` and copies `DJI_20240101120000_copy_0001_D.MP4`
  (`app/src/mediaferry/core/merge/output.py:33-53`). The failure is conditional on ffmpeg then
  writing the same bytes again; other bytes get a name of their own.
- The SQL condition counts a file that is not offered exactly when the digest of its group
  was computed under an older revision than the group records: the profile was edited
  between `_digest_of` and the transaction. The member hashes the comment in `app/src/mediaferry/db/selection.py:71-73` worries
  about are never rewritten.
- `MountManager.mount` loses a descriptor exactly when listing or detaching raises
  something other than `OSError` once there is a clone (`mountd/src/mountd/mounts.py:184-191`);
  `mountpoints_under` decodes text and can raise such an error.
- The bytes of a staged file are safe from a power loss exactly if the entry of the job's
  directory is durable. It is synced only by the publication that makes it
  (`app/src/mediaferry/adapters/publisher.py:229-231`); where that sync fails the file is given up, the next file of the
  job finds the directory there, and goes through all steps without it.
- After publication the file is safe exactly if the directories above it are. New library
  directories are made and never synced themselves (`app/src/mediaferry/adapters/publisher.py:444-461`), and by then the
  staging file is gone.
- A file that went missing lends its media row, with its size and hash, to the next file
  published under its name (`app/src/mediaferry/adapters/publisher.py:492-497`); a new row describes its file exactly if no
  older row of that name records other bytes.
- The file of a publication that was given up is left exactly if it could not be removed (the
  error is swallowed) or its directory had been synced with it and not since: a power loss
  may bring it back. The next start removes it with its directory.
- What a guard found may be undone before the remote side is written: the write is in no
  transaction (`app/src/mediaferry/jobs/approvals.py:80-92`). It still holds exactly if no
  cancel, expiry, raised epoch or invalidation was committed in between.
- A rejection does not notice an invalidation between its check and its update.
- A recheck that finds no record to ask about does not compare stacks either
  (`app/src/mediaferry/jobs/recheck.py:98-99`). Stacks whose records all wait to be sent
  again, as after a change of zone, stay unchecked.
- A request for another zone turns the members of a selected merged file, also those that are
  merged files themselves (`app/src/mediaferry/db/capture_zone.py:107-133`). Such a member then
  shows another time than its own first recording. Outputs that agreed all still do exactly if
  each one that was turned is also made of something that was turned.
- A request that only records a place is not refused while times are recomputed. A recording
  that was read before it shows the clock of the recorded place exactly if the place did not
  change, or both clocks agree; otherwise only after the next run.
- A merged file with two current owners, which can arise as above, may be offered and then
  refused: the request looks at one of them.
- A file time derived from a value with a zone override is the clock of the place, not of
  the camera, when file times are wall clocks.
- A wall clock reading in a gap is moved by one hour, which is right exactly when that
  leaves the gap.

## Assumptions

Hashes are arbitrary functions in the publication model and injective in the digest of a
merge group. Identifiers are fresh and numbered in the order they are made; among several
owners of equal standing the smallest number is taken; what is said of the owner holds
whichever it is. The wall clock does not run backwards.
The data root and `staging/` are there from the beginning. Nobody removes library files
while a publication runs; they may be missing when it starts. A job's staging directory
is its own, and one worker runs one job at a time (`app/src/mediaferry/jobs/runner.py:75-107`),
so publications do not interleave. Every profile has a slug of its own, which never changes.
Deletion of merged files is kept apart from the publication model. Triggers,
partial indexes and foreign keys follow
`app/src/mediaferry/db/migrations/0001_initial.sql:403-407` and `:549-620`.

## Model

| member | source | states |
|---|---|---|
| Naming.CandidatesDistinct | app/src/mediaferry/core/naming.py:48-66 | no two members of the series of alternative names are equal, for any wanted name, stamp and hash |
| Naming.FirstCandidate | app/src/mediaferry/core/naming.py:60-60 | the series starts with the wanted name itself |
| Naming.CandidatesStayInDirectory | app/src/mediaferry/core/naming.py:48-66 | every alternative lies in the directory of the wanted name and ends with its extension |
| Files.SolidSurvives | app/src/mediaferry/adapters/publisher.py:337-348 | what was synced, bytes, entry and every directory above it, is found again after any power loss |
| Files.UnsyncedBytesMayChange | app/src/mediaferry/adapters/publisher.py:340-346 | an entry synced before its bytes may come back with other bytes: why the file is synced first |
| Publication.PowerLossKeepsInv | app/src/mediaferry/adapters/publisher.py:192-324 | every state the disk may show after a power loss is again an orderly one, and nothing that was safe is lost |
| Publication.KeptIff | app/src/mediaferry/adapters/publisher.py:224-236 | the durability claim, exactly: the bytes of a staged row can be read back after every possible power loss if and only if the directory entry of the staging file lasts while it is there, or the final name and every directory above it do |
| Publication.LandedIff | app/src/mediaferry/adapters/publisher.py:459-462 | a library file is found with its bytes after every possible power loss if and only if they were synced, with its entry and every directory above it |
| Publication.OtherRowKept | app/src/mediaferry/adapters/publisher.py:382-395 | what one publication does leaves every other staged row as reachable and as safe as it was |
| Publication.UnlinkKeepsInv | app/src/mediaferry/adapters/publisher.py:382-395 | removing the staging file of a row takes nothing from other rows and nothing from the library |
| Publication.FirstFitStable | app/src/mediaferry/adapters/publisher.py:431-457 | the chosen name stays the first free or same one of its series as long as no library file is removed |
| Publication.FirstFitUnique | app/src/mediaferry/adapters/publisher.py:431-457 | the library decides the name: two runs over it choose the same one |
| Publication.CommitKeepsInv | app/src/mediaferry/adapters/publisher.py:489-553 | the commit of a name that has no media row adds the one that records its size and hash, and a list that told the truth still does |
| Publisher.ArtifactPublisher.Publish | app/src/mediaferry/adapters/publisher.py:192-324 | one publication: not cut off, it is done exactly if the bytes can be read and the lease is valid, and given up otherwise; cut off anywhere, either no row past `writing` and nothing published, or, only with a valid lease, a row that describes the given bytes under the first fitting name, reachable, and safe from power loss where it began on firm ground; a row given up leaves no staging file where that can be removed; no other row, media row or file changes |
| Publisher.ArtifactPublisher.Materialise | app/src/mediaferry/adapters/publisher.py:326-380 | when the bytes are hashed, size and hash are theirs, and bytes and entry are synced |
| Publisher.ArtifactPublisher.DiscardWriting | app/src/mediaferry/adapters/publisher.py:382-395 | gives up a row that was not staged: not cut off, the row is gone, and its staging file exactly if it can be removed; no other file changes |
| Publisher.ArtifactPublisher.Resume | app/src/mediaferry/adapters/publisher.py:397-407 | not cut off, it gives up a row that was not staged, with its staging file where that can be removed, and publishes one that was; it is reported lost exactly if neither its staging file nor the recorded name has the bytes; a row keeps its recorded facts apart from the name |
| Publisher.ArtifactPublisher.Link | app/src/mediaferry/adapters/publisher.py:419-470 | afterwards the staging entry is gone and the recorded bytes are under the recorded name with their entry synced; no existing file is replaced |
| Publisher.ArtifactPublisher.ChooseName | app/src/mediaferry/adapters/publisher.py:433-457 | the loop over names ends on every finite library, at the first name of the series that is free or holds the same bytes |
| Publisher.ArtifactPublisher.PositionOf | app/src/mediaferry/adapters/publisher.py:433-439 | skipping ahead to the recorded name ends, because that name is always in the series |
| Publisher.ArtifactPublisher.AdoptPublishedFinal | app/src/mediaferry/adapters/publisher.py:472-487 | with the staging file gone the row is reported lost exactly if the recorded name does not hold the recorded bytes |
| Publisher.ArtifactPublisher.Commit | app/src/mediaferry/adapters/publisher.py:489-553 | media row, owner and staging row move together; exactly one media row has the name, and it records the size and hash of the row exactly if no older row of that name recorded others |
| Publisher.ArtifactPublisher.AnySchedule | app/src/mediaferry/adapters/publisher.py:192-417 | any schedule of crashes, power losses and restarts: once a start gets through, what never was staged has no row and nothing published, and, without power losses, no staging file that can be removed, and what was staged is published with the given bytes, as long as the power lasted, under the first fitting name, or it began on firm ground; it is never lost in these cases; a truthful list stays truthful, and other rows, media and safe files stay |
| Durability.SecondFileLost | app/src/mediaferry/adapters/publisher.py:229-236 | two files of one job: the first makes the directory and its sync fails, the second is staged in it and can be lost |
| Durability.NewDirectoryLost | app/src/mediaferry/adapters/publisher.py:443-462 | a file published into a new library directory can be lost with it, though its own entry was synced |
| Durability.EnteredLandsIff | app/src/mediaferry/adapters/publisher.py:459-462 | after the steps of a publication the file is there for good exactly if its bytes and all directories above it are |
| Durability.RecordOfAnother | app/src/mediaferry/adapters/publisher.py:489-495 | a file published under the name of a missing one is attached to its record, with the size and hash of the missing one |
| Durability.LeftoverIff | app/src/mediaferry/adapters/publisher.py:382-395 | the file of a row that was given up may be found again exactly if it could not be removed or its directory had been synced with it; once that is synced again it cannot |
| Durability.LeftoversHappen | app/src/mediaferry/adapters/publisher.py:382-395 | both happen |
| Naming.SuffixStart | app/src/mediaferry/core/naming.py:55-57 | where the extension begins, as path suffixes are defined: a last dot with some other character before it in the name |
| Naming.TreeTells | app/src/mediaferry/core/naming.py:35-37 | the tree a path lies in tells whether the file is a recording or a result, and of which profile |
| Naming.SourceParentIff | app/src/mediaferry/core/merge/output.py:56-61 | a path passes as a place to name a result after exactly if it is that of a recording of the profile |
| Naming.CandidatesStayInTree | app/src/mediaferry/core/naming.py:48-66 | every alternative of a name lies in the tree the name lies in |
| Publisher.ArtifactPublisher.Begin | app/src/mediaferry/adapters/publisher.py:198-236 | the `writing` row is committed first; afterwards the job directory is there, and lasts exactly if it was made just now or lasted before |
| Publisher.ArtifactPublisher.WriteStream | app/src/mediaferry/adapters/publisher.py:326-348 | writing in chunks, the size and hash are those of all the bytes |
| Publisher.ArtifactPublisher.LinkPrepared | app/src/mediaferry/adapters/publisher.py:350-380 | a prepared file is taken over as it is |
| Publisher.ArtifactPublisher.Stage | app/src/mediaferry/adapters/publisher.py:281-313 | the row becomes `staged` with the first name of its series; from here on its bytes survive every power loss exactly if the job directory does |
| Publisher.ArtifactPublisher.Finish | app/src/mediaferry/adapters/publisher.py:410-417 | from the staged commit on: not cut off, published with one media row, or lost exactly if the bytes are nowhere; cut off, the recorded facts stay; on firm ground what was safe stays safe; a truthful list stays truthful |
| Publisher.ArtifactPublisher.TakeName | app/src/mediaferry/adapters/publisher.py:433-458 | the bytes are in place under the recorded name; nothing that was there is replaced |
| Publisher.ArtifactPublisher.SettleLinked | app/src/mediaferry/adapters/publisher.py:459-470 | the final entry is durable before the staging entry goes |
| Publisher.ArtifactPublisher.MediaFor | app/src/mediaferry/adapters/publisher.py:489-531 | the media row of that name, made only if there is none |
| Clock.IsoOrder | app/src/mediaferry/clock.py:16-18 | the texts written for two instants compare as the instants do, with and without a fraction of a second |
| Jobs.RunKeepsInv | app/src/mediaferry/db/jobs.py:73-213 | over every run, a live job and only a live job has a lease, and no two jobs share a token |
| Jobs.TerminalIsFinal | app/src/mediaferry/db/jobs.py:144-213 | a job that has ended never changes again |
| Jobs.ClaimedAtMostOnce | app/src/mediaferry/db/jobs.py:73-96 | in every run each job is claimed at most once, and never once it has left the queue |
| Jobs.DeadStaysDead | app/src/mediaferry/db/jobs.py:98-142 | a token that opens nothing never opens anything again |
| Jobs.ExpiryIsDeath | app/src/mediaferry/db/jobs.py:116-142 | an expired lease is not revived by a heartbeat or anything else |
| Jobs.CancelIsDeath | app/src/mediaferry/db/jobs.py:176-194 | the commit of a cancel ends the token of the running job |
| Jobs.CancelledNeverSucceeds | app/src/mediaferry/db/jobs.py:155-194 | a job whose cancel was accepted is never recorded as succeeded |
| Jobs.SettledOutcome | app/src/mediaferry/jobs/runner.py:157-195 | settled by its owner, a job succeeds exactly when its handler returned and no cancel was accepted meanwhile |
| JobStore.JobStore.ClaimNext | app/src/mediaferry/db/jobs.py:73-96 | takes the oldest queued job under a new token; nothing exactly when none is queued |
| JobStore.JobStore.RequestCancel | app/src/mediaferry/db/jobs.py:176-194 | cancels a queued job at once, marks a running one, and reports whether there was either |
| JobStore.JobStore.AssertLease | app/src/mediaferry/db/jobs.py:98-114 | passes exactly for a running job, its own token and a lease that has not run out |
| JobStore.JobStore.ExtendLease | app/src/mediaferry/db/jobs.py:116-142 | extends a live lease of its owner and nothing else |
| JobStore.JobStore.Finish | app/src/mediaferry/db/jobs.py:144-153 | ends a job as failed exactly for the holder of its token |
| JobStore.JobStore.FinishClaimed | app/src/mediaferry/db/jobs.py:155-174 | decides between succeeded and cancelled in the statement that ends the job |
| JobStore.JobStore.SweepInterrupted | app/src/mediaferry/db/jobs.py:196-204 | ends every live job and counts them |
| JobStore.RunOne | app/src/mediaferry/jobs/runner.py:157-195 | whatever happens meanwhile, a job still owned ends, succeeded exactly without failure and accepted cancel; a cancelled one never succeeds |
| LedgerSafety.RunKeepsInv | app/src/mediaferry/db/uploads.py:136-1260 | over every interleaving of workers, requests, rechecks, edits and restarts: a record is active exactly when claimed; one valid record per destination, epoch and media; in-flight records keep their pinned key; only history or an unclaimed `needs_recheck` is of an old epoch; stacked records have the asset they were stacked with |
| LedgerSafety.StepKeepsInv | app/src/mediaferry/db/uploads.py:1206-1260 | each transaction keeps all of that |
| LedgerSafety.AddRevisionKeepsInv | app/src/mediaferry/db/destinations.py:122-161 | so does a new revision, whether it moves the epoch or not |
| Fences.EpochFence | app/src/mediaferry/db/uploads.py:348-542 | once the epoch has passed a record, no later run claims it, lets it pass a guard, commits for its owner or stacks it |
| Fences.RaisingClosesTheFence | app/src/mediaferry/db/destinations.py:122-161 | the commit that raises the epoch puts every record of the destination behind the fence, invalidated unless complete |
| Fences.CredentialKept | app/src/mediaferry/db/destinations.py:234-254 | a record in flight keeps the key of its pinned revision, however the steps of a purge interleave with claims |
| Fences.CancelFence | app/src/mediaferry/db/jobs.py:176-194 | after the cancel of a running job no run lets its token stage a file, pass a guard, commit an owned transition or touch a stack, and the job never ends succeeded |
| Fences.ExpiryFence | app/src/mediaferry/db/jobs.py:98-142 | the same for a token whose lease has run out |
| Fences.RejectionExcludesApproval | app/src/mediaferry/jobs/approvals.py:96-122 | after a rejection the approval under way cannot complete the record |
| Fences.ApprovalExcludesRejection | app/src/mediaferry/jobs/approvals.py:48-94 | an approval that has claimed the record shuts out its rejection |
| Fences.HeldIsNotRejected | app/src/mediaferry/db/uploads.py:629-645 | a record an approval holds cannot be rejected |
| Stacks.StackedAssetKept | app/src/mediaferry/db/uploads.py:990-1097 | over all runs a stacked record has the asset it was stacked with |
| Stacks.AssetChangeOpensStack | app/src/mediaferry/db/uploads.py:1069-1097 | an operation that changes the asset of a stacked record leaves no record in that stack |
| Stacks.OnlyOwnersAndStampsChangeAssets | app/src/mediaferry/db/uploads.py:1228-1260 | no other operation changes an asset |
| Stacks.ReopenBrokenAgrees | app/src/mediaferry/jobs/recheck.py:193-223 | after the stacks that differ were reopened, each stack on record is a live one with the same assets |
| Uploads.UploadRepository.CreatePairs | app/src/mediaferry/db/uploads.py:136-152 | all or nothing; afterwards every eligible pair asked for, however often it was listed, has exactly one valid record |
| Uploads.UploadRepository.OnePair | app/src/mediaferry/db/uploads.py:240-312 | what becomes of one pair in each state of its record, and exactly when it is rejected or queued again |
| Choices.ChoiceIsEligible | app/src/mediaferry/db/uploads.py:191-238 | whatever a new record is made for holds as its own reason at once, adoption included |
| Choices.EligibleHasNotLapsed | app/src/mediaferry/db/uploads.py:403-464 | what may still be sent is never invalidated for a lost reason |
| Choices.OriginalsAgree | app/src/mediaferry/db/uploads.py:199-214 | for a recording the list of what may be sent and the request agree, by default and for members of failed merges |
| Choices.DerivedAgreeIff | app/src/mediaferry/db/uploads.py:216-238 | a merged file chosen by default is one the list offers; one it offers is chosen by default exactly if the group taken to own it offers it |
| Counterexamples.OfferedAndRefused | app/src/mediaferry/db/uploads.py:216-238 | parts merged, the profile edited, their copies merged into the same file: the file is offered by the second group and the request, which looks at the first, refuses |
| Choices.OneOwnerAgrees | app/src/mediaferry/db/uploads.py:216-238 | which is so with one current owner |
| Choices.ListedMemberIff | app/src/mediaferry/db/selection.py:141-148 | a listed member of a failed merge is accepted as that exactly if it is a recording |
| Uploads.UploadRepository.ClaimNext | app/src/mediaferry/db/uploads.py:348-401 | takes the oldest claimable record of the current epoch by compare-and-set; none exactly when none is claimable |
| Uploads.UploadRepository.SendableTotals | app/src/mediaferry/db/uploads.py:323-346 | the number and the bytes of the claimable records |
| Uploads.UploadRepository.Drain | app/src/mediaferry/db/uploads.py:323-401 | claiming until nothing is left yields exactly what the totals promised |
| Uploads.UploadRepository.StampMany | app/src/mediaferry/db/uploads.py:721-793 | one transaction; a result whose record moved since it was read writes nothing; returns exactly the records written |
| Uploads.UploadRepository.LockedCas | app/src/mediaferry/db/uploads.py:1228-1260 | an owner's write goes through exactly while the claim is its own and has not run out, the record is valid and in the expected state; a refused one leaves even the stack as it was |
| Uploads.UploadRepository.PrepareSideEffect | app/src/mediaferry/db/uploads.py:466-512 | passes exactly with a valid lease, claim, state and reason in one transaction, and then extends the claim |
| Uploads.UploadRepository.ClaimForApproval | app/src/mediaferry/db/uploads.py:629-645 | takes a valid, unclaimed record that waits for approval, and no other |
| Uploads.UploadRepository.ReleaseFromApproval | app/src/mediaferry/db/uploads.py:647-656 | gives the record back if it is still the caller's, and changes nothing otherwise |
| Uploads.UploadRepository.Reopen | app/src/mediaferry/db/uploads.py:1069-1097 | every record of the stack becomes unevaluated |
| Uploads.UploadRepository.MarkStacked | app/src/mediaferry/db/uploads.py:990-1029 | marks every member or none; refused exactly when the lease, the destination, the profile or a member no longer matches |
| Uploads.UploadRepository.ReopenStacks | app/src/mediaferry/db/uploads.py:900-925 | no valid record is left in any of the named stacks |
| Uploads.UploadRepository.StackedGroups | app/src/mediaferry/db/uploads.py:873-898 | exactly the recorded stacks, each with the assets of its records |
| Uploads.ClaimShortensQueue | app/src/mediaferry/db/uploads.py:348-401 | a claim takes its record, and only that, out of the queue |
| Uploads.BytesRemove | app/src/mediaferry/db/uploads.py:323-346 | the bytes of a queue are those of one record and the rest |
| Destinations.DestinationRepository.AddRevision | app/src/mediaferry/db/destinations.py:122-161 | the new epoch never falls; it is refused exactly when the host changed for the same user and nobody said whether the library did; a raised epoch leaves no older record unfinished |
| Destinations.DestinationRepository.PurgeSupersededCredentials | app/src/mediaferry/db/destinations.py:234-254 | whatever others do between the steps, every key selected is erased and none that a record in flight is pinned to |
| Destinations.RunKeepsErased | app/src/mediaferry/db/destinations.py:234-254 | no run brings an erased key back or takes back a selection |
| Approvals.ApprovalService.Approve | app/src/mediaferry/jobs/approvals.py:48-94 | ends exactly as its steps and what others commit between them decide; the remote side is written only after a guard found a valid lease, the claim and the current library; what the guard found still holds when it is written exactly if nothing that breaks it was committed in between; the record stays this job's, with its key, unless a start or a deletion takes it; however it ends, the record is not left claimed |
| Approvals.ApprovedIff | app/src/mediaferry/jobs/approvals.py:48-94 | it ends approved exactly if the record may be approved and can be claimed under a valid lease, the remote side answers and takes the date, and nothing that breaks a guard is committed from the claim to the end |
| Approvals.ApprovalService.Reject | app/src/mediaferry/jobs/approvals.py:96-122 | completes a record exactly if it waited when it was checked and still waits when it is settled; changes nothing otherwise |
| Approvals.RejectedThoughInvalid | app/src/mediaferry/jobs/approvals.py:114-122 | an invalidation between the two is not noticed |
| GuardWindow.GuardHoldsIff | app/src/mediaferry/jobs/approvals.py:70-92 | after any steps of others a guard still stands exactly if none of them was a cancel or the end of the job, the end of its lease or claim, an edit that raises the epoch, an invalidation or a removal of the record |
| GuardWindow.StepGuard | app/src/mediaferry/db/uploads.py:466-512 | step by step: each of those undoes a guard, and nothing else does |
| GuardWindow.HeldIff | app/src/mediaferry/db/uploads.py:1206-1260 | a claimed record stays with its owner, in its state and with its key, until a start releases it or its file is deleted |
| GuardWindow.CancelledBeforeTheWrite | app/src/mediaferry/jobs/approvals.py:80-92 | a cancel accepted after the guard and before the write |
| Approvals.ResetFreesJobs | app/src/mediaferry/db/reset.py:69-111 | once the guards pass and the published staging rows are gone no row points at a job; exactly the two guards on staging and claims are needed for it |
| Approvals.ResetKeepsInv | app/src/mediaferry/db/reset.py:103-117 | the reset leaves an orderly ledger |
| Recheck.StampsLand | app/src/mediaferry/db/uploads.py:721-793 | of the results for different records each is written exactly if its record has not moved |
| Recheck.Observe | app/src/mediaferry/jobs/recheck.py:68-191 | asking in batches gives every listed record its own answer |
| Recheck.StampsFor | app/src/mediaferry/jobs/recheck.py:225-265 | exactly one result for each record, made of its own answer and of what was read of it |
| Recheck.CheckAssets | app/src/mediaferry/jobs/recheck.py:108-172 | under any interference: nothing is written exactly if the lease is gone by then; otherwise exactly the records that have not moved since they were read show what the remote side said, and they are counted; undisturbed that is all of them |
| Recheck.Run | app/src/mediaferry/jobs/recheck.py:68-191 | a whole recheck: without the lease nothing is written; undisturbed with it, every record asked about shows what the remote side said, it is done exactly if that side answered for the stacks, and the stacks on record are then live ones exactly if some record could be asked about or they were before |
| Recheck.RequeuedStackIsNotCompared | app/src/mediaferry/jobs/recheck.py:93-99 | stacked records that wait to be sent again are the only ones: their stack is not compared |
| Recheck.ReconcileStacks | app/src/mediaferry/jobs/recheck.py:193-223 | done exactly if no stack differed or the lease is still valid; undisturbed, every stack still on record is then a live remote stack with the same members |
| MergeSafety.RunKeepsInv | app/src/mediaferry/db/merges.py:36-365 | over every run: a file is an active member of one group at most, active members belong to current groups only, groups not replaced have different digests, replacement leads to later groups, nothing is merged unverified, and results begin with recordings of their profile |
| MergeSafety.SupersedeKeepsInv | app/src/mediaferry/db/merges.py:247-307 | the same through a replacement, though the group points at one that does not exist yet |
| MergeSafety.DiscardKeepsInv | app/src/mediaferry/db/merges.py:206-220 | the same through a discard, which holds nothing afterwards |
| MergeSafety.DropFileKeepsInv | app/src/mediaferry/db/media.py:154-164 | the same when a file nothing refers to is deleted |
| GroupLife.EditLeavesMembersAtRest | app/src/mediaferry/db/merges.py:315-365 | a committed discard, replacement or deletion leaves no valid record of a former member that is being sent or could be |
| GroupLife.EditFreesMembers | app/src/mediaferry/db/merges.py:206-307 | and nobody holds a former member, unless the group that replaces theirs does |
| GroupLife.GoneStaysGone | app/src/mediaferry/db/migrations/0001_initial.sql:549-620 | a replaced or discarded group never comes back and never holds a file again |
| GroupLife.Latest | app/src/mediaferry/db/merges.py:309-313 | following replacements ends, at a group that was not replaced |
| GroupLife.LatestAfterSupersede | app/src/mediaferry/db/merges.py:247-313 | replacing the group at the end of a chain puts the new group there, and leaves other chains alone |
| MergeStore.MergeRepository.SaveDetected | app/src/mediaferry/db/merges.py:36-76 | makes the group exactly when its digest is unused and no file is held; otherwise changes nothing |
| MergeStore.MergeRepository.InsertWithMembers | app/src/mediaferry/db/merges.py:154-194 | members go in one by one; a missing, repeated or held one rolls everything back |
| MergeStore.MergeRepository.Supersede | app/src/mediaferry/db/merges.py:247-307 | replaces exactly when editable, not replaced yet and free of clashes with other groups; a refused one changes nothing; the same digest may be used again |
| MergeStore.MergeRepository.CreateManual | app/src/mediaferry/db/merges.py:154-194 | makes the group exactly when its digest is unused and its files are there, distinct and free |
| MergeStore.MergeRepository.ClaimForMerge | app/src/mediaferry/db/merges.py:78-91 | claims exactly a current, detected or failed group that still has the digest shown |
| MergeStore.MergeRepository.RecordVerification | app/src/mediaferry/db/merges.py:93-108 | records it exactly while the group is merging |
| MergeStore.MergeRepository.MarkMerged | app/src/mediaferry/db/merges.py:110-126 | merged exactly from merging, with output and verification |
| MergeStore.MergeRepository.Transition | app/src/mediaferry/db/merges.py:429-440 | leaves merging for failed or detected, and nothing else |
| MergeStore.MergeRepository.Adopt | app/src/mediaferry/db/merges.py:135-152 | accepts exactly a current merged group with an output; twice is nothing |
| MergeStore.MergeRepository.DeleteDiscarded | app/src/mediaferry/db/merges.py:222-245 | forgets exactly a discarded group without output that nothing points at |
| MergeStore.MergeRepository.Discard | app/src/mediaferry/db/merges.py:196-220 | withdraws waiting records and lets the members go, exactly when none is being sent or queued |
| MergeStore.MergeRepository.DeleteDerived | app/src/mediaferry/db/media.py:125-168 | deletes, or says what blocks it, or is stopped by a foreign key; all or nothing |
| Merger.MergeGroup | app/src/mediaferry/jobs/merger.py:94-214 | whatever others do, a group ends merged only with output and verification, and each end has its one cause; undisturbed, how it ends is decided by the place of the first file, the work, the cancel and the publication, in that order, and it leaves the group, the result and the staging row as the source promises |
| Merger.Merge | app/src/mediaferry/jobs/merger.py:101-206 | the same from the claim on |
| Merger.StagingIsRefusedIff | app/src/mediaferry/jobs/merger.py:176-206 | a publication is refused at its start exactly if the group is gone: neither a verification nor the first recording is ever taken away |
| Merger.ResultBeginsWithRecording | app/src/mediaferry/core/merge/output.py:56-61 | over every run: a group with a result begins with a recording of its own profile, and the result is of that profile |
| Merger.Fail | app/src/mediaferry/jobs/merger.py:111-113 | a group this job holds becomes failed |
| Merger.LetGoOf | app/src/mediaferry/jobs/merger.py:102-106 | a group this job holds can be merged again; one it no longer holds is an error |
| Merger.PublishMerge | app/src/mediaferry/jobs/merger.py:178-208 | the part from the verification on: undisturbed it ends as the publication did; a cancelled publication frees the group, an interrupted one stays merging with its staging row open, a failed one fails the group, and a finished one leaves its file as the result |
| Deletion.DiscardIsNotRefused | app/src/mediaferry/db/media.py:180-237 | when the check finds no reason against deleting, the discard inside the deletion cannot be refused |
| Deletion.DeletionWorksIff | app/src/mediaferry/db/media.py:125-168 | the deletion goes through if and only if the check finds nothing and the file is not a member of any group |
| Deletion.OfferedButFails | app/src/mediaferry/db/media.py:154-164 | a group made by hand of a merged file: the deletion is offered and fails |
| Deletion.MergedAgainByHand | app/src/mediaferry/db/merges.py:154-194 | that situation takes one permitted operation |
| Deletion.NothingRefersToIt | app/src/mediaferry/db/media.py:154-164 | afterwards no output, no member and no record refers to the file, and no other record is gone |
| Deletion.OwnerIsCurrentIff | app/src/mediaferry/db/media.py:40-83 | the owner is current exactly when some group that points at the file is |
| Deletion.DeletionLeavesHollowIff | app/src/mediaferry/db/media.py:149-159 | a current merged group loses its output without being discarded exactly when two current groups had the same file |
| Counterexamples.SharedFileLeavesHollow | app/src/mediaferry/db/media.py:149-164 | parts and copies of them, merged into one file; deleting it leaves one of the groups merged without a file |
| Deletion.OnlyDeletionLeavesHollow | app/src/mediaferry/db/merges.py:110-126 | no other operation leaves a merged group without a result |
| Deletion.StaleCanBeDeleted | app/src/mediaferry/db/media.py:91-123 | everything listed as no longer used passes the check |
| Deletion.Best | app/src/mediaferry/api/routes_media.py:571-590 | the folded line of a destination is the strongest of its records |
| Deletion.DisplayAgreesWithBlocker | app/src/mediaferry/api/routes_media.py:513-606 | the records give a reason against deleting exactly when some destination displays sending, present or unknown, with the same precedence |
| Selection.OnlyTheRevisionMoves | app/src/mediaferry/db/selection.py:215-246 | the digest of a current group matches exactly while it names the profile's current revision: members and their hashes cannot move |
| Selection.OfferedIsCounted | app/src/mediaferry/db/selection.py:78-91 | whatever is offered satisfies the SQL condition |
| Selection.CountedIsOfferedIff | app/src/mediaferry/db/selection.py:78-91 | whatever is counted is offered, exactly where the digest is of the revision stored with the group |
| Selection.OnlyOlderIsNotOffered | app/src/mediaferry/db/selection.py:58-91 | what is counted was digested for the profile of its group, and is offered exactly if that was not under an older revision than the group records |
| Selection.OfferedIff | app/src/mediaferry/db/selection.py:40-91 | the same for every file, originals included |
| Selection.NewGroupCoherentIff | app/src/mediaferry/api/routes_merges.py:213-240 | a new group is of that kind always when detected, and when made by hand exactly if the profile is the group's own and was not edited between computing the digest and the transaction |
| Counterexamples.OlderRevisionIsCounted | app/src/mediaferry/db/selection.py:58-73 | a group of two made by hand while the profile was edited: its file is counted and not offered |
| Selection.CoherenceStays | app/src/mediaferry/db/merges.py:36-365 | it stays so whatever happens to the group |
| Selection.MatchingDigests | app/src/mediaferry/db/selection.py:215-246 | returns exactly the listed groups whose recomputed digest matches |
| Selection.Selectable | app/src/mediaferry/db/selection.py:165-213 | returns what may be listed, for the reason stated with it, and all of it when fewer than the limit |
| Selection.ShownByDefaultIff | app/src/mediaferry/db/selection.py:165-213 | by default the list shows exactly what is offered, whatever else it was asked to include |
| Listing.FoldingLosesNothingIff | app/src/mediaferry/api/routes_media.py:48-267 | folding stacks loses no file under any filter and whatever was seen, if and only if no stack rule has more than two extensions; profiles may have more |
| Listing.HiderNames | app/src/mediaferry/api/routes_media.py:89-111 | the file that hides another names it on its own tile |
| Listing.TwoLoseNothing | app/src/mediaferry/api/routes_media.py:181-202 | with two extensions the hiding file is listed itself |
| Listing.ThreeLoseOne | app/src/mediaferry/core/profiles/model.py:376-392 | every rule of three or more extensions admits files of which one is neither listed nor named |
| Mounts.MountManager.Mount | mountd/src/mountd/mounts.py:117-201 | succeeds exactly if every call works, the descriptor is pinned and the claimed volume is seen again under the claimed stamp; one registered descriptor with its target detached, or none; a target stays attached only where detaching failed; a descriptor is lost exactly when detaching a clone raises something other than OSError |
| Mounts.MountManager.Clone | mountd/src/mountd/mounts.py:130-182 | no descriptor is left where mounting or cloning fails |
| Mounts.MountManager.DetachTarget | mountd/src/mountd/mounts.py:217-225 | detaches a target that is attached; errors go on and leave it as it was |
| Mounts.MountManager.DiscardQuietly | mountd/src/mountd/mounts.py:227-235 | swallows OSError only, and keeps the first error |
| Mounts.SeenAgain | mountd/src/mountd/mounts.py:191-196 | passes exactly if the claimed volume is listed again under the claimed stamp |
| Mounts.LosesDescriptor | mountd/src/mountd/mounts.py:165-191 | a request that leaves a descriptor open: a mount whose name does not decode |
| Mounts.MountManager.Release | mountd/src/mountd/mounts.py:204-210 | closes the descriptor of the handle and no other |
| Mounts.MountManager.ReleaseAll | mountd/src/mountd/mounts.py:212-214 | leaves open only what was lost |
| Mounts.MountManager.ReapStale | mountd/src/mountd/mounts.py:95-114 | ready exactly when everything left attached was detached |
| Mounts.Observer.Observe | mountd/src/mountd/server.py:175-201 | a new generation begins exactly when the set of volumes is not the last one observed |
| Mounts.SameGenerationSameVolumes | mountd/src/mountd/server.py:175-201 | observations of one generation, and all between them, are equal |
| Broker.BrokerServer.Open | mountd/src/mountd/server.py:207-244 | a volume is opened exactly if it is listed as claimed under the claimed stamp, every call works, the set of volumes stays the same until it is seen again, and the answer can be sent; what is opened was before, between and after exactly what the client was ever shown under the generation it names |
| Broker.BrokerServer.List | mountd/src/mountd/server.py:203-205 | one observation, stamped with its generation |
| Broker.BrokerServer.Close | mountd/src/mountd/server.py:246-259 | only the connection that was given a handle closes it |
| Broker.BrokerServer.Disconnect | mountd/src/mountd/server.py:114-161 | whatever a connection held is released, and only that; with no connection left nothing is open but what was lost |
| Timestamps.NoneShowsIff | app/src/mediaferry/core/timestamps.py:207-220 | a reading lies in a gap exactly when no instant shows it |
| Timestamps.AttachedIsEarliest | app/src/mediaferry/core/timestamps.py:207-220 | a reading that exists is kept and stands for the first instant that shows it; noted as ambiguous exactly when there is another |
| Timestamps.MovedOutOfGapIff | app/src/mediaferry/core/timestamps.py:215-219 | a reading in a gap is moved on by an hour, and the result shows it exactly when that leaves the gap |
| Timestamps.SkippedDay | app/src/mediaferry/core/timestamps.py:215-219 | a zone that skipped a day: an hour on is still that day |
| Timestamps.AnHourIsEnough | app/src/mediaferry/core/timestamps.py:215-219 | which it does for gaps of an hour at most |
| Timestamps.FromInstantKeepsInstant | app/src/mediaferry/core/timestamps.py:149-162 | an instant shown in a zone, with its fold, is the same instant |
| Timestamps.MtimeRoundTrip | app/src/mediaferry/core/timestamps.py:149-204 | the file time is recovered under both meanings, except for an hour in a gap |
| Timestamps.OverridesCompose | app/src/mediaferry/core/timestamps.py:86-103 | overrides keep the instant and the last one wins |
| Timestamps.OverriddenWallClockIff | app/src/mediaferry/jobs/merger.py:262-275 | a file time taken from an overridden value as a wall clock is the camera's exactly when both clocks show the same |
| Timestamps.PlaceIsAnHourOff | app/src/mediaferry/jobs/merger.py:262-275 | a camera and a place on different clocks: the file time is off by the difference |
| Timestamps.WallClockOf | app/src/mediaferry/core/timestamps.py:106-146 | the first source of the chain that says something is taken |
| Timestamps.Resolve | app/src/mediaferry/core/timestamps.py:46-83 | an exact source keeps its instant, a reading gets the first instant that shows it |
| Fingerprint.WindowOffsets | app/src/mediaferry/core/fingerprint.py:24-34 | above 1 MiB exactly sixteen windows, in order, apart and inside the file, from its first to its last byte, each at the nearest offset; below, one |
| Fingerprint.NoTies | app/src/mediaferry/core/fingerprint.py:33-33 | rounding never meets a tie, because the divisor is odd |
| Fingerprint.DoubleRoundsTheSame | app/src/mediaferry/core/fingerprint.py:33-33 | dividing in floating point gives the same offsets for files up to 2^48 bytes |
| Fingerprint.WindowsAreApart | app/src/mediaferry/core/fingerprint.py:24-34 | each window ends before any later one begins |
| CaptureZone.OnlyTheLastShows | app/src/mediaferry/db/capture_zone.py:45-104 | after any sequence of overrides the instant is the first one and the rest is what the last would have written alone |
| CaptureZone.InstantsStay | app/src/mediaferry/db/capture_zone.py:67-103 | a whole request moves no instant of an original |
| CaptureZone.OutputsFollow | app/src/mediaferry/db/capture_zone.py:199-239 | after a request an output shows the time of its first recording exactly if the request touches it as an output, or what is written into it, if anything, is that time |
| CaptureZone.AgreementStaysIff | app/src/mediaferry/db/capture_zone.py:67-104 | where all outputs agreed all still do, exactly if every output that was turned as a member of another is made of something that was turned |
| CaptureZone.SelectedResultIsTurned | app/src/mediaferry/db/capture_zone.py:107-133 | selecting a file merged from a recording and a merged file turns the latter, whose own recordings stay |
| CaptureZone.AgreesIff | app/src/mediaferry/db/capture_zone.py:199-239 | for any groups and any order of the query: an output agrees with its first member exactly if both took their time from files of one time |
| CaptureZone.InOrderAgrees | app/src/mediaferry/db/capture_zone.py:199-239 | which is so where the member does not have its turn later |
| CaptureZone.InTurnIsAtOnce | app/src/mediaferry/db/capture_zone.py:199-239 | as every result begins with a recording the order of the query does not matter |
| CaptureZone.AnyOrderAgrees | app/src/mediaferry/db/capture_zone.py:199-239 | and each output that has its turn agrees with its first recording |
| ZoneGroups.ResultsBeginWithRecordings | app/src/mediaferry/db/capture_zone.py:199-239 | after every run of the operations on merge groups, what a request or a recomputation sees are results that begin with recordings of their own profile |
| CaptureZone.ZoneRepository.OriginalsOf | app/src/mediaferry/db/capture_zone.py:107-133 | the rows a selection stands for, each once; refused exactly for unknown files and outputs without members |
| CaptureZone.ZoneRepository.TurnAll | app/src/mediaferry/db/capture_zone.py:67-95 | all rows turned, or none when one cannot be; exactly the rows written are counted as changed, and exactly those whose time changed as moved |
| CaptureZone.ZoneRepository.InheritOne | app/src/mediaferry/db/capture_zone.py:220-239 | one output takes the time of its first active member |
| CaptureZone.ZoneRepository.InheritAll | app/src/mediaferry/db/capture_zone.py:199-239 | every listed output takes the time of its first active member, one after the other |
| CaptureZone.ZoneRepository.Apply | app/src/mediaferry/db/capture_zone.py:45-104 | refused as invalid or busy exactly under the stated conditions and then writes nothing; otherwise recordings are turned and keep their instant, every output touched agrees with its first recording, all still agree exactly under the condition above, the counts are right, and only records of files whose time changed are reopened |
| Recompute.Recomputer.Fetch | app/src/mediaferry/jobs/recompute.py:113-152 | one page: the first rows past the cursor, in order |
| Recompute.Recomputer.Pass | app/src/mediaferry/jobs/recompute.py:243-292 | the pass visits every row exactly once, in order, batch by batch, and gets through exactly if it is not stopped before the page past the rows; stopped early, exactly the batches done are written; only records of files whose time changed are reopened |
| Recompute.Recomputer.ApplyBatch | app/src/mediaferry/jobs/recompute.py:294-358 | a batch computes the values of all its rows before it writes any; only records of files whose time changed are reopened |
| Recompute.Recomputer.Run | app/src/mediaferry/jobs/recompute.py:83-108 | gets through exactly if neither pass is stopped; then originals have been recomputed before merged files, every merged file of the profile whose first recording is of the new revision shows its time, and where all agreed all still do; only records of files whose time changed are reopened |
| Recompute.RunKeepsInherited | app/src/mediaferry/jobs/recompute.py:205-238 | where all merged files agreed with their first recordings all still do, also where a recording could not be recomputed |
| Recompute.RunTwiceIsOnce | app/src/mediaferry/jobs/recompute.py:243-382 | a second run changes no file |
| Recompute.RunAgreesIff | app/src/mediaferry/jobs/recompute.py:205-238 | after a finished run a merged file shows the time of its first recording exactly if that is of the new revision, or had that time anyway |
| Recompute.BatchAgreesIff | app/src/mediaferry/jobs/recompute.py:294-358 | for any groups: a visited merged file agrees with its first member exactly if what its batch found there is what the member has in the end |
| Recompute.BatchTakes | app/src/mediaferry/jobs/recompute.py:294-358 | what a visited row holds in the end was computed from what its batch found |
| Recompute.BatchesAreOver | app/src/mediaferry/jobs/recompute.py:243-292 | the size of the pages does not matter, for recordings and for merged files |
| Recompute.StaleReadIff | app/src/mediaferry/jobs/recompute.py:326-358 | a recording read before a request that only records a place: it shows the clock of the recorded place exactly if that is the place it had, or both clocks agree with the camera, or times have no zone; the next run puts it right |
| Recompute.StaleReadHappens | app/src/mediaferry/db/capture_zone.py:136-156 | such a request gets through while a recomputation runs, and the recording ends up on another clock than the recorded one |
| Recompute.SecondRunLeavesRecords | app/src/mediaferry/jobs/recompute.py:243-358 | a second run reopens no upload record |
| Reconcile.Reconciler.RecoverStaging | app/src/mediaferry/jobs/reconcile.py:155-184 | every open publication is finished, given up or reported; without errors none is left writing, and exactly those left open are reported, whose bytes had been lost before; staged rows are never dropped; merge groups follow in the same transaction |
| Reconcile.Reconciler.Mirror | app/src/mediaferry/adapters/publisher.py:532-551 | what happens to a staging row happens to its merge group with it |
| Reconcile.Reconciler.EvenOut | app/src/mediaferry/jobs/reconcile.py:107-116 | one destination: no older unfinished record counts, and keys nobody holds are erased |
| Reconcile.Reconciler.SettleMerges | app/src/mediaferry/jobs/reconcile.py:118-153 | decides every merging group except those with an open publication, and leaves none merged without a result |
| Reconcile.Reconciler.SettleUploads | app/src/mediaferry/jobs/reconcile.py:95-116 | afterwards no record is claimed, every valid unfinished record is of its destination's current epoch and still has the reason it was made for, and superseded keys nobody holds are erased |
| Reconcile.SettlingKeepsReasons | app/src/mediaferry/jobs/reconcile.py:95-116 | deciding the groups that were being merged changes no record's reason |
| Reconcile.Reconciler.CleanJobDirs | app/src/mediaferry/jobs/reconcile.py:227-252 | afterwards staging directories and the files in them exist only for jobs that wait and publications that are open; the library and the bytes of staged rows are untouched |
| Reconcile.Reconciler.Run | app/src/mediaferry/jobs/reconcile.py:82-93 | the state after a start, pass by pass, with reasons judged by the groups as just settled; without errors no row is left writing and reported are exactly the rows left open, which had lost their bytes; no staging file is left over; with nothing reported nothing is left for the next start, and a second one changes nothing |

## Left out

- Fences.EpochFence: a stack is assumed to be recorded for the destination its members belong to; the stacking job, which is not part of this model, chooses them.
- Recheck.Run: what it is for is stated undisturbed; CheckAssets and ReconcileStacks say what interference does. Errors of the remote side while records are asked about, which end the job before anything is written, are not modelled.
- Reconcile.Reconciler.Run: flags for missing files and the list of orphans are not modelled, and it is proved for a reconciler that was given uploads and destinations, not for the wiring at `app/src/mediaferry/api/app.py:132-137`, which gives it neither.
- Listing.FoldingLosesNothingIff: a media file has one extension wherever it was seen.
- CaptureZone.ZoneRepository.Apply: among several groups with one output the first is taken to give it its time, where the query orders members by position alone.
- Recompute.Recomputer.Pass: rows others insert or change meanwhile are not modelled there. Requests that move times are refused while a recomputation runs; what one does that only records a place is stated by StaleReadIff for one recording.
- Timestamps.MtimeRoundTrip: whole seconds; the conversion of nanoseconds through floating point is not modelled.
- Fingerprint.WindowOffsets: the quotient is exact; for files above 2^48 bytes the floating-point quotient of the source is not claimed to round the same.
- Mounts.MountManager.Mount: interrupts that are not ordinary exceptions are not modelled.
- Merger.MergeGroup: ffmpeg, probing and the free-space check are outcomes.
- Uploads.UploadRepository.CreatePairs: which files are eligible is a parameter; Choices says which they are. The adoption that choosing may bring is a step on merge groups there.
- Uploads.UploadRepository.OnePair: the same, and so is the reason returned.
- Uploads.UploadRepository.PrepareSideEffect: that the reason still holds is a parameter; Choices says when it does.
- Publisher.ArtifactPublisher.AnySchedule: one publication; what it leaves alone, every other one included, is stated, and no steps of another come in between.
- Approvals.ApprovalService.Approve: the preflight and the HTTP calls are outcomes.
- The reset beyond uploads, which deletes the library: only its order of deletions matters there.
- HTTP to Immich, ffmpeg, ffprobe and EXIF processes, sockets, JSON, encryption, sessions and the web interface.
- The volume, uploader and stacker jobs: arbitrary clients of the repositories.
- Reading and hashing the sample windows, making thumbnails, checking page bounds, watching for volumes.
- Threads and durations: atomic steps in any order, and a clock that only moves forward.
