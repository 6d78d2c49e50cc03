# Verified model of the media backup server

A Dafny model of the parts of the media backup system where data could be lost:
the crash-safe commit of uploads and what surrounds it, the client's splitter
and staging queue, the limiter of logins, the admission of uploads, and paging.
Check it with `dafny verify dfyconfig.toml`.

## What is modelled

**The upload commit protocol.** `CommitModel` holds the rows of `accounts`,
`assets`, `blobs`, `resources`, `uploads` and `upload_parts`, the
content-addressed files, and one program counter per running completion. Each
SQL transaction and each storage call is one atomic step. A step that fails has
no effect, but for publishing and for removing a stage, which may also fail after
theirs; a commit made and never reported is a step after which the request is
cancelled or the process dies. BLAKE3 is any function from bytes to canonical
digests. Only what speaks of the bytes of a source assumes more: that no two of
the finitely many contents at hand share a digest (`CollisionFree`).
`CommitInvariant` and `CommitSteps` give the invariant and prove that each step
keeps it; `CommitRuns` interleaves any number of uploads with creations, part
uploads, cancelled requests, crashes at any point, deletions, reclamation and
sweeping; `CommitSafety` and `Quota` prove what holds along every run. `Arrivals`
makes runs of ordinary requests.

**Completion and recovery.** `Solo` runs one completion to its end and shows its
outcome to be a function of rows and files; `Outcomes` says who may complete an
upload, why one is refused, and what becomes of it when the database, the storage
or the clean-up fails; `Answers` says what a success is worth when rows and files
were altered; `Reconcile` does so for the whole of
`reconcile_all`; `Reclamation` treats the removal of orphan blobs, with the deletion
of assets and the race with running completions, to which `Race` gives a run from a
fresh installation.

**The server's own code.** `Storage.LocalStorage`, `CommitServer.Server` and
`UploadRoutes` are the handlers statement by statement, over mutable tables and
files, with chunked reads and loops. Each method is proved to take exactly the
protocol's steps, so the theorems above are theorems about it.

**The rest.** `Doctor` is the offline checker, with loops over its index and its
map of expected parts; `Diagnosis` compares its checks, for rows and files of any
origin, with what the server makes of the same. `StorageKeys` shows the structured keys of the model to be
the server's textual paths, and its textual checks to be the model's. `Content`
and `EndToEnd` follow a file from the client's splitter to the published object.
`LoginAdmission` and `LoginRates` treat the bounded table of token buckets, in
exact real arithmetic, and `LoginClocks` what becomes of it when clocks go back.
`UploadAdmission` is a step system of semaphores held through weak references. `Agent` is the client's job queue with its staged
generations, with a crash possible at every step. `Paging` holds the timeline and
the change log with the client loops that follow them. `Witnesses` shows for a
concrete hash and one small upload that what the main theorems require is met.

## What was found

- Reclaiming an orphan blob is not excluded while another upload of the same
  content, which proposes a blob id of its own, has already inspected the object
  (`crates/server/src/upload_commit.rs:193-204` and
  `crates/server/src/library.rs:387-410`). That upload then commits over a missing
  object (`RaceCommitsMissingObject`); ordinary requests lead there from every fresh
  installation (`RaceIsReachable`). A run of the server as it is keeps the invariant
  if and only if no reclamation in it takes an object that an upload relies on
  (`ServerRunsSafeIff`, `ReclaimSafeIffUnrelied`).
- A completed upload whose resource a later upload took over becomes unknown at
  the next pass (`RepeatedCompletion`, `SecondPassIdle`).
- Recovery gives `unknown`, not `committed`, to an upload that adopted a blob whose
  object is gone, and `failed` to one whose parts do not have the declared hash
  (`ResumedCompletion`).
- The quota sum saturates, so a quota of exactly the largest 64-bit integer admits
  any total (`SaturatingCheckExact`); the theorems on quotas are for smaller ones.
- A request hash with upper-case digits is accepted (`AnySpellingIsAccepted`) and
  its parts are received, but it fails (`UpperCaseFails`): an upload that told the
  truth up to spelling commits if and only if the hash is in lower case, what it
  relies on is there and the sizes recorded agree (`SpellingDecides`). The doctor's
  stricter check refuses its row (`UpperCaseNeverCommits`), and its final key keeps
  the case of the first two digits only (`SpellingsShareAKey`).
- The limiter reads its clock before taking its lock (`check_source_at(…,
  Instant::now())`), so times may come out of order. However little they go back, a
  key can then get more than its burst and what the time covered refills
  (`GoingBackRefillsTwice`); the bound holds if and only if they never do
  (`SpanBoundedIff`).
- Marking a completed job failed or uploading revives a row whose staged parts are
  gone (`CompleteThenFail`); where completed jobs are cleaned up it is safe if and
  only if the job is not complete (`MarkUpload`, `MarkFailed`).
- A completion attached to a blob row of the same digest but another size ends
  unknown (`ResumedCompletion`, `FirstCompletion`), which takes a collision of digests
  (`SizesClashByCollision`).

## Model

| member | source | states |
|---|---|---|
| CommitSteps.AdvanceKeepsInv | crates/server/src/upload_commit.rs:113-288 | One step of a completion, at any program counter and with any failure, keeps the whole invariant of rows, files and every other running request. |
| CommitRuns.ActionKeepsInv | crates/server/src/upload_commit.rs:113-288 | So does every other step of the server: creating, attaching, putting parts, cancelling, crashing (with a stage half written), trashing, deleting, reclaiming an object no unfinished commit is bound for, sweeping a stage. |
| CommitSafety.CommittedIsStored | crates/server/src/upload_commit.rs:435-538 | In every run, a committed upload names a blob row of its own account with its manifest's hash and size, at the account's final key for that hash, and the file there has exactly that hash and size. |
| CommitSafety.ResourceIsStored | crates/server/src/upload_commit.rs:824-855 | In every run, every resource points at a blob of its asset's account whose object is on disk with the recorded size and hash. |
| CommitSafety.OnlyCommitsAddMetadata | crates/server/src/upload_commit.rs:440-528 | A blob row appears, and a resource row appears or changes, only in the transaction that takes its upload from finalizing to committed, with that upload's account, hash, size, key, asset and source; the one exception is attaching stored content to a resource. A commit counts as deduplicated if and only if it adds no blob row. |
| CommitSafety.ReceivedPartsAreStored | crates/server/src/routes.rs:496-510 | In every run, a part recorded as received is on disk as its manifest entry says, and an upload past receiving has all its parts. |
| CommitSafety.FilesAreStable | crates/server/src/storage.rs:175-188 | No step changes the bytes of a part or of an object, and none removes one, except that reclamation unlinks the object of an orphan blob. |
| CommitSafety.NoRebirth | crates/server/src/routes.rs:428-445 | The id of a deleted upload is never used again. |
| CommitSafety.StagesAreIssued | crates/server/src/storage.rs:97-100 | In every run each stage on disk, in a row or in a running call is named by a UUID drawn before, so a new commit never meets a stage of its own name. |
| CommitSafety.ReceivingNamesNoBlob | crates/server/src/upload_commit.rs:339-375 | In every run an upload names a blob only once its commit has begun. |
| CommitSafety.RequestsStaySound | crates/server/src/routes.rs:629-667 | In every run each stored request passes the server's check of requests and names the source of its asset. |
| CommitSafety.UploadsMoveForward | crates/server/src/upload_commit.rs:389-400 | Along every run the rank receiving, commit_started, finalizing, terminal never falls, unknown and failed are absorbing, received parts stay received, and a terminal upload's blob, resource, key and deduplicated flag never change. |
| CommitSafety.SameContentSharesOneBlob | crates/server/src/upload_commit.rs:450-499 | Any two committed uploads of one content in one account name the same blob row, and at most one of them is not deduplicated. |
| CommitSafety.TwoTriesSuffice | crates/server/src/upload_commit.rs:402-433 | In no run does the completion of an upload that still exists begin its third try: while its row is there, the refusal after three tries is never returned. |
| Quota.SaturatingCheckExact | crates/server/src/routes.rs:815-820 | Comparing a sum that saturates at the largest 64-bit integer with the quota is exact for every total if and only if the quota is below that integer. |
| Quota.QuotaCheckIsExact | crates/server/src/routes.rs:790-827 | A creation passes the quota check if and only if there is no quota, the quota is past the saturation point, or what is charged and what is asked for together stay within it. |
| Quota.ChargedForBlobs | crates/server/src/routes.rs:799-803 | Each blob row charges its own account its size, and no other account. |
| Quota.ChargedForUploads | crates/server/src/routes.rs:804-815 | Each upload that is not done, and is receiving, committing or unknown, charges its own account the size of its request, and nothing is charged otherwise. |
| Quota.QuotaIsConserved | crates/server/src/routes.rs:790-827 | In every run and for every non-zero quota below the saturation point, blob bytes plus the reservations of unfinished uploads never exceed the quota. |
| Quota.CommitQuotaNeverRefuses | crates/server/src/upload_commit.rs:781-822 | Hence the second quota check, made when a commit begins, never refuses an upload. |
| Quota.ActiveUploadsAreUnique | crates/server/src/routes.rs:391-417 | In every run there is at most one active upload per account, device, source resource and hash. |
| Quota.RetriedCreateAddsNothing | crates/server/src/routes.rs:297-465 | Creating an upload again, whatever the first attempt answered, adds no upload row. |
| Solo.DriveKeepsInv | crates/server/src/upload_commit.rs:113-288 | A completion run to its end, through any failures, keeps the invariant. |
| Solo.FirstCompletion | crates/server/src/upload_commit.rs:129-288 | A first completion left alone ends exactly as the rows and files say: by the object if there is one; unknown if an adopted blob has lost its object; committed if the parts make up the content, and otherwise failed. |
| Solo.ResumedCompletion | crates/server/src/upload_commit.rs:133-276 | A completion resumed after a crash ends exactly as the verdict read off rows and files says (object, then stage, then parts, then the size of a row of the same digest), and returns the outcome exactly when it commits, with the stage removed. |
| Solo.SizesClashByCollision | crates/server/src/upload_commit.rs:540-584 | Where a good object meets a row of its digest with another size, two different contents share that digest. |
| Solo.RepeatedCompletion | crates/server/src/upload_commit.rs:586-654 | A repeated completion returns the recorded resource, asset and flag and changes no row if no later upload took over the resource, and otherwise marks the upload unknown. |
| Outcomes.ForeignCall | crates/server/src/upload_commit.rs:694-732 | Completing an upload of another account, or none at all, changes no row and no file in any state, and is told not found, or of a storage error if the look-up fails. |
| Outcomes.OnlyOwnersSucceed | crates/server/src/upload_commit.rs:113-132 | A call made for an account succeeds only if the upload is that account's, before and after, whatever fails. |
| Outcomes.BarredCall | crates/server/src/upload_commit.rs:290-387 | An upload with a part missing, of a disabled account, over the quota, or already given up is refused with the reason for it, and no row or file changes. |
| Outcomes.CompletionAnswers | crates/server/src/upload_commit.rs:113-288 | Every answer of a call that nothing fails, in every state that keeps the invariant: not found for another account, the reason for a barred upload, and otherwise the end read off rows and files, with the outcome exactly when it is a commit. |
| Outcomes.BadManifestFails | crates/server/src/upload_commit.rs:290-301 | For rows of any origin, a receiving upload whose manifest is empty or does not add up to its size becomes failed; one whose sum overflows is refused and stays as it is. |
| Outcomes.DatabaseFailuresDecideNothing | crates/server/src/upload_commit.rs:113-288 | A call in which only the database or assembly fails ends as it would undisturbed, or with a storage error and its upload still open to be completed. |
| Outcomes.FailedProbeSetsAside | crates/server/src/upload_commit.rs:137-276 | If a look at the storage fails and the database works, the upload becomes unknown and the answer is a conflict, never a success or a missing file. |
| Outcomes.FailedCleanupTells | crates/server/src/upload_commit.rs:278-288 | If only the removal of the stage fails, a completion that commits still succeeds, and a repeated one reports a storage error and changes no row. |
| Outcomes.FailureLeavesNoStage | crates/server/src/upload_commit.rs:156-177 | Whatever fails, an upload that a completion leaves failed has no file at its stage. |
| Answers.SuccessIsVerified | crates/server/src/upload_commit.rs:113-288 | For rows and files altered in any way and any failures, a completion that answers with an outcome has committed the upload with it; its resource and blob rows agree with it and with each other, what it recorded is what it requests, its path is its account's, and the object at its final key has the request's size and hash. |
| Reconcile.DriveOnlyOwn | crates/server/src/upload_commit.rs:113-288 | A completion changes no row, part or stage of another upload, and no existing object. |
| Reconcile.AnswerTellsCommit | crates/server/src/upload_commit.rs:113-288 | A call that begins on an unfinished upload, whatever fails, answers with success if and only if it leaves the upload committed. |
| Reconcile.HonestVerdict | crates/server/src/upload_commit.rs:133-276 | The interrupted commit of an upload whose parts really have the declared hash, and whose adopted object is present, is decided committed if and only if what is stored under the digest has its size. |
| Reconcile.SettleAllVerdicts | crates/server/src/upload_commit.rs:936-964 | Each selected upload ends as what is stored at its own turn says, a committed one staying so exactly while its resource is its own, and no later turn changes that. |
| Reconcile.RecoveryConverges | crates/server/src/upload_commit.rs:925-995 | From any state a crash can leave, one pass ends every interrupted commit with the verdict of the state its turn found, commits every honest one whose digest is not given another size, and leaves no orphan row, no orphan stage and no stage of a committed upload. |
| Reconcile.SecondPassIdle | crates/server/src/upload_commit.rs:925-995 | A second pass over a settled server changes no row and no file if and only if every committed upload still owns its resource. |
| Reconcile.SecondPassChangesNothing | crates/server/src/upload_commit.rs:925-995 | Where uploads of one resource agree on its content, a first pass leaves nothing for a second: it changes no row and no file. |
| Reclamation.PassTouchesOnlyOrphans | crates/server/src/library.rs:366-424 | Whatever fails, a reclamation pass removes only rows of orphans, and only with their object gone, and unlinks only objects of orphans. |
| Reclamation.ReferencedBlobsSurvive | crates/server/src/library.rs:366-424 | The row and the object of a blob that a resource or an upload references survive every pass, with unlink failures, rollbacks and failed commits anywhere. |
| Reclamation.FaultlessPassLeavesNone | crates/server/src/library.rs:366-424 | A pass in which nothing fails leaves a listed blob an orphan if and only if its row names a key outside its account's scope. |
| Reclamation.DeletionTouchesNothingElse | crates/server/src/library.rs:291-364 | Deleting an asset for good, with failures anywhere in the reclamation that follows, loses no resource, blob row, object or upload of another asset. |
| Reclamation.DeletionIsThorough | crates/server/src/library.rs:291-364 | With no failure, a listed blob keeps its row exactly if something still references it, and otherwise its object is gone too. |
| Reclamation.ReclaimSafeIffUnrelied | crates/server/src/library.rs:387-410 | Reclaiming an orphan beside running requests keeps the invariant if and only if no upload relies on its object: none has inspected it already, and none would finish from it for want of a stage. |
| Reclamation.UnwantedMeansUnrelied | crates/server/src/library.rs:387-410 | Nobody relies on an object that no unfinished commit has as its final key. |
| Reclamation.RaceCommitsMissingObject | crates/server/src/upload_commit.rs:193-204 | The server does not exclude the bad case: if an orphan is reclaimed after another upload of its content inspected the object, that upload commits, successfully, over an object that is gone. |
| Race.RaceIsReachable | crates/server/src/upload_commit.rs:193-204 | On every fresh installation and for any content two devices share, a run of ordinary requests without a failure ends with a completion answered with success, its upload committed and its object gone: both upload, one stands at its inspected object, the other commits and is deleted, the orphan is reclaimed, the first goes on. |
| Race.ServerRunsSafeIff | crates/server/src/library.rs:387-410 | Along the server's runs as they are, with reclamation checking only that the blob is an orphan, every state satisfies the invariant if and only if no reclamation takes an object that an upload relies on. |
| Storage.LocalStorage.ExistingFileMatches | crates/server/src/storage.rs:531-559 | Reading in chunks of any size and stopping early answers whether the whole file has this size and hash, and whether there is a file. |
| Storage.LocalStorage.InspectObject | crates/server/src/storage.rs:225-240 | Missing, matching or mismatching, for a key in the account's scope; anything else is an error. |
| Storage.LocalStorage.InspectCommitStage | crates/server/src/storage.rs:242-258 | The same for a stage of this account and this upload. |
| Storage.LocalStorage.PutPart | crates/server/src/storage.rs:112-189 | A body is linked exactly if it fits its manifest entry and the limits, never over an existing file; success means exactly that the body fits and no other content is at the part's path, and then the file there matches; a body is too large exactly if it passes the server's limit before anything else is wrong with it. |
| Storage.LocalStorage.CopyPart | crates/server/src/storage.rs:290-322 | One part is appended to the stage whole, and accepted exactly if size and hash match its entry. |
| Storage.LocalStorage.CopyParts | crates/server/src/storage.rs:288-325 | The stage holds the parts copied so far; all match exactly if success is reported, and then it holds them all in manifest order. |
| Storage.LocalStorage.AssembleCommit | crates/server/src/storage.rs:260-357 | A matching stage is kept; otherwise the stage becomes the assembled content, or is removed with a conflict if a part or the whole does not match. |
| Storage.LocalStorage.PublishCommit | crates/server/src/storage.rs:359-400 | The object is linked from a matching stage, never over an existing file, and success means that the object now matches; a failure may strike before or after the link. |
| Storage.LocalStorage.RemoveCommitStage | crates/server/src/storage.rs:402-410 | Only a stage of this account and upload is removed. |
| Storage.LocalStorage.CleanupOrphanStaging | crates/server/src/storage.rs:412-434 | Exactly the unreferenced stages of this account's directory are removed, and counted. |
| CommitServer.Server.constructor | crates/server/src/main.rs:93-97 | A fresh installation is a valid initial state of the protocol. |
| CommitServer.Server.LoadBlobCandidate | crates/server/src/upload_commit.rs:734-770 | Finds the account's row of a content, if there is one. |
| CommitServer.Server.UsedBytes | crates/server/src/upload_commit.rs:790-794 | The sum over the account's blob rows. |
| CommitServer.Server.ReservedBytes | crates/server/src/upload_commit.rs:795-806 | The sum over the parts of the account's unfinished uploads. |
| CommitServer.Server.EnsureCommitQuota | crates/server/src/upload_commit.rs:781-822 | True exactly if the quota admits what is stored and reserved. |
| CommitServer.Server.MarkCommit | crates/server/src/upload_commit.rs:873-907 | One step of the protocol: the upload is marked and the call refused. |
| CommitServer.Server.ValidateBlobCandidate | crates/server/src/upload_commit.rs:540-584 | True exactly if row and object of the candidate match the request. |
| CommitServer.Server.ApproveCandidate | crates/server/src/upload_commit.rs:540-584 | The protocol's validation step, before or after the transaction. |
| CommitServer.Server.MetadataTransaction | crates/server/src/upload_commit.rs:435-538 | The transaction's writes are the protocol's atomic step, whole or not at all. |
| CommitServer.Server.AttachAndCommit | crates/server/src/upload_commit.rs:492-531 | Inserts the blob if new, attaches the resource by upsert, and commits the row. |
| CommitServer.Server.CommitMetadata | crates/server/src/upload_commit.rs:435-538 | The transaction, or its failure, is one step of the protocol. |
| CommitServer.Server.OneTry | crates/server/src/upload_commit.rs:408-428 | One turn of the loop takes the protocol's steps, in order. |
| CommitServer.Server.CommitMetadataWithRaceRetry | crates/server/src/upload_commit.rs:402-433 | The loop of three tries is a segment of a drive of the protocol, with the approved candidate carried from try to try. |
| CommitServer.Server.ProvePublished | crates/server/src/upload_commit.rs:193-276 | Inspect the object, then the stage, then publish: a segment of a drive, ending published or to be marked unknown. |
| CommitServer.Server.PublishStaged | crates/server/src/upload_commit.rs:210-242 | The half of it that starts from the stage. |
| CommitServer.Server.PublishObject | crates/server/src/upload_commit.rs:243-266 | Publishing is the protocol's step, success meaning that the object is proved to be there. |
| CommitServer.Server.RemoveStage | crates/server/src/upload_commit.rs:280-288 | Dropping the stage, whose failure only a repeated completion reports. |
| CommitServer.Server.FinalizeCommit | crates/server/src/upload_commit.rs:193-288 | From finalizing to the answer: a segment of a drive. |
| CommitServer.Server.TransitionToFinalizing | crates/server/src/upload_commit.rs:389-400 | The conditional update is one step of the protocol. |
| CommitServer.Server.AssembleStage | crates/server/src/upload_commit.rs:156-177 | Assembly, and failing the upload if its parts do not match, are steps of the protocol. |
| CommitServer.Server.StartCommit | crates/server/src/upload_commit.rs:133-192 | From commit_started to the answer: a segment of a drive. |
| CommitServer.Server.LoadCommit | crates/server/src/upload_commit.rs:694-732 | Loads the row with its account's current path if and only if the upload is there and, where an account is required, is that account's; otherwise not found. |
| CommitServer.Server.ManifestSize | crates/server/src/upload_commit.rs:291-301 | The checked sum of the part sizes, or overflow. |
| CommitServer.Server.BeginTransaction | crates/server/src/upload_commit.rs:314-386 | Adopts the account's blob of this content, or proposes a new one within the quota: the protocol's atomic step. |
| CommitServer.Server.BeginCommit | crates/server/src/upload_commit.rs:290-387 | Checks, opening transaction and reload: a segment of a drive. |
| CommitServer.Server.ValidateCommitted | crates/server/src/upload_commit.rs:586-654 | Rows, object, stage: a segment of a drive. |
| CommitServer.Server.CompleteRecord | crates/server/src/upload_commit.rs:121-288 | The dispatch on the stored state and all that follows: a segment of a drive. |
| CommitServer.Server.CompleteInner | crates/server/src/upload_commit.rs:113-288 | Alone under its lock and whatever fails, the call leaves the rows, files and answer of a drive of the protocol from the state it found, and keeps its invariant. An upload that is missing or another account's is left alone, files included, and never answered for; success for an account means that the upload is its own; and if nothing fails the answer and the upload's end are those of `CompletionAnswers`. |
| CommitServer.Server.ReconcileOne | crates/server/src/upload_commit.rs:936-964 | One turn: the upload is completed, and counted by the answer and the state it is left in. |
| CommitServer.Server.ReconcileUploads | crates/server/src/upload_commit.rs:925-965 | The loop completes every selected upload, each as a drive, passing over refusals; its counters are exact: recovered are the unfinished uploads now committed, unknown those now unknown, errors those whose completion answered with an error otherwise. |
| CommitServer.Server.ReclaimOne | crates/server/src/library.rs:385-424 | One turn: no orphan, row and object gone, rolled back by a failure or a key out of scope, or aborted with the object gone and the row kept; no other blob becomes or ceases to be an orphan. |
| CommitServer.Server.ReclaimBlobs | crates/server/src/library.rs:385-424 | The loop is the reclamation pass, abort included; it counts the rows it removed, and as errors exactly the listed blobs that are still orphans. |
| CommitServer.Server.DeleteAssetPermanently | crates/server/src/library.rs:291-364 | Not found, and nothing changed, unless the account has the asset in its trash with a resource; otherwise exactly the asset, its resources and uploads go, then the account's orphans are reclaimed. The answer says finished if and only if reclamation was not aborted and no listed blob is still an orphan, so always if nothing fails and the listed keys are in scope. |
| CommitServer.Server.SweepStages | crates/server/src/upload_commit.rs:968-993 | Removes exactly the stages in directories of accounts that no upload row names, changes no other file, and counts them. |
| CommitServer.Server.ReconcileAll | crates/server/src/upload_commit.rs:925-995 | The whole call is the pass, with exact counters of uploads, blob rows and stages, or no report exactly if reclamation aborted it; on a quiescent server without failures it leaves a valid and settled state. |
| UploadRoutes.ValidateUploadRequest | crates/server/src/routes.rs:629-667 | Loop by loop, with checked addition, accepts exactly the well-formed requests: names and metadata within their limits, positions, sizes, digests and total. |
| UploadRoutes.FieldsAreJudgedAlone | crates/server/src/routes.rs:629-667 | In a well-formed request each field can be replaced exactly by what its own limit allows: names of 1 to 1024 and types of 1 to 255 bytes, metadata up to 64 KiB, sources that are not empty, 64 hexadecimal digits, the size that is the sum of the parts. |
| UploadRoutes.MissingParts | crates/server/src/routes.rs:673-681 | Exactly the parts not yet received, in ascending order. |
| UploadRoutes.PutUploadPart | crates/server/src/routes.rs:467-512 | A run of the protocol: unknown parts and other accounts' uploads are not found, a committed upload answers success, a frozen one conflicts, and a receiving one records this part and no other exactly if the body fits and no other content is stored in its place; each refusal has its own error and changes no row. |
| Arrivals.Arrives | crates/server/src/routes.rs:297-512 | Creating an upload the server welcomes and putting bodies that fit its manifest is a run after which every part is received and stored and nothing else has changed. |
| UploadRoutes.EnsureQuota | crates/server/src/routes.rs:790-827 | True exactly if the account has room: no quota, one past the saturation point, or one that what is charged and requested stays within. |
| UploadRoutes.CreateTransaction | crates/server/src/routes.rs:302-458 | The first transaction, read off the rows it finds: refused without a change, for an unknown or disabled account, a size out of range or no room, and for those reasons only; otherwise the asset is there and out of the trash, and stored content is found, or else the active upload of this target, or else a new upload is opened with nothing received. |
| UploadRoutes.CreateUpload | crates/server/src/routes.rs:297-465 | A run of at most two steps of the protocol, with failures anywhere. If nothing fails: a malformed request is bad, each refusal has its reason and changes nothing; stored content of the same size with a matching object is answered as stored, and otherwise conflicts; an active upload of the target is answered with exactly the parts it lacks; and otherwise a new one with all its parts. No resource changes but the one answered with. |
| UploadRoutes.ActionUniqueAssets | crates/server/src/routes.rs:304-328 | No step makes two rows of one asset of a device. |
| Doctor.IndexDataTree | crates/server/src/doctor.rs:375-425 | The index holds size and hash of exactly the files there are. |
| Doctor.ValidateAccountStoragePaths | crates/server/src/doctor.rs:226-253 | The two loops accept exactly if every account path is a legal key outside the uploads directory and none lies below another. |
| Doctor.RowsAreManifest | crates/server/src/doctor.rs:298-372 | Rows taken out of the expected entries one by one leave nothing over if and only if they are the manifest, row for row. |
| Doctor.CollectExpected | crates/server/src/doctor.rs:255-330 | The first loop accepts exactly if every stored request is sound, and collects exactly the entries they call for. |
| Doctor.CheckRows | crates/server/src/doctor.rs:332-361 | The second loop accepts an upload's rows exactly if each is the entry of its index and each received one has its file. |
| Doctor.ValidateUploadManifests | crates/server/src/doctor.rs:255-373 | True exactly if requests, rows and part files agree, with no part file left over. |
| Doctor.ValidateActiveCommits | crates/server/src/doctor.rs:147-224 | True exactly if every unfinished commit has consistent keys, nothing corrupt and, once finalizing, something to finish from. |
| Doctor.ValidateBlobs | crates/server/src/doctor.rs:112-137 | True exactly if every blob row has its object, in scope, with its size and hash. |
| Doctor.ValidateDatabaseFiles | crates/server/src/doctor.rs:56-145 | True exactly if account paths, requests, parts, commits, blobs and files are sound in all those respects, nothing is unknown and no blob is an orphan. |
| Doctor.RequestSoundIffLower | crates/server/src/doctor.rs:271-325 | Of a request the server accepted, for an asset of that source, the doctor asks no more than digests in lower case: parts of size zero in an empty file pass. |
| Doctor.DoctorAcceptsIff | crates/server/src/doctor.rs:56-145 | In every state of every run the doctor accepts if and only if account paths are sound, digests in lower case, part files accounted for, no upload unknown, every committed upload owns its resource, every blob row is referenced and has its object, and unfinished commits have nothing corrupt and, if they adopted a blob, its object. |
| Doctor.HealthyRestoresInvariant | crates/server/src/doctor.rs:56-145 | For rows any run can leave and files of any origin, acceptance restores the invariant of the protocol, all but its rule for objects that no row names. |
| Doctor.AcceptanceMeansRecovery | crates/server/src/doctor.rs:147-224 | If the doctor accepts, a completion run alone commits every unfinished upload whose object or stage is there or whose parts make up the content, as is so of every finalizing one, and fails exactly the others. |
| Doctor.AcceptanceKeepsCommits | crates/server/src/doctor.rs:70-103 | If the doctor accepts, every committed upload keeps answering with its recorded outcome. |
| Doctor.SettledIsHealthyIff | crates/server/src/doctor.rs:66-145 | Along every run, of a settled state with no upload unknown or failed the doctor accepts if and only if account paths are sound, digests are in lower case, part files are accounted for and every committed upload still owns its resource. |
| Doctor.UpperCaseNeverCommits | crates/server/src/doctor.rs:519-524 | No run commits an upload whose content hash has an upper-case digit, and the doctor refuses its row. |
| Diagnosis.RequestSoundIff | crates/server/src/doctor.rs:271-325 | For a row of any origin within the server's limits on names and parts, the doctor accepts its request if and only if the server would, its digests are in lower case and its asset has its source. |
| Diagnosis.BlobSoundIsShareable | crates/server/src/doctor.rs:112-137 | For rows and files of any origin, the doctor accepts a blob if and only if its digest is in lower case and a completion of its content would share it. |
| Diagnosis.CommitAnswersIff | crates/server/src/doctor.rs:70-103 | For rows and files of any origin, a completed upload that recorded its request is answered with its outcome, no row changing, if and only if the doctor accepts its row and its object is there; otherwise it becomes unknown. |
| Diagnosis.AcceptedCommitAnswers | crates/server/src/doctor.rs:56-145 | Hence what the doctor accepts as completed, of any origin, is answered with its outcome. |
| Diagnosis.AcceptedStartGoesOn | crates/server/src/doctor.rs:147-224 | For rows and files of any origin, a started commit that the doctor accepts goes on from its object, or assembles its own stage. |
| Diagnosis.AcceptedFinishGoesOn | crates/server/src/doctor.rs:147-224 | One being finalized gets a matching object at its final key, with no file replaced, and goes on to its metadata. |
| Diagnosis.AcceptedPathsShareNothing | crates/server/src/doctor.rs:226-253 | No key is in the scope of two accounts with different paths that the doctor accepts, and none of their paths lies in the uploads directory. |
| Content.ChunksJoin | crates/crypto/src/lib.rs:63-107 | The parts of a split join to the source, none larger than the part size, none empty unless the source is. |
| Content.ChunkCount | crates/crypto/src/lib.rs:52-54 | The number of parts is the rounded-up quotient of sizes, or one for an empty file. |
| Content.Fill | crates/crypto/src/lib.rs:72-83 | Filling the buffer by short reads yields the next bytes of the file, as many as there are. |
| Content.PrepareFile | crates/crypto/src/lib.rs:43-114 | For every schedule of short reads the result is the size, hash and manifest of the split and its parts are on disk, unless the part size or the number of parts is out of bounds. |
| Content.Disk.RestoreFile | crates/crypto/src/lib.rs:117-151 | The destination changes only to a download of the expected size and hash, and the temporary file is gone either way. |
| Content.RestoredIsTheSource | crates/crypto/src/lib.rs:138-141 | Under the size and hash of a source a download is accepted if and only if it is the source, unless the two happen to share a digest. |
| EndToEnd.PreparedManifestIsAccepted | crates/server/src/routes.rs:647-665 | Every prepared manifest within the part limit passes the server's checks of parts and sizes: such a request is accepted if and only if its names and metadata are within their limits. |
| EndToEnd.ReceivedPartsAreTheSource | crates/server/src/storage.rs:288-325 | Once all parts are recorded, in whatever order and after whatever retries, the stored parts in manifest order are the source, if no two of the stored files, the source and its chunks share a digest. |
| EndToEnd.RetriedPartsNeverConflict | crates/server/src/storage.rs:175-188 | In every run every part file matches its upload's manifest, so putting the right bytes again always succeeds. |
| EndToEnd.SpellingDecides | crates/server/src/upload_commit.rs:129-288 | From every state any run reaches, a completion left alone of an upload that told the truth up to the spelling of its digest commits if and only if the digest is in lower case, what it relies on is there, and what is stored under the digest has its size. |
| EndToEnd.AnySpellingIsAccepted | crates/server/src/routes.rs:669-671 | The check of requests accepts a digest in one spelling if and only if it accepts it in every other. |
| EndToEnd.UpperCaseFails | crates/server/src/upload_commit.rs:156-177 | On every fresh installation, any content sent under a digest with an upper-case digit is accepted and received whole, and then its completion fails it. |
| EndToEnd.TheSourceIsDelivered | crates/server/src/upload_commit.rs:113-288 | From every state any run reaches, a completion left alone commits an upload of a source, and then has published exactly its bytes, if and only if content it was to share is still there and recorded with its size; no two of the stored files, the source and its chunks may share a digest. |
| LoginAdmission.BoundedBuckets.FindVictim | crates/server/src/login_admission.rs:309-314 | A full entry such that every entry seen earlier is not full, or none if none is full. |
| LoginAdmission.BoundedBuckets.RetryDelay | crates/server/src/login_admission.rs:319-331 | The shortest wait until an entry is full or expired, at least a nanosecond. |
| LoginAdmission.BoundedBuckets.MakeRoom | crates/server/src/login_admission.rs:305-332 | Evicts one full entry only when the table is at capacity, and refuses only if none is full. |
| LoginAdmission.BoundedBuckets.CheckAt | crates/server/src/login_admission.rs:283-298 | A check is one step of the table's relation: prune, make room, refill, and take a token or say when. |
| LoginRates.CheckTakes | crates/server/src/login_admission.rs:283-298 | Whatever it prunes or evicts, a check lowers the level of its own key by the token it takes and changes no other level; it throttles only without a whole token. |
| LoginRates.RunCapacity | crates/server/src/login_admission.rs:305-308 | The table never exceeds its capacity, whatever its limits. |
| LoginRates.RunRefines | crates/server/src/login_admission.rs:283-332 | Along every run the levels are those of an unbounded table, and so is every answer that is not a refusal for want of room. |
| LoginRates.AgreesIff | crates/server/src/login_admission.rs:300-303 | The bounded table answers like the unbounded one in every run if and only if entries live at least as long as a whole burst takes to refill. |
| LoginRates.RunIsRateBounded | crates/server/src/login_admission.rs:283-298 | In every stretch of every run a key is admitted at most a burst plus what refilled in between, even if its entry is evicted or expires and is made anew. |
| LoginRates.RateBoundedIff | crates/server/src/login_admission.rs:300-303 | That bound holds in every run if and only if entries outlive a refill. |
| LoginClocks.GoingBackRefillsTwice | crates/server/src/login_admission.rs:243-253 | For all limits that outlive a refill, and however little the times of checks may go back, some run admits a key more often than a burst and what the span of time it covers refills. |
| LoginClocks.SpanBoundedIff | crates/server/src/login_admission.rs:100-125 | For such limits that bound holds in all runs whose times go back by no more than a given amount if and only if the amount is zero. |
| LoginRates.ThrottleDelayIsExact | crates/server/src/login_admission.rs:254-258 | A throttled key, left alone, is admitted from the reported delay on and not a moment earlier. |
| LoginRates.NoRoomDelayIsExact | crates/server/src/login_admission.rs:319-331 | A full table left alone admits any new key from the reported delay on, and none before it. |
| LoginRates.RetryAfterSuffices | crates/server/src/login_admission.rs:194-203 | After the whole seconds of Retry-After, with no other call, the same key is admitted, for an empty bucket and for a full table. |
| LoginRates.RetryAfterSeconds | crates/server/src/login_admission.rs:198-203 | The least whole number of seconds, at least one, that covers the delay. |
| LoginRates.ServerLimitsHold | crates/server/src/login_admission.rs:16-22 | The limits the server runs with outlive a refill. |
| StorageKeys.RenderInjective | crates/server/src/storage.rs:58-110 | Part, stage and final keys are disjoint and injective: the model's keys are the server's paths. |
| StorageKeys.RenderParses | crates/server/src/storage.rs:622-648 | A rendered key parses if and only if it is within the length limit. |
| StorageKeys.KeysLeadWhereTheySay | crates/server/src/storage.rs:622-648 | A key that parses, followed component by component, leads to itself below the directory it is joined to, never above it, and a scoped one below its account's directory. |
| StorageKeys.ScopeIsTextual | crates/server/src/storage.rs:669-678 | For accounts that do not overlap, the textual scope check accepts exactly the keys of the account. |
| StorageKeys.StageIsTextual | crates/server/src/storage.rs:680-702 | The textual stage check accepts exactly the stages of this account and upload. |
| StorageKeys.ListedStages | crates/server/src/storage.rs:417-428 | The files taken for stages when an account's staging directory is listed are exactly its stages. |
| StorageKeys.BlobKeyHasOneOwner | crates/server/src/storage.rs:472-478 | A key in the scope of two accounts means that their paths overlap. |
| StorageKeys.StageKeyHasOneOwner | crates/server/src/storage.rs:680-702 | No stage key is accepted for two accounts or for two uploads. |
| StorageKeys.CommitKeysAreTheModels | crates/server/src/storage.rs:85-110 | The keys of a commit are those of the model, accepted for their own account and upload, for every hash and every path short enough. |
| StorageKeys.FinalKeysAreInjective | crates/server/src/storage.rs:100-105 | Final keys of lower-case hashes are injective in account path and hash. |
| StorageKeys.SpellingsShareAKey | crates/server/src/storage.rs:100-105 | Two spellings of one digest share a final key if and only if they agree on the first two digits. |
| UploadAdmission.LimitsHold | crates/server/src/routes.rs:78-110 | In every interleaving there is at most one live semaphore per account, and permits held never exceed the global limit or any account's. |
| UploadAdmission.BlockedMeansBusy | crates/server/src/routes.rs:94-105 | A waiter is granted exactly if a permit of the kind it waits for is free. |
| UploadAdmission.NoDeadlock | crates/server/src/routes.rs:94-110 | While any request waits, some waiter can be granted its permit or some request holds both and can release them. |
| UploadAdmission.PermitsComeBack | crates/server/src/routes.rs:64-67 | When every request has left, every permit is back and no account semaphore is alive. |
| Agent.Agent.Reopen | crates/agent-core/src/lib.rs:214-232 | After any crash, reopening makes a staged job that was preparing or uploading ready, without its upload, and an unstaged one that was preparing discovered; all else of every row is kept, so no job becomes complete and none is left preparing. |
| Agent.Agent.Enqueue | crates/agent-core/src/lib.rs:256-325 | One job per source resource; an unchanged complete one is left alone, any other starts again without a prepared generation. |
| Agent.Agent.WriteParts | crates/agent-core/src/lib.rs:428-433 | Staging a new generation, even if the process dies half way, disturbs no other. |
| Agent.Agent.CollectOthers | crates/agent-core/src/lib.rs:615-645 | Collecting removes only other generations of the job, and on success all of them. |
| Agent.Agent.PrepareJob | crates/agent-core/src/lib.rs:414-489 | Dying or failing at any point leaves every job's generation intact; success leaves the new generation and no other, made from the source as it was, and then removes the source exactly if the job asks for it and the removal goes through. |
| Agent.Agent.NextPrepared | crates/agent-core/src/lib.rs:327-412 | A ready job is returned first, with its generation intact and no row changed; otherwise a due one is prepared; none is returned only if no job is ready, discovered or due; after an error one due job waits for its retry, with its count and backoff, and no other row has changed. |
| Agent.Agent.MarkUpload | crates/agent-core/src/lib.rs:491-496 | Keeps the staging promise for every job that is not complete; where completed jobs are cleaned up, if and only if the job is not one of them. |
| Agent.Agent.MarkFailed | crates/agent-core/src/lib.rs:549-576 | The job waits for its retry, or has failed, with its count one up and its delay doubled; it keeps the staging promise for every job that is not complete, and, where completed jobs are cleaned up, if and only if the job is not one of them. |
| Agent.FailedJobIsDue | crates/agent-core/src/lib.rs:549-576 | A job that failed and may be retried is due exactly from its delay on, one that failed for good never. |
| Agent.Agent.MarkComplete | crates/agent-core/src/lib.rs:510-547 | The row first, then the parts, wherever the process dies: no other generation is touched, and the job's own stays intact if and only if not one removal went through; undisturbed, all its parts go. |
| Agent.Agent.CompleteThenFail | crates/agent-core/src/lib.rs:510-576 | A staged job completed and then reported failed keeps the staging promise if and only if not one of its parts was removed in between. |
| Agent.IntactIsTheContent | crates/agent-core/src/lib.rs:443-466 | The parts of an intact generation are its manifest's, and join to a content of the recorded size and hash. |
| Agent.BackoffStaysBelowItsCeiling | crates/agent-core/src/lib.rs:569-570 | The delay is two seconds at first, doubles to 2,048,000 ms, stays there, and never meets its ceiling of an hour. |
| Paging.ListingIsUnique | crates/server/src/library.rs:77-92 | The filtered list in descending order of time and id is determined by the assets. |
| Paging.Query | crates/server/src/library.rs:73-103 | The query selects the first rows after the cursor, in order. |
| Paging.PageSizeIsNearest | crates/server/src/library.rs:67 | The size of a page is the allowed one nearest to what was asked for. |
| Paging.Timeline | crates/server/src/library.rs:62-118 | A page, newest first, continues after the cursor and names a next cursor exactly if something is left; then it holds exactly as many rows as were asked for, where that is within 1 and 250, and 100 if nothing was asked. |
| Paging.FetchTimeline | clients/android/app/src/main/java/org/sarmg/mediabackup/RemoteLibrary.kt:39-51 | The client's loop ends with the whole list, each asset once and newest first, for every choice of page sizes. |
| Paging.PassedBelow | crates/server/src/library.rs:134-147 | What a sync cursor has passed are exactly the events up to its sequence number. |
| Paging.SyncChanges | crates/server/src/library.rs:120-165 | A page holds exactly the events between the two cursors and says exactly if more are visible; then it holds as many as were asked for, where that is within 1 and 1000, and 250 if nothing was asked. |
| Paging.AdvanceSync | clients/android/app/src/main/java/org/sarmg/mediabackup/RemoteLibrary.kt:28-37 | With events appended between requests, the loop delivers every event between its first and last cursor exactly once and in order, and misses none its last page could see. |
| Witnesses.ReceivedUpload | crates/server/src/routes.rs:297-512 | A run meets what `FirstCompletion`, `SpellingDecides`, `ReceivedPartsAreTheSource` and `TheSourceIsDelivered` require, with no two of its contents sharing a digest. |
| Witnesses.InterruptedUpload | crates/server/src/upload_commit.rs:290-387 | A commit interrupted at its opening meets what `ResumedCompletion`, `HonestVerdict`, `RecoveryConverges` and `SecondPassChangesNothing` require. |
| Witnesses.SettledUpload | crates/server/src/upload_commit.rs:925-995 | What recovery makes of it meets what `SecondPassIdle` and `RepeatedCompletion` require. |
| Witnesses.HealthyInterrupted | crates/server/src/doctor.rs:56-145 | The doctor accepts that interrupted commit, as `AcceptanceMeansRecovery` requires. |
| Witnesses.HealthyCommitted | crates/server/src/doctor.rs:56-145 | It accepts the completed one, as `AcceptanceKeepsCommits` requires. |
| Witnesses.TwoSenders | crates/server/src/routes.rs:297-465 | Two devices with one content meet what `RaceIsReachable` requires. |
| Witnesses.KeysAndNames | crates/server/src/storage.rs:58-110 | Names of ten UUIDs and keys of each kind meet what the theorems of `StorageKeys` require. |

## Left out

- File system calls (no-follow opens, hard links, locks, fsync, modes): create-new, read, link without replacing, remove and lock are atomic operations on an abstract file map. A link and the sync of its directory are one step, and a visible entry is never lost in a crash.
- The per-upload file lock is the rule that one completion of an upload runs at a time; waiting for it is not modelled.
- Assembly writes its stage in one step of a completion; bytes written in place before a crash are a step of their own that leaves anything at that stage.
- UploadRoutes.CreateUpload: attaches stored content (`crates/server/src/routes.rs:341-388`) in one step of a run, inspection included; a deletion or reclamation between the inspection and the second transaction is not interleaved there.
- Runs reclaim an orphan only if no unfinished commit is bound for its object; the server does not check this, and module `Reclamation` treats the unguarded case exactly.
- Runs sweep one unreferenced stage at a time; that `reconcile_all` reads the referenced keys before it lists directories matters only beside running handlers, and `ReconcileAll` is the quiescent run made at start-up and by `reconcile scan`.
- CommitServer.Server.ReconcileAll: does not model failures of its listing queries, nor of listing a staging directory, which the server counts as errors too.
- CommitServer.Server.ReclaimBlobs: treats a blob row without its account, which the schema's foreign key excludes, as one whose key is out of scope.
- CommitSafety.TwoTriesSuffice: says nothing of a completion whose upload was deleted while it ran, since its blob row may go and come back between tries.
- Doctor.HealthyRestoresInvariant: does not restore the rule that an object no row names has the digest of its key, since the doctor does not look at such files.
- Changing an account's storage path or quota, and UUID collisions: paths and quotas are fixed, and every UUID drawn is new.
- Overflow of SQLite's own SUM, which the fixed quotas keep out of reach.
- Columns that decide nothing here: media kind, favourites, timestamps, error texts, audit rows.
- Doctor.ValidateDatabaseFiles: does not model the columns `received_size` and `completed_at`, which are written together with the flags that are modelled, the media kind, the walk over directories, or the probes of database and disk. Rows whose account or asset is missing are refused by these checks themselves; the server's separate foreign-key check does that first.
- StorageKeys.RenderParses: counts characters where the server counts UTF-8 bytes of the configured account path; the rest of every key is ASCII. An account path within 95 characters of the limit makes `commit_keys` refuse, which the commit protocol's opening transaction does not model.
- Content.Disk.RestoreFile: takes the download, the destination and the temporary name to be three different files.
- Floating point: token counts and delays are exact reals, with a nanosecond only as the least delay. Counting in nanoseconds is not modelled.
- The argon2 semaphore and its time-outs, canonical addresses and account digests.
- UploadAdmission.NoDeadlock: queueing is unordered, so fairness between waiters is not modelled; a time-out is a request that leaves.
- Agent.Agent.NextPrepared: which of several ready or due jobs comes first (`ORDER BY updated_at_ms`) is left open, and the media kind and path checks of a prepared row are not modelled.
- The agent's calls are serialised; two threads preparing one job are not modelled.
- Encodings of cursors (JSON, base64), sessions, API keys, albums, tags, password hashing, snapshots, releases, the web shell and the mobile bindings.
