# A verified model of the transfer orchestrator

Files that arrive over SFTP are announced by a webhook, recorded in a table together with
an outbox event, relayed to a job queue, checked, uploaded to an object store (optionally
encrypted), metered, and offered for download. This project models that protocol in Dafny
and proves what it keeps in every interleaving of its actors. `dafny verify dfyconfig.toml`
checks everything.

## How the model is built

* `Transfers`, `Quota`, `Pipeline`, `Routing`, `Envelope`: the table and its unconditional
  status writes, quotas, the pre-upload stages, destinations, and the object layout
  `[IV(12) || ciphertext || tag(16)]` with its two streams.
* `Protocol`: the step system. The actors are the webhook, any number of relays, workers,
  `failed` handlers, sweeps, operator retries and purges. Every database or queue call is one
  step, so a run is any interleaving; any actor may crash between two steps, and a step whose
  actor is not at that point of its program leaves the state alone. `Plan` says what a step
  writes, `Commit` writes it. Proofs show a local fact about every plan and then that
  committing such a change keeps the invariant.
* One module per law about runs: `NoOrphan`, `ExactlyOnce`, `EndToEnd`, `Destinations`, `Metering`,
  `DeadLetters`, `Workload`, `Outbox`, `SingleRelay`, `Drain`, `Ingestion`, `Recovery`. From
  the steps in `Scenarios`, the modules `LostWork`, `LostSuccess`, `UnburiedFailures`,
  `ImpatientSweeps`, `Overshoot`, `WorkAttained` and `CleanRuns` build runs from the empty
  system that reach the states in which a law fails without its hypotheses, a bound is
  attained, or the hypotheses hold and a transfer succeeds.
* `Backends`, `Services`, `Processors`: the services as sequential, state-changing code over
  the shared stores. A ghost copy of the step system runs along with every call, so whatever
  the services do is a run of `Protocol` (`Backend.StoresShowARun`) and each law holds of it
  under that law's hypotheses.
* `Tenancy`, `IdempotencyKey`, `Paths`, `Clamd`: the row-level policy with the management
  operations, and the small codecs.

## Assumptions

* Job queue: a job is delivered again while it has failed fewer than `attempts` times, and
  the `failed` event fires after every failed attempt. A stalled job returns with its count
  unchanged.
* AES-GCM is a parameter: a keystream XORed with the data (section 6.5 of NIST SP 800-38D)
  and a tag that is a function of key, IV and ciphertext (sections 7.1 and 7.2). Node accepts
  tags of 4, 8 and 12 to 16 bytes. SHA-256, MD5, random bytes, file contents, scan verdicts
  and fresh ids are parameters of the steps.
* Database: each call is atomic, a tenant's transaction becomes visible at its commit, ties
  in an ORDER BY may be broken either way, and every write gets a later stamp than the writes
  before it.
* The quota stage's read and the stages around it are one step, taken at the moment the usage
  is read; the scan verdict that follows is an argument of that step.

## Where the code and its documentation differ

The model follows the code.

* `README.md:315-316` of the repository sends every permanently failed transfer to the
  dead-letter queue; a transfer that the sweeper sets FAILED gets no dead letter
  (`SweptTransfersGetNoLetter`), and `SweptWithoutLetter` gives a run that ends so.
* `nestjs-app/src/outbox/outbox.service.ts:64-68` says duplicates are absorbed because the
  worker skips SUCCESS rows. Read and write are separate calls, so overlapping runs and a
  last attempt that throws (a duplicate job's failing `findById` included) overwrite SUCCESS;
  `SuccessIsLostExactlyWhen` lists exactly the steps that do, and
  `OverlapIsReachable` and `LastThrowIsReachable` give runs that reach them, and `AtMostOnce`
  carries the hypotheses under which duplicates are absorbed.
* A user with an empty tenant is not isolated: the policy shows every row
  (`EmptyTenantSeesEverything`).
* A file whose first segment below the data root begins with ".." is refused although it does
  not leave the root (`ContainmentIsExact`).
* The streaming and the whole-buffer decrypt slice objects shorter than 28 bytes differently;
  `ShortObjectsAgreeExactlyWhen` says on which of them they agree.

## Model

| member | source | states |
|---|---|---|
| `NoOrphan.NoTransferIsOrphaned` | nestjs-app/src/ingestion/ingestion.processor.ts:96-205 | over every run in which no actor crashes while it still owes a transfer (relay and sweep crashes, thrown attempts and stalls allowed), each PENDING or PROCESSING row has a job, a waiting event, or an actor that will settle or enqueue it |
| `LostWork.CrashIsReachable` | nestjs-app/src/ingestion/ingestion.processor.ts:96-110 | that hypothesis is needed: in every configuration a run from the empty system orphans nothing until the only worker of a transfer is lost, and then does |
| `NoOrphan.SweepRedrives` | nestjs-app/src/ingestion/recovery.service.ts:59-70 | after any run, however it stranded a transfer: from the moment a sweep passes the transfer it is terminal, gone or driven again, and stays so over every continuation that loses no work, whatever the other actors do |
| `NoOrphan.PlansAreHonest` | nestjs-app/src/ingestion/transfers.service.ts:99-140 | every planned step keeps its actor's debts, settles them or enqueues, and takes on the ones it creates |
| `NoOrphan.StepKeepsInv` | nestjs-app/src/outbox/outbox.service.ts:34-94 | the inductive coverage invariant, in which an announcement counts only until a relay has enqueued it, survives every step |
| `ExactlyOnce.AtMostOnce` | nestjs-app/src/ingestion/ingestion.processor.ts:98-164 | without overlapping runs, with atomic find-then-update and no last-attempt throw on SUCCESS: at most one markSuccess, recordUsage and transfer.completed per id, in that order, and a row is SUCCESS exactly when it was marked |
| `ExactlyOnce.SuccessIsAbsorbing` | nestjs-app/src/ingestion/ingestion.processor.ts:103-106 | under the same hypotheses a SUCCESS row stays SUCCESS for as long as it exists, over any continuation |
| `CleanRuns.CleanRunSucceeds` | nestjs-app/src/ingestion/ingestion.processor.ts:96-164 | the hypotheses are met: in every configuration a run from the empty system satisfies them and takes a transfer to SUCCESS, marked, metered and published exactly once |
| `ExactlyOnce.SuccessIsLostExactlyWhen` | nestjs-app/src/ingestion/file-transfer.repository.ts:55-110 | in any state, a step takes SUCCESS away if and only if it is one of six enumerated unconditional updates of that row |
| `ExactlyOnce.OverlapLosesSuccess` | nestjs-app/src/ingestion/ingestion.processor.ts:98-110 | with two runs of one id, a claim after the other's markSuccess turns SUCCESS into PROCESSING |
| `LostSuccess.OverlapIsReachable` | nestjs-app/src/ingestion/ingestion.processor.ts:98-110 | for every configuration a run from the empty system gets there: SUCCESS after some prefix, PROCESSING at its end |
| `ExactlyOnce.LastThrowLosesSuccess` | nestjs-app/src/ingestion/ingestion.processor.ts:192-205 | a throw of the last attempt while the row is SUCCESS ends in FAILED |
| `LostSuccess.LastThrowIsReachable` | nestjs-app/src/ingestion/ingestion.processor.ts:153-205 | for every configuration a run from the empty system gets there: the last attempt marks SUCCESS, throws, and the row ends FAILED |
| `ExactlyOnce.CommitKeepsInv` | nestjs-app/src/ingestion/file-transfer.repository.ts:55-85 | counts, row status, worker phases and what retries and sweeps have seen stay consistent under every well-behaved change |
| `EndToEnd.SuccessRowsAreCoherent` | nestjs-app/src/ingestion/ingestion.processor.ts:149-156 | in every interleaving a SUCCESS row has its object key, is encrypted exactly when encryption is on and exactly when it has a wrapped key, and its checksum and an unencrypted ETag of 32 hex digits are, up to case, those of the source its attempt read |
| `EndToEnd.IntegrityExactly` | nestjs-app/src/ingestion/ingestion.processor.ts:207-216 | an attempt is stopped exactly when its object is not encrypted and its ETag is 32 hex digits that differ from the MD5 in more than case |
| `Destinations.SuccessRowsAreRouted` | nestjs-app/src/ingestion/routing.service.ts:27-33 | in every run a SUCCESS row names the bucket and key that the rules give for its own columns |
| `EndToEnd.DownloadReturnsTheUpload` | nestjs-app/src/ingestion/transfers.service.ts:80-97 | over every well-behaved run, a SUCCESS row that last uploaded to its bucket and key downloads to exactly the bytes its upload read, encrypted or not, and its object is 28 bytes longer exactly if encryption is on |
| `EndToEnd.SealedReadsBack` | nestjs-app/src/ingestion/ingestion.processor.ts:130-140 | unwrapping the persisted key and opening the stored object gives back the body |
| `Metering.QuotaOvershootIsBounded` | nestjs-app/src/quota/quota.service.ts:56-82 | with at most c jobs in flight and usage starting within every quota that is set (0 is unlimited), recorded plus admitted bytes never exceed maxBytes + (c-1) file limits, and objects never exceed maxObjects + c-1, in every interleaving of check and record |
| `Metering.ConfiguredQuotaIsKept` | nestjs-app/src/quota/quota.service.ts:39-69 | the same bound with the configured numbers written out: each limit is the tenant's own or else the default |
| `Overshoot.OvershootIsAttained` | nestjs-app/src/quota/quota.service.ts:55-69 | the bound is tight: for every n a run from the empty system and any recorded usage that leaves room for one file, with at most n jobs in flight, ends exactly n-1 files, and n-1 objects, above the quota |
| `Overshoot.AllAreAdmitted` | nestjs-app/src/quota/quota.service.ts:56-69 | any chosen workers that check before anyone records are all admitted if one would be |
| `Metering.MeteringConserves` | nestjs-app/src/ingestion/ingestion.processor.ts:153-158 | in every interleaving, bytes and objects marked SUCCESS equal those recorded plus those in, or lost in, the window between mark and record |
| `DeadLetters.DeadLettersConserve` | nestjs-app/src/ingestion/ingestion.processor.ts:170-205 | in every interleaving, the FAILED marks of runs and `failed` handlers equal dead letters sent plus due plus lost |
| `DeadLetters.SweptTransfersGetNoLetter` | nestjs-app/src/ingestion/recovery.service.ts:60-65 | a sweep that gives a transfer up leaves it FAILED, sends no dead letter and owes none |
| `UnburiedFailures.SweptWithoutLetter` | nestjs-app/src/ingestion/recovery.service.ts:59-65 | in every configuration that sweeps, a run from the empty system ends with a FAILED transfer for which no dead letter was sent or is due |
| `Workload.WorkIsBounded` | nestjs-app/src/ingestion/ingestion.module.ts:30-42 | in every run the failed attempts of a transfer, plus those its queued and running jobs have left, never exceed max(attempts, 1) per fresh job that relays, sweeps and management calls added |
| `WorkAttained.WorkBoundIsAttained` | nestjs-app/src/ingestion/ingestion.module.ts:30-42 | in every configuration some run fails one fresh job max(attempts, 1) times |
| `CleanRuns.NoSweepIsPatient` | nestjs-app/src/ingestion/recovery.service.ts:49-79 | any run without sweeps and resets meets the hypothesis of `RecoveryTerminates` |
| `Outbox.AtLeastOnce` | nestjs-app/src/outbox/outbox.service.ts:34-94 | over any run with any relays and crashes: one event per transfer ever created, every PUBLISHED event was enqueued, every job names a committed transfer |
| `Outbox.EventsStay` | nestjs-app/src/outbox/outbox.service.ts:38-52 | row and event enter together, so every issued id keeps exactly one event |
| `Outbox.MarksStay` | nestjs-app/src/outbox/outbox.service.ts:80-87 | an event is marked only after it was enqueued, also with several relays |
| `SingleRelay.ExtraPublicationsAreInterruptions` | nestjs-app/src/outbox/outbox.service.ts:64-87 | with one relay at a time, publications equal PUBLISHED events plus interruptions between add and mark plus the one under way |
| `CleanRuns.FirstRelayIsAlone` | nestjs-app/src/outbox/outbox.service.ts:69-87 | that hypothesis is met by a run that publishes once and has not marked yet |
| `Drain.DrainsInTime` | nestjs-app/src/outbox/outbox.service.ts:69-94 | in every interleaving, an event with k pending events ahead is PUBLISHED after k/100 + 1 passes that worked off their batch, however many events arrive meanwhile |
| `Drain.EachPassTakesAHundred` | nestjs-app/src/outbox/outbox.service.ts:75-79 | while the event still waits, each completed pass has published 100 events ahead of it |
| `Drain.PassPublishes` | nestjs-app/src/outbox/outbox.service.ts:80-87 | a relay that has worked off its list has published its whole batch, whatever ran beside it |
| `Drain.RelayBatchIs` | nestjs-app/src/outbox/outbox.service.ts:75-79 | a relay takes pending events, each once, oldest first, all of them below a hundred |
| `Drain.FullPass` | nestjs-app/src/outbox/outbox.service.ts:12 | a batch that leaves a pending event out is full and holds only events ahead of it |
| `Ingestion.IngestionIsIdempotent` | nestjs-app/src/ingestion/ingestion.service.ts:39-87 | over any run a key has at most one row, ACCEPTED answers equal rows present plus purged, and a duplicate delivery changes nothing |
| `Ingestion.PurgeRemovesKeys` | nestjs-app/src/ingestion/file-transfer.repository.ts:130-140 | a purge takes a key away exactly when its row was terminal and old |
| `Recovery.AttemptsCountStarts` | nestjs-app/src/ingestion/file-transfer.repository.ts:54-61 | in every run, `attempts` is the number of worker starts since creation or the last reset |
| `Recovery.AttemptsGrowByStarts` | nestjs-app/src/ingestion/file-transfer.repository.ts:54-61 | from any state, while nobody resets the row, the counter grows by exactly the starts of its workers |
| `Recovery.RecoveryTerminates` | nestjs-app/src/ingestion/recovery.service.ts:49-79 | without operator retries, and if a worker has started for every requeued job before the next sweep selects the row, at most maxAttempts - attempts requeues happen and the next sweep that selects the row sets it FAILED |
| `ImpatientSweeps.ImpatientSweepsNeverEnd` | nestjs-app/src/ingestion/recovery.service.ts:59-70 | that hypothesis is needed: if requeued jobs never start, there is for every n a run that requeues an accepted transfer n times |
| `Recovery.ExhaustedSweepFails` | nestjs-app/src/ingestion/recovery.service.ts:60-65 | a sweep that reaches a row it saw exhausted sets it FAILED |
| `Envelope.EncryptChunks` | nestjs-app/src/crypto/crypto.service.ts:52-75 | for every chunking, empty input included, the stream emits IV once and first, ciphertext, tag: the sealing of the concatenated plaintext |
| `Envelope.EncryptStream.Transform` | nestjs-app/src/crypto/crypto.service.ts:58-64 | after each chunk the output is the IV and the encipherment of all input so far |
| `Envelope.EncryptStream.Flush` | nestjs-app/src/crypto/crypto.service.ts:65-72 | the finished output is the sealed object |
| `Envelope.DecryptChunks` | nestjs-app/src/crypto/crypto.service.ts:82-112 | for every chunking the result is a function of the concatenation, equals the whole-buffer decrypt from 28 bytes on, and fails under 12 bytes |
| `Envelope.DecryptStream.Transform` | nestjs-app/src/crypto/crypto.service.ts:87-101 | after each chunk exactly the bytes before the last 16 have been deciphered and the rest is withheld |
| `Envelope.DecryptStream.Flush` | nestjs-app/src/crypto/crypto.service.ts:102-110 | the verdict on the withheld bytes as tag |
| `Envelope.Gcm.StreamMatchesBuffer` | nestjs-app/src/crypto/crypto.service.ts:115-123 | from 28 bytes on both decrypts agree on plaintext and on failure, and the slices partition the object |
| `Envelope.Gcm.OpensExactlyWhatWasSealed` | nestjs-app/src/crypto/crypto.service.ts:115-123 | an object opens to a plaintext if and only if it is that plaintext's sealing under the IV it carries |
| `Envelope.Gcm.SealRoundTrip` | nestjs-app/src/crypto/crypto.service.ts:125-140 | byte by byte: IV, plaintext XOR keystream, tag of that ciphertext, plaintext + 28 in all; and both decrypts invert sealing, of contents as well as of the wrapped data key |
| `Envelope.XorIsBitwise` | nestjs-app/src/crypto/crypto.service.ts:63 | the cipher's XOR sets a bit exactly when the bits differ |
| `Envelope.NeverFeedsTheTag` | nestjs-app/src/crypto/crypto.service.ts:94-99 | what has been fed is always a prefix of the ciphertext, at most 16 bytes wait, and nothing is lost in between |
| `Envelope.Gcm.ShortObjectsStreamNothing` | nestjs-app/src/crypto/crypto.service.ts:95-106 | between 12 and 27 bytes the stream yields the empty plaintext or fails |
| `Envelope.Gcm.ShortObjectsAgreeExactlyWhen` | nestjs-app/src/crypto/crypto.service.ts:95-121 | under 28 bytes both decrypts yield the empty plaintext or fail, and agree if and only if both or neither find their tag, each condition given by length; below 16 bytes only lengths 4, 8 and 12 can differ |
| `Envelope.Gcm.CutTagsOpenOnlyInTheStream` | nestjs-app/src/crypto/crypto.service.ts:102-121 | under every cipher, key and IV, an IV with a cut tag opens in the stream, and in the buffer decrypt only if their last 16 bytes are the whole tag |
| `Envelope.ShortObjectsDisagree` | nestjs-app/src/crypto/crypto.service.ts:116-121 | a concrete 16-byte object on which the two decrypts differ |
| `Processors.IngestionProcessor.RunTransfer` | nestjs-app/src/ingestion/ingestion.processor.ts:96-205 | for every file, scan, ETag and set of failing calls the exact stores afterwards (row up to its stamp, objects, usage, queue, dead letters); and what they mean: dropped exactly without an open row, rejected exactly for a refused file and then FAILED with one dead letter, completed exactly when nothing stops it, retried with its count raised, exhausted with FAILED and one dead letter, no dead letter otherwise, and no actor lost unless the handler itself fails |
| `Processors.IngestionProcessor.Attempt` | nestjs-app/src/ingestion/ingestion.processor.ts:112-184 | how far the try block and its catch get, as file, quota, scan, integrity and failing calls decide, and what that does to every store |
| `Processors.IngestionProcessor.Deliver` | nestjs-app/src/ingestion/ingestion.processor.ts:127-164 | which of upload, mark, meter and publish happen for any failing call, and nothing more: a failure after the mark leaves SUCCESS unmetered, one after the metering leaves it metered |
| `Processors.IngestionProcessor.Upload` | nestjs-app/src/ingestion/ingestion.processor.ts:130-148 | the object is the file's bytes, sealed if encryption is on, under every chunking; the declared length is its length if and only if the upload read as many bytes as stat had counted |
| `Processors.IngestionProcessor.Claim` | nestjs-app/src/ingestion/file-transfer.repository.ts:54-61 | the columns of a claimed row, and that no other store changes |
| `Processors.IngestionProcessor.MarkSucceeded` | nestjs-app/src/ingestion/file-transfer.repository.ts:63-81 | the columns of a SUCCESS row, and what is noted about its source |
| `Processors.IngestionProcessor.RecordUsage` | nestjs-app/src/quota/quota.service.ts:71-82 | the tenant's bytes grow by the size and its objects by one, from 0 if it has no record, and no other tenant's change |
| `Processors.IngestionProcessor.CheckFile` | nestjs-app/src/ingestion/ingestion.processor.ts:113-125 | a permanent refusal exactly for unreadable, empty, oversized, over-quota or infected files, with the first objection as its reason; over quota exactly when recorded bytes plus size, or objects plus one, exceed the tenant's own limit or else the default, 0 being no limit; a retryable error exactly for an unreachable scanner |
| `Processors.IngestionProcessor.FailAttempt` | nestjs-app/src/ingestion/ingestion.processor.ts:191-205 | a thrown attempt is queued again with its count raised, or the handler runs once attempts are exhausted |
| `Processors.IngestionProcessor.HandleFailed` | nestjs-app/src/ingestion/ingestion.processor.ts:193-205 | the handler marks FAILED and then adds exactly one dead letter, up to the call of it that fails |
| `Processors.IngestionProcessor.Reject` | nestjs-app/src/ingestion/ingestion.processor.ts:171-179 | a permanent refusal sets FAILED with its reason and then adds exactly one dead letter, up to the call of it that fails |
| `Services.OutboxService.Relay` | nestjs-app/src/outbox/outbox.service.ts:69-94 | for any failing call exactly a prefix of the batch is PUBLISHED and exactly its jobs, or one more, are on the queue; the flag is released, and an error-free call is a pass in the sense of the drain bound |
| `Services.OneJobPerEvent` | nestjs-app/src/outbox/outbox.service.ts:80-81 | a relayed batch adds exactly one fresh job per announced transfer and no other |
| `Services.OutboxService.PublishOne` | nestjs-app/src/outbox/outbox.service.ts:81-86 | one event is enqueued and then marked |
| `Services.RecoveryService.Sweep` | nestjs-app/src/ingestion/recovery.service.ts:48-79 | the rows swept are PENDING or PROCESSING and not written since `staleBefore`, oldest first, and all such rows if they are fewer than a batch; of those reached exactly the exhausted become FAILED and exactly the others get one job, nothing else changes, both counters are exact, the flag is released, and a sweep that was cut off leaves nothing selected |
| `Services.OneJobPerRequeue` | nestjs-app/src/ingestion/recovery.service.ts:66-69 | a sweep adds exactly one fresh job per row with retries left and none for the others |
| `Services.TransfersService.Retry` | nestjs-app/src/ingestion/transfers.service.ts:99-113 | run without interference between its calls: not found for a hidden id and conflict for a SUCCESS row, changing nothing; otherwise that row alone is PENDING with no attempts and no error, is the answer, gets exactly one job, and the call ends owing nothing |
| `Services.TransfersService.RetryBatch` | nestjs-app/src/ingestion/transfers.service.ts:115-140 | which rows are taken (shown to the user, wanted status, age, oldest first, all of them below the limit), and that exactly these are reset and get one job each, in the admin loop as in the tenant transaction |
| `Services.OneJobPerReset` | nestjs-app/src/ingestion/transfers.service.ts:137 | the loop adds exactly one fresh job per id and no other |
| `Services.TransfersService.Download` | nestjs-app/src/ingestion/transfers.service.ts:80-97 | not found, conflict, or the object's decrypted bytes, for every chunking of the stored object; if all that the services did is a well-behaved run, the bytes that the transfer's upload read |
| `Services.IngestionService.AcceptUpload` | nestjs-app/src/ingestion/ingestion.service.ts:39-97 | accepted exactly for action "upload", absent status or 1, a path whose normalised segments extend the root's, and no row with the hash of the five joined fields; then one event and the new row column by column; every other answer changes nothing |
| `Services.IngestionService.CreateTransferWithOutbox` | nestjs-app/src/outbox/outbox.service.ts:34-62 | row and event together, or neither when the key exists |
| `Services.RetentionService.PurgeOld` | nestjs-app/src/ingestion/retention.service.ts:34-40 | exactly the terminal rows older than the cutoff go |
| `Backends.Backend.Call` | nestjs-app/src/ingestion/file-transfer.repository.ts:50-140 | one call writes the stores as the protocol's next step commits them |
| `Backends.Backend.StoresShowARun` | nestjs-app/src/ingestion/ingestion.processor.ts:96-205 | whatever the services have done with the stores is the result of a protocol run |
| `Protocol.LostCountsCrashes` | nestjs-app/src/outbox/outbox.service.ts:64-68 | the count of lost actors grows exactly with crashes |
| `Tenancy.Noninterference` | nestjs-app/src/ingestion/transfers.service.ts:46-140 | two databases that agree on a tenant's rows give that tenant the same answer, jobs and rows; only own ids are enqueued |
| `Tenancy.SessionsDoNotInterfere` | nestjs-app/src/ingestion/transfers.service.ts:28-53 | whatever other tenants' users do in any order, a tenant gets exactly the answers it would get alone |
| `Tenancy.TouchesOnlyOwn` | nestjs-app/src/database/migrations/1720300000000-AddTenancyRls.ts:32-36 | no other tenant's row changes |
| `Tenancy.EnqueuesOnlyOwn` | nestjs-app/src/ingestion/transfers.service.ts:110-137 | existing jobs stay and only own transfers are added |
| `Tenancy.ResetIsConfined` | nestjs-app/src/database/migrations/1720300000000-AddTenancyRls.ts:25-37 | an update under the policy acts on own rows as if there were no others |
| `Tenancy.EmptyTenantSeesEverything` | nestjs-app/src/database/migrations/1720300000000-AddTenancyRls.ts:28-30 | an empty tenant setting shows every row |
| `Tenancy.SeesExactly` | nestjs-app/src/database/migrations/1720300000000-AddTenancyRls.ts:27-31 | a row is shown exactly to admins, to users without a tenant and to users of its tenant |
| `Tenancy.GetMeans` | nestjs-app/src/ingestion/transfers.service.ts:67-73 | the row, or not found exactly when it is hidden or absent |
| `Tenancy.RetryMeans` | nestjs-app/src/ingestion/transfers.service.ts:99-113 | answer, row and job of a retry in each case |
| `Tenancy.ListMeans` | nestjs-app/src/ingestion/transfers.service.ts:55-65 | a page holds, newest first, the shown rows of the status from the offset on, at most the limit, and the total counts all of them |
| `Tenancy.BatchMeans` | nestjs-app/src/ingestion/transfers.service.ts:115-140 | which rows a batch takes and what becomes of them |
| `IdempotencyKey.PreImageIsInjective` | nestjs-app/src/ingestion/ingestion.service.ts:93-97 | without '\|' in user name and session id the joined string determines all five fields, even if the virtual path contains '\|' |
| `IdempotencyKey.CollidesExactlyWhen` | nestjs-app/src/ingestion/ingestion.service.ts:93-97 | for every payload that passes validation: another such event has the same joined string if and only if the parts between the separators can be read as five fields in a second way |
| `IdempotencyKey.PipeInUsernameCollides` | nestjs-app/src/ingestion/ingestion.service.ts:95 | a '\|' in the user name gives a different payload with the same joined string, one that passes validation unless the '\|' comes first |
| `Paths.ContainmentIsExact` | nestjs-app/src/ingestion/ingestion.service.ts:104-110 | a path is accepted exactly when its normalised segments extend the root's and the first extra one does not begin with ".."; the answer is clean and a fixed point |
| `Paths.RenderedIsNormal` | nestjs-app/src/ingestion/ingestion.service.ts:106 | normalising a rendered clean path gives its segments back |
| `Paths.NormalIsResolution` | nestjs-app/src/ingestion/ingestion.service.ts:106 | empty segments and "." do nothing, ".." undoes the segment before it and nothing at the root, clean segments stay |
| `Paths.RenderIsJoined` | nestjs-app/src/ingestion/ingestion.service.ts:106 | the answer is the segments joined by slashes after a slash |
| `Paths.BasenameIs` | nestjs-app/src/ingestion/ingestion.service.ts:112-115 | the last part between slashes that is not empty, or else the whole path |
| `Paths.RelativeEscapes` | nestjs-app/src/ingestion/ingestion.service.ts:107-108 | the relative path is never absolute, and begins with ".." exactly when the target does not extend the root or the next segment does |
| `Clamd.FramingRoundTrip` | nestjs-app/src/ingestion/pipeline/clamd.client.ts:53-68 | a reader of the frames stops exactly at the terminator and has recovered exactly the file's bytes |
| `Clamd.ReaderStopsAtEmptyChunk` | nestjs-app/src/ingestion/pipeline/clamd.client.ts:57-67 | for any chunks, empty ones included, the reader recovers exactly those before the first empty one |
| `Clamd.LengthRoundTrip` | nestjs-app/src/ingestion/pipeline/clamd.client.ts:59-60 | big-endian lengths read back, and only 0 looks like the terminator |
| `Clamd.SendFile` | nestjs-app/src/ingestion/pipeline/clamd.client.ts:53-68 | the handlers write command, frames and terminator, and a reader recovers the file |
| `Pipeline.Admission` | nestjs-app/src/ingestion/pipeline/validation.step.ts:21-31 | which files reach the upload, and which failures are retried, exactly |
| `Pipeline.Run` | nestjs-app/src/ingestion/pipeline/processing-pipeline.ts:15-22 | the loop over the mutable context computes the stages in order and stops at the first failure |
| `Routing.FirstMatchWins` | nestjs-app/src/ingestion/routing.service.ts:27-43 | the destination rule is the first that matches, both ways |
| `Routing.ResolvesTo` | nestjs-app/src/ingestion/routing.service.ts:27-33 | bucket and key for the first rule that matches and for none |
| `Routing.MatchesExactly` | nestjs-app/src/ingestion/routing.service.ts:35-43 | a rule matches if and only if each setting it has agrees |
| `Routing.ExtnameIs` | nestjs-app/src/ingestion/routing.service.ts:38 | the extension is what follows from the last dot on, unless the name has none after its first character |
| `Routing.StripLeadingIs` | nestjs-app/src/ingestion/routing.service.ts:31 | the relative part is the virtual path without its leading slashes, and all of them |
| `Routing.LowerIs` | nestjs-app/src/ingestion/routing.service.ts:38 | lower-casing moves upper-case letters and nothing else |

## Left out

- Services.TransfersService.Retry: as all service methods, one call without interference between its steps, so its re-read finds the row; the runs in which a purge intervenes are runs of `Protocol` (steps `RetryReset` and `Reread`).
- IdempotencyKey.PreImageIsInjective: numbers are printed in decimal; JavaScript's loss of precision above 2^53 and its exponent form from 1e21 on are not modelled.
- Services.IngestionService.AcceptUpload: a JSON null status counts as a status other than 1; protocol, session and size columns are not stored because nothing here reads them.
- Paths.ContainmentIsExact: `path.relative` is modelled on segments, and the working directory plays no part because only absolute paths get that far.
- Routing.FirstMatchWins: lower-casing is ASCII only.
- AES, GHASH, SHA-256, MD5 and base64: library code, taken as parameters or dropped.
- S3 multipart upload and request errors: the store is a map from bucket and key to bytes, and a failed call is a thrown attempt.
- Wall-clock time, cron intervals, backoff delays and Redis persistence.
- Kafka, webhook delivery, `transfer.failed` events and alerts: best effort and without effect on the stores modelled here; a failure of the publication is a failure before the dead letter.
- Tokens, roles, user management, configuration, metrics, tracing, health checks and the admin UI: no property that needs more than one line.
- Content-type lookup and the parser of the scanner's reply: single-branch facts; their results are parameters.
- Texts of error messages: abbreviated where the code interpolates counters or paths.
