# Verified model of the rental inventory engine

The program finds rental listings on several sources, turns each source observation into canonical inventory
(address, building, unit, listing, source links, events, evidence), and keeps that inventory honest: duplicates are
merged by people, admission decides what is ACTIVE, and absence from a source retires listings only under strict
evidence. Work flows through a leased job queue. This project models those services over in-memory tables and proves
what they promise, over every input, every run and every interleaving.

## How the model is built

* **Tables and rows.** `Schema.Database` holds the tables as mutable sequences; a row's id is its position and no row is
  deleted, so ids grow in insertion order. Each service object (`Normalizer.NormalizationService`,
  `MergeService.MergeDesk`, `Disappearance.DisappearanceService`, `Admission.AdmissionService`,
  `FactHistory.FactRecorder`, `JobQueue.LeasedQueue`, `Acquisition.AcquisitionRunner`, `Worker.NormalizeWorker`,
  `Gtfs.TransitStore`) updates them in place with the loops and branches of the source, and every method states its
  whole new state as a function of the old one. The properties are proved of those functions.
* **Transactions.** One service call is one atomic step; a raised error leaves the state as it was. Insert with
  `ON CONFLICT DO NOTHING` is insert-if-key-absent, `FOR UPDATE SKIP LOCKED` an atomic claim. The protocol theorems let
  a claim take any eligible rows, since locked ones are skipped; `Claim` itself, which meets no lock, takes the top
  ones.
* **Runs.** `Engine.Step` lists every service call in any order with any arguments, plus the environment: source runs
  opening and closing, observations arriving, geocoding, boundary verdicts, operator overrides and triage.
  `LeaseProtocol.Step` does the same for the queue, and `Worker.WorkStep` interleaves both.
* **Parameters.** Clocks, fresh lease tokens, adapter answers, parsed observations and lower-cased text are arbitrary
  arguments. Where SQL leaves an order open (ties, `LIMIT` without `ORDER BY`) the contracts hold for every admissible
  answer (`JobQueue.IsTopBatch`, `Admission.IsSelection`); the newest listing of a unit is the oldest row on a tie.
* **Arithmetic.** Times are whole seconds; the two-percent rent band is `50 * difference <= rent` in integers, and the
  breaker's quarter is integer division, which is what truncating `0.25 * n` gives.

Files: `Prelude` (options, results, WHERE and counting), `Schema`; `JobQueue`, `LeaseProtocol`, `Worker`,
`InterruptedWorker`, `DoubleProcessing` (queue and worker); `FactHistory`, `Normalization`, `Normalizer`,
`MergeService`, `Disappearance`, `Admission` (services); `Engine`, `Shapes` (state machine and what each step leaves
alone); `MergeForest`, `NestedUndo`, `UndoOrders`, `EventLog`, `EventLogRuns`, `Statements`, `KnownLinks`,
`Reprocessing`, `OverridePrecedence`, `Identity`, `ReversalIdentity`, `DuplicateProposals`, `Absence`, `RealAbsence`,
`OrderlyQueue`, `Lifecycles`, `Breaker`, `AdmissionSafety`, `Reachable` (properties of runs); `Acquisition`,
`AcquisitionRuns`, `AcquisitionGate`, `AcquisitionTrace`; `Excerpt`, `Gtfs`, `Fingerprint`; and the runs in which a
documented promise fails: `StaleReplay`, `Sightings` (how such runs are built), `LateCommitWitness`,
`ReversalWitnesses`, `AdmissionWitness`, `AbsenceWitness`, `AcquisitionRetries`, `ExcerptWitness`.

What each operation writes is stated a second time in the columns of the tables, without the functions that define it:
`QueueTables`, `WorkerReports`, `FieldUpdates`, `Attachments`, `Verdicts`, `Inactivation`, `AdmissionRules`,
`CaptureColumns`, `TransitRows`.

## Where the code is weaker than its documentation

The model follows the code; the members named here prove each point.

* **Stale replay.** A field holds whatever was processed last about it, however old (`Statements.FieldIsLastHeard`);
  only in order is that the newest statement (`Statements.NewestStatementWins`). When the event key of an older
  observation is already spent, it overwrites without an event: the log stays replayable exactly when no such silent
  change happens (`EventLog.NormalizeAgreesIff`), and a run from the empty database shows the loss
  (`StaleReplay.StaleReplayLosesAnEvent`).
* **Reversing merges out of order** loses owners exactly when a link was moved by both merges
  (`UndoOrders.ReversalsCommuteIff`); in any order each link ends on the source of the last reversed merge that had
  moved it (`UndoOrders.ReversedInAnyOrder`), so an order restores the owners exactly when that merge is each link's
  oldest mover (`UndoOrders.OrderRestoresIff`), and a reachable run shows one that does not
  (`ReversalWitnesses.WrongOwner`). A
  reversal keeps identity and freshness only under the three conditions of `ReversalIdentity.ReversalKeepsIdentityIff`,
  and a reachable run breaks each (`ReversalWitnesses.UnitGivenAway`, `ComesBackStale`, `BorrowedStamp`). Merging the
  same pair again after a reversal writes no second MERGED event, its key being spent
  (`EventLogRuns.RemergeWritesNoEvent`).
* **Stranded jobs.** A lease that expires on the last attempt leaves a job FAILED_RETRYABLE for ever; it is never
  claimed again and blocks its identity (`LeaseProtocol.RecoveredIsClaimableIff`, `SettledBlocksIdentity`).
* **`complete` looks at the token only**, neither at the status nor at the expiry, so an expired lease that nobody
  recovered still completes (`LeaseProtocol.ExpiredLeaseStillCompletes`, `ExpiredLeaseIsReachable`).
* **"Absent from a run"** is read off the link's newest processed observation, and **"two consecutive misses"** are any
  two gate-passed runs started after the link was last seen. So a link is removed although both runs stored a sighting
  that still waits to be processed (`AbsenceWitness.RemovedThoughSeen`), or when only the sweep's own run missed it and
  the next one closed too early (`RemovedByOneMiss`); it is marked missing when a run is swept after the next one was
  processed (`MissingThoughSeen`); and it goes from ACTIVE to REMOVED without ever being MISSING
  (`RemovedWithoutMissing`). A sweep is right about what its run saw exactly when no link it saw is stale
  (`RealAbsence.SeenLinksAreSparedIff`, `JudgedRightlyIff`). Absence is real under the discipline of
  `RealAbsence.Orderly`: an observation is not older than its run, it opens no link that a later run was already seen
  to sight, and a run is swept when every gate-passed run of its source is processed and no link it judges points beyond
  it (`RealAbsence.AbsenceIsReal`). The tables say whether a caller keeps to it: SUCCEEDED jobs stand for what was
  processed (`OrderlyQueue.OrderlyWorkIsOrderly`, `SweepAfterQueueIsReal`).
* **Inactivation is not reversible** by any service: REMOVED is final and nothing writes REAPPEARED
  (`Absence.RemovedForever`, `Absence.NeverReappears`, `Lifecycles.RunMoves`).
* **"At most once per source run"** holds within one call only: every call starts with no seen identities, so a retried
  partition or page stores a listing again under another key (`AcquisitionRetries.RetriedPartitionStoresTwice`,
  `RetriedPageStoresTwice`). `AcquisitionRuns.OncePerRunIff` says exactly when the promise survives a call.
* **Repeating a run key** skips checkpointed partitions as healthy. The gate looks at the open partitions only
  (`AcquisitionGate.GatePassesIff`), so a degraded run passes on its rerun or when it is resumed
  (`AcquisitionRetries.RerunForgetsDegradation`, `ResumeForgetsDegradation`).
* **The worker loop** commits a claim before it looks at the job's type, so a job of another type stays leased
  (`Worker.NormalizeWorker.Drain`, `InterruptedWorker.OtherTypeIsLeftLeased`), and commits its effects whatever
  `complete` answers (`DoubleProcessing.LostLeaseStillCommits`, with a run in `RecoveredWorkerCommits`). Right
  after the holder's commit that leaves evidence at most (`SecondCommitAddsEvidence`); with other work in between
  exactly when the observation is still harmless (`LateCommitIff`). Once a newer observation was processed it is a
  stale replay, and a lost lease sets an older rent without an event (`LateCommitWitness.LateCommitSetsOldRent`).
* **The excerpt** never searches the last 600 characters of the 2000 it strides over after a hit
  (`Excerpt.OccurrenceCoveredIff`, with a page whose excerpt loses a price in `ExcerptWitness.PriceLeftOut`).
* **An immediate second admission pass** can still decide something when the limit cut in
  (`AdmissionSafety.SecondPassIdleIff`, `AdmissionWitness.SecondPassDecides`).
* **Unit keys** are not stable under normalizing twice when they start with a designator
  (`Fingerprint.FingerprintTwiceIff`), and names that merely begin like one are confused with their rest
  (`Fingerprint.LabelsShareAKeyIff`, `KeysCollideIff`, `ConfusedNames`).

## Model

| member | source | states |
|---|---|---|
| JobQueue.LeasedQueue.EnqueueJob | src/rental_agent/jobs/queue.py:31-61 | a PENDING row is added and its id returned, unless a live row has the same identity; then nothing changes and no id is returned |
| JobQueue.LeasedQueue.SelectCandidates | src/rental_agent/jobs/queue.py:67-82 | the answer is a top batch: distinct eligible rows by priority then age, and no eligible row left out precedes a chosen one |
| JobQueue.LeasedQueue.Claim | src/rental_agent/jobs/queue.py:63-104 | exactly a top batch is leased: status, token, expiry, heartbeat, attempt number and a new attempt row for each, all other rows untouched |
| JobQueue.LeasedQueue.BeatHeart | src/rental_agent/jobs/queue.py:106-119 | the lease is extended exactly when the job runs under this token, and the answer says so |
| JobQueue.LeasedQueue.CompleteJob | src/rental_agent/jobs/queue.py:121-171 | a token holder's report settles or reschedules the job and closes its attempt row; exhausted retries become terminal; a foreign token changes nothing and a status that is no completion is an error |
| JobQueue.LeasedQueue.Recover | src/rental_agent/jobs/queue.py:173-192 | every expired running row, and no other, loses its lease and becomes FAILED_RETRYABLE; the count of them is returned |
| JobQueue.LeasedQueue.QueueDepth | src/rental_agent/jobs/queue.py:194-197 | the answer is the size of the set of PENDING and FAILED_RETRYABLE rows |
| QueueTables.EnqueuedRow | src/rental_agent/jobs/queue.py:43-61 | nothing happens when a row of the identity is neither FAILED_TERMINAL nor CANCELLED; otherwise one PENDING row with these columns is added |
| QueueTables.ClaimTakesTheDue | src/rental_agent/jobs/queue.py:67-82 | chosen rows are PENDING or FAILED_RETRYABLE, due, without a running lease and with an attempt left, by priority then age; who qualifies and is left out comes after all of them, and the batch is full |
| QueueTables.ClaimedRows | src/rental_agent/jobs/queue.py:83-104 | a claimed row is RUNNING under its token until now plus the seconds, one attempt further, with an open attempt row, its other columns unchanged |
| QueueTables.LeaseWindow | src/rental_agent/jobs/queue.py:173-182 | a claimed row is eligible at no time, and a recovery leaves it alone if and only if it comes no later than the end of the lease |
| QueueTables.LeaseIsExclusive | src/rental_agent/jobs/queue.py:63-192 | over every run in which nobody reports under the token and recoveries come before the lease ends, the job keeps running under its token and no further attempt is started |
| QueueTables.HeartbeatExtends | src/rental_agent/jobs/queue.py:106-119 | the expiry moves exactly for a RUNNING row under this token, and no other column or row changes |
| QueueTables.ReportTakenIff | src/rental_agent/jobs/queue.py:131-148 | a report is taken if and only if its status is a completion and the row carries the token; otherwise the queue stays |
| QueueTables.AcceptedReport | src/rental_agent/jobs/queue.py:149-163 | a retryable report with an attempt left reschedules the job for now plus the delay, eligible from then on and not before; without one it is FAILED_TERMINAL with its reason; any other status is stored as reported; the lease is gone |
| QueueTables.ReportClosesAttempt | src/rental_agent/jobs/queue.py:164-171 | besides that row only the attempt row of the current attempt changes: it gets the time, the stored status and the error code |
| QueueTables.RecoveredRow | src/rental_agent/jobs/queue.py:173-192 | exactly a RUNNING row whose lease ended before now becomes FAILED_RETRYABLE, due at once, with LEASE_EXPIRED and without a lease |
| QueueTables.OnlyRecoveryStrands | src/rental_agent/jobs/queue.py:149-191 | a step leaves a job retryable in name without attempts, and it was not so before, if and only if it is a recovery that takes the expired lease of its last attempt; an accepted report never does |
| LeaseProtocol.ClaimAllEffect | src/rental_agent/jobs/queue.py:83-104 | a batch changes exactly the chosen rows, each once and with its own token |
| LeaseProtocol.RunKeeps | src/rental_agent/jobs/queue.py:63-192 | over every interleaving: running iff holding a token, the token is the one on the newest attempt row, attempts are numbered 1..count within the allowance, tokens are distinct, one live row per identity |
| LeaseProtocol.TokenAcceptedAtMostOnce | src/rental_agent/jobs/queue.py:121-171 | over every run a token is accepted by `complete` at most once, and never after it was released |
| LeaseProtocol.RecoveredTokenIsDead | src/rental_agent/jobs/queue.py:173-192 | a worker whose lease was recovered is never accepted again, whatever happens afterwards |
| LeaseProtocol.SettledForever | src/rental_agent/jobs/queue.py:63-192 | finished jobs, and jobs retryable in name without attempts left, are frozen in every run |
| LeaseProtocol.SettledBlocksIdentity | src/rental_agent/db/models/ops.py:107-118 | a settled live or stranded job makes every later enqueue of its identity a no-op |
| LeaseProtocol.OneLiveRowPerIdentity | src/rental_agent/db/models/ops.py:107-118 | after every run at most one live row, hence at most one SUCCEEDED row, exists per identity |
| LeaseProtocol.RecoveredIsClaimableIff | src/rental_agent/jobs/queue.py:173-191 | a recovered job is claimable if and only if it has an attempt left, and stranded otherwise |
| LeaseProtocol.StrandedIsReachable | src/rental_agent/jobs/queue.py:67-78 | enqueue, claim and one expiry reach a stranded job |
| LeaseProtocol.ExpiredLeaseStillCompletes | src/rental_agent/jobs/queue.py:142-155 | the report of an expired but unrecovered lease is accepted and settles the job |
| LeaseProtocol.ExpiredLeaseIsReachable | src/rental_agent/jobs/queue.py:142-148 | enqueue and claim, a lease of 300 seconds, and a completion accepted at second 1000 |
| LeaseProtocol.AttemptBudgetIsConserved | src/rental_agent/jobs/queue.py:67-94 | over every run, attempts still allowed plus jobs claimed equal attempts allowed at the start plus attempts granted by accepted enqueues, which bounds all claims |
| LeaseProtocol.EnqueueTwice | src/rental_agent/jobs/queue.py:43-61 | enqueueing again while the first row is live changes nothing |
| LeaseProtocol.TopBatchIsPinned | src/rental_agent/jobs/queue.py:67-82 | any two admissible answers of the claim query have the same length and the same priority and age at every position |
| Worker.WorkRunsSteps | src/rental_agent/acquisition/runner.py:289-306 | over every interleaving the inventory goes through a run of its own state machine, a worker's second transaction being one processing |
| Worker.SucceededMeansProcessed | src/rental_agent/acquisition/runner.py:265-308 | over every interleaving of workers, recoveries and other services, a NORMALIZE job that became SUCCEEDED had its observation processed without an error by some worker |
| Worker.OneStepToDone | src/rental_agent/acquisition/runner.py:289-306 | the only transaction that makes a NORMALIZE job SUCCEEDED is a worker's second one on that job, with processing successful |
| WorkerReports.ProcessingErrors | src/rental_agent/canonical/normalization.py:102-118 | processing raises two errors only: no such observation, or several rows where one was expected |
| WorkerReports.FinishedJob | src/rental_agent/acquisition/runner.py:289-306 | the lease holder's finish: SUCCEEDED when processing raised nothing, otherwise the error's name with a retry 60 seconds later, or FAILED_TERMINAL on the last attempt |
| Worker.NormalizeWorker.ClaimNext | src/rental_agent/acquisition/runner.py:276-287 | the claim of one job is committed, and the job is handed on only if it is a NORMALIZE job |
| Worker.NormalizeWorker.FinishJob | src/rental_agent/acquisition/runner.py:289-306 | the observation is processed and the outcome reported in one transaction, whether or not the lease is still good |
| Worker.NormalizeWorker.Drain | src/rental_agent/acquisition/runner.py:265-308 | undisturbed, the loop is a legal run of queue and inventory, keeps the lease invariant, processes at most the limit, leaves no NORMALIZE job leased under its tokens, consists of one claim for 300 seconds and one finish under the same token per processed job, and stops early only when nothing is eligible or a job of another type was left leased |
| InterruptedWorker.InterruptedTurn | src/rental_agent/acquisition/runner.py:276-306 | whatever other workers, recoveries and services do between the two transactions, the second is possible and leaves the token spent and the lease invariant intact |
| InterruptedWorker.DrainSpendsItsTokens | src/rental_agent/acquisition/runner.py:274-308 | over any number of turns with arbitrary work in between, the lease invariant holds and no token the loop worked under is held by a job or can ever be accepted again |
| DoubleProcessing.LostLeaseStillCommits | src/rental_agent/acquisition/runner.py:289-306 | without the lease the report is refused and the queue unchanged, and the processing is committed all the same |
| DoubleProcessing.LateCommitIff | src/rental_agent/acquisition/runner.py:289-306 | whatever queue and inventory work lies between the holder's commit and that of a worker whose token is spent: the late report is refused, the queue stays, and evidence at most is added if and only if, at that moment, the observation cannot be processed, or is its link's newest, or link and listing were seen since and its content is the newest's or leaves no field anything to do; after a successful first processing it never opens or attaches anything |
| DoubleProcessing.SecondCommitAddsEvidence | src/rental_agent/acquisition/runner.py:289-306 | with nothing between the two commits the later one changes neither queue nor inventory but for evidence, and adds that exactly when reprocessing does |
| LateCommitWitness.LateCommitSetsOldRent | src/rental_agent/acquisition/runner.py:289-306 | a run from the empty queue and database in which a recovered worker commits after a newer observation was processed: refused, it sets the rent back from 300 to 200 and writes no event |
| DoubleProcessing.RecoveredWorkerCommits | src/rental_agent/acquisition/runner.py:276-306 | from the empty queue: claimed, expired, recovered and claimed again; the second worker is accepted, the first refused, and both have committed their processing |
| InterruptedWorker.OtherTypeIsLeftLeased | src/rental_agent/acquisition/runner.py:278-282 | with one waiting job of another type, every admissible claim leases it and the loop leaves it RUNNING |
| Schema.Database.EmitEvent | src/rental_agent/canonical/normalization.py:612-640 | an event is appended exactly when its key is new, and the answer says which |
| FactHistory.ActiveOverride | src/rental_agent/canonical/facts.py:102-112 | an override is found exactly when an ACTIVE one governs this field of this entity |
| FactHistory.FactRecorder.RecordFact | src/rental_agent/canonical/facts.py:35-100 | the assertion is always appended; without an active override it supersedes the current resolution and becomes the new one |
| FactHistory.FactRecorder.RaiseConflictWithOverride | src/rental_agent/canonical/facts.py:114-155 | one OPEN conflict issue is added unless the override does not ask for it or one is already open for the fact |
| FieldUpdates.RecordedColumns | src/rental_agent/canonical/facts.py:48-100 | evidence is appended; unless an ACTIVE override holds the fact its current resolution ends now and a new one cites the evidence, RESOLVED when asserted and UNKNOWN otherwise |
| FieldUpdates.ConflictColumns | src/rental_agent/canonical/facts.py:122-155 | a conflict issue is added exactly when the override asks for review and no OPEN conflict on the fact exists |
| FieldUpdates.EvidenceAppended | src/rental_agent/canonical/normalization.py:296-345 | an observation records exactly the values it states, in the order rent, layout, laundry, availability; absent and UNKNOWN values are not stated |
| FactHistory.RecordKeeps | src/rental_agent/canonical/facts.py:48-100 | recording keeps a single current resolution per fact, which for a never overridden fact cites the newest assertion, and deletes nothing |
| FactHistory.RaiseConflictKeeps | src/rental_agent/canonical/facts.py:122-155 | raising a conflict keeps at most one open conflict per fact, and one is open afterwards when asked for |
| FactHistory.RecordAllKeeps | src/rental_agent/canonical/facts.py:54-100 | after any sequence of recordings all of that still holds and the assertions grew by exactly the recorded ones |
| FactHistory.OverrideOutranksEvidence | src/rental_agent/canonical/facts.py:68-70 | under an active override any amount of evidence leaves every resolution of the fact as it was |
| Normalization.LatestSeen | src/rental_agent/canonical/normalization.py:208-216 | the chosen listing is one of the candidates and none of them was seen later |
| Normalization.StrongMatchIff | src/rental_agent/canonical/normalization.py:347-387 | a listing is the strong match if and only if layout and rent are stated and the listings with this building, this layout, exactly this rent, no unit, a lifecycle other than MERGED and INACTIVE and no link of this source are this one alone |
| Attachments.UpdatesLinkIff | src/rental_agent/canonical/normalization.py:107-135 | an observation updates a link if and only if it is VALID or PARTIAL and this link alone is of its source with its native id, or its URL when it has none |
| Attachments.AddressFor | src/rental_agent/canonical/normalization.py:151-181 | the address of the match key, or a placeholder named after the URL, is found when there is one and added otherwise; two addresses with the key are an error |
| Attachments.BuildingFor | src/rental_agent/canonical/normalization.py:183-190 | the building of an address is found when there is one and added otherwise; two are an error |
| Attachments.NewLinkColumns | src/rental_agent/canonical/normalization.py:238-258 | the one new link copies source, ids and times of its observation and is ACTIVE, and no link carried that identity before |
| Attachments.UnlabelledGoesTo | src/rental_agent/canonical/normalization.py:254-294 | without a unit label an observation of a new identity is attached if and only if exactly one listing satisfies all signals, and to that one; otherwise it opens a CANDIDATE listing with its values, its link and its CREATED event |
| Attachments.LabelledGoesTo | src/rental_agent/canonical/normalization.py:192-226 | with a unit label: two units of the label are an error, a new unit or one without an unmerged listing gets a listing opened in it, otherwise the unmerged listing of the unit seen last gets the link |
| Attachments.StrongLinkAgrees | src/rental_agent/canonical/normalization.py:347-387 | a new link marked STRONG_MULTI_FIELD sits on a listing without unit whose rent and layout equal the observation's and that had no link of its source |
| Attachments.OutcomeColumns | src/rental_agent/canonical/normalization.py:85-118 | the outcome names the link and the listing, whether they are new or matched, and the kinds of exactly the events written |
| Attachments.ChangesNothing | src/rental_agent/canonical/normalization.py:102-118 | an observation that is not stored, not VALID or PARTIAL, or cannot be located changes nothing |
| FieldUpdates.UpdateColumns | src/rental_agent/canonical/normalization.py:501-602 | nothing for the link's newest observation itself, stamps only for unchanged content; otherwise the stated evidence, each stated and different value that no operator holds with its event and before-value, the badge lost with a new laundry, and the time of change exactly when an event was written |
| FieldUpdates.BadgeNeedsValidation | src/rental_agent/validation/laundry.py:17-31 | the badge needs a confirmed in-unit washer and dryer, a resolved fact and validation passed, or not applicable with a human's confirmation; pending, warned and failed values never carry it |
| FieldUpdates.FieldConflict | src/rental_agent/canonical/normalization.py:521-537 | a conflict is raised exactly when an ACTIVE override holds the field at a value other than the stated, different one, asks for review, and none is open |
| Normalizer.NormalizationService.Process | src/rental_agent/canonical/normalization.py:102-118 | the tables become what processing the observation defines, with its outcome, and on an error nothing changes |
| Normalizer.NormalizationService.FindOrCreateBuilding | src/rental_agent/canonical/normalization.py:145-190 | address and building are found or created; two rows with one key are an error |
| Normalizer.NormalizationService.Create | src/rental_agent/canonical/normalization.py:139-294 | the identity hierarchy decides between attaching to a listing and opening one |
| Normalizer.NormalizationService.InUnit | src/rental_agent/canonical/normalization.py:199-227 | a known unit's live listing is attached to; otherwise a listing is opened in the found or new unit |
| Normalizer.NormalizationService.WithoutUnit | src/rental_agent/canonical/normalization.py:229-244 | the one strong match is attached to; otherwise a listing without unit is opened |
| Normalizer.NormalizationService.InsertNew | src/rental_agent/canonical/normalization.py:244-294 | listing, first link, CREATED event, evidence and duplicate proposals are added together |
| Normalizer.NormalizationService.FindStrongMatch | src/rental_agent/canonical/normalization.py:347-387 | the search answers a listing if and only if it is the only one satisfying every signal, and none under any ambiguity |
| Normalizer.NormalizationService.AttachCrossSourceLink | src/rental_agent/canonical/normalization.py:389-422 | one link is added and the listing's freshness is raised to the observation's time if later |
| Normalizer.NormalizationService.RecordAll | src/rental_agent/canonical/normalization.py:296-345 | evidence is recorded for exactly the facts the observation states, in order |
| Normalizer.NormalizationService.GenerateCandidates | src/rental_agent/canonical/normalization.py:424-487 | the loop proposes each similar live listing of the building once, lower id first, with a review issue per new pair |
| DuplicateProposals.ProposesExactlySimilar | src/rental_agent/canonical/normalization.py:424-469 | a new listing with stated layout and rent is paired with exactly the other unmerged listings of its building that have its layout and a rent within two percent; pairs known before stay known |
| DuplicateProposals.ProposalColumns | src/rental_agent/canonical/normalization.py:424-489 | every new candidate is PENDING, lower id first, of the listing and an unmerged one of its building with its layout and a rent within two percent, with the rents' difference and one OPEN issue; every such listing is paired unless the layout is UNKNOWN or CONFLICTING |
| DuplicateProposals.OpeningProposes | src/rental_agent/canonical/normalization.py:287-288 | a listing that processing opens is compared so with every other one |
| DuplicateProposals.NoPairTwice | src/rental_agent/canonical/normalization.py:455-472 | in every run of all services no pair of listings is proposed twice |
| Normalizer.NormalizationService.TouchFreshness | src/rental_agent/canonical/normalization.py:604-610 | the link advances only to an observation not older than it, the listing's freshness never goes back |
| Normalizer.NormalizationService.OverrideBlocks | src/rental_agent/canonical/normalization.py:521-535 | an active override blocks the field, and a differing value raises at most one open conflict |
| Normalizer.NormalizationService.UpdateField | src/rental_agent/canonical/normalization.py:538-588 | a stated, differing, unblocked value is evented with its before-value and assigned; otherwise the field stays |
| Normalizer.NormalizationService.Update | src/rental_agent/canonical/normalization.py:491-602 | the newest observation again changes nothing; equal content only touches freshness; otherwise evidence is recorded and the three fields are applied in order |
| Engine.NormalizedByCase | src/rental_agent/canonical/normalization.py:102-294 | every run of `process_observation` is one of: nothing, attach to an unmerged listing, open a listing in found or grown places, update the one matching link |
| Engine.ApplyKeepsKeys | src/rental_agent/db/models/canonical.py:174-244 | every step of every service keeps all foreign keys |
| Shapes.UpdateShape | src/rental_agent/canonical/normalization.py:491-602 | an update touches one link, one listing's mutable fields, events and evidence, never lifecycle, layout, building or overrides |
| Shapes.AddShape | src/rental_agent/canonical/normalization.py:244-294 | opening a listing adds exactly one listing, one link and one CREATED event, and only appends issues and candidates |
| Shapes.DisappearanceShape | src/rental_agent/canonical/disappearance.py:65-231 | a disappearance run rewrites link statuses and turns ACTIVE or CANDIDATE listings INACTIVE, nothing else |
| Shapes.AdmissionShape | src/rental_agent/canonical/admission.py:61-134 | admission rewrites only the lifecycle, only of the chosen rows, only to ACTIVE or EXCLUDED |
| MergeService.MergeDesk.Merge | src/rental_agent/canonical/merge_service.py:48-123 | all links of the source move to the target, their ids are remembered, source becomes MERGED, target takes the later freshness; each refusal has its error and no effect |
| MergeService.MergeDesk.Reverse | src/rental_agent/canonical/merge_service.py:125-162 | the remembered links return, the source goes to review, the merge is marked reversed; not twice and only by a human |
| MergeService.MergeDesk.ResolveCandidateIssues | src/rental_agent/canonical/merge_service.py:232-247 | exactly the open issues of this candidate are resolved |
| MergeService.MergeDesk.ResolveCandidate | src/rental_agent/canonical/merge_service.py:166-208 | a human verdict merges into the chosen survivor of the pair or marks it distinct, and a failed merge leaves everything as it was |
| Verdicts.MergeRefused | src/rental_agent/canonical/merge_service.py:58-74 | a merge is refused, with its error, for a manual reason by nobody human, for a listing with itself, for unknown and for merged listings, in this order |
| Verdicts.MergeColumns | src/rental_agent/canonical/merge_service.py:76-123 | all links of the source and no other go to the target and are remembered, the source is MERGED, the target takes the later stamp, one MERGED event per pair |
| Verdicts.ReverseRefused | src/rental_agent/canonical/merge_service.py:125-138 | a reversal is refused, with its error, without a human, for an unknown merge and for a reversed one |
| Verdicts.ReverseColumns | src/rental_agent/canonical/merge_service.py:138-162 | exactly the remembered links return, the source goes to review, the merge is marked, everything else stays |
| Verdicts.VerdictRefused | src/rental_agent/canonical/merge_service.py:166-195 | a verdict is refused, with its error, without a human, for an unknown or settled candidate, for a survivor outside the pair, and for a duplicate with a merged listing |
| Verdicts.DuplicateVerdict | src/rental_agent/canonical/merge_service.py:183-205 | the listing the verdict names, or the first of the pair, keeps its lifecycle; the other is MERGED; every link of the pair is on the kept one; the candidate is CONFIRMED_DUPLICATE and its open issues RESOLVED |
| Verdicts.DistinctVerdict | src/rental_agent/canonical/merge_service.py:183-210 | the candidate is CONFIRMED_DISTINCT and its open issues RESOLVED, and nothing else changes |
| MergeForest.RunKeepsForest | src/rental_agent/canonical/merge_service.py:61-151 | in every run of all services a listing is MERGED iff it is the source of exactly one unreversed merge, unreversed merges form a forest, and no link hangs on a MERGED listing |
| MergeForest.StepKeepsForest | src/rental_agent/canonical/normalization.py:208-218 | no single step of any service breaks that, normalization attaching to unmerged listings only |
| MergeForest.NoMergeCycle | src/rental_agent/canonical/merge_service.py:61-101 | a chain of unreversed merges from a listing to itself is empty |
| MergeForest.SurvivorExistsUniquely | src/rental_agent/canonical/merge_service.py:61-101 | following unreversed merges from any listing ends at an unmerged one, the only one reachable |
| MergeForest.MergeMovesRoot | src/rental_agent/canonical/merge_service.py:67-101 | a merge redirects exactly the listings whose survivor was its source |
| MergeForest.LinksFollowSurvivors | src/rental_agent/canonical/merge_service.py:80-84 | without reversals every link points at the survivor of the listing it was attached to |
| NestedUndo.NestedUndoRestoresOwners | src/rental_agent/canonical/merge_service.py:72-151 | any nesting of merges and merging verdicts reversed newest first, with other services, distinct verdicts and refused requests in between, restores every old link's owner, and links created in between stay where they were created |
| UndoOrders.ReversalsCommuteIff | src/rental_agent/canonical/merge_service.py:140-146 | two reversals commute if and only if no link was moved by both merges |
| UndoOrders.ReversedInAnyOrder | src/rental_agent/canonical/merge_service.py:138-151 | after reversing any list of merges in any order, each link is on the source of the last one that had moved it |
| UndoOrders.OrdersAgreeIff | src/rental_agent/canonical/merge_service.py:140-146 | two orders end with the same owners if and only if, for every link, their last movers had retired the same listing |
| UndoOrders.OrderRestoresIff | src/rental_agent/canonical/merge_service.py:138-151 | after any run without reversals, reversing a list of merges gives the links the owners they had at its start if and only if each link's last listed mover is the oldest merge of the run that moved it |
| UndoOrders.ReverseAllIsARun | src/rental_agent/canonical/merge_service.py:125-162 | that list of reversals is a run of the service |
| ReversalWitnesses.WrongOwner | src/rental_agent/canonical/merge_service.py:72-79 | from the empty database: three listings, merges 0 into 1 and 1 into 2, both reversed oldest first, and the link of 0 is left on 1 with no merge standing |
| EventLog.NormalizeAgreesIff | src/rental_agent/canonical/normalization.py:538-640 | after processing an observation, replaying the log still gives the current fields if and only if no field changed under a spent event key |
| EventLogRuns.StepKeepsLog | src/rental_agent/canonical/normalization.py:491-640 | merges, reversals, admission, disappearance and in-order observations keep log and fields in agreement |
| EventLogRuns.RunKeepsLog | src/rental_agent/canonical/normalization.py:491-640 | over every run with observations in order per link, folding a listing's events from its creation values gives its current fields and finds every before-value in place |
| EventLogRuns.EventsOnlyGrow | src/rental_agent/canonical/normalization.py:612-640 | over every run of all services the event log is append-only |
| EventLogRuns.RemergeWritesNoEvent | src/rental_agent/canonical/merge_service.py:103-108 | once a pair was merged, merging it again after any run writes no second event |
| StaleReplay.StaleReplayLosesAnEvent | src/rental_agent/canonical/normalization.py:624-640 | a run from the empty database in which processing three observations and then the second again sets the older rent without an event |
| Statements.FieldIsLastHeard | src/rental_agent/canonical/normalization.py:540-600 | in every run of all services a field holds the last statement processed about it that changed content and no override blocked, its creation value at first, however old the statement is |
| Statements.NewestStatementWins | src/rental_agent/canonical/normalization.py:540-610 | when no statement about it is older than what the listing was last seen by, a field equals the newest statement that no override blocked |
| KnownLinks.RunKeepsLink | src/rental_agent/canonical/normalization.py:122-135 | in every run an observation that has a link of its identity keeps one |
| Reprocessing.OnlyEvidenceIff | src/rental_agent/canonical/normalization.py:501-566 | from any state, processing an observation adds evidence at most if and only if it is harmless there, and changes nothing if and only if it moreover has no evidence to record |
| Reprocessing.ProcessingTwiceIsOnce | src/rental_agent/canonical/normalization.py:501-515 | a second pass over the same observation changes no issue, override, listing, link or event; it adds evidence if and only if the observation is older than its known link, differs in content from its newest and states some fact |
| OverridePrecedence.RunKeepsFacts | src/rental_agent/canonical/facts.py:54-155 | over every run of all services: one current resolution per fact, newest evidence unless overridden, one open conflict per fact, one active override per field, nothing deleted |
| OverridePrecedence.OverrideOutranksEveryRun | src/rental_agent/canonical/normalization.py:517-588 | while an override stands, no run of any services changes its field or any resolution of its fact |
| Identity.NormalizeKeepsIdentity | src/rental_agent/canonical/normalization.py:122-227 | processing an observation keeps one address per key, building per address, unit per key, link per native id, live listing per unit, and exact freshness |
| Identity.MergeKeepsIdentity | src/rental_agent/canonical/merge_service.py:101-102 | a merge keeps identity uniqueness and exact freshness |
| Identity.RunKeepsIdentity | src/rental_agent/canonical/normalization.py:254-272 | in every run without reversals identity stays unique and each unmerged listing's last_seen_at is the maximum over its links |
| ReversalIdentity.ReversalKeepsIdentityIff | src/rental_agent/canonical/merge_service.py:140-151 | a reversal keeps them if and only if the unit was not given away, the returning links carry the source's own stamp, and no live listing owes its stamp to them alone |
| ReversalWitnesses.UnitGivenAway | src/rental_agent/canonical/merge_service.py:147-150 | a sound run from the empty database after which reversing gives one unit two live listings |
| ReversalWitnesses.ComesBackStale | src/rental_agent/canonical/merge_service.py:140-146 | a sound run after which the restored listing is older than the link it gets back |
| ReversalWitnesses.BorrowedStamp | src/rental_agent/canonical/merge_service.py:102 | a sound run after which the survivor keeps a stamp no link of its own carries |
| Disappearance.DisappearanceService.Process | src/rental_agent/canonical/disappearance.py:65-131 | a run without a passed gate is refused untouched; otherwise links are swept, then unsupported listings decided, and the counters report exactly that |
| Disappearance.DisappearanceService.SweepOne | src/rental_agent/canonical/disappearance.py:100-120 | one link gets its next status, with a MISSING_STARTED event exactly when it newly goes missing |
| Disappearance.DisappearanceService.SweepLinks | src/rental_agent/canonical/disappearance.py:88-120 | every link of the source gets the status decided by the state before the run, and the two counters count the changes |
| Disappearance.DisappearanceService.FindEligible | src/rental_agent/canonical/disappearance.py:146-186 | exactly the ACTIVE and CANDIDATE listings without a supporting link and without a lifecycle override, in order |
| Disappearance.DisappearanceService.InactivateUnsupportedListings | src/rental_agent/canonical/disappearance.py:144-231 | all eligible listings are inactivated, or above the cap none is and one issue records the proposal |
| Absence.RemovedExactlyOnEvidence | src/rental_agent/canonical/disappearance.py:76-111 | a step removes a link if and only if it is the sweep of a gate-passed run of its source, the link's newest processed observation is not of this run, two gate-passed runs started since it was last seen, and 36 hours passed |
| RealAbsence.RunKeepsWitnessed | src/rental_agent/canonical/normalization.py:604-610 | in every run of all services each link's last_seen_at is the time of a stored, usable observation that matches it |
| RealAbsence.SeenLinksAreSparedIff | src/rental_agent/canonical/disappearance.py:76-104 | in any state, a sweep leaves every link of its source that its run saw ACTIVE if and only if each of them points at an observation of the run |
| RealAbsence.JudgedRightlyIff | src/rental_agent/canonical/disappearance.py:76-120 | a sweep leaves a link ACTIVE exactly when its run saw it, if and only if a seen link points at the run |
| RealAbsence.RunKeepsTracked | src/rental_agent/canonical/normalization.py:604-610 | over every orderly run a link has been seen since the start of each run one of whose processed observations matches it |
| RealAbsence.SweepIsReal | src/rental_agent/canonical/disappearance.py:88-142 | in an orderly history a sweep makes every link of its source ACTIVE, MISSING or REMOVED by what its runs really saw |
| RealAbsence.AbsenceIsReal | src/rental_agent/canonical/disappearance.py:8-10 | over every orderly run of all services, a link becomes REMOVED exactly when a sweep's run missed it, at least two gate-passed runs since its last sighting, that one among them, missed it, and 36 hours passed; MISSING exactly when the run missed it without that; and ACTIVE again exactly when the run saw it |
| OrderlyQueue.OrderlyWorkIsOrderly | src/rental_agent/acquisition/runner.py:265-308 | work of workers, recoveries and services that keeps the discipline as read off the job, link and observation tables is an orderly run of the inventory, and every SUCCEEDED job's usable observation was processed |
| OrderlyQueue.SweepAfterQueueIsReal | src/rental_agent/canonical/disappearance.py:88-142 | from the empty queue and database, after any such work: when the jobs of the source's gate-passed runs have SUCCEEDED and no judged link points beyond the run, the sweep makes each link ACTIVE, MISSING or REMOVED by what its runs really saw |
| AbsenceWitness.RemovedThoughSeen | src/rental_agent/canonical/disappearance.py:76-111 | a run from the empty database that removes a link both counted runs stored a sighting of |
| AbsenceWitness.RemovedByOneMiss | src/rental_agent/canonical/disappearance.py:133-142 | a run from the empty database that removes a link only the swept run missed, because the next one, which saw it, had closed |
| AbsenceWitness.MissingThoughSeen | src/rental_agent/canonical/disappearance.py:76-116 | a run from the empty database that marks a link missing its run saw, everything being processed, because the next run was processed before the sweep |
| AbsenceWitness.RemovedWithoutMissing | src/rental_agent/canonical/disappearance.py:105-111 | an orderly run from the empty database with a single disappearance call, which takes an ACTIVE link straight to REMOVED |
| Inactivation.LinkAfterCall | src/rental_agent/canonical/disappearance.py:76-120 | a link of the source that is ACTIVE or MISSING becomes ACTIVE, MISSING or REMOVED by its newest observation, two gate-passed runs since it was last seen and 36 hours; every other link stays |
| Inactivation.InactivatedIff | src/rental_agent/canonical/disappearance.py:144-231 | a call inactivates a listing if and only if the gate is passed, it is ACTIVE or CANDIDATE, all its links ended REMOVED or SUPERSEDED, no ACTIVE lifecycle override exists, and no more than the cap are in that state |
| Inactivation.InactiveHasNoSupport | src/rental_agent/canonical/disappearance.py:146-160 | any step that makes a listing INACTIVE leaves it without an ACTIVE, MISSING or CONFLICTING link |
| Inactivation.MissingSpares | src/rental_agent/canonical/disappearance.py:112-120 | a call after which a link is MISSING inactivates no listing holding it |
| Inactivation.BreakerColumns | src/rental_agent/canonical/disappearance.py:191-219 | above the cap no listing changes and one OPEN issue on the first of them records their number and the cap; otherwise no issue is written |
| Inactivation.EventsOfCall | src/rental_agent/canonical/disappearance.py:112-120 | new events are MISSING_STARTED of this run for links gone from ACTIVE to MISSING and INACTIVATED for inactivated listings, and each of those has its event |
| Inactivation.ReportColumns | src/rental_agent/canonical/disappearance.py:121-131 | the report says how many links went missing, were removed, and how many listings would go and went |
| Absence.RemovedForever | src/rental_agent/canonical/disappearance.py:88-99 | a REMOVED link stays REMOVED in every run |
| Absence.AllEligibleOrNone | src/rental_agent/canonical/disappearance.py:187-231 | a run inactivates a listing exactly when it is eligible after the sweep and the breaker did not trip |
| Absence.InactiveOnlyUnsupported | src/rental_agent/canonical/disappearance.py:144-186 | a listing becomes INACTIVE only in a gate-passed run, from ACTIVE or CANDIDATE, with no supporting link and no lifecycle override |
| Absence.SearchIndexNeverProvesAbsence | src/rental_agent/acquisition/runner.py:152-157 | a history whose runs are all search-discovered never marks a link and never inactivates a listing |
| Absence.NeverReappears | src/rental_agent/canonical/disappearance.py:100-104 | no run of any services writes REAPPEARED |
| Lifecycles.StepMoves | src/rental_agent/canonical/disappearance.py:13-14 | each step moves a listing along the automaton: merging retires, reversing returns to review, admission decides candidates, absence inactivates, nothing else changes a lifecycle |
| Lifecycles.RunMoves | src/rental_agent/canonical/disappearance.py:222 | over every run nothing leaves INACTIVE, EXCLUDED or REVIEW_REQUIRED except into MERGED and back to review |
| Breaker.CallCostsAtMostTheCap | src/rental_agent/canonical/disappearance.py:191-231 | one call takes at most min(50, max(1, active/4)) from the ACTIVE count it found |
| Breaker.StepCostsAtMost | src/rental_agent/canonical/disappearance.py:187-231 | besides that only a merge that is carried out takes an ACTIVE listing, and only one |
| Breaker.RunCostsAtMost | src/rental_agent/canonical/disappearance.py:196-219 | over every run, k calls and m merges carried out leave at least a0 - 50k - m ACTIVE listings |
| Breaker.RunKeepsAFraction | src/rental_agent/canonical/disappearance.py:45-46 | in runs that carry out no merge, refused ones and distinct verdicts allowed, while each call finds four, 4^k * a_end >= 3^k * a_0 |
| AdmissionRules.DecisionColumns | src/rental_agent/canonical/admission.py:93-134 | out of scope by layout or place excludes; an admissible layout in scope, placed precisely, with an unquestioned identity and an ACTIVE link activates; otherwise the listing is held for the first of these that is missing |
| AdmissionRules.PassColumns | src/rental_agent/canonical/admission.py:61-91 | of the chosen CANDIDATE or REAPPEARED listings those that are out become EXCLUDED, those that are in ACTIVE, all others stay; below the limit every waiting listing is chosen |
| AdmissionRules.SummaryColumns | src/rental_agent/canonical/admission.py:74-91 | the counters are the numbers of chosen listings that are out, in, and held, reason by reason |
| AdmissionRules.PassEvents | src/rental_agent/canonical/admission.py:136-150 | a pass writes one event per decided listing, unless it has it, and no other |
| AdmissionRules.RelocationColumns | src/rental_agent/enrichment/location/boundaries.py:161-177 | geocoding fills in unlocated addresses only and a boundary verdict located, unresolved ones only |
| Admission.AdmissionService.SelectPending | src/rental_agent/canonical/admission.py:63-73 | distinct CANDIDATE or REAPPEARED listings, all of them unless the limit cuts in |
| Admission.AdmissionService.Evaluate | src/rental_agent/canonical/admission.py:93-134 | the listing is excluded, activated or held by the first rule that applies, with its event |
| Admission.AdmissionService.EvaluateCandidates | src/rental_agent/canonical/admission.py:61-91 | every selected listing is evaluated in turn and the summary tallies exactly those decisions |
| AdmissionSafety.BatchOutcome | src/rental_agent/canonical/admission.py:74-83 | a batch gives each chosen listing the outcome decided before the batch: evaluating one listing never affects another |
| AdmissionSafety.RunKeepsSound | src/rental_agent/canonical/admission.py:97-134 | in every run of all services an ACTIVE listing has an admissible layout, lies in scope and is placed precisely |
| AdmissionSafety.RelocateKeepsSound | src/rental_agent/enrichment/location/boundaries.py:161-177 | boundary verdicts only leave UNRESOLVED and geocoding only reaches unlocated addresses, so neither can spoil an ACTIVE listing |
| AdmissionSafety.CountersPartition | src/rental_agent/canonical/admission.py:75-83 | evaluated is activated plus excluded plus held, the reasons add up to held, and activated and excluded are the changes of the lifecycle counts |
| AdmissionSafety.SecondPassIdleIff | src/rental_agent/canonical/admission.py:61-83 | an immediate second pass changes nothing for every answer of its query if and only if each waiting listing the first left out would be held (or the limit is zero), in particular whenever the limit did not cut in |
| AdmissionWitness.SecondPassDecides | src/rental_agent/canonical/admission.py:61-73 | a run from the empty database in which, under a limit of one, an immediate second pass excludes another listing |
| Acquisition.AcquisitionRunner.InsertIdempotent | src/rental_agent/db/repositories/observations.py:20-54 | an observation is stored exactly when its key is new |
| Acquisition.AcquisitionRunner.CaptureItem | src/rental_agent/acquisition/runner.py:186-220 | a seen identity is skipped; a new one is marked seen, fetched, stored if new and enqueued; a failing fetch stops the page after marking |
| Acquisition.AcquisitionRunner.RunPartition | src/rental_agent/acquisition/runner.py:160-237 | a checkpointed partition is skipped as not degraded; a finished page is checkpointed; a failure keeps what was stored and writes no checkpoint |
| Acquisition.AcquisitionRunner.OpenSourceRun | src/rental_agent/acquisition/runner.py:69-100 | the source run of an earlier call with this key is joined, otherwise one is opened |
| Acquisition.AcquisitionRunner.RunPartitions | src/rental_agent/acquisition/runner.py:120-143 | every partition is tried in order with one shared set of identities, failures being counted |
| Acquisition.AcquisitionRunner.RunSource | src/rental_agent/acquisition/runner.py:59-158 | stored rows, jobs, checkpoints, report and the run row's status and gate are exactly those of the sweep; an unregistered source is an error without effect |
| CaptureColumns.ItemColumns | src/rental_agent/acquisition/runner.py:186-220 | an item seen in the call is counted and skipped; any other is marked, and when fetched it is stored unless a row with its source, native id or URL, content and time exists |
| CaptureColumns.JobColumns | src/rental_agent/acquisition/runner.py:205-218 | a stored row gets one PENDING NORMALIZE job of priority 10 with three attempts, due at once |
| CaptureColumns.NewSightingIsStored | src/rental_agent/db/models/sources.py:103-118 | what is fetched at a time of which the source has no row of that identity is always stored and gets its job, whatever its content |
| CaptureColumns.StoredColumns | src/rental_agent/acquisition/runner.py:186-220 | a call stores an item if and only if it attempts it and no row with its key exists when its turn comes |
| CaptureColumns.PartitionColumns | src/rental_agent/acquisition/runner.py:168-240 | a checkpointed partition is skipped, one that cannot be listed stores nothing, and only a page taken to its end is checkpointed |
| CaptureColumns.StatusColumns | src/rental_agent/acquisition/runner.py:144-157 | BLOCKED, FAILED, DEGRADED or HEALTHY by preflight and partitions, and the gate only for HEALTHY calls that are not search-discovered |
| AcquisitionRuns.EachIdentityOncePerCall | src/rental_agent/acquisition/runner.py:118-143 | in one call, whatever fails, the stored rows are distinct identities in page order, each with its own job, completed plus failed is planned, and discovered is at least new plus skipped, with equality iff no page was left halfway |
| AcquisitionRuns.SweepStores | src/rental_agent/acquisition/runner.py:120-143 | from any store a call stores exactly the attempted items with a new key: first occurrences, up to the first failing fetch of each page, of partitions without a checkpoint |
| AcquisitionRuns.StoredByCallIff | src/rental_agent/acquisition/runner.py:186-206 | so an identity is stored by a call, a repeated one included, if and only if one of its attempted items has a key not yet known |
| AcquisitionRuns.OncePerRunIff | src/rental_agent/acquisition/runner.py:116-118 | the promised at most once per source run survives a call if and only if no attempted item is stored under a new key once the run has an observation of the identity extracted for it |
| AcquisitionRuns.FaithfulOncePerRunIff | src/rental_agent/acquisition/runner.py:116-118 | for adapters whose extracted observation carries its item's identity, it survives if and only if every attempted item whose identity the run had before the call is already known under its exact key |
| AcquisitionRetries.RetriedPartitionStoresTwice | src/rental_agent/acquisition/runner.py:82-100 | any listing of a finished partition that a retried partition lists under another key is stored twice in its source run |
| AcquisitionRetries.RetriedPageStoresTwice | src/rental_agent/acquisition/runner.py:223-237 | a page that stopped halfway is taken from its start again and stores again what it had stored |
| AcquisitionRuns.FirstOccurrencesAreDedup | src/rental_agent/acquisition/runner.py:186-191 | the items a page loop captures are those with no earlier item of the same identity |
| AcquisitionRuns.PageStores | src/rental_agent/acquisition/runner.py:182-220 | a page stores exactly its attempted items with a new key and is finished if and only if every item new to the call can be fetched |
| AcquisitionGate.CompleteCallIsDedup | src/rental_agent/acquisition/runner.py:116-158 | a call without failures, fresh or resumed, stores the order-preserving dedup of the open partitions' pages except known keys, and counters and jobs agree with it |
| AcquisitionGate.FreshRunIsDedup | src/rental_agent/acquisition/runner.py:116-158 | a fresh run without failures stores the whole dedup of all pages concatenated if and only if its keys are new |
| AcquisitionGate.OpenIff | src/rental_agent/acquisition/runner.py:171-179 | a planned partition is open if and only if it has no checkpoint and is the first with its key |
| AcquisitionGate.GatePassesIff | src/rental_agent/acquisition/runner.py:145-179 | from any store a call passes the gate if and only if preflight is clean, the source is not search-discovered, and every open partition is listed untruncated with every first occurrence fetched; what checkpointed partitions looked like plays no part |
| AcquisitionGate.FreshGateIff | src/rental_agent/acquisition/runner.py:145-157 | in a fresh run the open partitions are all the planned ones |
| AcquisitionGate.RerunPasses | src/rental_agent/acquisition/runner.py:178-179 | repeating a key after a call without failed partitions stores nothing, and its gate depends on preflight and the discovery method alone |
| AcquisitionRetries.ResumeForgetsDegradation | src/rental_agent/acquisition/runner.py:178-179 | a truncated page and a failed partition fail the gate, and resuming passes it |
| AcquisitionRetries.RerunForgetsDegradation | src/rental_agent/acquisition/runner.py:178-179 | one truncated page fails the gate once and passes it on the rerun |
| AcquisitionTrace.CallIsARun | src/rental_agent/acquisition/runner.py:59-158 | the inventory after a call is the inventory after opening the source run, storing the picked rows in order and closing with the verdict, so every run theorem applies to it |
| AcquisitionTrace.CallEnqueues | src/rental_agent/acquisition/runner.py:198-216 | the queue after a call is the queue after one accepted enqueue per stored row |
| AcquisitionTrace.CallKeepsSound | src/rental_agent/acquisition/runner.py:59-158 | so a call keeps every foreign key and the lease invariant |
| Excerpt.First | src/rental_agent/enrichment/listing_content/service.py:211-213 | the first occurrence at or after a position, or none when there is none |
| Excerpt.HitsAreSpaced | src/rental_agent/enrichment/listing_content/service.py:208-215 | a keyword has at most twenty hits, each an occurrence, at least 2000 characters apart |
| Excerpt.HitsReachEveryOccurrence | src/rental_agent/enrichment/listing_content/service.py:208-215 | until the hits run out, every occurrence lies in the 2000 characters from some hit |
| Excerpt.OccurrenceCoveredIff | src/rental_agent/enrichment/listing_content/service.py:211-215 | an occurrence is inside its keyword's windows if and only if it starts within 1400 characters of the hit before it or 600 of the next |
| ExcerptWitness.PriceLeftOut | src/rental_agent/enrichment/listing_content/service.py:203-233 | a page of 15000 characters with the price $9 on it, whose excerpt under the real cap holds nothing of that price |
| Excerpt.KeywordSpans | src/rental_agent/enrichment/listing_content/service.py:208-215 | the search loop collects one window around each hit |
| Excerpt.MergeSpans | src/rental_agent/enrichment/listing_content/service.py:218-224 | sorted windows become strictly separated ones that cover exactly the same characters |
| Excerpt.Assemble | src/rental_agent/enrichment/listing_content/service.py:225-232 | after the page head comes exactly as much of the windows' text, in order, as the cap leaves room for |
| Excerpt.RelevantExcerpt | src/rental_agent/enrichment/listing_content/service.py:203-233 | at most cap characters; a short text is returned whole, a text without hits is cut, any other is head plus merged windows joined and cut |
| Gtfs.TransitStore.IngestDataset | src/rental_agent/enrichment/transit/gtfs_loader.py:95-170 | routes and stops are inserted if absent, then parents linked, and the three counters count the changes |
| Gtfs.TransitStore.LinkParentStations | src/rental_agent/enrichment/transit/gtfs_loader.py:141-163 | each stop naming a stored parent gets it if it has none yet |
| TransitRows.RouteColumns | src/rental_agent/enrichment/transit/gtfs_loader.py:103-120 | a stored route stays, a new one copies the first line with its id, and the count is that of the new rows |
| TransitRows.StopColumns | src/rental_agent/enrichment/transit/gtfs_loader.py:121-163 | a stored stop stays but for a missing parent, a new one copies the first line with its id, and a stop without a parent gets the one named by the first of its lines that names a stored one |
| TransitRows.LinkedColumns | src/rental_agent/enrichment/transit/gtfs_loader.py:141-163 | the third count is that of the stops that have a parent now and had none before |
| Gtfs.InsertAllStores | src/rental_agent/enrichment/transit/gtfs_loader.py:103-139 | stored rows are never overwritten, and a key is stored exactly when it was before or the file has it |
| Gtfs.LinkParentsOnly | src/rental_agent/enrichment/transit/gtfs_loader.py:151-163 | linking changes nothing but an absent parent, and only of stops in the file |
| Gtfs.FileOrderNeverMatters | src/rental_agent/enrichment/transit/gtfs_loader.py:95-170 | with distinct ids every permutation of a file stores the same stops, parents and routes and reports the same counts |
| Gtfs.RepeatedIdsDependOnOrder | src/rental_agent/enrichment/transit/gtfs_loader.py:121-138 | with a repeated id the first line wins, so two orders store different rows |
| Gtfs.SecondIngestAddsNothing | src/rental_agent/enrichment/transit/gtfs_loader.py:95-170 | ingesting any file again inserts nothing, links nothing and changes nothing |
| Fingerprint.KeyIsFixedIff | src/rental_agent/canonical/normalization.py:58-62 | normalizing leaves a key alone if and only if it does not start with a designator |
| Fingerprint.FingerprintTwiceIff | src/rental_agent/canonical/normalization.py:58-62 | normalizing a unit label twice gives the same key if and only if the first key does not start with a designator, for any upper-casing that leaves its own results alone |
| Fingerprint.KeysCollideIff | src/rental_agent/canonical/normalization.py:58-62 | two keys are confused if and only if they agree without the designators they start with |
| Fingerprint.LabelsShareAKeyIff | src/rental_agent/canonical/normalization.py:58-62 | two unit labels share a key if and only if the same characters remain once blanks and punctuation are gone and each label has lost the designator it starts with |
| Fingerprint.SqueezeKeepsTheRest | src/rental_agent/canonical/normalization.py:62 | blanks, dashes, number signs and periods are dropped, every other character is kept as often as it stands |
| Fingerprint.DoubledDesignator | src/rental_agent/canonical/normalization.py:61 | under a stable upper-casing NONO becomes NO, and NO becomes the empty key |
| Fingerprint.ConfusedNames | src/rental_agent/canonical/normalization.py:61 | NOVA and VA share a key |
| Fingerprint.EmptyLabels | src/rental_agent/canonical/normalization.py:61-62 | APT and # share the empty key |
| Reachable.EveryReachableStateIsSound | src/rental_agent/canonical/normalization.py:102-118 | from the empty database every run is sound in all these ways at once: forest and links, facts, admission, and without reversals identity, and with ordered observations the event log |

## Left out

- Excerpt.RelevantExcerpt: keywords are searched in a lower-cased text that is an arbitrary argument, because Unicode lower-casing is not modelled.
- Fingerprint.FingerprintTwiceIff: upper-casing is an arbitrary map that is stable on its own results; the Unicode tables behind it are not part of this model.
- Address text normalization (`address_fingerprint`): a regular-expression rewrite; its result is taken as given.
- Row ids: random UUIDs are table positions, so the text order of a candidate pair becomes insertion order; in the transit tables the unique key stands for the row id.
- Concurrent transactions of the inventory services: each call is one step, so two first observations of one address racing for the same row are not modelled.
- Override rows: nothing in the modelled services creates them; an environment step adds and ends them, respecting the partial unique index, and does not assign the listing's field.
- Columns no modelled decision reads: audit log, descriptions, bedroom counts, evidence text, confidence, error details, per-run counts stored as JSON.
- Detail-page enrichment: it consults overrides under another field name and its event insert does not tolerate key conflicts.
- Media duplicate grouping, tier selection, badge rules beyond the one normalization derives, run create-or-join keys, scheduling, settings, migrations and all user interfaces: short branch tables or no property.
- Adapters, network, parsing of pages, files and zip archives, PostGIS: their results enter as arbitrary inputs.
- Errors raised by preflight or partition planning: they end the call before anything but the run row is written.
- Reading a GTFS zip: the parsed dataset is an arbitrary input.
